/**
 The compiler that confines a form's custom style sheet to one container. `san` stands for the
 sanitiser: any function that never lengthens its input.
 */
module ScopeCss {
  import opened JsText

  // ----- Text -----

  function IndexOf(s: string, c: char, i: nat): (r: int)
    ensures r == -1 || (i <= r < |s| && s[r] == c)
    ensures forall k :: i <= k < (if r == -1 then |s| else r) ==> s[k] != c
    decreases |s| - i
  {
    if i >= |s| then -1 else if s[i] == c then i else IndexOf(s, c, i + 1)
  }

  predicate StartsWith(s: string, p: string) {
    |p| <= |s| && s[..|p|] == p
  }

  function IndexOfClose(s: string, i: nat): (r: int)
    ensures r == -1 || i <= r < |s| - 1
    decreases |s| - i
  {
    if i + 1 >= |s| then -1 else if s[i] == '*' && s[i + 1] == '/' then i else IndexOfClose(s, i + 1)
  }

  /** Text between two positions; nothing when they cross. */
  function Slice(s: string, a: nat, b: int): (r: string)
    ensures |r| <= if a < |s| then |s| - a else 0
  {
    if a >= |s| || b <= a then "" else s[a..if b < |s| then b else |s|]
  }

  function Split(s: string): (r: seq<string>)
    ensures |r| > 0
  {
    var i := IndexOf(s, ',', 0);
    if i == -1 then [s] else [s[..i]] + Split(s[i + 1..])
  }

  function Join(parts: seq<string>): string {
    if parts == [] then ""
    else if |parts| == 1 then parts[0]
    else parts[0] + ", " + Join(parts[1..])
  }

  // ----- Selectors -----

  /** One selector under the scope, "" when it is blank. */
  function Prefixed(sel: string, scope: string): string {
    var s := Trim(sel);
    if s == "" then ""
    else if s == ":root" || s == "&" || s == scope then scope
    else if s[0] == '&' then scope + s[1..]
    else scope + " " + s
  }

  function PrefixAll(sels: seq<string>, scope: string): seq<string> {
    if sels == [] then []
    else
      var first := Prefixed(sels[0], scope);
      (if first == "" then [] else [first]) + PrefixAll(sels[1..], scope)
  }

  function PrefixSelectors(selectors: string, scope: string): string {
    Join(PrefixAll(Split(selectors), scope))
  }

  // ----- Rules -----

  /** Where the scan for the closing brace stops, with `depth` braces open at i. */
  function BlockEnd(s: string, i: nat, depth: nat): (r: nat)
    requires i <= |s|
    ensures i <= r <= |s|
    ensures depth > 0 && i < |s| ==> r > i
    decreases |s| - i
  {
    if i == |s| || depth == 0 then i
    else BlockEnd(s, i + 1, if s[i] == '{' then depth + 1 else if s[i] == '}' then depth - 1 else depth)
  }

  datatype Kind = PlainRule | VerbatimRule | GroupRule

  function KindOf(prelude: string): Kind {
    if !StartsWith(prelude, "@") then PlainRule
    else if StartsWith(prelude, "@keyframes") || StartsWith(prelude, "@font-face")
        || StartsWith(prelude, "@import") then
      VerbatimRule
    else if StartsWith(prelude, "@media") || StartsWith(prelude, "@supports") then GroupRule
    else PlainRule
  }

  ghost predicate NeverLengthens(san: string -> string) {
    forall s :: |san(s)| <= |s|
  }

  function PlainText(prelude: string, body: string, scope: string): string {
    var sel := PrefixSelectors(prelude, scope);
    var decl := Trim(body);
    if sel != "" && decl != "" then sel + " {\n  " + decl + "\n}\n" else ""
  }

  predicate CommentAt(s: string, i: nat) {
    i + 1 < |s| && s[i] == '/' && s[i + 1] == '*'
  }

  /** The output for what the cursor has still before it. */
  ghost function Rules(s: string, i: nat, scope: string, san: string -> string): string
    requires i <= |s| && NeverLengthens(san)
    decreases |s|, 0, |s| - i
  {
    if i == |s| then ""
    else if CommentAt(s, i) then
      var close := IndexOfClose(s, i + 2);
      if close == -1 then "" else Rules(s, close + 2, scope, san)
    else
      var open := IndexOf(s, '{', i);
      if open == -1 then ""
      else
        var end := BlockEnd(s, open + 1, 1);
        RuleText(Trim(s[i..open]), Slice(s, open + 1, end - 1), scope, san, |s|) + Rules(s, end, scope, san)
  }

  ghost function RuleText(prelude: string, block: string, scope: string, san: string -> string, bound: nat): string
    requires |block| < bound && NeverLengthens(san)
    decreases bound, 0, 0
  {
    match KindOf(prelude)
    case VerbatimRule => prelude + " { " + block + " }\n"
    case GroupRule => prelude + " {\n" + Scoped(block, scope, san) + "\n}\n"
    case PlainRule => PlainText(prelude, block, scope)
  }

  ghost function Scoped(raw: string, scopeSelector: string, san: string -> string): string
    requires NeverLengthens(san)
    decreases |raw|, 1, 0
  {
    if Trim(raw) == "" then ""
    else
      var clean := Trim(san(raw));
      TrimShortens(san(raw));
      Rules(clean, 0, Trim(scopeSelector), san)
  }

  lemma TrimShortens(s: string)
    ensures |Trim(s)| <= |s|
  {
    var l, r := TrimParts(s);
  }

  // ----- The compiler as it runs -----

  /** The inner loop: counts braces from one open one. */
  method FindBlockEnd(clean: string, start: nat) returns (i: nat)
    requires start <= |clean|
    ensures i == BlockEnd(clean, start, 1)
  {
    i := start;
    var braceCount := 1;
    while i < |clean| && braceCount > 0
      invariant start <= i <= |clean| && braceCount >= 0
      invariant BlockEnd(clean, i, braceCount) == BlockEnd(clean, start, 1)
    {
      if clean[i] == '{' {
        braceCount := braceCount + 1;
      } else if clean[i] == '}' {
        braceCount := braceCount - 1;
      }
      i := i + 1;
    }
  }

  /** One turn of the loop. */
  lemma RulesUnfold(s: string, i: nat, open: nat, end: nat, scope: string, san: string -> string)
    requires i <= open < end <= |s| && !CommentAt(s, i) && NeverLengthens(san)
    requires IndexOf(s, '{', i) == open && BlockEnd(s, open + 1, 1) == end
    ensures Rules(s, i, scope, san) ==
      RuleText(Trim(s[i..open]), Slice(s, open + 1, end - 1), scope, san, |s|) + Rules(s, end, scope, san)
  {
    hide BlockEnd, IndexOf, RuleText, Trim, Slice, CommentAt, NeverLengthens;
  }

  method EmitRule(prelude: string, block: string, scope: string, san: string -> string, ghost bound: nat)
    returns (text: string)
    requires |block| < bound && NeverLengthens(san)
    ensures text == RuleText(prelude, block, scope, san, bound)
    decreases bound, 0
  {
    match KindOf(prelude) {
      case VerbatimRule => text := prelude + " { " + block + " }\n";
      case GroupRule =>
        var inner := ScopeCss(block, scope, san);
        text := prelude + " {\n" + inner + "\n}\n";
      case PlainRule =>
        text := "";
        var declarations := Trim(block);
        var selector := PrefixSelectors(prelude, scope);
        if selector != "" && declarations != "" {
          text := selector + " {\n  " + declarations + "\n}\n";
        }
    }
  }

  predicate ClosesAt(s: string, i: nat) {
    i + 1 < |s| && s[i] == '*' && s[i + 1] == '/'
  }

  /** The end of a comment is the first one. */
  lemma {:induction false} CloseIsFirst(s: string, i: nat)
    ensures var r := IndexOfClose(s, i);
      && (r != -1 ==> r >= i && ClosesAt(s, r))
      && forall k: nat :: i <= k && (r != -1 ==> k < r) ==> !ClosesAt(s, k)
    decreases |s| - i
  {
    if i + 1 < |s| && !ClosesAt(s, i) {
      CloseIsFirst(s, i + 1);
    }
  }

  /** The turns of the loop that print nothing. */
  lemma RulesQuiet(s: string, i: nat, scope: string, san: string -> string)
    requires i <= |s| && NeverLengthens(san)
    ensures i == |s| ==> Rules(s, i, scope, san) == ""
    ensures CommentAt(s, i) ==>
      var close := IndexOfClose(s, i + 2);
      Rules(s, i, scope, san) == if close == -1 then "" else Rules(s, close + 2, scope, san)
    ensures !CommentAt(s, i) && IndexOf(s, '{', i) == -1 ==> Rules(s, i, scope, san) == ""
  {
    hide RuleText, BlockEnd, Trim, IndexOfClose;
  }

  method RunRules(clean: string, scope: string, san: string -> string) returns (result: string)
    requires NeverLengthens(san)
    ensures result == Rules(clean, 0, scope, san)
    decreases |clean|, 1
  {
    hide Rules, RuleText, BlockEnd, IndexOf, IndexOfClose, Trim, NeverLengthens;
    result := "";
    var i := 0;
    RulesQuiet(clean, |clean|, scope, san);
    while i < |clean|
      invariant i <= |clean|
      invariant result + Rules(clean, i, scope, san) == Rules(clean, 0, scope, san)
      decreases |clean| - i
    {
      RulesQuiet(clean, i, scope, san);
      if CommentAt(clean, i) {
        var close := IndexOfClose(clean, i + 2);
        if close == -1 {
          break;
        }
        i := close + 2;
        continue;
      }
      var open := IndexOf(clean, '{', i);
      if open == -1 {
        break;
      }
      var prelude := Trim(clean[i..open]);
      var end := FindBlockEnd(clean, open + 1);
      var block := Slice(clean, open + 1, end - 1);
      var text := EmitRule(prelude, block, scope, san, |clean|);
      RulesUnfold(clean, i, open, end, scope, san);
      assert result + (text + Rules(clean, end, scope, san)) == (result + text) + Rules(clean, end, scope, san);
      result := result + text;
      i := end;
    }
  }

  method ScopeCss(rawCss: string, scopeSelector: string, san: string -> string) returns (result: string)
    requires NeverLengthens(san)
    ensures result == Scoped(rawCss, scopeSelector, san)
    decreases |rawCss|, 2
  {
    result := "";
    if Trim(rawCss) != "" {
      TrimShortens(san(rawCss));
      result := RunRules(Trim(san(rawCss)), Trim(scopeSelector), san);
    }
  }
}

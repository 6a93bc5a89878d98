/** Style sheets as trees of rules, and the proof that the scoping compiler acts on them rule by rule. */
module StyleSheets {
  import opened JsText
  import opened ScopeCss

  /** A list of rules and what follows the last one. Preludes and bodies are kept as they are written. */
  datatype Sheet = End(tail: string) | Next(rule: Rule, rest: Sheet)

  datatype Rule =
    | Plain(prelude: string, body: string)
    | Verbatim(prelude: string, body: string)
    | Group(prelude: string, inner: Sheet)

  // ----- Braces -----

  /** The depth after scanning b from depth d, -1 when a brace closes nothing. */
  function Depth(b: string, d: int): int
    requires d >= -1
  {
    if d == -1 then -1
    else if b == "" then d
    else Depth(b[1..], if b[0] == '{' then d + 1 else if b[0] == '}' then d - 1 else d)
  }

  predicate Balanced(s: string) {
    Depth(s, 0) == 0
  }

  predicate NoBraces(s: string) {
    forall i :: 0 <= i < |s| ==> s[i] != '{' && s[i] != '}'
  }

  lemma {:induction false} DepthBound(b: string, d: int)
    requires d >= -1
    ensures Depth(b, d) >= -1
    decreases |b|
  {
    if d != -1 && b != "" {
      DepthBound(b[1..], if b[0] == '{' then d + 1 else if b[0] == '}' then d - 1 else d);
    }
  }

  lemma {:induction false} DepthConcat(a: string, b: string, d: int)
    requires d >= -1 && Depth(a, d) >= 0
    ensures Depth(a + b, d) == Depth(b, Depth(a, d))
    decreases |a|
  {
    if a == "" {
      assert a + b == b;
    } else {
      assert (a + b)[1..] == a[1..] + b;
      DepthConcat(a[1..], b, if a[0] == '{' then d + 1 else if a[0] == '}' then d - 1 else d);
    }
  }

  /** A text that is balanced by itself leaves any depth as it is. */
  lemma {:induction false} DepthShift(b: string, d: int, k: nat)
    requires d >= 0 && Depth(b, d) >= 0
    ensures Depth(b, d + k) == Depth(b, d) + k
    decreases |b|
  {
    if b != "" {
      DepthShift(b[1..], if b[0] == '{' then d + 1 else if b[0] == '}' then d - 1 else d, k);
    }
  }

  lemma {:induction false} DepthOfNoBraces(b: string, d: int)
    requires d >= 0 && NoBraces(b)
    ensures Depth(b, d) == d
    decreases |b|
  {
    if b != "" {
      DepthOfNoBraces(b[1..], d);
    }
  }

  lemma BalancedConcat(a: string, b: string)
    requires Balanced(a) && Balanced(b)
    ensures Balanced(a + b)
  {
    DepthConcat(a, b, 0);
  }

  lemma BalancedBlock(a: string, b: string)
    requires NoBraces(a) && Balanced(b)
    ensures Balanced(a + "{" + b + "}")
  {
    DepthOfNoBraces(a, 0);
    DepthConcat(a, "{", 0);
    assert "{"[1..] == "" && "}"[1..] == "";
    assert Depth("{", 0) == 1;
    DepthConcat(a + "{", b, 0);
    DepthShift(b, 0, 1);
    DepthConcat(a + "{" + b, "}", 0);
  }

  /** The scan that starts inside a block whose body is balanced stops behind its closing brace. */
  lemma {:induction false} BlockEndAt(s: string, i: nat, body: string, d: nat)
    requires i + |body| < |s| && s[i..i + |body|] == body && s[i + |body|] == '}' && Depth(body, d) == 0
    ensures BlockEnd(s, i, d + 1) == i + |body| + 1
    decreases |body|
  {
    if body != "" {
      assert s[i] == body[0];
      assert s[i + 1..i + 1 + |body[1..]|] == body[1..];
      var e := if body[0] == '{' then d + 1 else if body[0] == '}' then d - 1 else d;
      assert e >= 0;
      BlockEndAt(s, i + 1, body[1..], e);
    }
  }

  // ----- Trees and their text -----

  function Text(sheet: Sheet): string {
    match sheet
    case End(tail) => tail
    case Next(rule, rest) => RuleSource(rule) + Text(rest)
  }

  function RuleSource(r: Rule): string {
    match r
    case Plain(prelude, body) => prelude + "{" + body + "}"
    case Verbatim(prelude, body) => prelude + "{" + body + "}"
    case Group(prelude, inner) => prelude + "{" + Text(inner) + "}"
  }

  /** Each rule is of the kind that its prelude announces. */
  predicate WellFormed(sheet: Sheet) {
    match sheet
    case End(tail) => NoBraces(tail)
    case Next(rule, rest) => RuleOk(rule) && WellFormed(rest)
  }

  predicate RuleOk(r: Rule) {
    match r
    case Plain(prelude, body) => NoBraces(prelude) && KindOf(Trim(prelude)) == PlainRule && Balanced(body)
    case Verbatim(prelude, body) => NoBraces(prelude) && KindOf(Trim(prelude)) == VerbatimRule && Balanced(body)
    case Group(prelude, inner) => NoBraces(prelude) && KindOf(Trim(prelude)) == GroupRule && WellFormed(inner)
  }

  function Body(r: Rule): string {
    match r
    case Plain(_, body) => body
    case Verbatim(_, body) => body
    case Group(_, inner) => Text(inner)
  }

  lemma {:induction false} TextBalanced(sheet: Sheet)
    requires WellFormed(sheet)
    ensures Balanced(Text(sheet))
  {
    match sheet
    case End(tail) => DepthOfNoBraces(tail, 0);
    case Next(rule, rest) =>
      BodyBalanced(rule);
      BalancedBlock(rule.prelude, Body(rule));
      TextBalanced(rest);
      BalancedConcat(RuleSource(rule), Text(rest));
  }

  lemma {:induction false} BodyBalanced(r: Rule)
    requires RuleOk(r)
    ensures Balanced(Body(r))
  {
    if r.Group? {
      TextBalanced(r.inner);
    }
  }

  // ----- The output of a tree -----

  /** Rules of frames and fonts stay, rules of groups are scoped inside, all others get scoped selectors. */
  function PrintSheet(sheet: Sheet, scope: string): string {
    match sheet
    case End(_) => ""
    case Next(rule, rest) => PrintRule(rule, scope) + PrintSheet(rest, scope)
  }

  function PrintRule(r: Rule, scope: string): string {
    match r
    case Verbatim(prelude, body) => Trim(prelude) + " { " + body + " }\n"
    case Group(prelude, inner) => Trim(prelude) + " {\n" + PrintSheet(inner, scope) + "\n}\n"
    case Plain(prelude, body) => PlainText(Trim(prelude), body, scope)
  }

  // ----- The compiler on the text of a tree -----

  predicate NoComment(s: string) {
    forall i: nat :: i < |s| ==> !CommentAt(s, i)
  }

  /** The sanitiser replaces matches wherever they occur, so it leaves alone each part of what it leaves alone. */
  ghost predicate LeavesParts(san: string -> string) {
    forall s, i, j :: 0 <= i <= j <= |s| && san(s) == s ==> san(s[i..j]) == s[i..j]
  }

  ghost predicate GoodSanitiser(san: string -> string) {
    NeverLengthens(san) && LeavesParts(san)
  }

  lemma PartsStay(s: string, i: nat, j: nat, san: string -> string)
    requires i <= j <= |s| && LeavesParts(san) && san(s) == s && NoComment(s)
    ensures san(s[i..j]) == s[i..j] && NoComment(s[i..j])
  {
    var t := s[i..j];
    forall k: nat | k < |t|
      ensures !CommentAt(t, k)
    {
      assert !CommentAt(s, i + k);
    }
  }

  /** The sheet whose text is the trimmed text. */
  function TrimTail(sheet: Sheet): Sheet {
    match sheet
    case End(tail) => End(TrimEnd(tail))
    case Next(rule, rest) => Next(rule, TrimTail(rest))
  }

  function WithPrelude(r: Rule, prelude: string): Rule {
    match r
    case Plain(_, body) => Plain(prelude, body)
    case Verbatim(_, body) => Verbatim(prelude, body)
    case Group(_, inner) => Group(prelude, inner)
  }

  function TrimSheet(sheet: Sheet): Sheet {
    match sheet
    case End(tail) => End(Trim(tail))
    case Next(rule, rest) => Next(WithPrelude(rule, TrimStart(rule.prelude)), TrimTail(rest))
  }

  lemma TrimEndAfter(a: string, b: string)
    requires a != "" && !IsSpace(a[|a| - 1])
    ensures TrimEnd(a + b) == a + TrimEnd(b)
  {
    var k := TrimEndParts(b);
    assert a + b == (a + b[..k]) + b[k..];
    TrimEndOfSpace(a + b[..k], b[k..]);
    if k == 0 {
      assert a + b[..k] == a;
    } else {
      assert (a + b[..k])[|a| + k - 1] == b[k - 1];
    }
  }

  lemma {:induction false} TrimTailText(sheet: Sheet, before: string)
    requires WellFormed(sheet) && before != "" && before[|before| - 1] == '}'
    ensures TrimEnd(before + Text(sheet)) == before + Text(TrimTail(sheet))
    ensures WellFormed(TrimTail(sheet))
  {
    match sheet
    case End(tail) =>
      TrimEndAfter(before, tail);
      var k := TrimEndParts(tail);
    case Next(rule, rest) =>
      assert before + (RuleSource(rule) + Text(rest)) == (before + RuleSource(rule)) + Text(rest);
      TrimTailText(rest, before + RuleSource(rule));
      assert before + (RuleSource(rule) + Text(TrimTail(rest))) == (before + RuleSource(rule)) + Text(TrimTail(rest));
  }

  lemma {:induction false} TrimTailPrints(sheet: Sheet, scope: string)
    ensures PrintSheet(TrimTail(sheet), scope) == PrintSheet(sheet, scope)
  {
    if sheet.Next? {
      TrimTailPrints(sheet.rest, scope);
    }
  }

  /** Trimming the start takes nothing from what trimming leaves. */
  lemma TrimOfTrimStart(s: string)
    ensures Trim(TrimStart(s)) == Trim(s)
  {
    var k := TrimStartParts(s);
    var t := TrimStart(s);
    if t != "" {
      assert t[0] == s[k];
    }
    assert TrimStart(t) == t;
  }

  lemma TrimSheetPrints(sheet: Sheet, scope: string)
    ensures PrintSheet(TrimSheet(sheet), scope) == PrintSheet(sheet, scope)
  {
    if sheet.Next? {
      TrimTailPrints(sheet.rest, scope);
      TrimOfTrimStart(sheet.rule.prelude);
    }
  }

  lemma TrimSheetOk(sheet: Sheet)
    requires WellFormed(sheet)
    ensures WellFormed(TrimSheet(sheet))
  {
    match sheet
    case End(tail) =>
      var l, r := TrimParts(tail);
      assert forall i :: 0 <= i < |Trim(tail)| ==> Trim(tail)[i] == tail[|l| + i];
    case Next(rule, rest) =>
      var k := TrimStartParts(rule.prelude);
      TrimOfTrimStart(rule.prelude);
      TrimTailText(rest, "}");
  }

  lemma TrimRuleSource(rule: Rule)
    ensures TrimStart(RuleSource(rule)) == RuleSource(WithPrelude(rule, TrimStart(rule.prelude)))
    ensures var short := RuleSource(WithPrelude(rule, TrimStart(rule.prelude)));
      short != "" && !IsSpace(short[0]) && short[|short| - 1] == '}'
  {
    var k := TrimStartParts(rule.prelude);
    var short := RuleSource(WithPrelude(rule, TrimStart(rule.prelude)));
    assert RuleSource(rule) == rule.prelude[..k] + short;
    TrimStartOfSpace(rule.prelude[..k], short);
  }

  lemma TrimStartAfter(a: string, b: string)
    requires TrimStart(a) != ""
    ensures TrimStart(a + b) == TrimStart(a) + b
  {
    var k := TrimStartParts(a);
    assert a + b == a[..k] + (a[k..] + b);
    TrimStartOfSpace(a[..k], a[k..] + b);
    assert (a[k..] + b)[0] == a[k];
  }

  lemma TrimSheetText(sheet: Sheet)
    requires WellFormed(sheet)
    ensures Text(TrimSheet(sheet)) == Trim(Text(sheet))
  {
    if sheet.Next? {
      TrimRuleSource(sheet.rule);
      TrimStartAfter(RuleSource(sheet.rule), Text(sheet.rest));
      TrimTailText(sheet.rest, TrimStart(RuleSource(sheet.rule)));
    }
  }

  /** From a position where a well-formed tree's text starts, the loop prints that tree. */
  lemma {:induction false} RulesPrint(s: string, i: nat, sheet: Sheet, scope: string, san: string -> string)
    requires i <= |s| && s[i..] == Text(sheet) && WellFormed(sheet)
    requires GoodSanitiser(san) && san(s) == s && NoComment(s) && Trim(scope) == scope
    ensures Rules(s, i, scope, san) == PrintSheet(sheet, scope)
    decreases |Text(sheet)|, 0
  {
    hide Rules, RuleText, NoComment, LeavesParts, PrintRule, Trim, BlockEnd, IndexOf, Scoped;
    match sheet
    case End(tail) =>
      RulesEnd(s, i, tail, scope, san);
    case Next(rule, rest) =>
      var end := i + |rule.prelude| + |Body(rule)| + 2;
      BlockFound(s, i, rule, rest);
      if rule.Group? {
        PartsStay(s, i + |rule.prelude| + 1, end - 1, san);
        ScopedPrints(rule.inner, scope, san);
      }
      RuleStep(s, i, rule, rest, scope, san);
      RulesPrint(s, end, rest, scope, san);
  }

  /** One turn of the loop on the text of one rule. */
  lemma RuleStep(s: string, i: nat, rule: Rule, rest: Sheet, scope: string, san: string -> string)
    requires i <= |s| && s[i..] == RuleSource(rule) + Text(rest) && RuleOk(rule)
    requires NoComment(s) && NeverLengthens(san)
    requires rule.Group? ==> Scoped(Text(rule.inner), scope, san) == PrintSheet(rule.inner, scope)
    ensures i + |rule.prelude| + |Body(rule)| + 2 <= |s|
    ensures Rules(s, i, scope, san) ==
      PrintRule(rule, scope) + Rules(s, i + |rule.prelude| + |Body(rule)| + 2, scope, san)
  {
    hide Rules, RuleText, RuleOk, PrintRule, Trim, BlockEnd, IndexOf, Text, RuleSource, Scoped, PrintSheet;
    var open := i + |rule.prelude|;
    var end := open + 1 + |Body(rule)| + 1;
    BlockFound(s, i, rule, rest);
    assert Slice(s, open + 1, end - 1) == Body(rule);
    assert !CommentAt(s, i);
    RuleTextPrints(rule, scope, san, |s|);
    RulesUnfold(s, i, open, end, scope, san);
  }

  lemma RulesEnd(s: string, i: nat, tail: string, scope: string, san: string -> string)
    requires i <= |s| && s[i..] == tail && NoBraces(tail) && NoComment(s) && NeverLengthens(san)
    ensures Rules(s, i, scope, san) == ""
  {
    NoBraceAhead(s, i, tail);
  }

  lemma RuleTextPrints(rule: Rule, scope: string, san: string -> string, bound: nat)
    requires RuleOk(rule) && |Body(rule)| < bound && NeverLengthens(san)
    requires rule.Group? ==> Scoped(Text(rule.inner), scope, san) == PrintSheet(rule.inner, scope)
    ensures RuleText(Trim(rule.prelude), Body(rule), scope, san, bound) == PrintRule(rule, scope)
  {
  }

  lemma NoBraceAhead(s: string, i: nat, tail: string)
    requires i <= |s| && s[i..] == tail && NoBraces(tail)
    ensures IndexOf(s, '{', i) == -1
  {
    forall k | i <= k < |s|
      ensures s[k] != '{'
    {
      assert s[k] == tail[k - i];
    }
  }

  lemma BlockFound(s: string, i: nat, rule: Rule, rest: Sheet)
    requires i <= |s| && s[i..] == RuleSource(rule) + Text(rest) && RuleOk(rule)
    ensures
      var open := i + |rule.prelude|;
      var end := open + 1 + |Body(rule)| + 1;
      && end <= |s|
      && IndexOf(s, '{', i) == open && s[i..open] == rule.prelude
      && BlockEnd(s, open + 1, 1) == end && s[open + 1..end - 1] == Body(rule)
      && s[end..] == Text(rest)
  {
    hide Text, KindOf, Balanced;
    var a, b, c := rule.prelude, Body(rule), Text(rest);
    BodyBalanced(rule);
    assert s[i..] == a + "{" + b + "}" + c;
    BlockPositions(s, i, a, b, c);
    BlockClosed(s, i + |a| + 1, b);
  }

  lemma BlockClosed(s: string, i: nat, body: string)
    requires i + |body| < |s| && s[i..i + |body|] == body && s[i + |body|] == '}' && Balanced(body)
    ensures BlockEnd(s, i, 1) == i + |body| + 1
  {
    BlockEndAt(s, i, body, 0);
  }

  lemma BlockPositions(s: string, i: nat, a: string, b: string, c: string)
    requires i <= |s| && s[i..] == a + "{" + b + "}" + c && NoBraces(a)
    ensures
      var open := i + |a|;
      var end := open + 1 + |b| + 1;
      && end <= |s|
      && IndexOf(s, '{', i) == open && s[i..open] == a
      && s[open + 1..end - 1] == b && s[end - 1] == '}'
      && s[end..] == c
  {
    var open := i + |a|;
    var end := open + 1 + |b| + 1;
    var t := a + "{" + b + "}" + c;
    assert |s| == i + |t|;
    assert s[open] == t[|a|] == '{' && s[end - 1] == t[|a| + 1 + |b|] == '}';
    assert s[i..open] == t[..|a|] == a;
    assert s[open + 1..end - 1] == t[|a| + 1..|a| + 1 + |b|] == b;
    assert s[end..] == t[|a| + 2 + |b|..] == c;
    forall k | i <= k < open
      ensures s[k] != '{'
    {
      assert s[k] == a[k - i];
    }
  }

  /** The compiler maps the text of a tree to the tree's output. */
  lemma {:induction false} ScopedPrints(sheet: Sheet, scopeSelector: string, san: string -> string)
    requires WellFormed(sheet) && GoodSanitiser(san) && san(Text(sheet)) == Text(sheet) && NoComment(Text(sheet))
    ensures Scoped(Text(sheet), scopeSelector, san) == PrintSheet(sheet, Trim(scopeSelector))
    decreases |Text(sheet)|, 1
  {
    var s := Text(sheet);
    var clean := Trim(s);
    var scope := Trim(scopeSelector);
    var trimmed := TrimSheet(sheet);
    TrimSheetText(sheet);
    TrimSheetOk(sheet);
    TrimSheetPrints(sheet, scope);
    var l, r := TrimParts(s);
    assert s[|l|..|l| + |clean|] == clean;
    PartsStay(s, |l|, |l| + |clean|, san);
    var sl, sr := TrimParts(scopeSelector);
    TrimmedStays(scope);
    if clean == "" {
      SpaceIsEnd(trimmed, scope);
    } else {
      assert clean[0..] == clean;
      RulesPrint(clean, 0, trimmed, scope, san);
    }
  }

  lemma SpaceIsEnd(sheet: Sheet, scope: string)
    requires Text(sheet) == ""
    ensures PrintSheet(sheet, scope) == ""
  {
    assert sheet.Next? ==> |RuleSource(sheet.rule)| > 0;
  }

  // ----- Every balanced text is the text of a tree -----

  /** In a text that closes a block once more than it opens one, the scan finds where. */
  lemma {:induction false} BlockSplits(s: string, i: nat, d: nat)
    requires i <= |s| && Depth(s[i..], d + 1) == 0
    ensures
      var end := BlockEnd(s, i, d + 1);
      && i < end && s[end - 1] == '}'
      && Depth(s[i..end - 1], d) == 0
      && Depth(s[end..], 0) == 0
    decreases |s| - i
  {
    if i < |s| {
      var rest := s[i..];
      assert rest[0] == s[i] && rest[1..] == s[i + 1..];
      if s[i] == '}' && d == 0 {
        assert s[i..i] == "";
      } else {
        var e := if s[i] == '{' then d + 1 else if s[i] == '}' then d - 1 else d;
        BlockSplits(s, i + 1, e);
        var end := BlockEnd(s, i, d + 1);
        assert s[i..end - 1][1..] == s[i + 1..end - 1];
      }
    }
  }

  /** A balanced text up to its first opening brace has no brace at all. */
  lemma PreludeOfBalanced(s: string, open: nat)
    requires Balanced(s) && open < |s| && s[open] == '{' && forall k :: 0 <= k < open ==> s[k] != '{'
    ensures NoBraces(s[..open]) && Depth(s[open + 1..], 1) == 0
  {
    NoCloseFirst(s[..open], 0);
    assert s == s[..open] + s[open..];
    NeverBelow(s[..open], s[open..], 0);
    DepthConcat(s[..open], s[open..], 0);
    NoCloseMeansNone(s[..open]);
    DepthOfNoBraces(s[..open], 0);
    assert s[open..][1..] == s[open + 1..];
  }

  lemma {:induction false} NeverBelow(a: string, b: string, d: int)
    requires d >= -1 && Depth(a + b, d) >= 0
    ensures Depth(a, d) >= 0
    decreases |a|
  {
    if a == "" {
      assert a + b == b;
    } else if d >= 0 {
      assert (a + b)[1..] == a[1..] + b;
      NeverBelow(a[1..], b, if a[0] == '{' then d + 1 else if a[0] == '}' then d - 1 else d);
    }
  }

  /** Without an opening brace the depth cannot rise. */
  lemma {:induction false} NoCloseFirst(a: string, d: int)
    requires d >= -1 && forall k :: 0 <= k < |a| ==> a[k] != '{'
    ensures Depth(a, d) <= d
    decreases |a|
  {
    if d != -1 && a != "" {
      NoCloseFirst(a[1..], if a[0] == '}' then d - 1 else d);
    }
  }

  lemma NoCloseMeansNone(a: string)
    requires Depth(a, 0) >= 0 && forall k :: 0 <= k < |a| ==> a[k] != '{'
    ensures NoBraces(a)
  {
    forall i | 0 <= i < |a|
      ensures a[i] != '}'
    {
      assert a == a[..i] + a[i..];
      NeverBelow(a[..i], a[i..], 0);
      NoCloseFirst(a[..i], 0);
      DepthConcat(a[..i], a[i..], 0);
    }
  }

  /** The tree of a text; what the text is not balanced for ends up in the tail. */
  ghost function Parse(s: string): (sheet: Sheet)
    requires Balanced(s)
    ensures Text(sheet) == s && WellFormed(sheet)
    decreases |s|
  {
    var open := IndexOf(s, '{', 0);
    if open == -1 then
      NoCloseMeansNone(s);
      End(s)
    else
      RuleOfBalanced(s, open);
      var end := BlockEnd(s, open + 1, 1);
      var prelude, body := s[..open], s[open + 1..end - 1];
      var rule :=
        match KindOf(Trim(prelude))
        case PlainRule => Plain(prelude, body)
        case VerbatimRule => Verbatim(prelude, body)
        case GroupRule => Group(prelude, Parse(body));
      Next(rule, Parse(s[end..]))
  }

  /** The first rule of a balanced text: prelude, body and rest, the last two balanced again. */
  lemma RuleOfBalanced(s: string, open: nat)
    requires Balanced(s) && open < |s| && s[open] == '{' && forall k :: 0 <= k < open ==> s[k] != '{'
    ensures var end := BlockEnd(s, open + 1, 1);
      && open + 2 <= end <= |s| && NoBraces(s[..open])
      && Balanced(s[open + 1..end - 1]) && Balanced(s[end..])
      && s == s[..open] + "{" + s[open + 1..end - 1] + "}" + s[end..]
  {
    hide NoBraces, Depth, BlockEnd;
    PreludeOfBalanced(s, open);
    BlockSplits(s, open + 1, 0);
    Pieces(s, open, BlockEnd(s, open + 1, 1));
  }

  lemma Pieces(s: string, open: nat, end: nat)
    requires open + 2 <= end <= |s| && s[open] == '{' && s[end - 1] == '}'
    ensures s == s[..open] + "{" + s[open + 1..end - 1] + "}" + s[end..]
  {
  }

  /** The compiler is correct on every balanced style sheet without comments that the sanitiser leaves alone. */
  lemma ScopeCssCorrect(css: string, scopeSelector: string, san: string -> string)
    requires Balanced(css) && NoComment(css) && GoodSanitiser(san) && san(css) == css
    ensures Scoped(css, scopeSelector, san) == PrintSheet(Parse(css), Trim(scopeSelector))
  {
    ScopedPrints(Parse(css), scopeSelector, san);
  }

  // ----- The output is scoped, and balanced again -----

  lemma PrefixedHasScope(sel: string, scope: string)
    ensures Prefixed(sel, scope) == "" || StartsWith(Prefixed(sel, scope), scope)
  {
  }

  /** Every selector that is printed stems from one of the source's and starts with the scope. */
  lemma {:induction false} SelectorsScoped(sels: seq<string>, scope: string, k: nat) returns (n: nat)
    requires k < |PrefixAll(sels, scope)|
    ensures k <= n < |sels| && PrefixAll(sels, scope)[k] == Prefixed(sels[n], scope)
    ensures StartsWith(PrefixAll(sels, scope)[k], scope)
    decreases |sels|
  {
    hide Prefixed;
    var first := Prefixed(sels[0], scope);
    PrefixedHasScope(sels[0], scope);
    if first == "" {
      n := SelectorsScoped(sels[1..], scope, k);
      n := n + 1;
    } else if k > 0 {
      n := SelectorsScoped(sels[1..], scope, k - 1);
      n := n + 1;
    } else {
      n := 0;
    }
  }

  lemma NoBracesConcat(a: string, b: string)
    requires NoBraces(a) && NoBraces(b)
    ensures NoBraces(a + b)
  {
  }

  lemma TrimNoBraces(s: string)
    requires NoBraces(s)
    ensures NoBraces(Trim(s))
  {
    var l, r := TrimParts(s);
    assert forall i :: 0 <= i < |Trim(s)| ==> Trim(s)[i] == s[|l| + i];
  }

  lemma PrefixedNoBraces(sel: string, scope: string)
    requires NoBraces(sel) && NoBraces(scope)
    ensures NoBraces(Prefixed(sel, scope))
  {
    TrimNoBraces(sel);
    var s := Trim(sel);
    assert forall i :: 0 <= i < |s| - 1 ==> s[1..][i] == s[i + 1];
  }

  lemma {:induction false} SplitNoBraces(s: string)
    requires NoBraces(s)
    ensures forall p :: p in Split(s) ==> NoBraces(p)
    decreases |s|
  {
    hide NoBraces, IndexOf;
    var i := IndexOf(s, ',', 0);
    if i != -1 {
      NoBracesParts(s, i);
      SplitNoBraces(s[i + 1..]);
      assert Split(s) == [s[..i]] + Split(s[i + 1..]);
    } else {
      assert Split(s) == [s];
    }
  }

  lemma NoBracesParts(s: string, i: nat)
    requires NoBraces(s) && i < |s|
    ensures NoBraces(s[..i]) && NoBraces(s[i + 1..])
  {
  }

  lemma {:induction false} PrefixAllNoBraces(sels: seq<string>, scope: string)
    requires (forall p :: p in sels ==> NoBraces(p)) && NoBraces(scope)
    ensures forall p :: p in PrefixAll(sels, scope) ==> NoBraces(p)
    decreases |sels|
  {
    if sels != [] {
      PrefixedNoBraces(sels[0], scope);
      PrefixAllNoBraces(sels[1..], scope);
    }
  }

  lemma {:induction false} JoinNoBraces(parts: seq<string>)
    requires forall p :: p in parts ==> NoBraces(p)
    ensures NoBraces(Join(parts))
    decreases |parts|
  {
    if |parts| > 1 {
      JoinNoBraces(parts[1..]);
      assert parts[0] in parts;
      NoBracesConcat(parts[0] + ", ", Join(parts[1..]));
    } else if |parts| == 1 {
      assert parts[0] in parts;
    }
  }

  lemma {:induction false} SpaceBalanced(s: string, d: int)
    requires d >= 0 && AllSpace(s)
    ensures Depth(s, d) == d
    decreases |s|
  {
    if s != "" {
      assert IsSpace(s[0]);
      SpaceBalanced(s[1..], d);
    }
  }

  lemma TrimBalanced(s: string)
    requires Balanced(s)
    ensures Balanced(Trim(s))
  {
    var l, r := TrimParts(s);
    SpaceBalanced(l, 0);
    assert s == l + (Trim(s) + r);
    DepthConcat(l, Trim(s) + r, 0);
    NeverBelow(Trim(s), r, 0);
    DepthConcat(Trim(s), r, 0);
    SpaceBalanced(r, Depth(Trim(s), 0));
  }

  lemma BracedBalanced(a: string, l: string, b: string, r: string, after: string)
    requires NoBraces(a) && NoBraces(l) && Balanced(b) && NoBraces(r) && NoBraces(after)
    ensures Balanced(a + "{" + l + b + r + "}" + after)
  {
    DepthOfNoBraces(l, 0);
    DepthOfNoBraces(r, 0);
    DepthOfNoBraces(after, 0);
    BalancedConcat(l, b);
    BalancedConcat(l + b, r);
    BalancedBlock(a, l + b + r);
    BalancedConcat(a + "{" + (l + b + r) + "}", after);
    assert a + "{" + l + b + r + "}" + after == a + "{" + (l + b + r) + "}" + after;
  }

  lemma SelectorListNoBraces(selectors: string, scope: string)
    requires NoBraces(selectors) && NoBraces(scope)
    ensures NoBraces(PrefixSelectors(selectors, scope))
  {
    SplitNoBraces(selectors);
    PrefixAllNoBraces(Split(selectors), scope);
    JoinNoBraces(PrefixAll(Split(selectors), scope));
  }

  lemma EmptyBalanced()
    ensures Balanced("")
  {
  }

  lemma PlainBalanced(prelude: string, body: string, scope: string)
    requires NoBraces(prelude) && NoBraces(scope) && Balanced(body)
    ensures Balanced(PlainText(Trim(prelude), body, scope))
  {
    hide PrefixSelectors, Trim, Balanced;
    var sel := PrefixSelectors(Trim(prelude), scope);
    TrimNoBraces(prelude);
    SelectorListNoBraces(Trim(prelude), scope);
    TrimBalanced(body);
    EmptyBalanced();
    BracedBalanced(sel + " ", "\n  ", Trim(body), "\n", "\n");
    assert sel + " {\n  " + Trim(body) + "\n}\n" == (sel + " ") + "{" + "\n  " + Trim(body) + "\n" + "}" + "\n";
  }

  /** The output of a well-formed tree is balanced again. */
  lemma {:induction false} PrintBalanced(sheet: Sheet, scope: string)
    requires WellFormed(sheet) && NoBraces(scope)
    ensures Balanced(PrintSheet(sheet, scope))
  {
    if sheet.Next? {
      RuleBalanced(sheet.rule, scope);
      PrintBalanced(sheet.rest, scope);
      BalancedConcat(PrintRule(sheet.rule, scope), PrintSheet(sheet.rest, scope));
    }
  }

  lemma {:induction false} RuleBalanced(r: Rule, scope: string)
    requires RuleOk(r) && NoBraces(scope)
    ensures Balanced(PrintRule(r, scope))
  {
    TrimNoBraces(r.prelude);
    var p := Trim(r.prelude);
    match r
    case Plain(prelude, body) => PlainBalanced(prelude, body, scope);
    case Verbatim(_, body) =>
      BracedBalanced(p + " ", " ", body, " ", "\n");
      assert p + " { " + body + " }\n" == (p + " ") + "{" + " " + body + " " + "}" + "\n";
    case Group(_, inner) =>
      PrintBalanced(inner, scope);
      var b := PrintSheet(inner, scope);
      BracedBalanced(p + " ", "\n", b, "\n", "\n");
      assert p + " {\n" + b + "\n}\n" == (p + " ") + "{" + "\n" + b + "\n" + "}" + "\n";
  }
}

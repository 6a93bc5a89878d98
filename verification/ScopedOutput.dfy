/** What the scoping compiler puts out, read by its braces and commas alone and held against the source. */
module ScopedOutput {
  import opened JsText
  import opened ScopeCss
  import opened StyleSheets

  // ----- Lists of selectors -----

  predicate NoComma(s: string) {
    forall i :: 0 <= i < |s| ==> s[i] != ','
  }

  function WithCommas(parts: seq<string>): string
    requires parts != []
  {
    if |parts| == 1 then parts[0] else parts[0] + "," + WithCommas(parts[1..])
  }

  lemma WithCommasFirst(first: string, rest: seq<string>)
    requires rest != []
    ensures WithCommas([first] + rest) == first + "," + WithCommas(rest)
  {
    assert ([first] + rest)[1..] == rest;
  }

  predicate NoCommas(parts: seq<string>) {
    forall k :: 0 <= k < |parts| ==> NoComma(parts[k])
  }

  lemma PartsFirst(s: string, i: nat, rest: seq<string>)
    requires i < |s| && s[i] == ',' && NoComma(s[..i]) && rest != [] && WithCommas(rest) == s[i + 1..] && NoCommas(rest)
    ensures WithCommas([s[..i]] + rest) == s && NoCommas([s[..i]] + rest)
  {
    hide NoComma, WithCommas;
    WithCommasFirst(s[..i], rest);
    assert s == s[..i] + "," + s[i + 1..];
  }

  /** The parts are what stands between the commas. */
  lemma {:induction false} SplitParts(s: string)
    ensures WithCommas(Split(s)) == s && NoCommas(Split(s))
    decreases |s|
  {
    var i := IndexOf(s, ',', 0);
    SplitUnfold(s);
    hide IndexOf, Split, NoComma, WithCommas, NoCommas;
    if i != -1 {
      SplitParts(s[i + 1..]);
      PartsFirst(s, i, Split(s[i + 1..]));
    } else {
      WithCommasOne(s);
    }
  }

  lemma WithCommasOne(s: string)
    ensures WithCommas([s]) == s && (NoComma(s) ==> NoCommas([s]))
  {
  }

  lemma SplitUnfold(s: string)
    ensures var i := IndexOf(s, ',', 0);
      if i == -1 then Split(s) == [s] && NoComma(s) else Split(s) == [s[..i]] + Split(s[i + 1..]) && NoComma(s[..i])
  {
    var i := IndexOf(s, ',', 0);
    FirstComma(s);
    hide IndexOf, NoComma;
  }

  lemma FirstComma(s: string)
    ensures var i := IndexOf(s, ',', 0); if i == -1 then NoComma(s) else NoComma(s[..i])
  {
    hide IndexOf;
  }

  /** The selectors of a list that are not blank, trimmed. */
  function Selectors(parts: seq<string>): seq<string> {
    if parts == [] then []
    else (if Trim(parts[0]) == "" then [] else [Trim(parts[0])]) + Selectors(parts[1..])
  }

  function Trimmed(parts: seq<string>): (r: seq<string>)
    ensures |r| == |parts|
  {
    seq(|parts|, i requires 0 <= i < |parts| => Trim(parts[i]))
  }

  /** What follows the scope: nothing, the rest behind a leading `&`, or the selector as a descendant. */
  predicate ScopedAs(sel: string, out: string, scope: string) {
    && StartsWith(out, scope)
    && out[|scope|..] == if sel == ":root" || sel == "&" || sel == scope then ""
                         else if sel != "" && sel[0] == '&' then sel[1..]
                         else " " + sel
  }

  /** One selector under the scope for each selector of the source, in order. */
  predicate ScopedList(source: string, out: string, scope: string) {
    var sels, outs := Selectors(Split(source)), Trimmed(Split(out));
    |outs| == |sels| && forall k :: 0 <= k < |sels| ==> ScopedAs(sels[k], outs[k], scope)
  }

  // ----- Blocks -----

  predicate Opaque(prelude: string) {
    StartsWith(prelude, "@keyframes") || StartsWith(prelude, "@font-face") || StartsWith(prelude, "@import")
  }

  predicate Grouping(prelude: string) {
    StartsWith(prelude, "@media") || StartsWith(prelude, "@supports")
  }

  /** The first block of a text: where it opens, -1 for none, and what is before, in and behind it. */
  function Opens(s: string): int {
    IndexOf(s, '{', 0)
  }

  function Prelude(s: string): string
    requires Opens(s) != -1
  {
    Trim(s[..Opens(s)])
  }

  function Inside(s: string): string
    requires Opens(s) != -1
  {
    Slice(s, Opens(s) + 1, BlockEnd(s, Opens(s) + 1, 1) - 1)
  }

  function Behind(s: string): (r: string)
    requires Opens(s) != -1
    ensures |r| < |s|
  {
    s[BlockEnd(s, Opens(s) + 1, 1)..]
  }

  /** A rule that has a selector and declarations; any other plain rule is dropped. */
  predicate Shows(prelude: string, body: string) {
    Opaque(prelude) || Grouping(prelude) || (Selectors(Split(prelude)) != [] && Trim(body) != "")
  }

  /**
   `out` is `css` under the scope, block by block: frames, fonts and imports as they were, groups with their
   insides under the scope, and all other rules with the declarations they had and their selectors under the scope.
   */
  predicate Compiled(css: string, out: string, scope: string)
    decreases |css|
  {
    if Opens(css) == -1 then Trim(out) == ""
    else
      var p, b := Prelude(css), Inside(css);
      if !Shows(p, b) then Compiled(Behind(css), out, scope)
      else
        && Opens(out) != -1
        && (if Opaque(p) then Prelude(out) == p && Trim(Inside(out)) == Trim(b)
            else if Grouping(p) then Prelude(out) == p && Compiled(b, Inside(out), scope)
            else ScopedList(p, Prelude(out), scope) && Trim(Inside(out)) == Trim(b))
        && Compiled(Behind(css), Behind(out), scope)
  }

  /** No selector of the text reaches outside the scope, in groups neither. */
  predicate Confined(out: string, scope: string)
    decreases |out|
  {
    Opens(out) == -1 ||
    (var p := Prelude(out);
     && (Opaque(p) || (Grouping(p) && Confined(Inside(out), scope))
         || forall k :: 0 <= k < |Split(p)| ==> StartsWith(Trim(Split(p)[k]), scope))
     && Confined(Behind(out), scope))
  }

  lemma NoOpening(s: string)
    requires Trim(s) == ""
    ensures Opens(s) == -1
  {
    var l, r := TrimParts(s);
  }

  lemma {:induction false} CompiledIsConfined(css: string, out: string, scope: string)
    requires Compiled(css, out, scope)
    ensures Confined(out, scope)
    decreases |css|
  {
    hide Opaque, Grouping;
    if Opens(css) == -1 {
      NoOpening(out);
    } else {
      var p, b := Prelude(css), Inside(css);
      if !Shows(p, b) {
        CompiledIsConfined(Behind(css), out, scope);
      } else {
        CompiledIsConfined(Behind(css), Behind(out), scope);
        if !Opaque(p) && Grouping(p) {
          CompiledIsConfined(b, Inside(out), scope);
        } else if !Opaque(p) {
          var q := Prelude(out);
          forall k | 0 <= k < |Split(q)|
            ensures StartsWith(Trim(Split(q)[k]), scope)
          {
            assert ScopedAs(Selectors(Split(p))[k], Trimmed(Split(q))[k], scope);
          }
        }
      }
    }
  }

  // ----- Reading what is printed -----

  /** A container to be confined to: a single selector, not blank. */
  predicate GoodScope(scope: string) {
    scope != "" && IsTrimmed(scope) && NoBraces(scope) && NoComma(scope)
  }

  lemma ReadBlock(s: string, a: string, b: string, c: string)
    requires s == a + "{" + b + "}" + c && NoBraces(a) && Balanced(b)
    ensures Opens(s) == |a| && Prelude(s) == Trim(a) && Inside(s) == b && Behind(s) == c
  {
    hide Balanced, Trim, BlockEnd, IndexOf, NoBraces;
    assert s[0..] == s && s[0..|a|] == s[..|a|];
    BlockPositions(s, 0, a, b, c);
    assert s[|a| + 1..|a| + 1 + |b|] == b;
    BlockClosed(s, |a| + 1, b);
  }

  lemma TrimPadded(left: string, s: string, right: string)
    requires AllSpace(left) && AllSpace(right)
    ensures Trim(left + s + right) == Trim(s)
  {
    var l, r := TrimParts(s);
    assert left + s + right == (left + l) + Trim(s) + (r + right);
    TrimIs(left + l, Trim(s), r + right);
  }

  lemma KindMeans(p: string)
    ensures KindOf(p) == VerbatimRule <==> Opaque(p)
    ensures KindOf(p) == GroupRule <==> !Opaque(p) && Grouping(p)
  {
    hide IsSpace;
    assert forall q: string :: |q| > 0 && q[0] == '@' && StartsWith(p, q) ==> p[0] == '@' && StartsWith(p, "@");
  }

  lemma SpaceNoBraces(w: string)
    requires AllSpace(w)
    ensures NoBraces(w)
  {
  }

  lemma PrefixedAs(sel: string, scope: string)
    requires GoodScope(scope) && NoComma(sel)
    ensures Trim(sel) == "" <==> Prefixed(sel, scope) == ""
    ensures Trim(sel) != "" ==> ScopedAs(Trim(sel), Prefixed(sel, scope), scope) && Plainly(Prefixed(sel, scope))
  {
    var s := Trim(sel);
    TrimmedPart(sel);
    hide Trim, NoBraces, NoComma, IsTrimmed;
    if s != "" {
      UnderScope(s, scope);
    }
  }

  lemma TrimmedPart(sel: string)
    requires NoComma(sel)
    ensures NoComma(Trim(sel)) && IsTrimmed(Trim(sel))
  {
    var l, r := TrimParts(sel);
    assert forall i :: 0 <= i < |Trim(sel)| ==> Trim(sel)[i] == sel[|l| + i];
  }

  lemma UnderScope(s: string, scope: string)
    requires GoodScope(scope) && s != "" && IsTrimmed(s) && NoComma(s)
    ensures Plainly(scope) && (s[0] == '&' && s != "&" ==> Plainly(scope + s[1..])) && Plainly(scope + " " + s)
  {
    hide IsSpace;
    if |s| > 1 {
      assert s[1..][|s| - 2] == s[|s| - 1];
    }
  }

  lemma {:induction false} PrefixAllAs(parts: seq<string>, scope: string)
    requires GoodScope(scope) && NoCommas(parts)
    ensures |PrefixAll(parts, scope)| == |Selectors(parts)|
    ensures forall k :: 0 <= k < |Selectors(parts)| ==> ScopedAs(Selectors(parts)[k], PrefixAll(parts, scope)[k], scope)
    ensures forall k :: 0 <= k < |Selectors(parts)| ==> Plainly(PrefixAll(parts, scope)[k])
  {
    hide Prefixed, ScopedAs, Trim, Plainly, NoComma, GoodScope;
    if parts != [] {
      PrefixedAs(parts[0], scope);
      PrefixAllAs(parts[1..], scope);
    }
  }

  predicate Plainly(s: string) {
    s != "" && IsTrimmed(s) && NoComma(s)
  }

  predicate AllPlainly(parts: seq<string>) {
    forall k :: 0 <= k < |parts| ==> Plainly(parts[k])
  }

  lemma SplitAt(a: string, b: string)
    requires NoComma(a)
    ensures Split(a + "," + b) == [a] + Split(b)
  {
    var s := a + "," + b;
    assert s[|a|] == ',' && forall k :: 0 <= k < |a| ==> s[k] == a[k];
    assert IndexOf(s, ',', 0) == |a|;
    assert s[..|a|] == a && s[|a| + 1..] == b;
  }

  lemma SplitNone(a: string)
    requires NoComma(a)
    ensures Split(a) == [a]
  {
  }

  lemma {:induction false} JoinPlainly(parts: seq<string>)
    requires parts != [] && AllPlainly(parts)
    ensures Join(parts) != "" && IsTrimmed(Join(parts)) && Join(parts)[0] == parts[0][0]
    decreases |parts|
  {
    assert Plainly(parts[0]);
    if |parts| > 1 {
      JoinPlainly(parts[1..]);
    }
  }

  lemma TrimmedFirst(first: string, rest: seq<string>)
    ensures Trimmed([first] + rest) == [Trim(first)] + Trimmed(rest)
  {
  }

  /** A plain part with white space in front. */
  lemma PaddedPart(w: string, first: string)
    requires Plainly(first) && (w == "" || w == " ")
    ensures NoComma(w + first) && Trim(w + first) == first
  {
    TrimIs(w, first, "");
    assert w + first + "" == w + first;
  }

  lemma JoinUnfold(w: string, parts: seq<string>)
    requires parts != []
    ensures if |parts| == 1 then w + Join(parts) == w + parts[0]
      else w + Join(parts) == (w + parts[0]) + "," + (" " + Join(parts[1..]))
  {
    if |parts| > 1 {
      assert ", " == "," + " ";
    }
  }

  lemma PlainlyParts(parts: seq<string>)
    requires parts != [] && AllPlainly(parts)
    ensures Plainly(parts[0]) && AllPlainly(parts[1..])
  {
    hide Plainly;
  }

  lemma SplitMore(first: string, more: string, parts: seq<string>)
    requires NoComma(first) && Trimmed(Split(more)) == parts
    ensures Trimmed(Split(first + "," + more)) == [Trim(first)] + parts
  {
    hide Split, Trim, Trimmed, NoComma;
    SplitAt(first, more);
    TrimmedFirst(first, Split(more));
  }

  /** Splitting a joined list gives its parts back, up to the space behind each comma. */
  lemma {:induction false} SplitJoin(w: string, parts: seq<string>)
    requires parts != [] && AllPlainly(parts) && (w == "" || w == " ")
    ensures Trimmed(Split(w + Join(parts))) == parts
    decreases |parts|
  {
    PlainlyParts(parts);
    PaddedPart(w, parts[0]);
    JoinUnfold(w, parts);
    hide Split, Trim, Trimmed, NoComma, Plainly, AllPlainly, Join;
    if |parts| == 1 {
      SplitNone(w + parts[0]);
      TrimmedOne(w + parts[0]);
    } else {
      SplitJoin(" ", parts[1..]);
      SplitMore(w + parts[0], " " + Join(parts[1..]), parts[1..]);
    }
  }

  lemma TrimmedOne(part: string)
    ensures Trimmed([part]) == [Trim(part)]
  {
  }

  // ----- The theorem -----

  /** The selectors of a rule, as they are printed. */
  lemma ListCompiled(p: string, scope: string)
    requires GoodScope(scope) && Selectors(Split(p)) != []
    ensures var sel := PrefixSelectors(p, scope);
      sel != "" && Trim(sel) == sel && ScopedList(p, sel, scope)
  {
    hide Split, Selectors, PrefixAll, GoodScope, ScopedAs;
    SplitParts(p);
    PrefixAllAs(Split(p), scope);
    var outs := PrefixAll(Split(p), scope);
    JoinPlainly(outs);
    TrimmedStays(Join(outs));
    SplitJoin("", outs);
    assert "" + Join(outs) == Join(outs);
  }

  lemma NothingCompiled(p: string, scope: string)
    requires GoodScope(scope) && Selectors(Split(p)) == []
    ensures PrefixSelectors(p, scope) == ""
  {
    hide Split, Selectors, PrefixAll, GoodScope, ScopedAs;
    SplitParts(p);
    PrefixAllAs(Split(p), scope);
  }

  /** What the first block of the output has to be for the first rule of the source. */
  predicate RuleCompiled(rule: Rule, out: string, scope: string) {
    var p := Trim(rule.prelude);
    Opens(out) != -1 &&
    match rule
    case Verbatim(_, body) => Opaque(p) && Prelude(out) == p && Trim(Inside(out)) == Trim(body)
    case Group(_, inner) => !Opaque(p) && Grouping(p) && Prelude(out) == p && Compiled(Text(inner), Inside(out), scope)
    case Plain(_, body) =>
      && !Opaque(p) && !Grouping(p) && Selectors(Split(p)) != [] && Trim(body) != ""
      && ScopedList(p, Prelude(out), scope) && Trim(Inside(out)) == Trim(body)
  }

  /** A printed block, read again. */
  lemma Printed(out: string, left: string, q: string, inside: string, rest: string)
    requires out == left + (q + " {" + inside + "}\n") + rest
    requires AllSpace(left) && NoBraces(q) && IsTrimmed(q) && Balanced(inside)
    ensures Opens(out) != -1 && Prelude(out) == q && Inside(out) == inside && Behind(out) == "\n" + rest
  {
    SpaceNoBraces(left);
    TrimIs(left, q, " ");
    assert out == (left + q + " ") + "{" + inside + "}" + ("\n" + rest);
    ReadBlock(out, left + q + " ", inside, "\n" + rest);
  }

  lemma PreludeTrimmed(rule: Rule)
    requires RuleOk(rule)
    ensures NoBraces(Trim(rule.prelude)) && IsTrimmed(Trim(rule.prelude))
  {
    TrimNoBraces(rule.prelude);
    var l, r := TrimParts(rule.prelude);
  }

  lemma VerbatimPrinted(rule: Rule, scope: string, left: string, rest: string)
    requires rule.Verbatim? && RuleOk(rule) && AllSpace(left)
    ensures var out := left + PrintRule(rule, scope) + rest;
      RuleCompiled(rule, out, scope) && Behind(out) == "\n" + rest
  {
    var p, body := Trim(rule.prelude), rule.body;
    var out := left + PrintRule(rule, scope) + rest;
    KindMeans(p);
    PreludeTrimmed(rule);
    PaddedBalanced(" ", body, " ");
    hide Opaque, Grouping, Opens, Prelude, Inside, Behind, Trim, Balanced, NoBraces;
    assert p + " { " + body + " }\n" == p + " {" + (" " + body + " ") + "}\n";
    Printed(out, left, p, " " + body + " ", rest);
    TrimPadded(" ", body, " ");
  }

  lemma PaddedBalanced(l: string, body: string, r: string)
    requires NoBraces(l) && NoBraces(r) && Balanced(body)
    ensures Balanced(l + body + r)
  {
    DepthOfNoBraces(l, 0);
    DepthOfNoBraces(r, 0);
    BalancedConcat(l, body);
    BalancedConcat(l + body, r);
  }

  lemma GroupPrinted(rule: Rule, scope: string, left: string, rest: string)
    requires rule.Group? && RuleOk(rule) && AllSpace(left) && NoBraces(scope)
    requires Compiled(Text(rule.inner), "\n" + PrintSheet(rule.inner, scope) + "\n", scope)
    ensures var out := left + PrintRule(rule, scope) + rest;
      RuleCompiled(rule, out, scope) && Behind(out) == "\n" + rest
  {
    var p, inner := Trim(rule.prelude), PrintSheet(rule.inner, scope);
    var out := left + PrintRule(rule, scope) + rest;
    KindMeans(p);
    PreludeTrimmed(rule);
    PrintBalanced(rule.inner, scope);
    hide Opaque, Grouping, Opens, Prelude, Inside, Behind, Trim, Compiled, PrintSheet, Text, Balanced, WellFormed;
    InnerBalanced(inner);
    hide NoBraces;
    assert p + " {\n" + inner + "\n}\n" == p + " {" + ("\n" + inner + "\n") + "}\n";
    Printed(out, left, p, "\n" + inner + "\n", rest);
  }

  lemma InnerBalanced(inner: string)
    requires Balanced(inner)
    ensures Balanced("\n" + inner + "\n")
  {
    PaddedBalanced("\n", inner, "\n");
  }

  lemma PlainPrinted(rule: Rule, scope: string, left: string, rest: string)
    requires rule.Plain? && RuleOk(rule) && AllSpace(left) && GoodScope(scope)
    requires Selectors(Split(Trim(rule.prelude))) != [] && Trim(rule.body) != ""
    ensures var out := left + PrintRule(rule, scope) + rest;
      RuleCompiled(rule, out, scope) && Behind(out) == "\n" + rest
  {
    var p, decl := Trim(rule.prelude), Trim(rule.body);
    var sel := PrefixSelectors(p, scope);
    var out := left + PrintRule(rule, scope) + rest;
    KindMeans(p);
    PreludeTrimmed(rule);
    PlainList(p, scope);
    DeclarationsPadded(rule.body);
    hide Opaque, Grouping, Opens, Prelude, Inside, Behind, Trim, Balanced, ScopedList, PrefixSelectors, Selectors;
    hide Split, NoBraces, GoodScope;
    RegroupRule(sel, decl);
    Printed(out, left, sel, "\n  " + decl + "\n", rest);
  }

  lemma RegroupRule(sel: string, decl: string)
    ensures sel + " {\n  " + decl + "\n}\n" == sel + " {" + ("\n  " + decl + "\n") + "}\n"
  {
  }

  lemma PlainList(p: string, scope: string)
    requires GoodScope(scope) && Selectors(Split(p)) != [] && NoBraces(p)
    ensures var sel := PrefixSelectors(p, scope);
      sel != "" && IsTrimmed(sel) && NoBraces(sel) && ScopedList(p, sel, scope)
  {
    ListCompiled(p, scope);
    SelectorListNoBraces(p, scope);
    var l, r := TrimParts(PrefixSelectors(p, scope));
  }

  lemma DeclarationsPadded(body: string)
    requires Balanced(body)
    ensures var inside := "\n  " + Trim(body) + "\n"; Balanced(inside) && Trim(inside) == Trim(body)
  {
    TrimBalanced(body);
    PaddedBalanced("\n  ", Trim(body), "\n");
    var l, r := TrimParts(body);
    TrimIs("\n  ", Trim(body), "\n");
  }

  /** A rule without a selector or without declarations prints nothing. */
  lemma NothingPrinted(rule: Rule, scope: string)
    requires rule.Plain? && RuleOk(rule) && GoodScope(scope)
    requires Selectors(Split(Trim(rule.prelude))) == [] || Trim(rule.body) == ""
    ensures PrintRule(rule, scope) == ""
    ensures !Shows(Trim(rule.prelude), rule.body)
  {
    KindMeans(Trim(rule.prelude));
    hide Opaque, Grouping, Trim, PrefixSelectors, Split;
    if Selectors(Split(Trim(rule.prelude))) == [] {
      NothingCompiled(Trim(rule.prelude), scope);
    }
  }

  lemma SourceRead(rule: Rule, rest: Sheet)
    requires RuleOk(rule)
    ensures var css := Text(Next(rule, rest));
      Opens(css) != -1 && Prelude(css) == Trim(rule.prelude) && Inside(css) == Body(rule) && Behind(css) == Text(rest)
  {
    BodyBalanced(rule);
    assert Text(Next(rule, rest)) == RuleSource(rule) + Text(rest);
    ReadBlock(Text(Next(rule, rest)), rule.prelude, Body(rule), Text(rest));
  }

  lemma StepCompiled(rule: Rule, rest: Sheet, out: string, scope: string)
    requires RuleOk(rule) && RuleCompiled(rule, out, scope) && Compiled(Text(rest), Behind(out), scope)
    ensures Compiled(Text(Next(rule, rest)), out, scope)
  {
    SourceRead(rule, rest);
    hide Opaque, Grouping, Opens, Prelude, Inside, Behind, Trim, ScopedList, Selectors, Split, Text, RuleOk;
  }

  lemma SkipCompiled(rule: Rule, rest: Sheet, out: string, scope: string)
    requires RuleOk(rule) && !Shows(Trim(rule.prelude), Body(rule)) && Compiled(Text(rest), out, scope)
    ensures Compiled(Text(Next(rule, rest)), out, scope)
  {
    SourceRead(rule, rest);
    hide Opaque, Grouping, Opens, Prelude, Inside, Behind, Trim, ScopedList, Selectors, Split, Text, RuleOk;
  }

  lemma EndCompiled(tail: string, out: string, scope: string)
    requires NoBraces(tail) && AllSpace(out)
    ensures Compiled(tail, out, scope)
  {
    TrimIs(out, "", "");
    assert out + "" + "" == out;
  }

  lemma {:induction false} SheetCompiled(sheet: Sheet, scope: string, left: string, right: string)
    requires WellFormed(sheet) && GoodScope(scope) && AllSpace(left) && AllSpace(right)
    ensures Compiled(Text(sheet), left + PrintSheet(sheet, scope) + right, scope)
  {
    hide Compiled, RuleCompiled, Behind, Shows, Selectors, Split, Trim, PrintRule, GoodScope;
    match sheet
    case End(tail) => EndCompiled(tail, left + "" + right, scope);
    case Next(rule, rest) =>
      var out, more := left + PrintSheet(sheet, scope) + right, PrintSheet(rest, scope) + right;
      assert out == left + PrintRule(rule, scope) + more;
      if rule.Plain? && (Selectors(Split(Trim(rule.prelude))) == [] || Trim(rule.body) == "") {
        NothingPrinted(rule, scope);
        SheetCompiled(rest, scope, left, right);
        assert out == left + PrintSheet(rest, scope) + right;
        SkipCompiled(rule, rest, out, scope);
      } else {
        SheetCompiled(rest, scope, "\n", right);
        assert "\n" + more == "\n" + PrintSheet(rest, scope) + right;
        RulePrinted(rule, scope, left, more);
        StepCompiled(rule, rest, out, scope);
      }
  }

  lemma {:induction false} RulePrinted(rule: Rule, scope: string, left: string, more: string)
    requires RuleOk(rule) && GoodScope(scope) && AllSpace(left)
    requires rule.Plain? ==> Selectors(Split(Trim(rule.prelude))) != [] && Trim(rule.body) != ""
    ensures var out := left + PrintRule(rule, scope) + more;
      RuleCompiled(rule, out, scope) && Behind(out) == "\n" + more
  {
    hide Compiled, RuleCompiled, Behind, Selectors, Split, Trim, PrintRule;
    match rule
    case Verbatim(_, _) => VerbatimPrinted(rule, scope, left, more);
    case Group(_, inner) =>
      SheetCompiled(inner, scope, "\n", "\n");
      GroupPrinted(rule, scope, left, more);
    case Plain(_, _) => PlainPrinted(rule, scope, left, more);
  }

  /** What is compiled is what the sanitiser makes of the style sheet. */
  lemma SanitisedFirst(css: string, scopeSelector: string, san: string -> string)
    requires NeverLengthens(san) && Trim(css) != "" && san(san(css)) == san(css)
    ensures Scoped(css, scopeSelector, san) == Scoped(san(css), scopeSelector, san)
  {
    hide RuleText;
    TrimShortens(san(css));
  }

  /**
   On every style sheet that is balanced and without comments when the sanitiser is done with it, the output is the
   sanitised source under the scope, block by block, and no selector in it reaches outside.
   */
  lemma OutputIsScoped(css: string, scopeSelector: string, san: string -> string)
    requires GoodSanitiser(san) && san(san(css)) == san(css) && Balanced(san(css)) && NoComment(san(css))
    requires GoodScope(Trim(scopeSelector)) && Trim(css) != ""
    ensures Compiled(san(css), Scoped(css, scopeSelector, san), Trim(scopeSelector))
    ensures Confined(Scoped(css, scopeSelector, san), Trim(scopeSelector))
  {
    hide Compiled, Scoped, PrintSheet, GoodScope, Confined, Trim;
    var clean, out := san(css), Scoped(css, scopeSelector, san);
    SanitisedFirst(css, scopeSelector, san);
    ScopeCssCorrect(clean, scopeSelector, san);
    SheetCompiled(Parse(clean), Trim(scopeSelector), "", "");
    assert "" + out + "" == out;
    CompiledIsConfined(clean, out, Trim(scopeSelector));
  }
}

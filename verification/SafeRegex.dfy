/** Regular expressions of form fields: the pattern check of the service, and its guarded test. */
module SafeRegex {
  /** The engine of the host language: which patterns it can compile, and whether a text matches one of those. */
  datatype Engine = Engine(compiles: string -> bool, test: (string, string) -> bool)

  predicate Repeats(p: string, i: nat) {
    i < |p| && (p[i] == '+' || p[i] == '*')
  }

  predicate Lacks(p: string, i: nat, j: nat, c: char)
    requires j <= |p|
  {
    forall k :: i <= k < j ==> p[k] != c
  }

  /** A count with no upper bound, such as `{2,}`, whose comma is at `j`. */
  predicate OpenCount(p: string, i: nat, j: nat) {
    && i + 1 < j && j + 1 < |p| && p[i] == '{' && p[j] == ',' && p[j + 1] == '}'
    && forall k :: i < k < j ==> '0' <= p[k] <= '9'
  }

  predicate OpenCountAt(p: string, i: nat) {
    exists j :: i <= j < |p| && OpenCount(p, i, j)
  }

  /** A group from `i` to `j` that ends in a repetition. */
  predicate RepeatingGroup(p: string, i: nat, j: nat) {
    i + 1 < j < |p| && p[i] == '(' && p[j] == ')' && Repeats(p, j - 1) && Lacks(p, i + 1, j, ')')
  }

  /** A character class from `i` to `j`. */
  predicate CharacterClass(p: string, i: nat, j: nat) {
    i < j < |p| && p[i] == '[' && p[j] == ']' && Lacks(p, i + 1, j, ']')
  }

  /** The three shapes of nested repetition that are not let through. */
  predicate Dangerous(p: string) {
    || (exists i, j :: 0 <= i < |p| && 0 <= j < |p| && RepeatingGroup(p, i, j)
          && (Repeats(p, j + 1) || OpenCountAt(p, j + 1)))
    || (exists i, j :: 0 <= i < |p| && 0 <= j < |p| && CharacterClass(p, i, j)
          && Repeats(p, j + 1) && OpenCountAt(p, j + 2))
  }

  predicate ValidPattern(e: Engine, p: string) {
    0 < |p| <= 250 && !Dangerous(p) && e.compiles(p)
  }

  /** The service gets as far as testing the text. */
  predicate Testable(e: Engine, p: string, input: string, maxInputLength: nat) {
    |input| <= maxInputLength && ValidPattern(e, p)
  }

  predicate SafeTest(e: Engine, p: string, input: string, maxInputLength: nat) {
    Testable(e, p, input, maxInputLength) && e.test(p, input)
  }

  predicate Repeat(c: char) {
    c == '+' || c == '*'
  }

  predicate Digits(d: string) {
    d != "" && forall i :: 0 <= i < |d| ==> '0' <= d[i] <= '9'
  }

  predicate Free(s: string, c: char) {
    forall i :: 0 <= i < |s| ==> s[i] != c
  }

  /** A group that ends in a repetition and is repeated itself, wherever it stands. */
  lemma RepeatedGroupIsDangerous(a: string, b: string, inner: char, outer: char, c: string)
    requires Free(b, ')') && Repeat(inner) && Repeat(outer)
    ensures Dangerous(a + "(" + b + [inner] + ")" + [outer] + c)
  {
    var p := a + "(" + b + [inner] + ")" + [outer] + c;
    var j := |a| + |b| + 2;
    assert forall k :: |a| < k < j - 1 ==> p[k] == b[k - |a| - 1];
    assert RepeatingGroup(p, |a|, j) && Repeats(p, j + 1);
  }

  /** The same with an open count behind the group. */
  lemma CountedGroupIsDangerous(a: string, b: string, inner: char, d: string, c: string)
    requires Free(b, ')') && Repeat(inner) && Digits(d)
    ensures Dangerous(a + "(" + b + [inner] + ")" + "{" + d + ",}" + c)
  {
    var p := a + "(" + b + [inner] + ")" + "{" + d + ",}" + c;
    var j := |a| + |b| + 2;
    assert forall k :: |a| < k < j - 1 ==> p[k] == b[k - |a| - 1];
    assert RepeatingGroup(p, |a|, j);
    assert forall k :: j + 1 < k < j + 2 + |d| ==> p[k] == d[k - j - 2];
    assert OpenCount(p, j + 1, j + 2 + |d|);
  }

  /** A repeated character class with an open count. */
  lemma CountedClassIsDangerous(a: string, b: string, inner: char, d: string, c: string)
    requires Free(b, ']') && Repeat(inner) && Digits(d)
    ensures Dangerous(a + "[" + b + "]" + [inner] + "{" + d + ",}" + c)
  {
    var p := a + "[" + b + "]" + [inner] + "{" + d + ",}" + c;
    var j := |a| + |b| + 1;
    assert forall k :: |a| < k < j ==> p[k] == b[k - |a| - 1];
    assert CharacterClass(p, |a|, j) && Repeats(p, j + 1);
    assert forall k :: j + 2 < k < j + 3 + |d| ==> p[k] == d[k - j - 3];
    assert OpenCount(p, j + 2, j + 3 + |d|);
  }

  /** Without two repetitions, or one and an open count, a pattern is let through. */
  lemma DangerousRepeats(p: string)
    requires Dangerous(p)
    ensures exists i: nat, j: nat :: i < j && j < |p| && Repeats(p, i) && (Repeats(p, j) || p[j] == '{')
  {
    if i, j :| 0 <= i < |p| && 0 <= j < |p| && RepeatingGroup(p, i, j) && (Repeats(p, j + 1) || OpenCountAt(p, j + 1)) {
      assert Repeats(p, j - 1) && (Repeats(p, j + 1) || p[j + 1] == '{');
    } else {
      var i, j :| 0 <= i < |p| && 0 <= j < |p| && CharacterClass(p, i, j)
        && Repeats(p, j + 1) && OpenCountAt(p, j + 2);
      assert Repeats(p, j + 1) && p[j + 2] == '{';
    }
  }

  lemma StarOfPlusIsDangerous()
    ensures Dangerous("^([a-z]+)*$")
  {
    assert RepeatingGroup("^([a-z]+)*$", 1, 8) && Repeats("^([a-z]+)*$", 9);
  }
}

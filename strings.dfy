/**
 * String helpers with .NET semantics: `char.IsWhiteSpace`, `string.IsNullOrWhiteSpace`,
 * `string.Trim`, `StartsWith`, ordinal comparison, `string.Join` and `string.Split` on one
 * separator character. A null string is represented by the empty string: every check of the
 * source that accepts null treats it exactly like "".
 */
module Strings {

  /** `char.IsWhiteSpace`: the Unicode space, line and paragraph separators, TAB..CR and NEL. */
  predicate IsWhiteSpace(c: char) {
    var k := c as int;
    (0x09 <= k <= 0x0D) || k == 0x20 || k == 0x85 || k == 0xA0 || k == 0x1680 ||
    (0x2000 <= k <= 0x200A) || k == 0x2028 || k == 0x2029 || k == 0x202F || k == 0x205F || k == 0x3000
  }

  /** `string.IsNullOrWhiteSpace`. */
  predicate IsBlank(s: string) {
    forall i :: 0 <= i < |s| ==> IsWhiteSpace(s[i])
  }

  /** `StartsWith` with ordinal comparison. */
  predicate StartsWith(s: string, prefix: string) {
    |prefix| <= |s| && s[..|prefix|] == prefix
  }

  /** Drops leading white space. */
  function TrimStart(s: string): (r: string)
    ensures |r| <= |s| && r == s[|s| - |r|..]
    ensures forall i :: 0 <= i < |s| - |r| ==> IsWhiteSpace(s[i])
    ensures forall i :: |s| - |r| <= i < |s| ==> s[i] == r[i - (|s| - |r|)]
    ensures r == [] || !IsWhiteSpace(r[0])
  {
    if |s| > 0 && IsWhiteSpace(s[0]) then TrimStart(s[1..]) else s
  }

  /** Drops trailing white space. */
  function TrimEnd(s: string): (r: string)
    ensures |r| <= |s| && r == s[..|r|]
    ensures forall i :: |r| <= i < |s| ==> IsWhiteSpace(s[i])
    ensures r == [] || !IsWhiteSpace(r[|r| - 1])
  {
    if |s| > 0 && IsWhiteSpace(s[|s| - 1]) then TrimEnd(s[..|s| - 1]) else s
  }

  /** `string.Trim()`: white space removed at both ends. The result is a stretch of the input
      with only white space on either side of it. */
  function Trim(s: string): (r: string)
    ensures exists k :: TrimmedAt(s, r, k)
  {
    TrimPieces(s, TrimStart(s), TrimEnd(TrimStart(s)));
    TrimEnd(TrimStart(s))
  }

  /** `r` is the stretch of `s` from `k` on, with only white space on either side of it. */
  predicate TrimmedAt(s: string, r: string, k: int) {
    0 <= k <= |s| - |r| && r == s[k..k + |r|] &&
    (forall i :: 0 <= i < k ==> IsWhiteSpace(s[i])) &&
    (forall i :: k + |r| <= i < |s| ==> IsWhiteSpace(s[i]))
  }

  /** Trimming the start and then the end leaves a stretch of the input between white space. */
  lemma TrimPieces(s: string, t: string, r: string)
    requires |t| <= |s| && t == s[|s| - |t|..]
    requires forall i :: 0 <= i < |s| - |t| ==> IsWhiteSpace(s[i])
    requires |r| <= |t| && r == t[..|r|]
    requires forall i :: |r| <= i < |t| ==> IsWhiteSpace(t[i])
    ensures TrimmedAt(s, r, |s| - |t|)
  {
    var k := |s| - |t|;
    assert r == s[k..k + |r|];
    forall i | k + |r| <= i < |s|
      ensures IsWhiteSpace(s[i])
    {
      assert s[i] == t[i - k];
    }
  }

  /** The trimmed string has no white space at either end, and is empty exactly when the input
      is blank. */
  lemma TrimSpec(s: string)
    ensures Trim(s) == [] || (!IsWhiteSpace(Trim(s)[0]) && !IsWhiteSpace(Trim(s)[|Trim(s)| - 1]))
    ensures Trim(s) == [] <==> IsBlank(s)
  {
    var t := TrimStart(s);
    var r := TrimEnd(t);
    var k := |s| - |t|;
    if r != [] {
      assert r[0] == t[0] == s[k];
    }
  }

  /** The order `string.CompareOrdinal(a, b) <= 0` stands for: lexicographic on characters,
      a proper prefix first. A `char` here is a code point, while `CompareOrdinal` compares
      UTF-16 code units. */
  predicate OrdinalLe(a: string, b: string)
    decreases |a|
  {
    if |a| == 0 then true
    else if |b| == 0 then false
    else if a[0] != b[0] then a[0] < b[0]
    else OrdinalLe(a[1..], b[1..])
  }

  lemma {:induction false} OrdinalLeTotal(a: string, b: string)
    ensures OrdinalLe(a, b) || OrdinalLe(b, a)
    decreases |a|
  {
    if |a| > 0 && |b| > 0 && a[0] == b[0] {
      OrdinalLeTotal(a[1..], b[1..]);
    }
  }

  lemma {:induction false} OrdinalLeTransitive(a: string, b: string, c: string)
    requires OrdinalLe(a, b) && OrdinalLe(b, c)
    ensures OrdinalLe(a, c)
    decreases |a|
  {
    if |a| > 0 && |b| > 0 && |c| > 0 && a[0] == b[0] && b[0] == c[0] {
      OrdinalLeTransitive(a[1..], b[1..], c[1..]);
    }
  }

  lemma {:induction false} OrdinalLeAntisymmetric(a: string, b: string)
    requires OrdinalLe(a, b) && OrdinalLe(b, a)
    ensures a == b
    decreases |a|
  {
    if |a| > 0 && |b| > 0 {
      OrdinalLeAntisymmetric(a[1..], b[1..]);
      assert a == [a[0]] + a[1..] && b == [b[0]] + b[1..];
    }
  }

  /** `string.Join(sep, parts)`: the first part, then each further part after one separator. */
  function Join(parts: seq<string>, sep: char): (r: string)
    ensures |parts| > 0 ==> StartsWith(r, parts[0])
    ensures |parts| > 1 ==> |parts[0]| < |r| && r[|parts[0]|] == sep
    decreases |parts|
  {
    if |parts| == 0 then ""
    else if |parts| == 1 then parts[0]
    else parts[0] + [sep] + Join(parts[1..], sep)
  }

  /** Joining one more part adds a separator and the part at the end. */
  lemma {:induction false} JoinSnoc(parts: seq<string>, x: string, sep: char)
    requires |parts| >= 1
    ensures Join(parts + [x], sep) == Join(parts, sep) + [sep] + x
    decreases |parts|
  {
    if |parts| > 1 {
      assert (parts + [x])[1..] == parts[1..] + [x];
      JoinSnoc(parts[1..], x, sep);
    }
  }

  /** `StringBuilder.AppendLine` of each string in turn, with `\n` as the line break: empty
      for no strings, and otherwise ending with the last string and a line break. */
  function Lines(ls: seq<string>): (r: string)
    ensures r == [] <==> |ls| == 0
    ensures |ls| > 0 ==> r[|r| - 1] == '\n'
    ensures |ls| > 0 && |ls[|ls| - 1]| > 0 ==> |r| >= 2 && r[|r| - 2] == ls[|ls| - 1][|ls[|ls| - 1]| - 1]
  {
    if |ls| == 0 then [] else Lines(ls[..|ls| - 1]) + ls[|ls| - 1] + "\n"
  }

  /** The lines are the strings joined by line breaks, with an empty rest after the last one. */
  lemma {:induction false} LinesIsJoin(ls: seq<string>)
    ensures Lines(ls) == Join(ls + [""], '\n')
  {
    if |ls| > 0 {
      var pre := ls[..|ls| - 1];
      var last := ls[|ls| - 1];
      LinesIsJoin(pre);
      assert ls + [""] == pre + [last] + [""];
      if |pre| == 0 {
        assert pre + [last] + [""] == [last, ""];
        assert Join([""], '\n') == "";
      } else {
        JoinSnoc(pre, "", '\n');
        JoinSnoc(pre + [last], "", '\n');
        JoinSnoc(pre, last, '\n');
      }
    }
  }

  /** Strings without line breaks come back, one per line, when the lines are split at the
      line breaks, followed by the empty rest after the last one. */
  lemma LinesSplit(ls: seq<string>)
    requires forall i :: 0 <= i < |ls| ==> '\n' !in ls[i]
    ensures Split(Lines(ls), '\n') == ls + [""]
  {
    LinesIsJoin(ls);
    var parts := ls + [""];
    forall i | 0 <= i < |parts|
      ensures '\n' !in parts[i]
    {
      if i < |ls| {
        assert parts[i] == ls[i];
      }
    }
    SplitJoin(parts, '\n');
  }

  /** `string.Split(sep)`: the pieces between separators; never an empty list. */
  function Split(s: string, sep: char): (parts: seq<string>)
    ensures |parts| >= 1
    ensures forall i :: 0 <= i < |parts| ==> sep !in parts[i]
    decreases |s|
  {
    if sep !in s then [s]
    else
      var i := FirstIndex(s, sep);
      [s[..i]] + Split(s[i + 1..], sep)
  }

  function FirstIndex(s: string, c: char): (i: nat)
    requires c in s
    ensures i < |s| && s[i] == c && c !in s[..i]
  {
    if s[0] == c then 0 else 1 + FirstIndex(s[1..], c)
  }

  lemma {:induction false} FirstIndexAfterPrefix(a: string, c: char, b: string)
    requires c !in a
    ensures c in a + [c] + b && FirstIndex(a + [c] + b, c) == |a|
  {
    if a != [] {
      assert (a + [c] + b)[1..] == a[1..] + [c] + b;
      FirstIndexAfterPrefix(a[1..], c, b);
    }
  }

  /** Splitting a joined list gives the list back when no part contains the separator. */
  lemma {:induction false} SplitJoin(parts: seq<string>, sep: char)
    requires |parts| >= 1
    requires forall i :: 0 <= i < |parts| ==> sep !in parts[i]
    ensures Split(Join(parts, sep), sep) == parts
    decreases |parts|
  {
    if |parts| > 1 {
      var p0 := parts[0];
      var rest := Join(parts[1..], sep);
      var j := Join(parts, sep);
      assert j == p0 + [sep] + rest;
      FirstIndexAfterPrefix(p0, sep, rest);
      assert j[..|p0|] == p0;
      assert j[|p0| + 1..] == rest;
      assert Split(j, sep) == [p0] + Split(rest, sep);
      SplitJoin(parts[1..], sep);
      assert parts == [p0] + parts[1..];
    }
  }
}

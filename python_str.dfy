/**
 * The handful of Python `str` operations the assistants apply to console lines
 * and to the agent's captured stdout: `lower()`, `isspace()`/`strip()`,
 * the substring test `t in s`, and `split(sep)` on a one-character separator.
 */
module PyStr {

  // ---------------------------------------------------------------- lower()

  /** Lower-casing of one character; only the ASCII letters are mapped. */
  function LowerChar(c: char): char {
    if 'A' <= c <= 'Z' then (c as int + 32) as char else c
  }

  /** `s.lower()`, character by character. */
  function Lower(s: string): (r: string)
    ensures |r| == |s|
    ensures forall i :: 0 <= i < |s| ==> r[i] == LowerChar(s[i])
  {
    seq(|s|, i requires 0 <= i < |s| => LowerChar(s[i]))
  }

  lemma LowerConcat(a: string, b: string)
    ensures Lower(a + b) == Lower(a) + Lower(b)
  {
    assert forall i :: 0 <= i < |a + b| ==> Lower(a + b)[i] == (Lower(a) + Lower(b))[i];
  }

  // ------------------------------------------------------ isspace(), strip()

  /** `c.isspace()`: the 29 characters Python treats as whitespace. */
  predicate IsSpace(c: char) {
    var n := c as int;
    (0x09 <= n <= 0x0D) || (0x1C <= n <= 0x20) || n == 0x85 || n == 0xA0 || n == 0x1680
    || (0x2000 <= n <= 0x200A) || n == 0x2028 || n == 0x2029 || n == 0x202F || n == 0x205F
    || n == 0x3000
  }

  predicate AllSpace(s: string) {
    forall i :: 0 <= i < |s| ==> IsSpace(s[i])
  }

  /** Lower-casing leaves whitespace alone and never produces any. */
  lemma LowerKeepsSpace(s: string)
    ensures AllSpace(Lower(s)) <==> AllSpace(s)
    ensures AllSpace(s) ==> Lower(s) == s
  {
  }

  lemma AllSpaceConcat(x: string, y: string)
    ensures AllSpace(x + y) <==> AllSpace(x) && AllSpace(y)
  {
    if AllSpace(x + y) {
      assert forall k :: 0 <= k < |y| ==> y[k] == (x + y)[|x| + k];
      assert forall k :: 0 <= k < |x| ==> x[k] == (x + y)[k];
    }
  }

  /** `s.lstrip()`: drops leading whitespace one character at a time. */
  function LStrip(s: string): string {
    if s != [] && IsSpace(s[0]) then LStrip(s[1..]) else s
  }

  /** `s.rstrip()`: drops trailing whitespace one character at a time. */
  function RStrip(s: string): string {
    if s != [] && IsSpace(s[|s| - 1]) then RStrip(s[..|s| - 1]) else s
  }

  /** `s.strip()`; StripIsTrimmedInfix and StripIgnoresPadding say what it returns. */
  function Strip(s: string): string {
    RStrip(LStrip(s))
  }

  /** `lstrip()` leaves a suffix that starts with non-whitespace, after a whitespace prefix. */
  lemma {:induction false} LStripIsSuffix(s: string)
    ensures |LStrip(s)| <= |s| && s[|s| - |LStrip(s)|..] == LStrip(s)
    ensures AllSpace(s[..|s| - |LStrip(s)|])
    ensures LStrip(s) != [] ==> !IsSpace(LStrip(s)[0])
  {
    if s != [] && IsSpace(s[0]) {
      var t := s[1..];
      LStripIsSuffix(t);
      var k := |t| - |LStrip(t)|;
      assert s[1 + k..] == t[k..];
      assert s[..1 + k] == [s[0]] + t[..k];
      AllSpaceConcat([s[0]], t[..k]);
    }
  }

  /** `rstrip()` leaves a prefix that ends with non-whitespace, before a whitespace suffix. */
  lemma {:induction false} RStripIsPrefix(s: string)
    ensures |RStrip(s)| <= |s| && s[..|RStrip(s)|] == RStrip(s)
    ensures AllSpace(s[|RStrip(s)|..])
    ensures RStrip(s) != [] ==> !IsSpace(RStrip(s)[|RStrip(s)| - 1])
  {
    if s != [] && IsSpace(s[|s| - 1]) {
      var t := s[..|s| - 1];
      RStripIsPrefix(t);
      var k := |RStrip(t)|;
      assert s[..k] == t[..k];
      assert s[k..] == t[k..] + [s[|s| - 1]];
      AllSpaceConcat(t[k..], [s[|s| - 1]]);
    }
  }

  /**
   * `s.strip()` is empty exactly when `s` is all whitespace, and otherwise it
   * begins and ends with non-whitespace.
   */
  lemma StripIsTrimmedInfix(s: string)
    ensures Strip(s) == [] <==> AllSpace(s)
    ensures Strip(s) != [] ==> !IsSpace(Strip(s)[0]) && !IsSpace(Strip(s)[|Strip(s)| - 1])
  {
    var a, b := StripRemovesOnlySpace(s);
    var l := LStrip(s);
    var r := RStrip(l);
    LStripIsSuffix(s);
    RStripIsPrefix(l);
    if r == [] {
      assert s == a + b;
      AllSpaceConcat(a, b);
    } else {
      assert r[0] == l[0];
      assert s[|a|] == r[0];
    }
  }

  /** What `strip()` removes from either end of `s` is whitespace. */
  lemma StripRemovesOnlySpace(s: string) returns (a: string, b: string)
    ensures AllSpace(a) && AllSpace(b) && s == a + Strip(s) + b
  {
    var l := LStrip(s);
    LStripIsSuffix(s);
    RStripIsPrefix(l);
    a, b := s[..|s| - |l|], l[|RStrip(l)|..];
    assert s == a + l && l == RStrip(l) + b;
  }

  lemma {:induction false} LStripAllSpace(s: string)
    requires AllSpace(s)
    ensures LStrip(s) == []
  {
    if s != [] {
      LStripAllSpace(s[1..]);
    }
  }

  lemma {:induction false} LStripSkipsSpace(a: string, s: string)
    requires AllSpace(a)
    ensures LStrip(a + s) == LStrip(s)
  {
    if a == [] {
      assert a + s == s;
    } else {
      assert (a + s)[0] == a[0] && (a + s)[1..] == a[1..] + s;
      LStripSkipsSpace(a[1..], s);
    }
  }

  lemma {:induction false} LStripKeepsTail(s: string, b: string)
    requires !AllSpace(s)
    ensures LStrip(s + b) == LStrip(s) + b
  {
    if IsSpace(s[0]) {
      assert (s + b)[1..] == s[1..] + b;
      LStripKeepsTail(s[1..], b);
    }
  }

  lemma {:induction false} RStripSkipsSpace(s: string, b: string)
    requires AllSpace(b)
    ensures RStrip(s + b) == RStrip(s)
  {
    if b == [] {
      assert s + b == s;
    } else {
      assert (s + b)[|s + b| - 1] == b[|b| - 1] && (s + b)[..|s + b| - 1] == s + b[..|b| - 1];
      RStripSkipsSpace(s, b[..|b| - 1]);
    }
  }

  /** Whitespace added around a string never changes what `strip()` returns. */
  lemma StripIgnoresPadding(a: string, s: string, b: string)
    requires AllSpace(a) && AllSpace(b)
    ensures Strip(a + s + b) == Strip(s)
  {
    assert a + s + b == a + (s + b);
    LStripSkipsSpace(a, s + b);
    if AllSpace(s) {
      AllSpaceConcat(s, b);
      LStripAllSpace(s + b);
      LStripAllSpace(s);
    } else {
      LStripKeepsTail(s, b);
      RStripSkipsSpace(LStrip(s), b);
    }
  }

  // ------------------------------------------------------------ t in s

  /** `s.startswith(p)` */
  predicate StartsWith(s: string, p: string) {
    |p| <= |s| && s[..|p|] == p
  }

  /** `t` occurs in `s` starting at index `i`. */
  predicate OccursAt(s: string, t: string, i: nat) {
    i + |t| <= |s| && s[i..i + |t|] == t
  }

  /** The substring test `t in s`. */
  predicate Contains(s: string, t: string) {
    exists i: nat :: i <= |s| && OccursAt(s, t, i)
  }

  /** A string contains whatever its infixes contain. */
  lemma ContainsInInfix(a: string, b: string, c: string, t: string)
    requires Contains(b, t)
    ensures Contains(a + b + c, t)
  {
    var i: nat :| i <= |b| && OccursAt(b, t, i);
    assert (a + b + c)[|a| + i..|a| + i + |t|] == t;
    assert OccursAt(a + b + c, t, |a| + i);
  }

  // ------------------------------------------------------------ split(sep)

  /** Inverse of Split: the parts glued back together with `sep`. */
  function Join(parts: seq<string>, sep: char): string
    requires |parts| >= 1
  {
    if |parts| == 1 then parts[0] else parts[0] + [sep] + Join(parts[1..], sep)
  }

  /**
   * `s.split(sep)`: the pieces of `s` between occurrences of `sep`, in order.
   * There is always at least one piece (`"".split(sep) == [""]`), and two or
   * more as soon as `sep` occurs; SplitJoinsBack says what the pieces are.
   */
  function Split(s: string, sep: char): (parts: seq<string>)
    ensures |parts| >= 1
    ensures sep in s ==> |parts| >= 2
    decreases |s|
  {
    if s == [] then [""]
    else
      var rest := Split(s[1..], sep);
      if s[0] == sep then [""] + rest
      else
        assert sep in s ==> sep in s[1..];
        [[s[0]] + rest[0]] + rest[1..]
  }

  /** The pieces are separator-free, and joining them with `sep` gives back `s`. */
  lemma {:induction false} SplitJoinsBack(s: string, sep: char)
    ensures forall k :: 0 <= k < |Split(s, sep)| ==> sep !in Split(s, sep)[k]
    ensures Join(Split(s, sep), sep) == s
    decreases |s|
  {
    if s != [] {
      var rest := Split(s[1..], sep);
      SplitJoinsBack(s[1..], sep);
      assert s == [s[0]] + s[1..];
      if s[0] != sep {
        var parts := [[s[0]] + rest[0]] + rest[1..];
        assert parts[1..] == rest[1..];
        assert Split(s, sep) == parts;
        assert forall k :: 1 <= k < |parts| ==> parts[k] == rest[k];
      }
    }
  }

  /** Splitting a piece followed by the separator peels that piece off. */
  lemma {:induction false} SplitAfterPiece(p: string, u: string, sep: char)
    requires sep !in p
    ensures Split(p + [sep] + u, sep) == [p] + Split(u, sep)
  {
    if p == [] {
      assert ([sep] + u)[1..] == u;
    } else {
      assert (p + [sep] + u)[1..] == p[1..] + [sep] + u;
      SplitAfterPiece(p[1..], u, sep);
      assert [p[0]] + p[1..] == p;
    }
  }

  /** A separator-free string splits into itself. */
  lemma {:induction false} SplitPiece(p: string, sep: char)
    requires sep !in p
    ensures Split(p, sep) == [p]
  {
    if p != [] {
      SplitPiece(p[1..], sep);
      assert [p[0]] + p[1..] == p;
    }
  }

  /** Round trip: splitting joined separator-free pieces gives the pieces back. */
  lemma {:induction false} SplitJoin(parts: seq<string>, sep: char)
    requires |parts| >= 1
    requires forall k :: 0 <= k < |parts| ==> sep !in parts[k]
    ensures Split(Join(parts, sep), sep) == parts
  {
    if |parts| == 1 {
      SplitPiece(parts[0], sep);
    } else {
      SplitJoin(parts[1..], sep);
      SplitAfterPiece(parts[0], Join(parts[1..], sep), sep);
      assert [parts[0]] + parts[1..] == parts;
    }
  }

  /** Every piece of a split occurs in the split string. */
  lemma {:induction false} SplitPieceIsInfix(s: string, sep: char, k: nat)
    requires k < |Split(s, sep)|
    ensures exists a, c :: s == a + Split(s, sep)[k] + c
  {
    var parts := Split(s, sep);
    SplitJoinsBack(s, sep);
    JoinPieceIsInfix(parts, sep, k);
  }

  lemma {:induction false} JoinPieceIsInfix(parts: seq<string>, sep: char, k: nat)
    requires k < |parts|
    ensures exists a, c :: Join(parts, sep) == a + parts[k] + c
  {
    if |parts| == 1 {
      assert Join(parts, sep) == [] + parts[0] + [];
    } else if k == 0 {
      assert Join(parts, sep) == [] + parts[0] + ([sep] + Join(parts[1..], sep));
    } else {
      JoinPieceIsInfix(parts[1..], sep, k - 1);
      var a, c :| Join(parts[1..], sep) == a + parts[1..][k - 1] + c;
      assert Join(parts, sep) == (parts[0] + [sep] + a) + parts[k] + c;
    }
  }

  /** The first piece of a split runs up to the first separator. */
  lemma {:induction false} FirstPieceUpToSeparator(u: string, sep: char, j: nat)
    requires j <= |u| && sep !in u[..j] && (j == |u| || u[j] == sep)
    ensures Split(u, sep)[0] == u[..j]
  {
    if j == |u| {
      assert u[..j] == u;
      SplitPiece(u, sep);
    } else {
      assert u == u[..j] + [sep] + u[j + 1..];
      SplitAfterPiece(u[..j], u[j + 1..], sep);
    }
  }

  /**
   * `s.split(sep)[1]` is the text strictly between the first and the second
   * occurrence of `sep` (or the end of `s` when there is no second one).
   */
  lemma {:induction false} SecondPieceBetweenSeparators(s: string, sep: char, i: nat, j: nat)
    requires i < j <= |s| && s[i] == sep && sep !in s[..i]
    requires sep !in s[i + 1..j] && (j == |s| || s[j] == sep)
    ensures |Split(s, sep)| >= 2 && Split(s, sep)[1] == s[i + 1..j]
  {
    var u := s[i + 1..];
    assert s == s[..i] + [sep] + u;
    SplitAfterPiece(s[..i], u, sep);
    assert Split(s, sep)[1] == Split(u, sep)[0];
    assert u[..j - i - 1] == s[i + 1..j];
    FirstPieceUpToSeparator(u, sep, j - i - 1);
  }
}

/** The little string formatting the quote summaries need: decimal numerals and joining. */
module Text {

  function DigitChar(d: int): (c: char)
    requires 0 <= d < 10
    ensures '0' <= c <= '9'
  {
    "0123456789"[d]
  }

  function DigitValue(c: char): int {
    c as int - '0' as int
  }

  predicate IsDigits(s: string) {
    forall i :: 0 <= i < |s| ==> '0' <= s[i] <= '9'
  }

  /** Decimal numeral of `n`, as template-literal interpolation writes an integer. */
  function NatToString(n: nat): (s: string)
    ensures |s| >= 1 && IsDigits(s)
    ensures |s| > 1 ==> s[0] != '0'
  {
    if n < 10 then [DigitChar(n)]
    else NatToString(n / 10) + [DigitChar(n % 10)]
  }

  /** Reads a non-empty string of decimal digits back as a number. */
  function ParseDigits(s: string): nat
    requires IsDigits(s)
  {
    if |s| == 0 then 0
    else ParseDigits(s[..|s| - 1]) * 10 + DigitValue(s[|s| - 1])
  }

  /** Formatting and reading back a numeral is the identity. */
  lemma {:induction false} ParseNatToString(n: nat)
    ensures ParseDigits(NatToString(n)) == n
  {
    var s := NatToString(n);
    if n < 10 {
      assert s[..0] == [];
    } else {
      var pre := NatToString(n / 10);
      assert s[..|s| - 1] == pre;
      ParseNatToString(n / 10);
    }
  }

  function SumLengths(parts: seq<string>): nat {
    if |parts| == 0 then 0 else |parts[0]| + SumLengths(parts[1..])
  }

  /** `parts.join(sep)`. */
  function Join(parts: seq<string>, sep: string): (s: string)
    ensures |parts| == 0 ==> s == ""
    ensures |parts| > 0 ==> |s| == SumLengths(parts) + (|parts| - 1) * |sep|
  {
    if |parts| == 0 then ""
    else if |parts| == 1 then parts[0]
    else parts[0] + sep + Join(parts[1..], sep)
  }

  /** Three parts joined: each separator stands between two parts. */
  lemma JoinThree(a: string, b: string, c: string, sep: string)
    ensures Join([a, b, c], sep) == a + sep + b + sep + c
  {
    assert [a, b, c][1..] == [b, c];
    assert [b, c][1..] == [c];
    assert Join([b, c], sep) == b + sep + c;
    assert a + sep + (b + sep + c) == a + sep + b + sep + c;
  }

  /** Where part `k` starts in `Join(parts, sep)`: every earlier part and its separator come first. */
  function Offset(parts: seq<string>, sep: string, k: nat): nat
    requires k <= |parts|
  {
    if k == 0 then 0 else |parts[0]| + |sep| + Offset(parts[1..], sep, k - 1)
  }

  /** Part `k` of a joined string sits at `Offset(parts, sep, k)`. */
  lemma {:induction false} JoinPartAt(parts: seq<string>, sep: string, k: nat)
    requires k < |parts|
    ensures Offset(parts, sep, k) + |parts[k]| <= |Join(parts, sep)|
    ensures Join(parts, sep)[Offset(parts, sep, k)..Offset(parts, sep, k) + |parts[k]|] == parts[k]
  {
    if k > 0 {
      var rest := Join(parts[1..], sep);
      var d := |parts[0]| + |sep|;
      var o := Offset(parts[1..], sep, k - 1);
      assert Join(parts, sep) == (parts[0] + sep) + rest;
      JoinPartAt(parts[1..], sep, k - 1);
      assert parts[1..][k - 1] == parts[k];
      SliceAfterPrefix(parts[0] + sep, rest, o, o + |parts[k]|);
    }
  }

  /** `sep` follows part `k` of a joined string, up to the start of part `k + 1`. */
  lemma {:induction false} JoinSepAfter(parts: seq<string>, sep: string, k: nat)
    requires k + 1 < |parts|
    ensures Offset(parts, sep, k + 1) == Offset(parts, sep, k) + |parts[k]| + |sep|
    ensures Offset(parts, sep, k + 1) <= |Join(parts, sep)|
    ensures Join(parts, sep)[Offset(parts, sep, k) + |parts[k]|..Offset(parts, sep, k + 1)] == sep
  {
    var rest := Join(parts[1..], sep);
    assert Join(parts, sep) == (parts[0] + sep) + rest;
    assert Offset(parts, sep, k + 1) == |parts[0]| + |sep| + Offset(parts[1..], sep, k);
    if k == 0 {
      assert Offset(parts[1..], sep, 0) == 0;
      SliceMiddle(parts[0], sep, rest);
    } else {
      var o := Offset(parts[1..], sep, k - 1);
      assert Offset(parts, sep, k) == |parts[0]| + |sep| + o;
      JoinSepAfter(parts[1..], sep, k - 1);
      assert parts[1..][k - 1] == parts[k];
      SliceAfterPrefix(parts[0] + sep, rest, o + |parts[k]|, Offset(parts[1..], sep, k));
    }
  }

  /** The middle of three concatenated strings, cut out again. */
  lemma SliceMiddle(a: string, b: string, c: string)
    ensures (a + b + c)[|a|..|a| + |b|] == b
  {
  }

  /** Slicing past a prefix slices the rest. */
  lemma SliceAfterPrefix(a: string, b: string, i: nat, j: nat)
    requires i <= j <= |b|
    ensures (a + b)[|a| + i..|a| + j] == b[i..j]
  {
  }

  /** `part` is a substring of `s`. */
  predicate Occurs(part: string, s: string) {
    exists o :: 0 <= o <= |s| && part <= s[o..]
  }

  lemma OccursAt(part: string, s: string, o: nat)
    requires o + |part| <= |s| && s[o..o + |part|] == part
    ensures Occurs(part, s)
  {
    assert part <= s[o..];
  }

  /** Every part of a joined string occurs in it. */
  lemma JoinPartOccurs(parts: seq<string>, sep: string, k: nat)
    requires k < |parts|
    ensures Occurs(parts[k], Join(parts, sep))
  {
    JoinPartAt(parts, sep, k);
    OccursAt(parts[k], Join(parts, sep), Offset(parts, sep, k));
  }
}

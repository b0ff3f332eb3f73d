/**
 * String helpers the core relies on: `String.prototype.split` with a
 * one-character separator, its inverse `join`, and the decimal text of a
 * natural number (what a template literal prints for an HTTP status).
 */
module Text {

  /** `s.split(sep)`: the maximal separator-free pieces of `s`, in order. */
  function Split(s: string, sep: char): (parts: seq<string>)
    ensures |parts| >= 1
    ensures forall i :: 0 <= i < |parts| ==> sep !in parts[i]
    ensures |parts| == 1 <==> sep !in s
    decreases |s|
  {
    if s == [] then [[]]
    else
      var rest := Split(s[1..], sep);
      assert s == [s[0]] + s[1..];
      if s[0] == sep then [[]] + rest
      else [[s[0]] + rest[0]] + rest[1..]
  }

  /** `parts.join(sep)`. */
  function Join(parts: seq<string>, sep: char): string
    requires |parts| >= 1
    decreases |parts|
  {
    if |parts| == 1 then parts[0]
    else parts[0] + [sep] + Join(parts[1..], sep)
  }

  /** Joining the pieces of a split gives the original text back. */
  lemma {:induction false} JoinSplit(s: string, sep: char)
    ensures Join(Split(s, sep), sep) == s
    decreases |s|
  {
    if s != [] {
      var rest := Split(s[1..], sep);
      JoinSplit(s[1..], sep);
      assert s == [s[0]] + s[1..];
      if s[0] == sep {
        assert Split(s, sep)[1..] == rest;
      } else if |rest| > 1 {
        var parts := Split(s, sep);
        assert parts[0] == [s[0]] + rest[0];
        assert parts[1..] == rest[1..];
        assert Join(rest, sep) == rest[0] + [sep] + Join(rest[1..], sep);
      }
    }
  }

  /** A text without the separator splits into itself alone. */
  lemma SplitNoSeparator(s: string, sep: char)
    requires sep !in s
    ensures Split(s, sep) == [s]
  {
    JoinSplit(s, sep);
  }

  /** One step of `Split`: the text's first character and the split of the rest. */
  lemma SplitPrepend(c: char, x: string, sep: char)
    ensures c == sep ==> Split([c] + x, sep) == [[]] + Split(x, sep)
    ensures c != sep ==> var rest := Split(x, sep);
      Split([c] + x, sep) == [[c] + rest[0]] + rest[1..]
  {
    assert ([c] + x)[0] == c && ([c] + x)[1..] == x;
  }

  /** Extending the first piece of a non-empty split commutes with appending more pieces. */
  lemma ExtendFirst(c: char, left: seq<string>, right: seq<string>)
    requires |left| >= 1
    ensures var rest := left + right;
      [[c] + rest[0]] + rest[1..] == ([[c] + left[0]] + left[1..]) + right
  {
    var rest := left + right;
    assert rest[0] == left[0];
    assert rest[1..] == left[1..] + right;
  }

  /** Splitting at a separator splits the two sides independently. */
  lemma {:induction false} SplitAppend(a: string, b: string, sep: char)
    ensures Split(a + [sep] + b, sep) == Split(a, sep) + Split(b, sep)
    decreases |a|
  {
    if a == [] {
      assert a + [sep] + b == [sep] + b;
      SplitPrepend(sep, b, sep);
    } else {
      var c, tail := a[0], a[1..];
      assert a == [c] + tail;
      assert a + [sep] + b == [c] + (tail + [sep] + b);
      SplitAppend(tail, b, sep);
      SplitPrepend(c, tail + [sep] + b, sep);
      SplitPrepend(c, tail, sep);
      if c != sep {
        ExtendFirst(c, Split(tail, sep), Split(b, sep));
      }
    }
  }

  /** Two separator-free texts around one separator split back into the two. */
  lemma SplitPair(a: string, b: string, sep: char)
    requires sep !in a && sep !in b
    ensures Split(a + [sep] + b, sep) == [a, b]
  {
    SplitNoSeparator(a, sep);
    SplitNoSeparator(b, sep);
    SplitAppend(a, b, sep);
  }

  /** Splitting a join of separator-free pieces gives the pieces back. */
  lemma {:induction false} SplitJoin(parts: seq<string>, sep: char)
    requires |parts| >= 1
    requires forall i :: 0 <= i < |parts| ==> sep !in parts[i]
    ensures Split(Join(parts, sep), sep) == parts
    decreases |parts|
  {
    SplitNoSeparator(parts[0], sep);
    if |parts| > 1 {
      SplitJoin(parts[1..], sep);
      SplitAppend(parts[0], Join(parts[1..], sep), sep);
      assert parts == [parts[0]] + parts[1..];
    }
  }

  predicate IsDigit(c: char) {
    '0' <= c <= '9'
  }

  function DigitChar(d: nat): (c: char)
    requires d < 10
    ensures IsDigit(c)
  {
    (('0' as int) + d) as char
  }

  function DigitValue(c: char): (d: nat)
    requires IsDigit(c)
    ensures d < 10
  {
    (c as int) - ('0' as int)
  }

  /** The decimal text of `n`, as `${n}` prints it. */
  function NatToString(n: nat): (s: string)
    ensures |s| >= 1
    ensures forall i :: 0 <= i < |s| ==> IsDigit(s[i])
    ensures n > 0 ==> s[0] != '0'
    decreases n
  {
    if n < 10 then [DigitChar(n)]
    else NatToString(n / 10) + [DigitChar(n % 10)]
  }

  /** Reads a run of decimal digits back as a number. */
  function ParseNat(s: string): nat
    requires forall i :: 0 <= i < |s| ==> IsDigit(s[i])
    decreases |s|
  {
    if s == [] then 0
    else ParseNat(s[..|s| - 1]) * 10 + DigitValue(s[|s| - 1])
  }

  /** The decimal text of a number reads back as that number. */
  lemma {:induction false} ParseNatToString(n: nat)
    ensures ParseNat(NatToString(n)) == n
    decreases n
  {
    var s := NatToString(n);
    if n < 10 {
      assert s[..0] == [];
    } else {
      ParseNatToString(n / 10);
      assert s[..|s| - 1] == NatToString(n / 10);
    }
  }

  /** Distinct numbers have distinct decimal texts. */
  lemma NatToStringInjective(a: nat, b: nat)
    requires NatToString(a) == NatToString(b)
    ensures a == b
  {
    ParseNatToString(a);
    ParseNatToString(b);
  }
}

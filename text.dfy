/** The string operations the actions rely on: Python's `sep.join(items)` and
    `text.split(sep)` for a one-character separator, and the decimal rendering
    of an HTTP status code inside an f-string. */
module Text {

  /** `[sep].join(items)`: the items with one separator between neighbours. */
  function Join(items: seq<string>, sep: char): (joined: string)
    ensures |items| == 1 ==> joined == items[0]
    ensures items == [] ==> joined == ""
  {
    if |items| == 0 then ""
    else if |items| == 1 then items[0]
    else items[0] + [sep] + Join(items[1..], sep)
  }

  /** `text.split(sep)`: the maximal separator-free pieces, in order. Like
      Python's, it never returns an empty list: "" splits into [""] and a
      trailing separator yields a trailing "". */
  function Split(text: string, sep: char): (parts: seq<string>)
    ensures |parts| >= 1
    ensures forall i | 0 <= i < |parts| :: sep !in parts[i]
    ensures Join(parts, sep) == text
    decreases |text|
  {
    if |text| == 0 then [""]
    else
      var rest := Split(text[1..], sep);
      if text[0] == sep then
        assert ([""] + rest)[1..] == rest;
        [""] + rest
      else
        assert text == [text[0]] + text[1..];
        [[text[0]] + rest[0]] + rest[1..]
  }

  /** Splitting a separator-free piece followed by more text. */
  lemma {:induction false} SplitPrefix(piece: string, more: string, sep: char)
    requires sep !in piece
    ensures Split(piece + more, sep) == [piece + Split(more, sep)[0]] + Split(more, sep)[1..]
    decreases |piece|
  {
    if |piece| > 0 {
      SplitPrefix(piece[1..], more, sep);
      assert (piece + more)[1..] == piece[1..] + more;
      assert [piece[0]] + (piece[1..] + Split(more, sep)[0]) == piece + Split(more, sep)[0];
    } else {
      var parts := Split(more, sep);
      assert piece + more == more;
      assert piece + parts[0] == parts[0];
      assert [parts[0]] + parts[1..] == parts;
    }
  }

  /** Joining pieces that contain no separator and splitting again gives the
      pieces back. */
  lemma {:induction false} SplitJoin(items: seq<string>, sep: char)
    requires |items| >= 1
    requires forall i | 0 <= i < |items| :: sep !in items[i]
    ensures Split(Join(items, sep), sep) == items
  {
    if |items| == 1 {
      SplitPrefix(items[0], "", sep);
      assert items[0] + "" == items[0];
      assert items[0] + Split("", sep)[0] == items[0];
    } else {
      var tail := items[1..];
      SplitJoin(tail, sep);
      var more := [sep] + Join(tail, sep);
      assert items[0] + [sep] + Join(tail, sep) == items[0] + more;
      SplitPrefix(items[0], more, sep);
      assert more[0] == sep && more[1..] == Join(tail, sep);
      assert Split(more, sep) == [""] + tail;
      assert Split(more, sep)[0] == "" && Split(more, sep)[1..] == tail;
      assert items[0] + "" == items[0];
      assert items == [items[0]] + tail;
    }
  }

  predicate IsDigit(c: char) { '0' <= c <= '9' }

  function DigitChar(d: nat): (c: char)
    requires d < 10
    ensures IsDigit(c)
  {
    "0123456789"[d]
  }

  function DigitValue(c: char): (d: nat)
    requires IsDigit(c)
    ensures d < 10
  {
    (c as int - '0' as int) as nat
  }

  /** The decimal digits of `n`, without leading zeros, as Python's `str(n)`. */
  function Decimal(n: nat): (s: string)
    ensures |s| >= 1
    ensures forall i | 0 <= i < |s| :: IsDigit(s[i])
  {
    if n < 10 then [DigitChar(n)] else Decimal(n / 10) + [DigitChar(n % 10)]
  }

  /** The number a string of decimal digits denotes. */
  function DecimalValue(s: string): nat
    requires forall i | 0 <= i < |s| :: IsDigit(s[i])
  {
    if |s| == 0 then 0 else DecimalValue(s[..|s| - 1]) * 10 + DigitValue(s[|s| - 1])
  }

  /** Reading back the rendering of a status code gives the status code. */
  lemma {:induction false} DecimalRoundTrip(n: nat)
    ensures DecimalValue(Decimal(n)) == n
  {
    var s := Decimal(n);
    if n < 10 {
      assert s[..0] == [];
    } else {
      DecimalRoundTrip(n / 10);
      assert s[..|s| - 1] == Decimal(n / 10);
    }
  }

  /** A run of digits is delimited by the first non-digit that follows it. */
  lemma DigitRunUnique(d1: string, m1: string, d2: string, m2: string)
    requires forall i | 0 <= i < |d1| :: IsDigit(d1[i])
    requires forall i | 0 <= i < |d2| :: IsDigit(d2[i])
    requires |m1| > 0 && !IsDigit(m1[0])
    requires |m2| > 0 && !IsDigit(m2[0])
    requires d1 + m1 == d2 + m2
    ensures d1 == d2 && m1 == m2
  {
    assert (d1 + m1)[|d1|] == m1[0];
    assert (d2 + m2)[|d2|] == m2[0];
    assert |d1| == |d2|;
    assert d1 == (d1 + m1)[..|d1|];
    assert m1 == (d1 + m1)[|d1|..];
  }
}

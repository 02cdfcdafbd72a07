/**
 * String building the site does with JavaScript built-ins: `Array.prototype.join`,
 * number-to-decimal-text conversion inside template strings, and the inverse
 * readings used to state that nothing is lost.
 */
module Text {

  /** `xs.join(sep)`. */
  function Join(xs: seq<string>, sep: string): (r: string)
    ensures xs == [] ==> r == ""
    ensures |xs| == 1 ==> r == xs[0]
  {
    if xs == [] then ""
    else if |xs| == 1 then xs[0]
    else xs[0] + sep + Join(xs[1..], sep)
  }

  /** `s.split(c)` for a one-character separator. */
  function Split(s: string, c: char): (r: seq<string>)
    ensures |r| >= 1
  {
    if s == [] then [""]
    else
      var rest := Split(s[1..], c);
      if s[0] == c then [""] + rest else [[s[0]] + rest[0]] + rest[1..]
  }

  /** A prefix free of the separator glues onto the first piece. */
  lemma {:induction false} SplitPrefix(a: string, b: string, c: char)
    requires c !in a
    ensures Split(a + b, c) == [a + Split(b, c)[0]] + Split(b, c)[1..]
  {
    if a == [] {
      assert a + b == b;
      assert a + Split(b, c)[0] == Split(b, c)[0];
    } else {
      assert (a + b)[1..] == a[1..] + b;
      SplitPrefix(a[1..], b, c);
      assert [a[0]] + (a[1..] + Split(b, c)[0]) == a + Split(b, c)[0];
    }
  }

  function Spaced(ys: seq<string>): (r: seq<string>)
    ensures |r| == |ys|
  {
    seq(|ys|, i requires 0 <= i < |ys| => " " + ys[i])
  }

  function Unspaced(ys: seq<string>): (r: seq<string>)
    ensures |r| == |ys|
  {
    seq(|ys|, i requires 0 <= i < |ys| => if ys[i] == "" then "" else ys[i][1..])
  }

  /** Splitting a `", "`-joined list at commas gives the items, all but the first behind a space. */
  lemma {:induction false} SplitJoin(xs: seq<string>)
    requires |xs| >= 1
    requires forall i :: 0 <= i < |xs| ==> ',' !in xs[i]
    ensures Split(Join(xs, ", "), ',') == [xs[0]] + Spaced(xs[1..])
  {
    if |xs| == 1 {
      SplitPrefix(xs[0], "", ',');
      assert xs[0] + "" == xs[0];
      assert Spaced(xs[1..]) == [];
    } else {
      var tail := Join(xs[1..], ", ");
      var rest := [','] + (" " + tail);
      SplitJoin(xs[1..]);
      assert xs[1..][1..] == xs[2..];
      assert Split(tail, ',') == [xs[1]] + Spaced(xs[2..]);
      assert Join(xs, ", ") == xs[0] + rest;
      SplitPrefix(xs[0], rest, ',');
      assert rest[1..] == " " + tail;
      assert Split(rest, ',') == [""] + Split(" " + tail, ',');
      SplitPrefix(" ", tail, ',');
      assert Split(" " + tail, ',') == [" " + xs[1]] + Spaced(xs[2..]);
      assert xs[0] + "" == xs[0];
      assert Spaced(xs[1..]) == [" " + xs[1]] + Spaced(xs[2..]);
    }
  }

  /** Reads a `", "`-joined tag list back into its tags. */
  function Tags(s: string): (r: seq<string>)
    ensures |r| >= 1
  {
    var pieces := Split(s, ',');
    [pieces[0]] + Unspaced(pieces[1..])
  }

  /** Joining with `", "` loses nothing when no tag contains a comma. */
  lemma TagsJoin(xs: seq<string>)
    requires |xs| >= 1
    requires forall i :: 0 <= i < |xs| ==> ',' !in xs[i]
    ensures Tags(Join(xs, ", ")) == xs
  {
    SplitJoin(xs);
    var pieces := Split(Join(xs, ", "), ',');
    assert pieces[1..] == Spaced(xs[1..]);
    forall i | 0 <= i < |xs| - 1 ensures Unspaced(pieces[1..])[i] == xs[1..][i] {
      assert (" " + xs[1..][i])[1..] == xs[1..][i];
    }
    assert Unspaced(pieces[1..]) == xs[1..];
  }

  predicate IsDigit(ch: char) {
    '0' <= ch <= '9'
  }

  predicate AllDigits(s: string) {
    forall i :: 0 <= i < |s| ==> IsDigit(s[i])
  }

  function DigitChar(d: nat): (ch: char)
    requires d < 10
    ensures IsDigit(ch) && ch as int - '0' as int == d
  {
    ('0' as int + d) as char
  }

  /** The decimal text of a non-negative integer, as `${n}` prints it. */
  function DecimalText(n: nat): (s: string)
    ensures |s| >= 1 && AllDigits(s)
    ensures |s| > 1 ==> s[0] != '0'
    decreases n
  {
    if n < 10 then [DigitChar(n)] else DecimalText(n / 10) + [DigitChar(n % 10)]
  }

  /** The number a string of decimal digits denotes. */
  function DecimalValue(s: string): nat
    requires AllDigits(s)
  {
    if s == [] then 0
    else DecimalValue(s[..|s| - 1]) * 10 + (s[|s| - 1] as int - '0' as int)
  }

  /** Decimal text reads back as the number it was printed from. */
  lemma {:induction false} DecimalRoundTrip(n: nat)
    ensures DecimalValue(DecimalText(n)) == n
    decreases n
  {
    var s := DecimalText(n);
    if n >= 10 {
      DecimalRoundTrip(n / 10);
      assert s[..|s| - 1] == DecimalText(n / 10);
    } else {
      assert s[..|s| - 1] == [];
    }
  }
}

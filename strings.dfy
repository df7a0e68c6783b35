/**
 * Python's `str.join`, as used by the curve-list parser to flatten an array
 * field into one cell, and its inverse on inputs where it is invertible.
 */
module Strings {

  /** The separator the curve-list parser joins array values with. */
  const Sep: string := ", "

  /** `sep.join(xs)`: the items in order with `sep` between neighbours. */
  function Join(xs: seq<string>, sep: string): string
    decreases |xs|
  {
    if |xs| == 0 then ""
    else if |xs| == 1 then xs[0]
    else xs[0] + sep + Join(xs[1..], sep)
  }

  /** Splits a string at every ", "; always yields at least one part. */
  function Split(s: string): (parts: seq<string>)
    ensures |parts| >= 1
    decreases |s|
  {
    if |s| == 0 then [""]
    else if |s| >= 2 && s[0] == ',' && s[1] == ' ' then [""] + Split(s[2..])
    else
      var t := Split(s[1..]);
      [[s[0]] + t[0]] + t[1..]
  }

  lemma {:induction false} SplitNoComma(x: string)
    requires ',' !in x
    ensures Split(x) == [x]
    decreases |x|
  {
    if |x| > 0 {
      assert ',' !in x[1..];
      SplitNoComma(x[1..]);
      assert [x[0]] + x[1..] == x;
    }
  }

  lemma {:induction false} SplitAfterItem(x: string, rest: string)
    requires ',' !in x
    ensures Split(x + Sep + rest) == [x] + Split(rest)
    decreases |x|
  {
    var s := x + Sep + rest;
    if |x| == 0 {
      assert s[2..] == rest;
    } else {
      assert s[0] == x[0] && x[0] != ',';
      assert s[1..] == x[1..] + Sep + rest;
      assert ',' !in x[1..];
      SplitAfterItem(x[1..], rest);
      assert [x[0]] + x[1..] == x;
    }
  }

  /**
   * Joining loses nothing when there is at least one item and no item holds a
   * comma: splitting the joined cell gives back the items in order. (With no
   * items the join is "", the same cell as the single item "".)
   */
  lemma {:induction false} SplitJoin(xs: seq<string>)
    requires |xs| >= 1
    requires forall i :: 0 <= i < |xs| ==> ',' !in xs[i]
    ensures Split(Join(xs, Sep)) == xs
    decreases |xs|
  {
    if |xs| == 1 {
      SplitNoComma(xs[0]);
    } else {
      SplitJoin(xs[1..]);
      SplitAfterItem(xs[0], Join(xs[1..], Sep));
      assert [xs[0]] + xs[1..] == xs;
    }
  }

  /** The no-value and one-value cases. */
  lemma JoinShort(x: string)
    ensures Join([], Sep) == ""
    ensures Join([x], Sep) == x
  {
  }
}

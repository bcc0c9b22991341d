/** Joining a list of strings with a separator, as the cart does when it
    lists a drink's extras. */
module Text {

  /** Sum of the lengths of the parts. */
  function TotalLength(parts: seq<string>): nat
  {
    if |parts| == 0 then 0 else |parts[0]| + TotalLength(parts[1..])
  }

  /** The parts in order with `sep` between neighbours: no separator for an
      empty or one-element list, and none at either end. */
  function Join(parts: seq<string>, sep: string): (s: string)
    ensures |parts| == 0 ==> s == ""
    ensures |parts| > 0 ==> |s| == TotalLength(parts) + |sep| * (|parts| - 1)
    ensures |parts| > 0 ==> s[..|parts[0]|] == parts[0]
  {
    if |parts| == 0 then ""
    else if |parts| == 1 then parts[0]
    else parts[0] + sep + Join(parts[1..], sep)
  }

  /** Reference definition that builds the same string from the other end:
      everything but the last part, then the separator, then the last part. */
  function JoinLeft(parts: seq<string>, sep: string): string
  {
    if |parts| == 0 then ""
    else if |parts| == 1 then parts[0]
    else JoinLeft(parts[..|parts| - 1], sep) + sep + parts[|parts| - 1]
  }

  /** Joining two non-empty lists is joining each and putting one separator
      between the results. */
  lemma {:induction false} JoinAppend(xs: seq<string>, ys: seq<string>, sep: string)
    requires |xs| > 0 && |ys| > 0
    ensures Join(xs + ys, sep) == Join(xs, sep) + sep + Join(ys, sep)
  {
    if |xs| == 1 {
      assert (xs + ys)[1..] == ys;
    } else {
      assert (xs + ys)[1..] == xs[1..] + ys;
      JoinAppend(xs[1..], ys, sep);
    }
  }

  /** Both definitions agree: the joined string lists the parts in their
      order, whichever end it is built from. */
  lemma {:induction false} JoinMatchesJoinLeft(parts: seq<string>, sep: string)
    ensures Join(parts, sep) == JoinLeft(parts, sep)
  {
    if |parts| > 1 {
      var init, last := parts[..|parts| - 1], parts[|parts| - 1];
      assert parts == init + [last];
      JoinMatchesJoinLeft(init, sep);
      JoinAppend(init, [last], sep);
    }
  }
}

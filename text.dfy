/** Joining lists of strings with a separator, as String.join and
    Collectors.joining do, and the inverse split on the ", " separator. */
module Text {

  /** The separator the Java writer puts between parameters and between
      invocation arguments. */
  const ListSeparator: string := ", "

  /** Sum of the lengths of the strings in `xs`. */
  function TotalLength(xs: seq<string>): nat
  {
    if xs == [] then 0 else |xs[0]| + TotalLength(xs[1..])
  }

  /** The elements of `xs` in order, with `sep` between neighbours and
      nowhere else. */
  function Join(xs: seq<string>, sep: string): (r: string)
    ensures xs == [] ==> r == ""
    ensures xs != [] ==> |r| + |sep| == TotalLength(xs) + |xs| * |sep|
    decreases |xs|
  {
    if |xs| == 0 then ""
    else if |xs| == 1 then xs[0]
    else xs[0] + sep + Join(xs[1..], sep)
  }

  /** Cuts `s` at every ", ", collecting the current piece in `piece`. */
  function SplitFrom(s: string, piece: string): (r: seq<string>)
    ensures |r| > 0
    decreases |s|
  {
    if s == [] then [piece]
    else if |s| >= 2 && s[0] == ',' && s[1] == ' ' then [piece] + SplitFrom(s[2..], "")
    else SplitFrom(s[1..], piece + [s[0]])
  }

  /** The pieces of `s` between occurrences of ", ". */
  function SplitList(s: string): seq<string>
  {
    SplitFrom(s, "")
  }

  predicate CommaFree(s: string)
  {
    ',' !in s
  }

  /** The join starts with the first element and ends with the last one:
      there is no leading and no trailing separator. */
  lemma {:induction false} JoinEnds(xs: seq<string>, sep: string)
    requires xs != []
    ensures xs[0] <= Join(xs, sep)
    ensures var r := Join(xs, sep); var l := xs[|xs| - 1];
      |l| <= |r| && r[|r| - |l|..] == l
    decreases |xs|
  {
    if |xs| > 1 {
      JoinEnds(xs[1..], sep);
      var rest := Join(xs[1..], sep);
      var r := Join(xs, sep);
      assert r == xs[0] + sep + rest;
      var l := xs[|xs| - 1];
      assert xs[1..][|xs[1..]| - 1] == l;
      assert r[|r| - |l|..] == rest[|rest| - |l|..];
    }
  }

  /** Scanning a comma-free stretch only extends the current piece. */
  lemma {:induction false} SplitFromCommaFree(a: string, rest: string, piece: string)
    requires CommaFree(a)
    ensures SplitFrom(a + rest, piece) == SplitFrom(rest, piece + a)
    decreases |a|
  {
    if a == [] {
      assert a + rest == rest;
      assert piece + a == piece;
    } else {
      assert (a + rest)[0] == a[0];
      assert (a + rest)[1..] == a[1..] + rest;
      assert CommaFree(a[1..]);
      SplitFromCommaFree(a[1..], rest, piece + [a[0]]);
      assert piece + [a[0]] + a[1..] == piece + a;
    }
  }

  /** Splitting a ", "-joined list of comma-free elements gives
      the list back. */
  lemma {:induction false} SplitJoin(xs: seq<string>)
    requires xs != []
    requires forall i :: 0 <= i < |xs| ==> CommaFree(xs[i])
    ensures SplitList(Join(xs, ListSeparator)) == xs
    decreases |xs|
  {
    if |xs| == 1 {
      SplitFromCommaFree(xs[0], "", "");
      assert xs[0] + "" == xs[0];
      assert "" + xs[0] == xs[0];
    } else {
      var rest := Join(xs[1..], ListSeparator);
      assert Join(xs, ListSeparator) == xs[0] + (ListSeparator + rest);
      SplitFromCommaFree(xs[0], ListSeparator + rest, "");
      assert "" + xs[0] == xs[0];
      assert (ListSeparator + rest)[2..] == rest;
      SplitJoin(xs[1..]);
      assert xs == [xs[0]] + xs[1..];
    }
  }
}

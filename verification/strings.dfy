/** String helpers used by the value renderings: joining with a separator, as
    the host library's join does, and the splitting that undoes it for
    parameter names. */
module Strings {

  /** `xs` joined with `sep` between consecutive elements: empty for no
      elements, the element itself for one. */
  function Join(xs: seq<string>, sep: string): string {
    if |xs| == 0 then ""
    else if |xs| == 1 then xs[0]
    else xs[0] + sep + Join(xs[1..], sep)
  }

  /** The total length of the elements of `xs`. */
  function TotalLength(xs: seq<string>): nat {
    if |xs| == 0 then 0 else |xs[0]| + TotalLength(xs[1..])
  }

  /** A join holds every element and one separator between each neighbouring pair. */
  lemma {:induction false} JoinLength(xs: seq<string>, sep: string)
    ensures |xs| > 0 ==> |Join(xs, sep)| == TotalLength(xs) + (|xs| - 1) * |sep|
    ensures |xs| == 0 ==> Join(xs, sep) == ""
  {
    if |xs| > 1 {
      JoinLength(xs[1..], sep);
    }
  }

  /** Appending an element to a non-empty list appends a separator and the element. */
  lemma {:induction false} JoinSnoc(xs: seq<string>, x: string, sep: string)
    requires |xs| > 0
    ensures Join(xs + [x], sep) == Join(xs, sep) + sep + x
  {
    if |xs| == 1 {
      assert xs + [x] == [xs[0], x];
    } else {
      assert (xs + [x])[1..] == xs[1..] + [x];
      JoinSnoc(xs[1..], x, sep);
    }
  }

  /** A character absent from every element and from the separator is absent
      from the join. */
  lemma {:induction false} JoinAvoids(xs: seq<string>, sep: string, c: char)
    requires c !in sep
    requires forall i :: 0 <= i < |xs| ==> c !in xs[i]
    ensures c !in Join(xs, sep)
  {
    if |xs| > 1 {
      JoinAvoids(xs[1..], sep, c);
      assert Join(xs, sep) == xs[0] + sep + Join(xs[1..], sep);
    }
  }

  /** The index of the first `c` in `s`, or `|s|` when there is none. */
  function IndexOf(s: string, c: char): (k: nat)
    ensures k <= |s|
    ensures k < |s| ==> s[k] == c
    ensures forall i :: 0 <= i < k ==> s[i] != c
  {
    if |s| == 0 then 0
    else if s[0] == c then 0
    else 1 + IndexOf(s[1..], c)
  }

  /** A prefix free of `c` moves the first `c` by its length. */
  lemma {:induction false} IndexOfAfter(a: string, b: string, c: char)
    requires c !in a
    ensures IndexOf(a + b, c) == |a| + IndexOf(b, c)
  {
    if |a| > 0 {
      assert (a + b)[1..] == a[1..] + b;
      IndexOfAfter(a[1..], b, c);
    } else {
      assert a + b == b;
    }
  }

  /** A parameter name as the rendering can read it back: non-empty, and free
      of the characters that delimit the list. Identifiers of the language
      always have this shape. */
  predicate IsParamName(p: string) {
    |p| > 0 && ',' !in p && ')' !in p
  }

  /** Splits a comma-and-space separated list of names back into the names. */
  function SplitParams(s: string): seq<string>
    decreases |s|
  {
    if |s| == 0 then []
    else
      var k := IndexOf(s, ',');
      if k == |s| then [s]
      else if k + 2 <= |s| then [s[..k]] + SplitParams(s[k + 2..])
      else [s[..k]]
  }

  /** Splitting a join of parameter names on ", " recovers the names. */
  lemma {:induction false} SplitJoin(ps: seq<string>)
    requires forall i :: 0 <= i < |ps| ==> IsParamName(ps[i])
    ensures SplitParams(Join(ps, ", ")) == ps
  {
    if |ps| == 1 {
      assert IndexOf(ps[0], ',') == |ps[0]|;
    } else if |ps| > 1 {
      var rest := Join(ps[1..], ", ");
      var s := ps[0] + (", " + rest);
      assert Join(ps, ", ") == s;
      IndexOfAfter(ps[0], ", " + rest, ',');
      assert IndexOf(s, ',') == |ps[0]|;
      assert s[..|ps[0]|] == ps[0];
      assert s[|ps[0]| + 2..] == rest;
      SplitJoin(ps[1..]);
    }
  }
}

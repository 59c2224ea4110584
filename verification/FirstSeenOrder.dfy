/** Duplicates dropped, first appearances kept in order: how server tables and reaction clusters grow. */
module FirstSeenOrder {
  function FirstSeen(xs: seq<string>): (table: seq<string>)
    decreases xs
  {
    if xs == [] then []
    else
      var front := FirstSeen(xs[..|xs| - 1]);
      if xs[|xs| - 1] in front then front else front + [xs[|xs| - 1]]
  }

  function IndexIn(table: seq<string>, x: string): (i: nat)
    requires x in table
    ensures i < |table| && table[i] == x
    ensures forall k | 0 <= k < i :: table[k] != x
  {
    if table[0] == x then 0 else 1 + IndexIn(table[1..], x)
  }

  predicate Distinct(table: seq<string>) {
    forall i, j | 0 <= i < j < |table| :: table[i] != table[j]
  }

  lemma {:induction false} FirstSeenTable(xs: seq<string>)
    ensures Distinct(FirstSeen(xs))
    ensures forall u :: u in FirstSeen(xs) <==> u in xs
    ensures |FirstSeen(xs)| == |set u | u in xs|
    decreases xs
  {
    if xs != [] {
      var front, last := xs[..|xs| - 1], xs[|xs| - 1];
      FirstSeenTable(front);
      assert xs == front + [last];
      assert (set u | u in xs) == (set u | u in front) + {last};
    }
  }

  /** The table is in order of first appearance: of two entries, the earlier is met earlier. */
  lemma {:induction false} FirstSeenIsInOrder(xs: seq<string>, i: nat, j: nat)
    requires i < j < |FirstSeen(xs)|
    ensures FirstSeen(xs)[i] in xs && FirstSeen(xs)[j] in xs
    ensures IndexIn(xs, FirstSeen(xs)[i]) < IndexIn(xs, FirstSeen(xs)[j])
    decreases xs
  {
    var front, last := xs[..|xs| - 1], xs[|xs| - 1];
    FirstSeenTable(xs);
    FirstSeenTable(front);
    var a, b := FirstSeen(xs)[i], FirstSeen(xs)[j];
    assert a in front;
    IndexInFront(front, [last], a);
    assert xs == front + [last];
    if j < |FirstSeen(front)| {
      FirstSeenIsInOrder(front, i, j);
      IndexInFront(front, [last], b);
    }
  }

  lemma {:induction false} IndexInFront(front: seq<string>, rest: seq<string>, u: string)
    requires u in front
    ensures u in front + rest && IndexIn(front + rest, u) == IndexIn(front, u)
    decreases front
  {
    if front[0] != u {
      assert (front + rest)[1..] == front[1..] + rest;
      IndexInFront(front[1..], rest, u);
    }
  }

  lemma {:induction false} FirstSeenGrows(a: seq<string>, b: seq<string>)
    ensures FirstSeen(a) <= FirstSeen(a + b)
    decreases b
  {
    if b == [] {
      assert a + b == a;
    } else {
      FirstSeenGrows(a, b[..|b| - 1]);
      assert (a + b)[..|a + b| - 1] == a + b[..|b| - 1];
    }
  }

  lemma IndexStable(short: seq<string>, long: seq<string>, u: string)
    requires short <= long && u in short
    ensures u in long && IndexIn(long, u) == IndexIn(short, u)
  {
    IndexInFront(short, long[|short|..], u);
    assert long == short + long[|short|..];
  }

  /** A list without duplicates is its own table. */
  lemma {:induction false} DistinctStays(xs: seq<string>)
    requires Distinct(xs)
    ensures FirstSeen(xs) == xs
    decreases xs
  {
    if xs != [] {
      DistinctStays(xs[..|xs| - 1]);
      assert xs == xs[..|xs| - 1] + [xs[|xs| - 1]];
    }
  }

  lemma IndexOfDistinct(xs: seq<string>, i: nat)
    requires Distinct(xs) && i < |xs|
    ensures IndexIn(xs, xs[i]) == i
  {
  }
}

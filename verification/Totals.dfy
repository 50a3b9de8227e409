/** Sums over histories. Two sums agree as soon as they agree on every correlation by itself. */
module Totals {
  import opened Events

  function Total(h: seq<Event>, w: Event -> int): int {
    if h == [] then 0 else Total(h[..|h| - 1], w) + w(h[|h| - 1])
  }

  lemma {:induction false} TotalAppend(h: seq<Event>, k: seq<Event>, w: Event -> int)
    ensures Total(h + k, w) == Total(h, w) + Total(k, w)
  {
    if k == [] {
      assert h + k == h;
    } else {
      TotalAppend(h, k[..|k| - 1], w);
      assert (h + k)[..|h + k| - 1] == h + k[..|k| - 1];
    }
  }

  lemma TotalOne(e: Event, w: Event -> int)
    ensures Total([e], w) == w(e)
  {
    assert [e][..0] == [];
  }

  lemma TotalTwo(e: Event, e': Event, w: Event -> int)
    ensures Total([e, e'], w) == w(e) + w(e')
  {
    assert [e, e'][..1] == [e];
    TotalOne(e, w);
  }

  lemma {:induction false} TotalSame(h: seq<Event>, w: Event -> int, w': Event -> int)
    requires forall e :: e in h ==> w(e) == w'(e)
    ensures Total(h, w) == Total(h, w')
  {
    if h != [] {
      assert forall e :: e in h[..|h| - 1] ==> e in h;
      TotalSame(h[..|h| - 1], w, w');
      assert h[|h| - 1] in h;
    }
  }

  lemma {:induction false} TotalZero(h: seq<Event>, w: Event -> int)
    requires forall e :: e in h ==> w(e) == 0
    ensures Total(h, w) == 0
  {
    if h != [] {
      assert forall e :: e in h[..|h| - 1] ==> e in h;
      TotalZero(h[..|h| - 1], w);
      assert h[|h| - 1] in h;
    }
  }

  /** A test and its complement split a sum. */
  lemma {:induction false} TotalSplit(h: seq<Event>, p: Event -> bool, q: Event -> bool, w: Event -> int)
    requires forall e :: e in h ==> (p(e) <==> !q(e))
    ensures Total(h, w) == Total(Filter(h, p), w) + Total(Filter(h, q), w)
  {
    if h != [] {
      var front, last := h[..|h| - 1], h[|h| - 1];
      assert forall e :: e in front ==> e in h;
      TotalSplit(front, p, q, w);
      assert last in h;
      TotalOne(last, w);
      TotalAppend(Filter(front, p), [last], w);
      TotalAppend(Filter(front, q), [last], w);
    }
  }

  lemma {:induction false} FilterShrinks(h: seq<Event>, p: Event -> bool)
    ensures |Filter(h, p)| <= |h|
  {
    if h != [] {
      FilterShrinks(h[..|h| - 1], p);
    }
  }

  lemma RestOfCorrelations(h: seq<Event>, c: Id, d: Id)
    ensures OfCorrelation(Without(h, c), d) == if d == c then [] else OfCorrelation(h, d)
  {
    if d == c {
      WithoutMembers(h, c);
      FilterNone(Without(h, c), (e: Event) => e.corr == d);
    } else {
      FilterTwice(h, (e: Event) => e.corr != c, (e: Event) => e.corr == d, (e: Event) => e.corr == d);
    }
  }

  lemma SplitCorrelation(h: seq<Event>, c: Id, w: Event -> int)
    ensures Total(h, w) == Total(OfCorrelation(h, c), w) + Total(Without(h, c), w)
  {
    TotalSplit(h, (e: Event) => e.corr == c, (e: Event) => e.corr != c, w);
  }

  lemma {:induction false} TotalsByCorrelation(h: seq<Event>, w: Event -> int, w': Event -> int)
    requires forall c :: Total(OfCorrelation(h, c), w) == Total(OfCorrelation(h, c), w')
    ensures Total(h, w) == Total(h, w')
    decreases |h|
  {
    if h != [] {
      var front, c := h[..|h| - 1], h[|h| - 1].corr;
      var rest := Without(h, c);
      FilterShrinks(front, (e: Event) => e.corr != c);
      assert |rest| < |h|;
      forall d
        ensures Total(OfCorrelation(rest, d), w) == Total(OfCorrelation(rest, d), w')
      {
        RestOfCorrelations(h, c, d);
      }
      TotalsByCorrelation(rest, w, w');
      SplitCorrelation(h, c, w);
      SplitCorrelation(h, c, w');
    }
  }
}

/** The records that flow through the pipeline, the six price sources, and the
    sums behind every average. */
module Quotes {

  /** The six sources; the first three serve the ARS region, the last three BRL. */
  datatype Scraper = Ambito | DolarHoy | Cronista | Wise | Nubank | Nomad

  /** The `name` each scraper object carries, used in error reports. */
  function Name(s: Scraper): string {
    match s
    case Ambito => "Ambito"
    case DolarHoy => "DolarHoy"
    case Cronista => "Cronista"
    case Wise => "Wise"
    case Nubank => "Nubank"
    case Nomad => "Nomad"
  }

  /** The region whose currency a scraper quotes (its directory in the source tree). */
  function HomeRegion(s: Scraper): string {
    if s in {Ambito, DolarHoy, Cronista} then "ARS" else "BRL"
  }

  /** What a scraper returns: `{buy_price, sell_price, source}`. */
  datatype RawQuote = RawQuote(source: string, buy: real, sell: real)

  /** A scraped quote stamped with the time it was collected: `{...raw, timestamp}`. */
  datatype Quote = Quote(raw: RawQuote, timestamp: int)

  datatype Side = Buy | Sell

  function Price(q: RawQuote, side: Side): real {
    match side
    case Buy => q.buy
    case Sell => q.sell
  }

  /** The buy or the sell prices of a list of quotes, in list order. */
  function Prices(qs: seq<RawQuote>, side: Side): (ps: seq<real>)
    ensures |ps| == |qs|
    ensures forall i :: 0 <= i < |qs| ==> ps[i] == Price(qs[i], side)
  {
    seq(|qs|, i requires 0 <= i < |qs| => Price(qs[i], side))
  }

  /** The raw part of each stamped quote, in list order. */
  function Raws(qs: seq<Quote>): (rs: seq<RawQuote>)
    ensures |rs| == |qs|
    ensures forall i :: 0 <= i < |qs| ==> rs[i] == qs[i].raw
  {
    seq(|qs|, i requires 0 <= i < |qs| => qs[i].raw)
  }

  /** `xs.reduce((sum, x) => sum + x, 0)`: a left fold starting from 0. */
  function Sum(xs: seq<real>): real {
    if |xs| == 0 then 0.0 else Sum(xs[..|xs| - 1]) + xs[|xs| - 1]
  }

  /** Summation splits over concatenation, so the order in which the sources
      are listed does not change a total. */
  lemma {:induction false} SumAppend(a: seq<real>, b: seq<real>)
    ensures Sum(a + b) == Sum(a) + Sum(b)
    decreases |b|
  {
    if |b| == 0 {
      assert a + b == a;
    } else {
      assert (a + b)[..|a + b| - 1] == a + b[..|b| - 1];
      SumAppend(a, b[..|b| - 1]);
    }
  }

  lemma SumSwap(a: seq<real>, b: seq<real>)
    ensures Sum(a + b) == Sum(b + a)
  {
    SumAppend(a, b);
    SumAppend(b, a);
  }

  /** The prices of a concatenation are the prices of each part, in order. */
  lemma PricesAppend(u: seq<Quote>, v: seq<Quote>, side: Side)
    ensures Prices(Raws(u + v), side) == Prices(Raws(u), side) + Prices(Raws(v), side)
  {
    assert forall i :: 0 <= i < |u + v| ==> (u + v)[i] == if i < |u| then u[i] else v[i - |u|];
  }

  /** Taking quote j out of a list takes its price out of the total. */
  lemma PriceSumRemove(b: seq<Quote>, j: nat, side: Side)
    requires j < |b|
    ensures Sum(Prices(Raws(b), side))
         == Sum(Prices(Raws(b[..j] + b[j + 1..]), side)) + Price(b[j].raw, side)
  {
    var left, right := b[..j], b[j + 1..];
    var pl, px, pr := Prices(Raws(left), side), Prices(Raws([b[j]]), side), Prices(Raws(right), side);
    assert b == left + ([b[j]] + right);
    PricesAppend(left, [b[j]] + right, side);
    PricesAppend([b[j]], right, side);
    PricesAppend(left, right, side);
    SumAppend(pl, px + pr);
    SumAppend(px, pr);
    SumAppend(pl, pr);
    assert px == [Price(b[j].raw, side)];
    assert Sum(px) == Price(b[j].raw, side) by {
      assert px[..0] == [];
    }
  }

  /** Quote lists holding the same quotes, in any order and with the same
      multiplicities, have the same price total on either side. */
  lemma {:induction false} PriceSumPermutation(a: seq<Quote>, b: seq<Quote>, side: Side)
    requires multiset(a) == multiset(b)
    ensures Sum(Prices(Raws(a), side)) == Sum(Prices(Raws(b), side))
    decreases |a|
  {
    if |a| == 0 {
      assert |b| == |multiset(b)| == 0;
    } else {
      var n := |a| - 1;
      var x := a[n];
      assert x in multiset(b);
      var j :| 0 <= j < |b| && b[j] == x;
      var rest := b[..j] + b[j + 1..];
      assert multiset(rest) == multiset(a[..n]) by {
        assert b == b[..j] + [x] + b[j + 1..];
        assert multiset(b) == multiset(b[..j]) + multiset{x} + multiset(b[j + 1..]);
        assert multiset(rest) == multiset(b[..j]) + multiset(b[j + 1..]);
        assert a == a[..n] + [x];
        assert multiset(a) == multiset(a[..n]) + multiset{x};
        assert multiset(rest) == multiset(b) - multiset{x};
        assert multiset(a[..n]) == multiset(a) - multiset{x};
      }
      PriceSumPermutation(a[..n], rest, side);
      PriceSumRemove(a, n, side);
      assert a[..n] + a[n + 1..] == a[..n];
      PriceSumRemove(b, j, side);
    }
  }

  /** A total lies between n times the least and n times the greatest term. */
  lemma {:induction false} SumBounds(xs: seq<real>, lo: real, hi: real)
    requires forall i :: 0 <= i < |xs| ==> lo <= xs[i] <= hi
    ensures |xs| as real * lo <= Sum(xs) <= |xs| as real * hi
    decreases |xs|
  {
    if |xs| > 0 {
      var m := (|xs| - 1) as real;
      SumBounds(xs[..|xs| - 1], lo, hi);
      assert |xs| as real * lo == m * lo + lo;
      assert |xs| as real * hi == m * hi + hi;
    }
  }

  /** The arithmetic mean of a non-empty list. */
  function Mean(xs: seq<real>): real
    requires |xs| > 0
  {
    Sum(xs) / |xs| as real
  }

  /** A mean lies between the least and the greatest term. */
  lemma MeanBounds(xs: seq<real>, lo: real, hi: real)
    requires |xs| > 0
    requires forall i :: 0 <= i < |xs| ==> lo <= xs[i] <= hi
    ensures lo <= Mean(xs) <= hi
  {
    SumBounds(xs, lo, hi);
    var n := |xs| as real;
    assert n * lo <= Sum(xs) <= n * hi;
    assert lo == (n * lo) / n && hi == (n * hi) / n;
  }

  lemma {:induction false} SumAtLeast(xs: seq<real>, lo: real)
    requires forall i :: 0 <= i < |xs| ==> lo <= xs[i]
    ensures |xs| as real * lo <= Sum(xs)
    decreases |xs|
  {
    if |xs| > 0 {
      SumAtLeast(xs[..|xs| - 1], lo);
      assert |xs| as real * lo == (|xs| - 1) as real * lo + lo;
    }
  }

  /** A mean is at least any lower bound of its terms. */
  lemma MeanAtLeast(xs: seq<real>, lo: real)
    requires |xs| > 0
    requires forall i :: 0 <= i < |xs| ==> lo <= xs[i]
    ensures lo <= Mean(xs)
  {
    SumAtLeast(xs, lo);
    var n := |xs| as real;
    assert lo == (n * lo) / n;
  }
}

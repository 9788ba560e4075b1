/** The scraper service of `src/services/scraper.service.js`: which scrapers a
    region uses, switching region, retrying one scraper with linear backoff, and
    running every scraper and splitting the settled results into quotes and
    errors. A scraper call is opaque: one call yields one `Attempt`. */
module ScraperService {
  import opened Outcomes
  import opened Collections
  import opened Quotes

  /** The scrapers for a region; any region other than "BRL" gets the ARS list. */
  function ScrapersForRegion(region: string): (scrapers: seq<Scraper>)
    ensures scrapers == if region == "BRL" then [Wise, Nubank, Nomad] else [Ambito, DolarHoy, Cronista]
    ensures |scrapers| == 3
    ensures forall i :: 0 <= i < |scrapers| ==>
      HomeRegion(scrapers[i]) == (if region == "BRL" then "BRL" else "ARS")
    ensures forall i, j :: 0 <= i < j < |scrapers| ==> scrapers[i] != scrapers[j]
  {
    if region == "ARS" then [Ambito, DolarHoy, Cronista]
    else if region == "BRL" then [Wise, Nubank, Nomad]
    else [Ambito, DolarHoy, Cronista]
  }

  /** An unknown region is served exactly as ARS is. */
  lemma UnknownRegionFallsBack(region: string)
    requires region != "ARS" && region != "BRL"
    ensures ScrapersForRegion(region) == ScrapersForRegion("ARS")
  {
  }

  /** The service's one piece of state: its current scraper list. */
  datatype Service = Service(scrapers: seq<Scraper>)

  /** The service as constructed from the configured region. */
  function NewService(configRegion: string): (svc: Service)
    ensures svc.scrapers == ScrapersForRegion(configRegion)
    ensures |svc.scrapers| == 3
    ensures forall i :: 0 <= i < 3 ==>
      HomeRegion(svc.scrapers[i]) == (if configRegion == "BRL" then "BRL" else "ARS")
  {
    Service(ScrapersForRegion(configRegion))
  }

  const InvalidRegionMessage: string := "Invalid region. Must be ARS or BRL"

  /** `changeRegion`: rejects anything but "ARS" and "BRL" and leaves the
      scraper list alone; otherwise installs that region's list. */
  function ChangeRegion(svc: Service, newRegion: string): (u: Updated<Service>)
    ensures u.error.Some? <==> newRegion != "ARS" && newRegion != "BRL"
    ensures u.error.Some? ==> u.state == svc && u.error.value == InvalidRegionMessage
    ensures u.error.None? ==> u.state.scrapers == ScrapersForRegion(newRegion)
    ensures u.error.None? ==> |u.state.scrapers| == 3
    ensures u.error.None? ==>
      forall i :: 0 <= i < 3 ==> HomeRegion(u.state.scrapers[i]) == newRegion
  {
    if newRegion != "ARS" && newRegion != "BRL" then Updated(svc, Some(InvalidRegionMessage))
    else Updated(Service(ScrapersForRegion(newRegion)), None)
  }

  /** The last valid switch decides the scraper list: switching to r1, then
      to r2, then to r1 again leaves the list the first switch installed. */
  lemma ChangeRegionRoundTrip(svc: Service, r1: string, r2: string)
    requires r1 in {"ARS", "BRL"} && r2 in {"ARS", "BRL"}
    ensures ChangeRegion(ChangeRegion(ChangeRegion(svc, r1).state, r2).state, r1)
         == ChangeRegion(svc, r1)
  {
  }

  // ---------------------------------------------------------------------------
  // One scraper with retry

  /** The outcome of one call to a scraper's `scrape()`. */
  datatype Attempt = Succeeded(quote: RawQuote) | Threw(message: string)

  /** A settled promise as `Promise.allSettled` reports it. */
  datatype Settled = Fulfilled(value: RawQuote) | Rejected(reason: string)

  /** What one `scrapeWithRetry` run did: how it settled, how many times it
      called the scraper, and the delays it slept between calls, in order. */
  datatype RetryRun = RetryRun(settled: Settled, calls: nat, sleeps: seq<nat>)

  /** The default `retries` argument, the only one any caller uses. */
  const DefaultRetries: nat := 2

  /** The delay after failed attempt k is k times this many milliseconds
      (linear, although a comment in the source calls it exponential). */
  const BackoffUnitMs: nat := 1000

  /** The loop of `scrapeWithRetry` from attempt number `attempt` on. */
  function RetryFrom(attempts: seq<Attempt>, retries: nat, attempt: nat): (run: RetryRun)
    requires 1 <= attempt <= retries <= |attempts|
    ensures attempt <= run.calls <= retries
    ensures forall k :: attempt - 1 <= k < run.calls - 1 ==> attempts[k].Threw?
    ensures run.settled.Fulfilled? <==> attempts[run.calls - 1].Succeeded?
    ensures run.settled.Fulfilled? ==> run.settled.value == attempts[run.calls - 1].quote
    ensures run.settled.Rejected? ==>
      run.calls == retries && run.settled.reason == attempts[retries - 1].message
    ensures |run.sleeps| == run.calls - attempt
    ensures forall i :: 0 <= i < |run.sleeps| ==> run.sleeps[i] == BackoffUnitMs * (attempt + i)
    decreases retries - attempt
  {
    match attempts[attempt - 1]
    case Succeeded(q) => RetryRun(Fulfilled(q), attempt, [])
    case Threw(m) =>
      if attempt == retries then RetryRun(Rejected(m), attempt, [])
      else
        var rest := RetryFrom(attempts, retries, attempt + 1);
        RetryRun(rest.settled, rest.calls, [BackoffUnitMs * attempt] + rest.sleeps)
  }

  /** `scrapeWithRetry(scraper, retries)`, where `attempts[k]` is what the
      scraper's (k+1)-th call would yield. It calls the scraper at most
      `retries` times, stops at the first success, rethrows the last error when
      every call failed, and sleeps 1000*k ms after failed call k except the last. */
  function ScrapeWithRetry(attempts: seq<Attempt>, retries: nat): (run: RetryRun)
    requires 1 <= retries <= |attempts|
    ensures 1 <= run.calls <= retries
    ensures forall k :: 0 <= k < run.calls - 1 ==> attempts[k].Threw?
    ensures run.settled.Fulfilled? ==> attempts[run.calls - 1] == Succeeded(run.settled.value)
    ensures run.settled.Rejected? <==> forall k :: 0 <= k < retries ==> attempts[k].Threw?
    ensures run.settled.Rejected? ==>
      run.calls == retries && run.settled.reason == attempts[retries - 1].message
    ensures |run.sleeps| == run.calls - 1
    ensures forall i :: 0 <= i < |run.sleeps| ==> run.sleeps[i] == BackoffUnitMs * (i + 1)
  {
    RetryFrom(attempts, retries, 1)
  }

  /** The first success within the budget is returned, after exactly as many
      calls as it took to reach it. */
  lemma RetryReturnsFirstSuccess(attempts: seq<Attempt>, retries: nat, k: nat)
    requires 1 <= retries <= |attempts|
    requires k < retries && attempts[k].Succeeded?
    requires forall j :: 0 <= j < k ==> attempts[j].Threw?
    ensures ScrapeWithRetry(attempts, retries).settled == Fulfilled(attempts[k].quote)
    ensures ScrapeWithRetry(attempts, retries).calls == k + 1
  {
  }

  /** With the default budget, failing once and then succeeding sleeps exactly
      once, for one second. */
  lemma FailThenSucceedSleepsOnce(e: string, q: RawQuote, later: seq<Attempt>)
    ensures ScrapeWithRetry([Threw(e), Succeeded(q)] + later, DefaultRetries)
         == RetryRun(Fulfilled(q), 2, [1000])
  {
    var a := [Threw(e), Succeeded(q)] + later;
    assert a[0] == Threw(e) && a[1] == Succeeded(q);
    var run := ScrapeWithRetry(a, DefaultRetries);
    assert run.calls == 2;
    assert run.sleeps == [1000];
  }

  /** Total time spent sleeping in a list of delays. */
  function TotalSleep(sleeps: seq<nat>): nat {
    if |sleeps| == 0 then 0 else TotalSleep(sleeps[..|sleeps| - 1]) + sleeps[|sleeps| - 1]
  }

  lemma {:induction false} LinearBackoffTotal(sleeps: seq<nat>)
    requires forall i :: 0 <= i < |sleeps| ==> sleeps[i] == BackoffUnitMs * (i + 1)
    ensures TotalSleep(sleeps) == 500 * |sleeps| * (|sleeps| + 1)
    decreases |sleeps|
  {
    if |sleeps| > 0 {
      var n := |sleeps|;
      LinearBackoffTotal(sleeps[..n - 1]);
      assert 500 * n * (n + 1) == 500 * (n - 1) * n + 1000 * n;
    }
  }

  /** A run with budget `retries` sleeps at most 500*retries*(retries-1) ms in
      all, which bounds how long the fan-in can wait on one scraper. */
  lemma RetrySleepBound(attempts: seq<Attempt>, retries: nat)
    requires 1 <= retries <= |attempts|
    ensures TotalSleep(ScrapeWithRetry(attempts, retries).sleeps) <= 500 * retries * (retries - 1)
  {
    var run := ScrapeWithRetry(attempts, retries);
    LinearBackoffTotal(run.sleeps);
    MulMonotone(|run.sleeps|, |run.sleeps| + 1, retries - 1, retries);
  }

  lemma MulMonotone(a: nat, b: nat, c: nat, d: nat)
    requires a <= c && b <= d
    ensures a * b <= c * d
  {
    assert a * b <= a * d;
  }

  // ---------------------------------------------------------------------------
  // All scrapers

  /** Every scraper has a whole retry budget of outcomes to draw from. */
  predicate Covers(outcomes: seq<seq<Attempt>>, retries: nat) {
    forall i :: 0 <= i < |outcomes| ==> retries <= |outcomes[i]|
  }

  /** `Promise.allSettled(scrapers.map(s => scrapeWithRetry(s)))`: the
      settlement of scraper i lands at index i whatever order they finish in. */
  function SettleAll(outcomes: seq<seq<Attempt>>, retries: nat): (results: seq<Settled>)
    requires 1 <= retries && Covers(outcomes, retries)
    ensures |results| == |outcomes|
    ensures forall i :: 0 <= i < |outcomes| ==> results[i] == ScrapeWithRetry(outcomes[i], retries).settled
    ensures forall i :: 0 <= i < |outcomes| ==>
      (results[i].Rejected? <==> forall k :: 0 <= k < retries ==> outcomes[i][k].Threw?)
    ensures forall i :: 0 <= i < |outcomes| ==>
      (results[i].Fulfilled? <==> exists k :: 0 <= k < retries && outcomes[i][k].Succeeded?)
    ensures forall i :: 0 <= i < |outcomes| && results[i].Fulfilled? ==>
      Succeeded(results[i].value) in outcomes[i][..retries]
  {
    seq(|outcomes|, i requires 0 <= i < |outcomes| => ScrapeWithRetry(outcomes[i], retries).settled)
  }

  /** Every settlement is a success exactly when every scraper succeeded
      somewhere within its budget. */
  lemma SettleAllFulfilled(outcomes: seq<seq<Attempt>>, retries: nat)
    requires 1 <= retries && Covers(outcomes, retries)
    ensures (forall i :: 0 <= i < |outcomes| ==> SettleAll(outcomes, retries)[i].Fulfilled?) <==>
      (forall i :: 0 <= i < |outcomes| ==> SucceedsWithin(outcomes[i], retries))
  {
    var results := SettleAll(outcomes, retries);
    forall i | 0 <= i < |outcomes|
      ensures results[i].Fulfilled? <==> SucceedsWithin(outcomes[i], retries)
    {
    }
  }

  /** Some call within the budget succeeds. */
  predicate SucceedsWithin(attempts: seq<Attempt>, retries: nat)
    requires retries <= |attempts|
  {
    exists k :: 0 <= k < retries && attempts[k].Succeeded?
  }

  /** One entry of the `errors` list. */
  datatype ScrapeError = ScrapeError(scraper: string, error: string)

  /** The `forEach` over settled results: fulfilled ones become stamped quotes,
      rejected ones become errors naming the scraper at that index. */
  function Partition(scrapers: seq<Scraper>, results: seq<Settled>, now: int)
    : (p: (seq<Quote>, seq<ScrapeError>))
    requires |scrapers| == |results|
    ensures |p.0| + |p.1| == |results|
    decreases |results|
  {
    if |results| == 0 then ([], [])
    else
      var n := |results| - 1;
      var (qs, es) := Partition(scrapers[..n], results[..n], now);
      match results[n]
      case Fulfilled(v) => (qs + [Quote(v, now)], es)
      case Rejected(m) => (qs, es + [ScrapeError(Name(scrapers[n]), m)])
  }

  /** Each fulfilled result contributes exactly its quote stamped with `now`,
      each rejected one an error naming the scraper at the same index, and
      nothing else appears. */
  lemma {:induction false} PartitionMembers(scrapers: seq<Scraper>, results: seq<Settled>, now: int)
    requires |scrapers| == |results|
    ensures forall q :: q in Partition(scrapers, results, now).0 <==>
      exists i :: 0 <= i < |results| && results[i] == Fulfilled(q.raw) && q.timestamp == now
    ensures forall e :: e in Partition(scrapers, results, now).1 <==>
      exists i :: 0 <= i < |results| && results[i] == Rejected(e.error) && e.scraper == Name(scrapers[i])
    decreases |results|
  {
    if |results| > 0 {
      var n := |results| - 1;
      PartitionMembers(scrapers[..n], results[..n], now);
      assert forall i :: 0 <= i < n ==> results[..n][i] == results[i] && scrapers[..n][i] == scrapers[i];
    }
  }

  /** Partitioning respects concatenation: quotes and errors keep the order of
      the scraper list, independent of completion order. */
  lemma {:induction false} PartitionAppend(s1: seq<Scraper>, r1: seq<Settled>,
                                           s2: seq<Scraper>, r2: seq<Settled>, now: int)
    requires |s1| == |r1| && |s2| == |r2|
    ensures Partition(s1 + s2, r1 + r2, now).0 == Partition(s1, r1, now).0 + Partition(s2, r2, now).0
    ensures Partition(s1 + s2, r1 + r2, now).1 == Partition(s1, r1, now).1 + Partition(s2, r2, now).1
    decreases |r2|
  {
    if |r2| == 0 {
      assert s1 + s2 == s1 && r1 + r2 == r1;
    } else {
      var n := |r2| - 1;
      var S, R := s1 + s2, r1 + r2;
      assert S[..|R| - 1] == s1 + s2[..n];
      assert R[..|R| - 1] == r1 + r2[..n];
      assert R[|R| - 1] == r2[n] && S[|R| - 1] == s2[n];
      PartitionAppend(s1, r1, s2[..n], r2[..n], now);
    }
  }

  /** There are no quotes exactly when every result was rejected. */
  lemma PartitionNoQuotes(scrapers: seq<Scraper>, results: seq<Settled>, now: int)
    requires |scrapers| == |results|
    ensures |Partition(scrapers, results, now).0| == 0 <==>
      forall i :: 0 <= i < |results| ==> results[i].Rejected?
  {
    var p := Partition(scrapers, results, now);
    PartitionMembers(scrapers, results, now);
    if exists i :: 0 <= i < |results| && results[i].Fulfilled? {
      var i :| 0 <= i < |results| && results[i].Fulfilled?;
      assert Quote(results[i].value, now) in p.0;
    } else {
      HeadIsMember(p.0);
    }
  }

  /** There are no errors exactly when every result was fulfilled. */
  lemma PartitionNoErrors(scrapers: seq<Scraper>, results: seq<Settled>, now: int)
    requires |scrapers| == |results|
    ensures |Partition(scrapers, results, now).1| == 0 <==>
      forall i :: 0 <= i < |results| ==> results[i].Fulfilled?
  {
    var p := Partition(scrapers, results, now);
    PartitionMembers(scrapers, results, now);
    if exists i :: 0 <= i < |results| && results[i].Rejected? {
      var i :| 0 <= i < |results| && results[i].Rejected?;
      assert ScrapeError(Name(scrapers[i]), results[i].reason) in p.1;
    } else {
      HeadIsMember(p.1);
    }
  }

  /** The value `scrapeAll` resolves to: `errors` is absent when nothing failed. */
  datatype ScrapeReport = ScrapeReport(quotes: seq<Quote>, errors: Option<seq<ScrapeError>>)

  const AllFailedMessage: string := "All scrapers failed to retrieve data"

  /** `scrapeAll` with each scraper i drawing its attempts from `outcomes[i]`
      and the clock reading `now`. It throws exactly when no scraper succeeded
      within its retry budget. */
  function ScrapeAll(svc: Service, outcomes: seq<seq<Attempt>>, now: int): (r: Result<ScrapeReport>)
    requires |outcomes| == |svc.scrapers| && Covers(outcomes, DefaultRetries)
    ensures r.Err? <==> forall i, k :: 0 <= i < |outcomes| && 0 <= k < DefaultRetries ==>
      outcomes[i][k].Threw?
    ensures r.Err? ==> r.msg == AllFailedMessage
    ensures r.Ok? ==> |r.value.quotes| > 0 && forall q :: q in r.value.quotes ==> q.timestamp == now
    ensures r.Ok? ==> (r.value.errors.None? <==>
      forall i :: 0 <= i < |outcomes| ==> SucceedsWithin(outcomes[i], DefaultRetries))
    ensures r.Ok? && r.value.errors.Some? ==>
      |r.value.errors.value| > 0 && |r.value.quotes| + |r.value.errors.value| == |svc.scrapers|
    ensures r.Ok? && r.value.errors.None? ==> |r.value.quotes| == |svc.scrapers|
    ensures r.Ok? ==> forall q :: q in r.value.quotes <==>
      q.timestamp == now &&
      exists i :: 0 <= i < |outcomes| && ScrapeWithRetry(outcomes[i], DefaultRetries).settled == Fulfilled(q.raw)
    ensures r.Ok? && r.value.errors.Some? ==> forall e :: e in r.value.errors.value <==>
      exists i :: 0 <= i < |outcomes| && ScrapeWithRetry(outcomes[i], DefaultRetries).settled == Rejected(e.error)
        && e.scraper == Name(svc.scrapers[i])
  {
    var results := SettleAll(outcomes, DefaultRetries);
    var (quotes, errors) := Partition(svc.scrapers, results, now);
    PartitionNoQuotes(svc.scrapers, results, now);
    PartitionNoErrors(svc.scrapers, results, now);
    PartitionMembers(svc.scrapers, results, now);
    SettleAllFulfilled(outcomes, DefaultRetries);
    if |quotes| == 0 then Err(AllFailedMessage)
    else Ok(ScrapeReport(quotes, if |errors| > 0 then Some(errors) else None))
  }

  /** The quotes a `scrapeAll` call answers, or none when it throws. */
  function QuotesOf(r: Result<ScrapeReport>): seq<Quote> {
    if r.Ok? then r.value.quotes else []
  }

  /** The quotes of a call are the partition of its settlements, also when it throws. */
  lemma ScrapeAllQuotes(svc: Service, outcomes: seq<seq<Attempt>>, now: int)
    requires |outcomes| == |svc.scrapers| && Covers(outcomes, DefaultRetries)
    ensures QuotesOf(ScrapeAll(svc, outcomes, now))
         == Partition(svc.scrapers, SettleAll(outcomes, DefaultRetries), now).0
  {
  }

  /** Running the first scrapers and then the rest gives the same quotes as
      running them all together, so the quotes keep the scraper order. */
  lemma ScrapeAllInScraperOrder(s1: seq<Scraper>, o1: seq<seq<Attempt>>,
                                s2: seq<Scraper>, o2: seq<seq<Attempt>>, now: int)
    requires |o1| == |s1| && Covers(o1, DefaultRetries)
    requires |o2| == |s2| && Covers(o2, DefaultRetries)
    ensures Covers(o1 + o2, DefaultRetries)
    ensures QuotesOf(ScrapeAll(Service(s1 + s2), o1 + o2, now))
         == QuotesOf(ScrapeAll(Service(s1), o1, now)) + QuotesOf(ScrapeAll(Service(s2), o2, now))
  {
    assert forall i :: 0 <= i < |o1 + o2| ==> (o1 + o2)[i] == if i < |o1| then o1[i] else o2[i - |o1|];
    var r1, r2 := SettleAll(o1, DefaultRetries), SettleAll(o2, DefaultRetries);
    assert SettleAll(o1 + o2, DefaultRetries) == r1 + r2;
    ScrapeAllQuotes(Service(s1 + s2), o1 + o2, now);
    ScrapeAllQuotes(Service(s1), o1, now);
    ScrapeAllQuotes(Service(s2), o2, now);
    PartitionAppend(s1, r1, s2, r2, now);
  }

  /** Two of three ARS sources answer on their first call and the third,
      Cronista, fails both attempts: two quotes in scraper order and one error
      naming Cronista. */
  lemma TwoOfThreeScrape(qa: RawQuote, qb: RawQuote, e: string, now: int)
    ensures var r := ScrapeAll(NewService("ARS"),
                               [[Succeeded(qa), Threw(e)], [Succeeded(qb), Threw(e)], [Threw(e), Threw(e)]], now);
      && r.Ok?
      && r.value.quotes == [Quote(qa, now), Quote(qb, now)]
      && r.value.errors == Some([ScrapeError("Cronista", e)])
  {
    var outcomes := [[Succeeded(qa), Threw(e)], [Succeeded(qb), Threw(e)], [Threw(e), Threw(e)]];
    var results := SettleAll(outcomes, DefaultRetries);
    assert results == [Fulfilled(qa), Fulfilled(qb), Rejected(e)];
    var p1 := Partition([Ambito], [Fulfilled(qa)], now);
    assert [Ambito][..0] == [] && [Fulfilled(qa)][..0] == [];
    assert p1.0 == [Quote(qa, now)] && p1.1 == [];
    var p2 := Partition([Ambito, DolarHoy], [Fulfilled(qa), Fulfilled(qb)], now);
    assert [Ambito, DolarHoy][..1] == [Ambito] && [Fulfilled(qa), Fulfilled(qb)][..1] == [Fulfilled(qa)];
    assert p2.0 == [Quote(qa, now), Quote(qb, now)] && p2.1 == [];
    var p3 := Partition(NewService("ARS").scrapers, results, now);
    assert NewService("ARS").scrapers[..2] == [Ambito, DolarHoy];
    assert results[..2] == [Fulfilled(qa), Fulfilled(qb)];
    assert p3.0 == [Quote(qa, now), Quote(qb, now)] && p3.1 == [ScrapeError("Cronista", e)];
  }
}

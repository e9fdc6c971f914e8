/** The statistics tracker (`src/utils/Statistics.ts`): counters over all
    recorded checks, a window of the last 100 response times with its
    rounded mean, and a per-country `Map` of check counts, successes and
    total response time, from which the success rates, a top-ten list and
    per-country views are derived. `new Date()` is the parameter `now`;
    the unseen `getCountryConfig` is the parameter `configOf`.

    `RecordStep` gives the effect of `recordCheck` on the tracker's state;
    `Consistent` collects the counting invariants it keeps; the class
    `StatisticsTracker` performs the same updates in place. */
module Stats {
  import opened Wrappers
  import opened Seqs
  import opened OrderedMaps
  import opened Types

  /** The response-time window holds at most this many samples. */
  const WindowSize: nat := 100
  /** `getMostCheckedCountries` reports at most this many countries. */
  const TopCount: nat := 10
  /** The white flag shown when a country has no configured flag. */
  const DefaultFlag: string := "\U{1F3F3}\U{FE0F}"

  // ---------------------------------------------------------------------------
  // Outcomes

  /** The test `recordCheck` uses for `successfulChecks`: musait, dolu or bilinmiyor. */
  predicate IsSuccessfulCheck(d: Durum) {
    d == Musait || d == Dolu || d == Bilinmiyor
  }

  /** The test `recordCheck` passes to `updateCountryStats`: neither hata nor timeout. */
  predicate IsCountrySuccess(d: Durum) {
    d != Hata && d != Timeout
  }

  /** Over the five outcomes the two tests agree. */
  lemma SuccessTestsAgree(d: Durum)
    ensures IsSuccessfulCheck(d) <==> IsCountrySuccess(d)
  {
  }

  // ---------------------------------------------------------------------------
  // Rounding and means

  /** `Math.round`: the nearest integer, a half rounded up. */
  function Round(x: real): (r: int)
    ensures x - 0.5 < r as real <= x + 0.5
  {
    (x + 0.5).Floor
  }

  function Sum(xs: seq<int>): int {
    if xs == [] then 0 else xs[0] + Sum(xs[1..])
  }

  /** `calculateAverageResponseTime`: the rounded mean of the samples, 0 when there are none. */
  function Mean(xs: seq<int>): (r: int)
    ensures xs == [] ==> r == 0
    ensures xs != [] ==> Sum(xs) as real / |xs| as real - 0.5 < r as real <= Sum(xs) as real / |xs| as real + 0.5
  {
    if xs == [] then 0 else Round(Sum(xs) as real / |xs| as real)
  }

  /** In integers the rounded mean is `(2 * sum + n) / (2 * n)`. */
  lemma MeanIntegerForm(xs: seq<int>)
    requires xs != []
    ensures Mean(xs) == (2 * Sum(xs) + |xs|) / (2 * |xs|)
  {
    var s, n := Sum(xs), |xs|;
    var q := (2 * s + n) / (2 * n);
    assert q * (2 * n) <= 2 * s + n < (q + 1) * (2 * n);
    var y := s as real / n as real + 0.5;
    assert y * (2 * n) as real == (2 * s + n) as real;
    assert q as real * (2 * n) as real <= y * (2 * n) as real < (q + 1) as real * (2 * n) as real;
    assert q as real <= y < (q + 1) as real;
  }

  lemma {:induction false} SumBounds(xs: seq<int>, lo: int, hi: int)
    requires forall i :: 0 <= i < |xs| ==> lo <= xs[i] <= hi
    ensures lo * |xs| <= Sum(xs) <= hi * |xs|
  {
    if xs != [] {
      SumBounds(xs[1..], lo, hi);
    }
  }

  /** The rounded mean lies between the smallest and the largest sample. */
  lemma MeanWithinRange(xs: seq<int>, lo: int, hi: int)
    requires xs != [] && forall i :: 0 <= i < |xs| ==> lo <= xs[i] <= hi
    ensures lo <= Mean(xs) <= hi
  {
    SumBounds(xs, lo, hi);
    var n := |xs| as real;
    assert lo as real * n <= Sum(xs) as real <= hi as real * n;
    QuotientBounds(lo as real, hi as real, Sum(xs) as real, n);
  }

  lemma QuotientBounds(lo: real, hi: real, s: real, n: real)
    requires n > 0.0 && lo * n <= s <= hi * n
    ensures lo <= s / n <= hi
  {
    assert (s / n) * n == s;
  }

  // ---------------------------------------------------------------------------
  // The response-time window

  /** `push` of a sample, then `shift` once the window holds more than `WindowSize`. */
  function PushSample(w: seq<int>, x: int): (r: seq<int>)
    ensures |w| <= WindowSize ==> |r| <= WindowSize
    ensures r != [] && r[|r| - 1] == x
  {
    var pushed := w + [x];
    if |pushed| > WindowSize then pushed[1..] else pushed
  }

  /** The last `WindowSize` samples of a history, oldest first. */
  function LastSamples(h: seq<int>): (r: seq<int>)
    ensures |r| == if |h| <= WindowSize then |h| else WindowSize
    ensures r == h[|h| - |r|..]
  {
    if |h| <= WindowSize then h else h[|h| - WindowSize..]
  }

  /** Pushing onto the window of a history gives the window of the longer history. */
  lemma WindowIsLastSamples(h: seq<int>, x: int)
    ensures PushSample(LastSamples(h), x) == LastSamples(h + [x])
  {
    var h' := h + [x];
    if |h| >= WindowSize {
      var w := h[|h| - WindowSize..];
      assert (w + [x])[1..] == h'[|h'| - WindowSize..];
    } else {
      assert h'[|h'| - |h'|..] == h';
    }
  }

  // ---------------------------------------------------------------------------
  // Per-country records

  /** The value stored per country in `countryStats`. */
  datatype CountryData = CountryData(checks: nat, successes: nat, totalResponseTime: int)

  /** `updateCountryStats`: the country's record (zeros when it has none)
      with one more check, one more success when `success`, and the sample
      added to its total; the country keeps its place in the map. */
  function UpdateCountry(m: OrderedMap<CountryData>, country: string, success: bool, responseTime: int): (r: OrderedMap<CountryData>)
    ensures m.Valid() ==> r.Valid()
    ensures country in r.entries
    ensures r.entries[country].checks == m.Get(country).GetOr(CountryData(0, 0, 0)).checks + 1
    ensures r.entries[country].successes == m.Get(country).GetOr(CountryData(0, 0, 0)).successes + (if success then 1 else 0)
    ensures r.entries[country].totalResponseTime == m.Get(country).GetOr(CountryData(0, 0, 0)).totalResponseTime + responseTime
    ensures forall k :: k != country ==> r.Get(k) == m.Get(k)
    ensures country in m.entries ==> r.order == m.order
    ensures country !in m.entries ==> r.order == m.order + [country]
  {
    var current := m.Get(country).GetOr(CountryData(0, 0, 0));
    m.Put(country, CountryData(current.checks + 1, if success then current.successes + 1 else current.successes, current.totalResponseTime + responseTime))
  }

  function Checks(d: CountryData): int {
    d.checks
  }

  function Successes(d: CountryData): int {
    d.successes
  }

  /** The sum of `f` over the records of the keys in `order`. */
  function SumOver(order: seq<string>, entries: map<string, CountryData>, f: CountryData -> int): int {
    if order == [] then 0
    else (if order[0] in entries then f(entries[order[0]]) else 0) + SumOver(order[1..], entries, f)
  }

  lemma {:induction false} SumOverIgnores(order: seq<string>, entries: map<string, CountryData>, k: string, v: CountryData, f: CountryData -> int)
    requires k !in order
    ensures SumOver(order, entries[k := v], f) == SumOver(order, entries, f)
  {
    if order != [] {
      SumOverIgnores(order[1..], entries, k, v, f);
    }
  }

  lemma {:induction false} SumOverAppend(a: seq<string>, b: seq<string>, entries: map<string, CountryData>, f: CountryData -> int)
    ensures SumOver(a + b, entries, f) == SumOver(a, entries, f) + SumOver(b, entries, f)
  {
    if a == [] {
      assert a + b == b;
    } else {
      assert (a + b)[0] == a[0] && (a + b)[1..] == a[1..] + b;
      SumOverAppend(a[1..], b, entries, f);
    }
  }

  /** Replacing the record of a key that occurs once changes the sum by the difference. */
  lemma {:induction false} SumOverReplace(order: seq<string>, entries: map<string, CountryData>, k: string, v: CountryData, f: CountryData -> int)
    requires NoDuplicates(order) && k in order && k in entries
    ensures SumOver(order, entries[k := v], f) == SumOver(order, entries, f) - f(entries[k]) + f(v)
  {
    NoDuplicatesElsewhere(order, 0);
    assert order[..0] == [];
    if order[0] == k {
      SumOverIgnores(order[1..], entries, k, v, f);
    } else {
      NoDuplicatesSlice(order, 1, |order|);
      assert order[1..|order|] == order[1..];
      SumOverReplace(order[1..], entries, k, v, f);
    }
  }

  /** A record adds one check to the per-country total, and one success exactly when `success`. */
  lemma CountryTotalsAfterUpdate(m: OrderedMap<CountryData>, country: string, success: bool, responseTime: int)
    requires m.Valid()
    ensures var r := UpdateCountry(m, country, success, responseTime);
      && SumOver(r.order, r.entries, Checks) == SumOver(m.order, m.entries, Checks) + 1
      && SumOver(r.order, r.entries, Successes) == SumOver(m.order, m.entries, Successes) + (if success then 1 else 0)
  {
    var r := UpdateCountry(m, country, success, responseTime);
    var v := r.entries[country];
    assert r.entries == m.entries[country := v];
    if country in m.entries {
      SumOverReplace(m.order, m.entries, country, v, Checks);
      SumOverReplace(m.order, m.entries, country, v, Successes);
    } else {
      SumOverIgnores(m.order, m.entries, country, v, Checks);
      SumOverIgnores(m.order, m.entries, country, v, Successes);
      SumOverAppend(m.order, [country], r.entries, Checks);
      SumOverAppend(m.order, [country], r.entries, Successes);
      assert [country][1..] == [];
    }
  }

  // ---------------------------------------------------------------------------
  // Tracker state and `recordCheck`

  /** The observable state of a `StatisticsTracker`. */
  datatype TrackerState = TrackerState(stats: Statistics, countryStats: OrderedMap<CountryData>, responseTimes: seq<int>)

  /** The counters the constructor and `reset` install. */
  function InitialStatistics(now: int): (r: Statistics)
    ensures r.totalChecks == 0 && r.successfulChecks == 0 && r.failedChecks == 0
    ensures r.cacheHits == 0 && r.cacheMisses == 0 && r.averageResponseTime == 0
    ensures r.mostCheckedCountries == [] && r.lastUpdated == now
  {
    Statistics(0, 0, 0, 0, 0, 0, [], now)
  }

  function InitialTracker(now: int): (r: TrackerState)
    ensures Consistent(r)
    ensures r.countryStats.Size() == 0 && r.responseTimes == []
  {
    TrackerState(InitialStatistics(now), Empty(), [])
  }

  /** The counter updates of `recordCheck`. */
  function CountCheck(st: Statistics, durum: Durum, fromCache: bool): Statistics {
    var st := st.(totalChecks := st.totalChecks + 1);
    var st := if IsSuccessfulCheck(durum) then st.(successfulChecks := st.successfulChecks + 1)
              else st.(failedChecks := st.failedChecks + 1);
    if fromCache then st.(cacheHits := st.cacheHits + 1) else st.(cacheMisses := st.cacheMisses + 1)
  }

  /** `recordCheck(result, responseTime, fromCache)` at time `now`. */
  function RecordStep(s: TrackerState, result: RandevuKontrolSonuc, responseTime: int, fromCache: bool, now: int): (r: TrackerState)
    ensures r.stats.totalChecks == s.stats.totalChecks + 1
    ensures r.stats.mostCheckedCountries == s.stats.mostCheckedCountries
    ensures r.stats.lastUpdated == now
  {
    var window := PushSample(s.responseTimes, responseTime);
    var st := CountCheck(s.stats, result.durum, fromCache).(averageResponseTime := Mean(window));
    var countries := UpdateCountry(s.countryStats, result.ulke, IsCountrySuccess(result.durum), responseTime);
    TrackerState(st.(lastUpdated := now), countries, window)
  }

  /** The counting invariants of the tracker. */
  ghost predicate Consistent(s: TrackerState) {
    var st, m := s.stats, s.countryStats;
    && m.Valid()
    && st.successfulChecks + st.failedChecks == st.totalChecks
    && st.cacheHits + st.cacheMisses == st.totalChecks
    && SumOver(m.order, m.entries, Checks) == st.totalChecks
    && SumOver(m.order, m.entries, Successes) == st.successfulChecks
    && (forall k | k in m.entries :: 0 < m.entries[k].checks && m.entries[k].successes <= m.entries[k].checks)
    && |s.responseTimes| == (if st.totalChecks <= WindowSize then st.totalChecks else WindowSize)
    && st.averageResponseTime == Mean(s.responseTimes)
  }

  /** What one record does to the counters: exactly one of successful and
      failed moves, as the outcome says, and exactly one of hits and misses,
      as `fromCache` says. */
  lemma RecordCounts(s: TrackerState, result: RandevuKontrolSonuc, responseTime: int, fromCache: bool, now: int)
    ensures var r := RecordStep(s, result, responseTime, fromCache, now).stats;
      && r.successfulChecks == s.stats.successfulChecks + (if result.durum in {Musait, Dolu, Bilinmiyor} then 1 else 0)
      && r.failedChecks == s.stats.failedChecks + (if result.durum in {Hata, Timeout} then 1 else 0)
      && r.cacheHits == s.stats.cacheHits + (if fromCache then 1 else 0)
      && r.cacheMisses == s.stats.cacheMisses + (if fromCache then 0 else 1)
  {
  }

  /** What one record does to the per-country map: the result's country
      gains a check, a success iff the outcome is neither hata nor timeout,
      and the sample; no other country changes. */
  lemma RecordCountryEffect(s: TrackerState, result: RandevuKontrolSonuc, responseTime: int, fromCache: bool, now: int)
    ensures var m, r := s.countryStats, RecordStep(s, result, responseTime, fromCache, now).countryStats;
      var before := m.Get(result.ulke).GetOr(CountryData(0, 0, 0));
      && r.Get(result.ulke).Some?
      && r.entries[result.ulke].checks == before.checks + 1
      && r.entries[result.ulke].successes == before.successes + (if result.durum in {Hata, Timeout} then 0 else 1)
      && r.entries[result.ulke].totalResponseTime == before.totalResponseTime + responseTime
      && forall k :: k != result.ulke ==> r.Get(k) == m.Get(k)
  {
  }

  /** `recordCheck` keeps the counting invariants. */
  lemma RecordPreservesConsistency(s: TrackerState, result: RandevuKontrolSonuc, responseTime: int, fromCache: bool, now: int)
    requires Consistent(s)
    ensures Consistent(RecordStep(s, result, responseTime, fromCache, now))
  {
    var r := RecordStep(s, result, responseTime, fromCache, now);
    var m := s.countryStats;
    SuccessTestsAgree(result.durum);
    CountryTotalsAfterUpdate(m, result.ulke, IsCountrySuccess(result.durum), responseTime);
    forall k | k in r.countryStats.entries
      ensures 0 < r.countryStats.entries[k].checks && r.countryStats.entries[k].successes <= r.countryStats.entries[k].checks
    {
      if k != result.ulke {
        assert r.countryStats.Get(k) == m.Get(k);
      }
    }
  }

  /** The first record on a fresh tracker: one check, counted by its outcome
      and source, a window holding its time, whose mean is that time, and one
      country with one check. */
  lemma FirstRecord(t0: int, result: RandevuKontrolSonuc, responseTime: int, fromCache: bool, now: int)
    ensures var s := RecordStep(InitialTracker(t0), result, responseTime, fromCache, now);
      && s.stats.totalChecks == 1
      && s.stats.successfulChecks == (if IsSuccessfulCheck(result.durum) then 1 else 0)
      && s.stats.cacheHits == (if fromCache then 1 else 0)
      && s.responseTimes == [responseTime]
      && s.stats.averageResponseTime == responseTime
      && s.countryStats.order == [result.ulke]
      && s.countryStats.Get(result.ulke) == Some(CountryData(1, if IsCountrySuccess(result.durum) then 1 else 0, responseTime))
  {
    var s0 := InitialTracker(t0);
    assert PushSample([], responseTime) == [responseTime];
    assert Sum([responseTime]) == responseTime;
    assert Mean([responseTime]) == responseTime;
    assert s0.countryStats.Get(result.ulke) == None;
  }

  // ---------------------------------------------------------------------------
  // Per-country views

  /** `config?.name || country` */
  function DisplayName(country: string, config: Option<CountryConfig>): string {
    if config.Some? && config.value.name != "" then config.value.name else country
  }

  /** `config?.flag || '🏳️'` */
  function DisplayFlag(config: Option<CountryConfig>): string {
    if config.Some? && config.value.flag != "" then config.value.flag else DefaultFlag
  }

  /** The `CountryStat` both `getMostCheckedCountries` and `getCountryStatistics`
      build: the success rate is a percentage of the checks and the response
      time is the rounded mean per check, both 0 for a record without checks. */
  function MakeStat(country: string, d: CountryData, config: Option<CountryConfig>): (r: CountryStat)
    ensures r.country == country && r.checkCount == d.checks
    ensures r.countryName == DisplayName(country, config) && r.flag == DisplayFlag(config)
    ensures d.checks == 0 ==> r.successRate == 0.0 && r.averageResponseTime == 0
    ensures d.checks > 0 ==> r.successRate * d.checks as real == d.successes as real * 100.0
    ensures d.successes <= d.checks ==> 0.0 <= r.successRate <= 100.0
    ensures d.checks > 0 ==>
      var mean := d.totalResponseTime as real / d.checks as real;
      mean - 0.5 < r.averageResponseTime as real <= mean + 0.5
  {
    var rate := if d.checks > 0 then d.successes as real / d.checks as real * 100.0 else 0.0;
    assert d.checks > 0 && d.successes <= d.checks ==> d.successes as real / d.checks as real <= 1.0;
    CountryStat(country, DisplayName(country, config), DisplayFlag(config), d.checks, rate,
      if d.checks > 0 then Round(d.totalResponseTime as real / d.checks as real) else 0)
  }

  // ---------------------------------------------------------------------------
  // The stable sort by check count, descending

  ghost predicate SortedByCheckCount(s: seq<CountryStat>) {
    forall i, j :: 0 <= i < j < |s| ==> s[i].checkCount >= s[j].checkCount
  }

  /** Places `x` before the first element whose count is not above its own,
      so that it stays ahead of the equal elements that came after it. */
  function InsertByCheckCount(x: CountryStat, s: seq<CountryStat>): (r: seq<CountryStat>)
    ensures multiset(r) == multiset([x] + s)
  {
    if s == [] then [x]
    else if x.checkCount >= s[0].checkCount then [x] + s
    else
      assert s == [s[0]] + s[1..];
      [s[0]] + InsertByCheckCount(x, s[1..])
  }

  /** The elements of `InsertByCheckCount(x, s)` are `x` and those of `s`. */
  lemma InsertMembers(x: CountryStat, s: seq<CountryStat>, y: CountryStat)
    requires y in InsertByCheckCount(x, s)
    ensures y == x || y in s
  {
    assert y in multiset([x] + s);
  }

  lemma SortedTail(s: seq<CountryStat>)
    requires s != [] && SortedByCheckCount(s)
    ensures SortedByCheckCount(s[1..])
  {
    forall i, j | 0 <= i < j < |s[1..]| ensures s[1..][i].checkCount >= s[1..][j].checkCount {
      assert s[1..][i] == s[i + 1] && s[1..][j] == s[j + 1];
    }
  }

  lemma SortedCons(h: CountryStat, t: seq<CountryStat>)
    requires SortedByCheckCount(t) && forall y :: y in t ==> h.checkCount >= y.checkCount
    ensures SortedByCheckCount([h] + t)
  {
    var r := [h] + t;
    forall i, j | 0 <= i < j < |r| ensures r[i].checkCount >= r[j].checkCount {
      assert r[j] == t[j - 1];
      if i > 0 {
        assert r[i] == t[i - 1];
      }
    }
  }

  lemma {:induction false} InsertKeepsSorted(x: CountryStat, s: seq<CountryStat>)
    requires SortedByCheckCount(s)
    ensures SortedByCheckCount(InsertByCheckCount(x, s))
  {
    if s == [] {
    } else if x.checkCount >= s[0].checkCount {
      forall y | y in s ensures x.checkCount >= y.checkCount {
        var j :| 0 <= j < |s| && s[j] == y;
      }
      SortedCons(x, s);
    } else {
      var rest := InsertByCheckCount(x, s[1..]);
      assert SortedByCheckCount(rest) by {
        SortedTail(s);
        InsertKeepsSorted(x, s[1..]);
      }
      forall y | y in rest ensures s[0].checkCount >= y.checkCount {
        InsertMembers(x, s[1..], y);
        if y != x {
          var j :| 0 <= j < |s[1..]| && s[1..][j] == y;
          assert s[j + 1] == y;
        }
      }
      SortedCons(s[0], rest);
    }
  }

  /** `sort((a, b) => b.checkCount - a.checkCount)`: a stable sort, largest count first. */
  function SortByCheckCount(s: seq<CountryStat>): (r: seq<CountryStat>)
    ensures multiset(r) == multiset(s)
    ensures SortedByCheckCount(r)
  {
    if s == [] then []
    else
      assert s == [s[0]] + s[1..];
      InsertKeepsSorted(s[0], SortByCheckCount(s[1..]));
      InsertByCheckCount(s[0], SortByCheckCount(s[1..]))
  }

  function HasCheckCount(c: nat): CountryStat -> bool {
    (x: CountryStat) => x.checkCount == c
  }

  lemma {:induction false} InsertKeepsTies(x: CountryStat, s: seq<CountryStat>, c: nat)
    ensures Filter(InsertByCheckCount(x, s), HasCheckCount(c)) == Filter([x] + s, HasCheckCount(c))
  {
    if s != [] && x.checkCount < s[0].checkCount {
      InsertKeepsTies(x, s[1..], c);
      InsertPassesLarger(x, s, HasCheckCount(c));
    }
  }

  /** One step of `InsertKeepsTies`: when `x` moves past a larger head, the head
      and `x` never both pass the filter, so their order does not matter. */
  lemma InsertPassesLarger(x: CountryStat, s: seq<CountryStat>, p: CountryStat -> bool)
    requires s != [] && x.checkCount < s[0].checkCount && (p(x) ==> !p(s[0]))
    requires Filter(InsertByCheckCount(x, s[1..]), p) == Filter([x] + s[1..], p)
    ensures Filter(InsertByCheckCount(x, s), p) == Filter([x] + s, p)
  {
    InsertPastHead(x, s);
    assert s == [s[0]] + s[1..];
    FilterSwap(s[0], x, s[1..], InsertByCheckCount(x, s[1..]), p);
  }

  /** `x` with a count below the head's goes after the head. */
  lemma InsertPastHead(x: CountryStat, s: seq<CountryStat>)
    requires s != [] && x.checkCount < s[0].checkCount
    ensures InsertByCheckCount(x, s) == [s[0]] + InsertByCheckCount(x, s[1..])
  { }

  /** Two elements that never both pass a filter can trade places under it. */
  lemma FilterSwap<T>(a: T, b: T, t: seq<T>, u: seq<T>, p: T -> bool)
    requires !(p(a) && p(b)) && Filter(u, p) == Filter([b] + t, p)
    ensures Filter([a] + u, p) == Filter([b] + ([a] + t), p)
  {
    FilterCons(a, u, p);
    FilterCons(b, t, p);
    FilterCons(b, [a] + t, p);
    FilterCons(a, t, p);
    if p(b) {
      assert [] + ([b] + Filter(t, p)) == [b] + ([] + Filter(t, p));
    } else {
      assert [] + Filter(t, p) == Filter(t, p);
    }
  }

  /** Stability: the elements with any one count keep their relative order. */
  lemma {:induction false} SortIsStable(s: seq<CountryStat>, c: nat)
    ensures Filter(SortByCheckCount(s), HasCheckCount(c)) == Filter(s, HasCheckCount(c))
  {
    if s != [] {
      var p := HasCheckCount(c);
      SortIsStable(s[1..], c);
      InsertKeepsTies(s[0], SortByCheckCount(s[1..]), c);
      FilterAppend([s[0]], SortByCheckCount(s[1..]), p);
      FilterAppend([s[0]], s[1..], p);
      assert [s[0]] + s[1..] == s;
    }
  }

  /** `slice(0, n)` */
  function Take<T>(s: seq<T>, n: nat): (r: seq<T>)
    ensures |r| == if |s| <= n then |s| else n
    ensures forall i :: 0 <= i < |r| ==> r[i] == s[i]
  {
    if |s| <= n then s else s[..n]
  }

  /** The rows the loop of `getMostCheckedCountries` pushes, one per key in map order. */
  function StatRows(order: seq<string>, entries: map<string, CountryData>, configOf: string -> Option<CountryConfig>): (r: seq<CountryStat>)
    requires forall k :: k in order ==> k in entries
    ensures |r| == |order|
    ensures forall i :: 0 <= i < |order| ==> r[i] == MakeStat(order[i], entries[order[i]], configOf(order[i]))
  {
    if order == [] then []
    else
      var last := order[|order| - 1];
      StatRows(order[..|order| - 1], entries, configOf) + [MakeStat(last, entries[last], configOf(last))]
  }

  /** `getMostCheckedCountries()`: the rows sorted by count, then the first ten. */
  function MostChecked(m: OrderedMap<CountryData>, configOf: string -> Option<CountryConfig>): (r: seq<CountryStat>)
    requires m.Valid()
    ensures |r| == if m.Size() <= TopCount then m.Size() else TopCount
    ensures SortedByCheckCount(r)
  {
    Take(SortByCheckCount(StatRows(m.order, m.entries, configOf)), TopCount)
  }

  /** Every reported row is the stat of a recorded country. */
  lemma MostCheckedRowsAreRecorded(m: OrderedMap<CountryData>, configOf: string -> Option<CountryConfig>, i: int)
    requires m.Valid() && 0 <= i < |MostChecked(m, configOf)|
    ensures var row := MostChecked(m, configOf)[i];
      row.country in m.entries && row == MakeStat(row.country, m.entries[row.country], configOf(row.country))
  {
    var rows := StatRows(m.order, m.entries, configOf);
    var sorted := SortByCheckCount(rows);
    assert sorted[i] in multiset(rows);
    var j :| 0 <= j < |rows| && rows[j] == sorted[i];
  }

  /** Every recorded country is reported, or ten countries with at least
      as many checks are reported in its place. */
  lemma MostCheckedAreTop(m: OrderedMap<CountryData>, configOf: string -> Option<CountryConfig>, k: string)
    requires m.Valid() && k in m.entries
    ensures var r := MostChecked(m, configOf);
      || (exists i :: 0 <= i < |r| && r[i] == MakeStat(k, m.entries[k], configOf(k)))
      || (|r| == TopCount && forall i :: 0 <= i < |r| ==> r[i].checkCount >= m.entries[k].checks)
  {
    var rows := StatRows(m.order, m.entries, configOf);
    var sorted := SortByCheckCount(rows);
    var r := MostChecked(m, configOf);
    var row := MakeStat(k, m.entries[k], configOf(k));
    assert row in multiset(sorted) by {
      var j :| 0 <= j < |m.order| && m.order[j] == k;
      assert rows[j] == row;
    }
    var p :| 0 <= p < |sorted| && sorted[p] == row;
    if p < TopCount {
      assert r[p] == row;
    } else {
      forall i | 0 <= i < |r| ensures r[i].checkCount >= row.checkCount {
        assert r[i] == sorted[i];
      }
    }
  }

  // ---------------------------------------------------------------------------
  // The tracker object

  /** `part` as a percentage of `whole`, 0 when `whole` is 0. */
  function Percent(part: nat, whole: nat): (r: real)
    ensures whole == 0 ==> r == 0.0
    ensures whole > 0 ==> r * whole as real == part as real * 100.0
    ensures part <= whole ==> 0.0 <= r <= 100.0
  {
    if whole == 0 then 0.0
    else
      var ratio := part as real / whole as real;
      assert ratio * whole as real == part as real;
      assert part <= whole ==> ratio <= 1.0;
      ratio * 100.0
  }

  class StatisticsTracker {
    var stats: Statistics
    var countryStats: OrderedMap<CountryData>
    var responseTimes: seq<int>
    /** Every response time recorded since construction or the last `reset`. */
    ghost var samples: seq<int>

    ghost predicate Valid()
      reads this
    {
      Consistent(State()) && responseTimes == LastSamples(samples)
    }

    function State(): TrackerState
      reads this
    {
      TrackerState(stats, countryStats, responseTimes)
    }

    constructor (now: int)
      ensures Valid() && State() == InitialTracker(now) && samples == []
    {
      stats := InitialStatistics(now);
      countryStats := Empty();
      responseTimes := [];
      samples := [];
      new;
      assert State() == InitialTracker(now);
      assert LastSamples([]) == [];
    }

    method RecordCheck(result: RandevuKontrolSonuc, responseTime: int, fromCache: bool, now: int)
      requires Valid()
      modifies this
      ensures Valid()
      ensures State() == RecordStep(old(State()), result, responseTime, fromCache, now)
      ensures samples == old(samples) + [responseTime]
    {
      RecordPreservesConsistency(State(), result, responseTime, fromCache, now);
      WindowIsLastSamples(samples, responseTime);
      stats := CountCheck(stats, result.durum, fromCache);
      responseTimes := PushSample(responseTimes, responseTime);
      samples := samples + [responseTime];
      stats := stats.(averageResponseTime := Mean(responseTimes));
      UpdateCountryStats(result.ulke, IsCountrySuccess(result.durum), responseTime);
      stats := stats.(lastUpdated := now);
    }

    /** `updateCountryStats(country, success, responseTime)`, private in the
        class: it is a step of `RecordCheck`, and called on its own it breaks
        `Valid()`, since the per-country sums no longer match the counters. */
    method UpdateCountryStats(country: string, success: bool, responseTime: int)
      modifies this
      ensures countryStats == UpdateCountry(old(countryStats), country, success, responseTime)
      ensures stats == old(stats) && responseTimes == old(responseTimes) && samples == old(samples)
    {
      var current := countryStats.Get(country).GetOr(CountryData(0, 0, 0));
      current := current.(checks := current.checks + 1);
      if success {
        current := current.(successes := current.successes + 1);
      }
      current := current.(totalResponseTime := current.totalResponseTime + responseTime);
      countryStats := countryStats.Put(country, current);
    }

    method GetMostCheckedCountries(configOf: string -> Option<CountryConfig>) returns (r: seq<CountryStat>)
      requires Valid()
      ensures r == MostChecked(countryStats, configOf)
    {
      var order := countryStats.order;
      var rows: seq<CountryStat> := [];
      var i := 0;
      while i < |order|
        invariant 0 <= i <= |order|
        invariant rows == StatRows(order[..i], countryStats.entries, configOf)
      {
        var country := order[i];
        var data := countryStats.entries[country];
        assert order[..i + 1][..i] == order[..i];
        rows := rows + [MakeStat(country, data, configOf(country))];
        i := i + 1;
      }
      assert order[..i] == order;
      r := Take(SortByCheckCount(rows), TopCount);
    }

    method GetStatistics(configOf: string -> Option<CountryConfig>) returns (r: Statistics)
      requires Valid()
      ensures r == stats.(mostCheckedCountries := MostChecked(countryStats, configOf))
    {
      var top := GetMostCheckedCountries(configOf);
      r := stats.(mostCheckedCountries := top);
    }

    /** `getCountryStatistics(country)`: null for a country never recorded. */
    function GetCountryStatistics(country: string, configOf: string -> Option<CountryConfig>): (r: Option<CountryStat>)
      reads this
      ensures r.None? <==> country !in countryStats.entries
      ensures r.Some? ==> r.value == MakeStat(country, countryStats.entries[country], configOf(country))
      ensures Valid() && r.Some? ==> r.value.checkCount > 0 && 0.0 <= r.value.successRate <= 100.0
    {
      match countryStats.Get(country)
      case None => None
      case Some(data) => Some(MakeStat(country, data, configOf(country)))
    }

    method Reset(now: int)
      modifies this
      ensures Valid() && State() == InitialTracker(now) && samples == []
    {
      stats := InitialStatistics(now);
      countryStats := Empty();
      responseTimes := [];
      samples := [];
      assert State() == InitialTracker(now);
      assert LastSamples([]) == [];
    }

    /** `getSuccessRate()`: the percentage of successful checks, 0 before any check. */
    function GetSuccessRate(): (r: real)
      reads this
      ensures Valid() ==> 0.0 <= r <= 100.0
      ensures stats.totalChecks == 0 ==> r == 0.0
      ensures stats.totalChecks > 0 ==> r * stats.totalChecks as real == stats.successfulChecks as real * 100.0
    {
      Percent(stats.successfulChecks, stats.totalChecks)
    }

    /** `getCacheHitRate()`: the percentage of checks served from the cache, 0 before any check. */
    function GetCacheHitRate(): (r: real)
      reads this
      ensures 0.0 <= r <= 100.0
      ensures stats.cacheHits + stats.cacheMisses == 0 ==> r == 0.0
      ensures stats.cacheHits + stats.cacheMisses > 0 ==>
        r * (stats.cacheHits + stats.cacheMisses) as real == stats.cacheHits as real * 100.0
    {
      Percent(stats.cacheHits, stats.cacheHits + stats.cacheMisses)
    }
  }
}

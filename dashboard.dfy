/** The real-time valuation state of the portfolio dashboard: the bounded
    trend history with its position-derived time labels, the coercion of a
    fetched valuation, the derived delta and percent change, and the
    component state that the seeding effect and the fetch handler update. */
module RealTimeDashboard {
  import Decimal

  /** One point of the trend chart: its display label and the valuation. */
  datatype Point = Point(time: string, value: real)

  /** What `Number(value)` makes of the fetched payload. */
  datatype JsNumber = Finite(x: real) | NaN

  /** The most points the history holds after an append. */
  const MaxHistory: nat := 5
  /** How many earlier points an append keeps (`slice(-4)`). */
  const Kept: nat := 4
  /** Minutes between two neighbouring points of the chart. */
  const MinutesPerStep: nat := 15
  const NowLabel: string := "Now"

  function Min(a: nat, b: nat): nat {
    if a <= b then a else b
  }

  /** The last (at most) `n` elements of `s`, as JavaScript's `s.slice(-n)` for `n > 0`. */
  function Suffix<T>(s: seq<T>, n: nat): seq<T> {
    s[|s| - Min(|s|, n)..]
  }

  function Values(h: seq<Point>): seq<real> {
    seq(|h|, i requires 0 <= i < |h| => h[i].value)
  }

  // ---------------------------------------------------------------------
  // Time labels
  // ---------------------------------------------------------------------

  /** The label of position `i` in a chart of `len` points: the last one is
      `Now`, every earlier one `15m` per step before it. */
  function Label(len: nat, i: nat): (t: string)
    requires i < len
    ensures t == NowLabel <==> i == len - 1
  {
    if i == len - 1 then NowLabel
    else Decimal.DecimalString((len - 1 - i) * MinutesPerStep) + "m ago"
  }

  /** No two positions of one chart share a label. */
  lemma LabelsDistinct(len: nat, i: nat, j: nat)
    requires i < len && j < len
    requires Label(len, i) == Label(len, j)
    ensures i == j
  {
    if i != len - 1 && j != len - 1 {
      var a := Decimal.DecimalString((len - 1 - i) * MinutesPerStep);
      var b := Decimal.DecimalString((len - 1 - j) * MinutesPerStep);
      assert |a| == |b|;
      assert a == (a + "m ago")[..|a|];
      assert b == (b + "m ago")[..|b|];
      Decimal.DecimalStringInjective((len - 1 - i) * MinutesPerStep, (len - 1 - j) * MinutesPerStep);
    }
  }

  ghost predicate WellLabelled(h: seq<Point>) {
    forall i :: 0 <= i < |h| ==> h[i].time == Label(|h|, i)
  }

  /** The `map` at the end of `updateHistoricalData`: each point's label is
      recomputed from its position; values stay where they are. */
  function Relabel(h: seq<Point>): (r: seq<Point>)
    ensures |r| == |h| && Values(r) == Values(h)
    ensures WellLabelled(r)
  {
    seq(|h|, i requires 0 <= i < |h| => h[i].(time := Label(|h|, i)))
  }

  // ---------------------------------------------------------------------
  // Trend history
  // ---------------------------------------------------------------------

  /** `updateHistoricalData`: keep the last four points, add the new value
      at the end, relabel. */
  function Append(prev: seq<Point>, v: real): (r: seq<Point>)
    ensures |r| == Min(|prev|, Kept) + 1 && |r| <= MaxHistory
    ensures Values(r) == Suffix(Values(prev), Kept) + [v]
    ensures r[|r| - 1] == Point(NowLabel, v)
    ensures WellLabelled(r)
  {
    var kept := Suffix(prev, Kept);
    assert Values(kept + [Point(NowLabel, v)]) == Suffix(Values(prev), Kept) + [v];
    Relabel(kept + [Point(NowLabel, v)])
  }

  /** The history after appending every value of `vs`, in order. */
  function AppendAll(h: seq<Point>, vs: seq<real>): seq<Point> {
    if vs == [] then h else Append(AppendAll(h, vs[..|vs| - 1]), vs[|vs| - 1])
  }

  lemma SuffixSnoc<T>(s: seq<T>, n: nat, x: T)
    ensures Suffix(s, n) + [x] == Suffix(s + [x], n + 1)
  {
  }

  lemma SuffixOfSuffix<T>(s: seq<T>, m: nat, n: nat)
    requires n <= m
    ensures Suffix(Suffix(s, m), n) == Suffix(s, n)
  {
  }

  /** After one or more appends the history holds exactly the five most
      recent values (fewer if fewer were ever there), oldest first. */
  lemma {:induction false} AppendAllKeepsMostRecent(h: seq<Point>, vs: seq<real>)
    requires vs != []
    ensures Values(AppendAll(h, vs)) == Suffix(Values(h) + vs, MaxHistory)
  {
    var init, v := vs[..|vs| - 1], vs[|vs| - 1];
    assert vs == init + [v];
    assert Values(h) + vs == (Values(h) + init) + [v];
    if init == [] {
      SuffixSnoc(Values(h), Kept, v);
    } else {
      AppendAllKeepsMostRecent(h, init);
      SuffixOfSuffix(Values(h) + init, MaxHistory, Kept);
      SuffixSnoc(Values(h) + init, Kept, v);
    }
  }

  /** The seeding effect's history: five copies of the base value. */
  function Seed(base: real): (h: seq<Point>)
    ensures |h| == MaxHistory
    ensures forall i :: 0 <= i < |h| ==> h[i].value == base
    ensures h[0] == Point("1h ago", base)
    ensures h[|h| - 1] == Point(NowLabel, base)
    ensures forall i :: 0 < i < |h| ==> h[i].time == Label(|h|, i)
  {
    assert Decimal.DecimalString(45) == "45";
    assert Decimal.DecimalString(30) == "30";
    assert Decimal.DecimalString(15) == "15";
    [ Point("1h ago", base), Point("45m ago", base), Point("30m ago", base),
      Point("15m ago", base), Point(NowLabel, base) ]
  }

  /** The seeded oldest label, `1h ago`, is not the one relabelling gives
      the same position (`60m ago`); it is the only such label, and the
      first append evicts it. */
  lemma SeedLabelsAgainstRelabel(base: real, v: real)
    ensures !WellLabelled(Seed(base))
    ensures Relabel(Seed(base)) == Seed(base)[0 := Point("60m ago", base)]
    ensures WellLabelled(Append(Seed(base), v))
    ensures Values(Append(Seed(base), v)) == [base, base, base, base, v]
  {
    assert Decimal.DecimalString(60) == "60";
    assert Label(MaxHistory, 0) == "60m ago";
    assert Seed(base)[0].time == "1h ago";
    var r := Relabel(Seed(base));
    assert r[0] == Point("60m ago", base);
    assert forall i :: 0 < i < |r| ==> r[i] == Seed(base)[i];
    assert Values(Seed(base)) == [base, base, base, base, base];
  }

  // ---------------------------------------------------------------------
  // Fetch coercion and derived metrics
  // ---------------------------------------------------------------------

  /** `Number(value) || 0`: a number stays itself, NaN becomes 0. */
  function OrZero(n: JsNumber): (r: real)
    ensures n.Finite? ==> r == n.x
    ensures n.NaN? ==> r == 0.0
  {
    if n.Finite? && n.x != 0.0 then n.x else 0.0
  }

  /** `valueChange`: how far the real-time value is above the base value. */
  function ValueChange(base: real, realTime: real): (d: real)
    ensures base + d == realTime
  {
    realTime - base
  }

  /** `percentageChange`, before rounding: 0 for a zero base, never a division by zero. */
  function PercentChange(base: real, realTime: real): (p: real)
    ensures base == 0.0 ==> p == 0.0
    ensures base != 0.0 ==> p * base == 100.0 * ValueChange(base, realTime)
  {
    if base == 0.0 then 0.0 else ValueChange(base, realTime) / base * 100.0
  }

  /** Whether the up-trend indicator is shown. */
  function TrendUp(base: real, realTime: real): (up: bool)
    ensures up <==> base <= realTime
  {
    ValueChange(base, realTime) >= 0.0
  }

  /** For a positive base, the percent is non-negative exactly when the
      up-trend indicator is shown; for a zero base it is always 0. */
  lemma PercentAgreesWithTrend(base: real, realTime: real)
    requires base >= 0.0
    ensures base > 0.0 ==> (PercentChange(base, realTime) >= 0.0 <==> TrendUp(base, realTime))
    ensures base == 0.0 ==> PercentChange(base, realTime) == 0.0
  {
  }

  // ---------------------------------------------------------------------
  // Component state
  // ---------------------------------------------------------------------

  /** The dashboard component's state: the base value it is given
      (`totalValue`), and its three state hooks. */
  class Dashboard {
    var totalValue: real
    var realTimeValue: real
    var history: seq<Point>
    var isLoading: bool

    /** At most five points, the newest labelled `Now`, every later-than-
        oldest point labelled by its position. */
    ghost predicate Valid()
      reads this
    {
      && |history| <= MaxHistory
      && (history != [] ==> history[|history| - 1].time == NowLabel)
      && forall i :: 0 < i < |history| ==> history[i].time == Label(|history|, i)
    }

    /** The initial state hooks, before the first effect has run. */
    constructor (totalValue: real)
      ensures Valid()
      ensures this.totalValue == totalValue && realTimeValue == totalValue
      ensures history == [] && !isLoading
    {
      this.totalValue := totalValue;
      realTimeValue := totalValue;
      history := [];
      isLoading := false;
    }

    /** The effect that runs on mount and whenever `totalValue` changes: it
        seeds the history with the base value and starts the initial fetch.
        The real-time value keeps whatever it held. */
    method SyncBaseValue(base: real)
      modifies this
      ensures Valid()
      ensures totalValue == base && history == Seed(base) && isLoading
      ensures realTimeValue == old(realTimeValue)
    {
      totalValue := base;
      history := Seed(base);
      isLoading := true;
    }

    /** A fetch begins (timer tick, manual refresh or the effect's first call). */
    method StartFetch()
      requires Valid()
      modifies this
      ensures Valid() && isLoading
      ensures totalValue == old(totalValue) && realTimeValue == old(realTimeValue)
      ensures history == old(history)
    {
      isLoading := true;
    }

    /** The fetch returned `payload`: the same coerced value becomes the
        real-time value and the newest history point. */
    method FetchSucceeded(payload: JsNumber)
      requires Valid()
      modifies this
      ensures Valid() && !isLoading
      ensures realTimeValue == OrZero(payload)
      ensures history == Append(old(history), realTimeValue)
      ensures totalValue == old(totalValue)
    {
      var value := OrZero(payload);
      realTimeValue := value;
      history := Append(history, value);
      isLoading := false;
    }

    /** The fetch failed: only the loading flag is cleared. */
    method FetchFailed()
      requires Valid()
      modifies this
      ensures Valid() && !isLoading
      ensures totalValue == old(totalValue) && realTimeValue == old(realTimeValue)
      ensures history == old(history)
    {
      isLoading := false;
    }
  }

  /** A session as the component sees it: mounted with a base of 1000, a
      fetch of 1050, a fetch of 980, then a failed fetch. */
  method ExampleSession() {
    var d := new Dashboard(1000.0);
    d.SyncBaseValue(1000.0);
    d.FetchSucceeded(Finite(1050.0));
    assert ValueChange(d.totalValue, d.realTimeValue) == 50.0;
    assert PercentChange(d.totalValue, d.realTimeValue) == 5.0;
    assert Values(d.history) == [1000.0, 1000.0, 1000.0, 1000.0, 1050.0];
    d.StartFetch();
    d.FetchSucceeded(Finite(980.0));
    assert PercentChange(d.totalValue, d.realTimeValue) == -2.0;
    assert !TrendUp(d.totalValue, d.realTimeValue);
    d.StartFetch();
    d.FetchFailed();
    assert d.realTimeValue == 980.0 && |d.history| == MaxHistory;
    assert d.history[MaxHistory - 1] == Point(NowLabel, 980.0);
  }
}

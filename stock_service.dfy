/** The backend's holdings store and valuations: CRUD over the stock
    repository, the base portfolio value as a sum over the stored holdings,
    and the real-time value over up to five distinct tickers drawn from a
    fixed list. */
module PortfolioService {

  datatype Option<T> = None | Some(value: T)

  /** A holding. `id` is `None` until the repository has assigned one. */
  datatype Stock = Stock(id: Option<int>, name: string, ticker: string, buyPrice: real, quantity: int)

  datatype ServiceError = StockNotFound

  datatype Result<T> = Ok(value: T) | Err(error: ServiceError)

  // ---------------------------------------------------------------------
  // Base portfolio value
  // ---------------------------------------------------------------------

  /** What one holding cost: `buyPrice * quantity`. */
  function Cost(s: Stock): real {
    s.buyPrice * s.quantity as real
  }

  /** The stream sum of `calculatePortfolioValue`, over a list in list order. */
  function SumCost(xs: seq<Stock>): real {
    if xs == [] then 0.0 else Cost(xs[0]) + SumCost(xs[1..])
  }

  /** The value of a store, independent of any listing order: the cost of
      some holding plus the value of the rest. */
  ghost function StoreValue(m: map<int, Stock>): real
    decreases |m|
  {
    if m.Keys == {} then 0.0
    else
      HasElement(m.Keys);
      var k :| k in m.Keys;
      assert (m - {k}).Keys == m.Keys - {k};
      Cost(m[k]) + StoreValue(m - {k})
  }

  lemma HasElement(s: set<int>)
    requires s != {}
    ensures exists x :: x in s
  {
    if forall x :: x !in s { assert false; }
  }

  /** Taking out any one holding first gives the same store value. */
  lemma {:induction false} StoreValueRemove(m: map<int, Stock>, k: int)
    requires k in m
    ensures StoreValue(m) == Cost(m[k]) + StoreValue(m - {k})
    decreases |m|
  {
    HasElement(m.Keys);
    var j :| j in m && StoreValue(m) == Cost(m[j]) + StoreValue(m - {j});
    if j != k {
      assert (m - {j}).Keys == m.Keys - {j};
      assert (m - {k}).Keys == m.Keys - {k};
      StoreValueRemove(m - {j}, k);
      StoreValueRemove(m - {k}, j);
      assert m - {j} - {k} == m - {k} - {j};
    }
  }

  /** Saving a holding under a key changes the store value by the
      difference in cost: an overwrite (`updateStock`, or `addStock` of a
      stored id) replaces the old cost, an insertion adds the new one. */
  lemma StoreValueAfterSave(m: map<int, Stock>, k: int, s: Stock)
    ensures k in m ==> StoreValue(m[k := s]) == StoreValue(m) - Cost(m[k]) + Cost(s)
    ensures k !in m ==> StoreValue(m[k := s]) == StoreValue(m) + Cost(s)
  {
    StoreValueRemove(m[k := s], k);
    assert m[k := s] - {k} == m - {k};
    if k in m {
      StoreValueRemove(m, k);
    } else {
      assert m - {k} == m;
    }
  }

  /** Deleting a stored holding takes its cost out of the store value;
      deleting a missing id changes nothing. */
  lemma StoreValueAfterDelete(m: map<int, Stock>, k: int)
    ensures k in m ==> StoreValue(m - {k}) == StoreValue(m) - Cost(m[k])
    ensures k !in m ==> StoreValue(m - {k}) == StoreValue(m)
  {
    if k in m {
      StoreValueRemove(m, k);
    } else {
      assert m - {k} == m;
    }
  }

  /** Every stored holding is filed under its own id. */
  ghost predicate KeyedById(m: map<int, Stock>) {
    forall k :: k in m ==> m[k].id == Some(k)
  }

  /** `xs` lists the store `m`: each element is the holding stored under its
      id, no id appears twice, and every stored holding appears. */
  ghost predicate Lists(xs: seq<Stock>, m: map<int, Stock>) {
    && (forall i :: 0 <= i < |xs| ==> xs[i].id.Some? && xs[i].id.value in m && m[xs[i].id.value] == xs[i])
    && (forall i, j :: 0 <= i < j < |xs| ==> xs[i].id != xs[j].id)
    && (forall k :: k in m ==> m[k] in xs)
  }

  /** Summing any listing of the store gives the store's value, whatever the
      order the repository returns the holdings in. */
  lemma {:induction false} SumCostOfListing(xs: seq<Stock>, m: map<int, Stock>)
    requires KeyedById(m) && Lists(xs, m)
    ensures SumCost(xs) == StoreValue(m)
    decreases |xs|
  {
    if xs == [] {
      if m.Keys != {} {
        HasElement(m.Keys);
        assert false;
      }
    } else {
      var k := xs[0].id.value;
      var rest := m - {k};
      forall k' | k' in rest ensures rest[k'] in xs[1..] {
        assert m[k'] in xs;
        assert m[k'] != xs[0];
      }
      assert Lists(xs[1..], rest);
      SumCostOfListing(xs[1..], rest);
      StoreValueRemove(m, k);
    }
  }

  // ---------------------------------------------------------------------
  // Random ticker selection and the real-time value
  // ---------------------------------------------------------------------

  /** The fixed list `getRandomStockTickers` draws from. */
  const AllTickers: seq<string> :=
    ["AAPL", "GOOGL", "MSFT", "AMZN", "TSLA", "FB", "NFLX", "NVDA", "BABA", "INTC"]

  /** How many tickers a selection takes (`limit(5)`). */
  const TickerCount: nat := 5

  ghost predicate PairwiseDistinct<T>(s: seq<T>) {
    forall i, j :: 0 <= i < j < |s| ==> s[i] != s[j]
  }

  lemma AllTickersDistinct()
    ensures |AllTickers| == 10 && PairwiseDistinct(AllTickers)
  {
  }

  /** The index of the first occurrence of `x` in `s`. */
  function FirstIndex(s: seq<int>, x: int): (i: nat)
    requires x in s
    ensures i < |s| && s[i] == x && x !in s[..i]
  {
    if s[0] == x then 0 else 1 + FirstIndex(s[1..], x)
  }

  /** `distinct()`: the elements of `s` in the order of their first occurrence. */
  function Distinct(s: seq<int>): (r: seq<int>)
    ensures PairwiseDistinct(r)
    ensures forall x :: x in r <==> x in s
  {
    if s == [] then []
    else
      var d := Distinct(s[..|s| - 1]);
      if s[|s| - 1] in d then d
      else
        assert forall x :: x in s <==> x in s[..|s| - 1] || x == s[|s| - 1];
        d + [s[|s| - 1]]
  }

  /** An element listed before another occurs first in the input before it does. */
  lemma {:induction false} DistinctFirstOccurrenceOrder(s: seq<int>, i: nat, j: nat)
    requires i < j < |Distinct(s)|
    ensures FirstIndex(s, Distinct(s)[i]) < FirstIndex(s, Distinct(s)[j])
  {
    var init := s[..|s| - 1];
    var d := Distinct(init);
    var x, y := Distinct(s)[i], Distinct(s)[j];
    FirstIndexPrefix(s, init, x);
    if j < |d| {
      DistinctFirstOccurrenceOrder(init, i, j);
      FirstIndexPrefix(s, init, y);
    } else {
      assert y == s[|s| - 1] && y !in init;
      assert FirstIndex(s, y) == |s| - 1 by {
        assert s[..|s| - 1] == init;
      }
    }
  }

  lemma FirstIndexPrefix(s: seq<int>, p: seq<int>, x: int)
    requires p <= s && x in p
    ensures FirstIndex(s, x) == FirstIndex(p, x)
  {
  }

  /** `limit(n)`: the first `n` elements, or all of them if there are fewer. */
  function Take<T>(s: seq<T>, n: nat): seq<T> {
    if |s| <= n then s else s[..n]
  }

  /** `distinct().limit(5)` over the stream of drawn indices: at most five
      indices, pairwise distinct, each one drawn; fewer than five only if
      every drawn index is already among them; and they are the FIRST
      distinct draws, since every index left out was first drawn after
      every selected one. */
  function SelectIndices(draws: seq<int>): (p: seq<int>)
    ensures |p| <= TickerCount && PairwiseDistinct(p)
    ensures forall k :: 0 <= k < |p| ==> p[k] in draws
    ensures |p| < TickerCount ==> forall x :: x in draws ==> x in p
    ensures forall x, k :: x in draws && x !in p && 0 <= k < |p| ==>
              FirstIndex(draws, p[k]) < FirstIndex(draws, x)
  {
    var d := Distinct(draws);
    var p := Take(d, TickerCount);
    assert forall k :: 0 <= k < |p| ==> p[k] == d[k];
    forall x, k | x in draws && x !in p && 0 <= k < |p|
      ensures FirstIndex(draws, p[k]) < FirstIndex(draws, x)
    {
      var j :| 0 <= j < |d| && d[j] == x;
      assert j >= |p|;
      DistinctFirstOccurrenceOrder(draws, k, j);
    }
    p
  }

  /** The selected indices come in the order in which they were first drawn. */
  lemma SelectIndicesInDrawOrder(draws: seq<int>, i: nat, j: nat)
    requires i < j < |SelectIndices(draws)|
    ensures SelectIndices(draws)[i] in draws && SelectIndices(draws)[j] in draws
    ensures FirstIndex(draws, SelectIndices(draws)[i]) < FirstIndex(draws, SelectIndices(draws)[j])
  {
    DistinctFirstOccurrenceOrder(draws, i, j);
  }

  /** `getRandomStockTickers`: the selected indices looked up in the fixed
      list; pairwise distinct tickers, each from the list. */
  function RandomTickers(draws: seq<int>): (r: seq<string>)
    requires forall x :: x in draws ==> 0 <= x < |AllTickers|
    ensures |r| == |SelectIndices(draws)| <= TickerCount
    ensures forall k :: 0 <= k < |r| ==> r[k] == AllTickers[SelectIndices(draws)[k]]
    ensures PairwiseDistinct(r)
    ensures forall t :: t in r ==> t in AllTickers
    ensures |r| < TickerCount ==> forall x :: x in draws ==> AllTickers[x] in r
  {
    var p := SelectIndices(draws);
    var r := seq(|p|, k requires 0 <= k < |p| => AllTickers[p[k]]);
    AllTickersDistinct();
    forall i, j | 0 <= i < j < |r| ensures r[i] != r[j] {
      if p[i] < p[j] {
        assert AllTickers[p[i]] != AllTickers[p[j]];
      } else {
        assert AllTickers[p[j]] != AllTickers[p[i]];
      }
    }
    assert |r| < TickerCount ==> forall x :: x in draws ==> AllTickers[x] in r by {
      if |r| < TickerCount {
        forall x | x in draws ensures AllTickers[x] in r {
          var k :| 0 <= k < |p| && p[k] == x;
          assert r[k] == AllTickers[x];
        }
      }
    }
    r
  }

  function SumPrices(tickers: seq<string>, price: string -> real): real {
    if tickers == [] then 0.0 else price(tickers[0]) + SumPrices(tickers[1..], price)
  }

  /** `calculatePortfolioValueRealTime`: the sum of the looked-up prices of
      the selected tickers. With prices that are never negative, every
      selected ticker's price is part of the total. */
  function RealTimeValue(draws: seq<int>, price: string -> real): (v: real)
    requires forall x :: x in draws ==> 0 <= x < |AllTickers|
    ensures (forall t :: t in AllTickers ==> price(t) >= 0.0) ==>
              forall k :: 0 <= k < |RandomTickers(draws)| ==> price(RandomTickers(draws)[k]) <= v
  {
    var r := RandomTickers(draws);
    assert (forall t :: t in AllTickers ==> price(t) >= 0.0) ==>
             forall k :: 0 <= k < |r| ==> price(r[k]) <= SumPrices(r, price) by {
      if forall t :: t in AllTickers ==> price(t) >= 0.0 {
        forall k | 0 <= k < |r| ensures price(r[k]) <= SumPrices(r, price) {
          SumPricesAtLeastEach(r, price, k);
        }
      }
    }
    SumPrices(r, price)
  }

  lemma {:induction false} SumPricesAtLeastEach(tickers: seq<string>, price: string -> real, k: nat)
    requires k < |tickers|
    requires forall t :: t in tickers ==> price(t) >= 0.0
    ensures price(tickers[k]) <= SumPrices(tickers, price)
  {
    if k == 0 {
      SumPricesNonNegative(tickers[1..], price);
    } else {
      SumPricesAtLeastEach(tickers[1..], price, k - 1);
    }
  }

  lemma {:induction false} SumPricesNonNegative(tickers: seq<string>, price: string -> real)
    requires forall t :: t in tickers ==> price(t) >= 0.0
    ensures SumPrices(tickers, price) >= 0.0
  {
    if tickers != [] {
      SumPricesNonNegative(tickers[1..], price);
    }
  }

  lemma {:induction false} SumPricesBounds(tickers: seq<string>, price: string -> real, cap: real)
    requires forall t :: t in tickers ==> 0.0 <= price(t) <= cap
    ensures 0.0 <= SumPrices(tickers, price) <= |tickers| as real * cap
  {
    if tickers != [] {
      SumPricesBounds(tickers[1..], price, cap);
    }
  }

  /** A total bounded by `n` caps, for `n` at most five, is bounded by five caps. */
  lemma ScaleToTickerCount(total: real, n: nat, cap: real)
    requires n <= TickerCount && cap >= 0.0
    requires total <= n as real * cap
    ensures total <= TickerCount as real * cap
  {
  }

  /** A sum of at most five prices in [0, `cap`] is in [0, 5 × `cap`]. */
  lemma SumOfSelectedPricesBounds(tickers: seq<string>, price: string -> real, cap: real)
    requires |tickers| <= TickerCount && cap >= 0.0
    requires forall t :: t in tickers ==> 0.0 <= price(t) <= cap
    ensures 0.0 <= SumPrices(tickers, price) <= TickerCount as real * cap
  {
    SumPricesBounds(tickers, price, cap);
    ScaleToTickerCount(SumPrices(tickers, price), |tickers|, cap);
  }

  /** With every price between 0 and `cap`, the real-time value is between
      0 and five times `cap`. */
  lemma RealTimeValueBounds(draws: seq<int>, price: string -> real, cap: real)
    requires forall x :: x in draws ==> 0 <= x < |AllTickers|
    requires cap >= 0.0
    requires forall t :: t in AllTickers ==> 0.0 <= price(t) <= cap
    ensures 0.0 <= RealTimeValue(draws, price) <= TickerCount as real * cap
  {
    var r := RandomTickers(draws);
    assert RealTimeValue(draws, price) == SumPrices(r, price);
    SumOfSelectedPricesBounds(r, price, cap);
  }

  // ---------------------------------------------------------------------
  // The service over the repository
  // ---------------------------------------------------------------------

  /** The stock service; `store` is the repository's table by id and
      `nextId` the id generator's next value. */
  class StockService {
    var store: map<int, Stock>
    var nextId: int

    ghost predicate Valid()
      reads this
    {
      && KeyedById(store)
      && forall k :: k in store ==> k < nextId
    }

    /** The service over the table the database already holds, and the id
        generator's next value, which is above every stored id. */
    constructor (table: map<int, Stock>, nextId: int)
      requires KeyedById(table)
      requires forall k :: k in table ==> k < nextId
      ensures Valid() && store == table && this.nextId == nextId
    {
      store := table;
      this.nextId := nextId;
    }

    /** `addStock`, i.e. the repository's `save`: a holding whose id is
        stored overwrites that entry; any other is stored under a newly
        generated id. The saved holding is returned. */
    method AddStock(stock: Stock) returns (saved: Stock)
      requires Valid()
      modifies this
      ensures Valid()
      ensures saved.id.Some? && saved == stock.(id := saved.id)
      ensures saved.id.value in store && store[saved.id.value] == saved
      ensures stock.id.Some? && stock.id.value in old(store) ==>
                saved.id == stock.id && store == old(store)[stock.id.value := saved]
      ensures !(stock.id.Some? && stock.id.value in old(store)) ==>
                saved.id.value !in old(store) && store == old(store)[saved.id.value := saved]
    {
      if stock.id.Some? && stock.id.value in store {
        saved := stock;
      } else {
        saved := stock.(id := Some(nextId));
        nextId := nextId + 1;
      }
      store := store[saved.id.value := saved];
    }

    /** `updateStock`: a missing id fails with "Stock not found" and changes
        nothing; otherwise name, ticker, buy price and quantity are taken
        from `details`, the id is kept, and no other holding changes. */
    method UpdateStock(id: int, details: Stock) returns (r: Result<Stock>)
      requires Valid()
      modifies this
      ensures Valid() && nextId == old(nextId)
      ensures id !in old(store) ==> r == Err(StockNotFound) && store == old(store)
      ensures id in old(store) ==>
                && r.Ok?
                && r.value == details.(id := Some(id))
                && store == old(store)[id := r.value]
    {
      if id !in store {
        return Err(StockNotFound);
      }
      var stock := store[id];
      stock := stock.(name := details.name, ticker := details.ticker,
                      buyPrice := details.buyPrice, quantity := details.quantity);
      store := store[id := stock];
      r := Ok(stock);
    }

    /** `deleteStock`: the id is gone and every other holding is kept. */
    method DeleteStock(id: int)
      requires Valid()
      modifies this
      ensures Valid() && nextId == old(nextId)
      ensures id !in store && store == old(store) - {id}
    {
      store := store - {id};
    }

    /** `getAllStocks`: every stored holding once, in the repository's order. */
    method GetAllStocks() returns (all: seq<Stock>)
      requires Valid()
      ensures Lists(all, store)
      ensures |all| == |store|
    {
      all := [];
      var remaining := store.Keys;
      while remaining != {}
        invariant remaining <= store.Keys
        invariant |all| + |remaining| == |store|
        invariant forall i :: 0 <= i < |all| ==>
                    all[i].id.Some? && all[i].id.value in store - remaining && store[all[i].id.value] == all[i]
        invariant forall i, j :: 0 <= i < j < |all| ==> all[i].id != all[j].id
        invariant forall k :: k in store && k !in remaining ==> store[k] in all
        decreases remaining
      {
        HasElement(remaining);
        var k :| k in remaining;
        all := all + [store[k]];
        remaining := remaining - {k};
      }
    }

    /** `calculatePortfolioValue`: the sum of `buyPrice * quantity` over
        every stored holding; 0 for an empty store. */
    method CalculatePortfolioValue() returns (total: real)
      requires Valid()
      ensures total == StoreValue(store)
      ensures store == map[] ==> total == 0.0
    {
      var all := GetAllStocks();
      total := SumCost(all);
      SumCostOfListing(all, store);
    }
  }
}

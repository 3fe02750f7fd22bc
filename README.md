# Stock portfolio tracker: real-time valuation and holdings service

A Dafny model of the two parts of the Stock-Portfolio tracker that hold logic.

- **The dashboard's real-time valuation state** (`src/components/Dashboard.jsx`).
  - A trend history of at most five points. An append keeps the last four earlier points and adds the new value as the newest point.
  - Time labels come from position only: `Now` for the newest point, then `15m ago`, `30m ago`, and so on.
  - The history is seeded with five copies of the base value on mount and whenever the base value changes.
  - A fetched payload is coerced with `Number(value) || 0`. The same value becomes the real-time value and the newest history point.
  - A failed fetch changes nothing but the loading flag.
  - The delta and percent change are derived from the base value. A zero base gives a percent of 0.
- **The backend's stock service** (`Backend/portfolio/.../service/StockService.java`).
  - Add, update, delete and list over the stock repository. The repository is modelled as a map from id to holding.
  - The base portfolio value is the sum of `buyPrice * quantity`.
  - Up to five distinct tickers are selected from a fixed list of ten, using a stream of drawn indices.
  - The real-time value is the sum of the looked-up prices of those tickers.

Files:

- `decimal.dfy` (module `Decimal`): how `${n}` prints a natural number, and its inverse parser.
- `dashboard.dfy` (module `RealTimeDashboard`): the history, label and metric functions, and the class `Dashboard`. The class has the component's fields `totalValue`, `realTimeValue`, `history` and `isLoading`.
- `stock_service.dfy` (module `PortfolioService`): the `Stock` record, the valuation functions, the ticker selection, and the class `StockService` over a `map<int, Stock>` store.

Money is `real`. Floating-point rounding is not modelled.

Behaviour of the code that the model keeps:

- The history is seeded with five points, so after the first fetch it still holds five.
- A non-numeric payload is coerced to 0 and applied. It is not a failed fetch.
- There is no guard against stale fetch results.
- A base change reseeds the history and keeps the real-time value.

## Model

| member | source | states |
|---|---|---|
| `RealTimeDashboard.Label` | src/components/Dashboard.jsx:22-26 | a label is `Now` exactly for the last position |
| `RealTimeDashboard.LabelsDistinct` | src/components/Dashboard.jsx:24-25 | two positions of one chart never share a label, so a label determines its position |
| `RealTimeDashboard.Relabel` | src/components/Dashboard.jsx:22-26 | relabelling keeps the length and every value; every label afterwards is the one its position gives |
| `RealTimeDashboard.Append` | src/components/Dashboard.jsx:12-28 | after an append the length is min(old length, 4) + 1, at most 5; the values are the last min(4, old length) old values in their order, then the new value; the last point is (`Now`, new value); all labels follow position |
| `RealTimeDashboard.AppendAllKeepsMostRecent` | src/components/Dashboard.jsx:16-19 | after any non-empty run of appends the history holds exactly the five most recent values (fewer if fewer existed), oldest first, oldest evicted first; each append keeps the labels positional (see `Append`) |
| `RealTimeDashboard.Seed` | src/components/Dashboard.jsx:45-51 | the seed has exactly five points, all equal to the base value; the first is (`1h ago`, base), the last is (`Now`, base), and every label but the first is the positional one |
| `RealTimeDashboard.SeedLabelsAgainstRelabel` | src/components/Dashboard.jsx:43-51 | the seeded first label `1h ago` differs from the positional `60m ago`, and it is the only difference; the first append evicts it, leaving values base ×4 then the fetched value, all labelled by position |
| `RealTimeDashboard.OrZero` | src/components/Dashboard.jsx:34-35 | the coercion `Number(value)` or 0: a numeric payload keeps its value and NaN becomes 0 |
| `RealTimeDashboard.ValueChange` | src/components/Dashboard.jsx:61 | base plus the change is the real-time value |
| `RealTimeDashboard.PercentChange` | src/components/Dashboard.jsx:62 | a zero base gives 0 with no division; otherwise percent × base = 100 × change |
| `RealTimeDashboard.TrendUp` | src/components/Dashboard.jsx:103-104 | the up-trend indicator is shown iff the real-time value is at least the base value |
| `RealTimeDashboard.PercentAgreesWithTrend` | src/components/Dashboard.jsx:61-62 | for a positive base the percent is non-negative iff the up-trend indicator is shown; a zero base gives 0 |
| `RealTimeDashboard.Dashboard.constructor` | src/components/Dashboard.jsx:8-10 | initial state: real-time value = base value, empty history, not loading |
| `RealTimeDashboard.Dashboard.SyncBaseValue` | src/components/Dashboard.jsx:43-59 | the effect on mount or a base change: the history becomes the seed of the new base, the first fetch starts (loading), the real-time value is kept |
| `RealTimeDashboard.Dashboard.StartFetch` | src/components/Dashboard.jsx:30-31 | a fetch sets loading and changes nothing else |
| `RealTimeDashboard.Dashboard.FetchSucceeded` | src/components/Dashboard.jsx:30-41 | success: the same coerced value becomes the real-time value and is appended to the history; loading ends; the bound and labelling invariant hold |
| `RealTimeDashboard.Dashboard.FetchFailed` | src/components/Dashboard.jsx:36-40 | failure: the real-time value and the history are unchanged; loading ends |
| `Decimal.DecimalString` | src/components/Dashboard.jsx:25 | the printed minutes are non-empty decimal digits with no leading zero |
| `Decimal.ParseDecimalString` | src/components/Dashboard.jsx:25 | parsing the printed number gives the number back |
| `Decimal.DecimalStringInjective` | src/components/Dashboard.jsx:25 | different minute counts print differently |
| `PortfolioService.StockService.constructor` | Backend/portfolio/src/main/java/com/example/portfolio/service/StockService.java:16-17 | the service starts over the repository's existing table, with the id generator past every stored id |
| `PortfolioService.StockService.AddStock` | Backend/portfolio/src/main/java/com/example/portfolio/service/StockService.java:23-25 | the returned holding has an id and is stored under it with the given fields; a stored id is overwritten, anything else is inserted under a fresh id; nothing else changes |
| `PortfolioService.StockService.UpdateStock` | Backend/portfolio/src/main/java/com/example/portfolio/service/StockService.java:28-35 | a missing id gives "Stock not found" and the store is unchanged; otherwise name, ticker, buy price and quantity come from the details, the id is kept, and every other holding is unchanged |
| `PortfolioService.StockService.DeleteStock` | Backend/portfolio/src/main/java/com/example/portfolio/service/StockService.java:38-40 | the id is absent afterwards and every other entry is unchanged |
| `PortfolioService.StockService.GetAllStocks` | Backend/portfolio/src/main/java/com/example/portfolio/service/StockService.java:43-45 | the list holds every stored holding exactly once, each as stored under its id |
| `PortfolioService.StockService.CalculatePortfolioValue` | Backend/portfolio/src/main/java/com/example/portfolio/service/StockService.java:48-53 | the result is the store's total of `buyPrice * quantity`; an empty store gives 0 |
| `PortfolioService.SumCostOfListing` | Backend/portfolio/src/main/java/com/example/portfolio/service/StockService.java:49-52 | summing any listing of the store, in any order, gives the store's value |
| `PortfolioService.StoreValueRemove` | Backend/portfolio/src/main/java/com/example/portfolio/service/StockService.java:50-52 | the store value does not depend on which holding is summed first |
| `PortfolioService.StoreValueAfterSave` | Backend/portfolio/src/main/java/com/example/portfolio/service/StockService.java:23-35 | saving a holding changes the portfolio value by exactly the change in that holding's cost |
| `PortfolioService.StoreValueAfterDelete` | Backend/portfolio/src/main/java/com/example/portfolio/service/StockService.java:38-40 | deleting a holding removes exactly its cost; deleting a missing id changes nothing |
| `PortfolioService.AllTickersDistinct` | Backend/portfolio/src/main/java/com/example/portfolio/service/StockService.java:68 | the fixed list has ten pairwise distinct tickers |
| `PortfolioService.Distinct` | Backend/portfolio/src/main/java/com/example/portfolio/service/StockService.java:71 | `distinct()` gives pairwise distinct elements, exactly the elements of its input |
| `PortfolioService.DistinctFirstOccurrenceOrder` | Backend/portfolio/src/main/java/com/example/portfolio/service/StockService.java:71 | `distinct()` keeps the order of first occurrence |
| `PortfolioService.SelectIndices` | Backend/portfolio/src/main/java/com/example/portfolio/service/StockService.java:70-72 | the first five distinct drawn indices: at most five, pairwise distinct, each drawn; every drawn index left out was first drawn after every selected one; fewer than five only when every drawn index is selected |
| `PortfolioService.SelectIndicesInDrawOrder` | Backend/portfolio/src/main/java/com/example/portfolio/service/StockService.java:70-72 | the selected indices appear in the order they were first drawn |
| `PortfolioService.RandomTickers` | Backend/portfolio/src/main/java/com/example/portfolio/service/StockService.java:67-75 | the tickers at the first five distinct drawn indices: at most five, pairwise distinct, each the fixed list's entry at the selected index, in selection order; fewer than five only when every drawn ticker is included |
| `PortfolioService.RealTimeValue` | Backend/portfolio/src/main/java/com/example/portfolio/service/StockService.java:55-63 | the real-time value over the tickers `RandomTickers` selects: with non-negative prices, every selected ticker's price is part of the total, so none exceeds it |
| `PortfolioService.SumPricesAtLeastEach` | Backend/portfolio/src/main/java/com/example/portfolio/service/StockService.java:60-62 | with non-negative prices, every ticker's price is at most the sum over the list |
| `PortfolioService.SumOfSelectedPricesBounds` | Backend/portfolio/src/main/java/com/example/portfolio/service/StockService.java:60-62 | the sum over at most five tickers priced in [0, cap] lies in [0, 5 × cap] |
| `PortfolioService.RealTimeValueBounds` | Backend/portfolio/src/main/java/com/example/portfolio/service/StockService.java:55-63 | the real-time value sums the prices of the selected tickers; with every price in [0, cap] it lies in [0, 5 × cap] |

## Left out

- The polling timer and its cleanup (`setInterval` / `clearInterval`, src/components/Dashboard.jsx:54-58) are left out. Fetches are modelled as single atomic events: `StartFetch`, then `FetchSucceeded` or `FetchFailed`. Overlapping fetches and their completion order are not modelled, because the code has no sequence numbers and no guard for stale results.
- The manual refresh button is not a separate operation. It calls the same handler as the timer, so it is `StartFetch` followed by a completion. Its `disabled={isLoading}` attribute is presentation.
- Mount is the constructor followed by `SyncBaseValue` with the same base value. React's render and effect scheduling is not modelled.
- HTTP clients are not part of this model: `src/api/StockServices.js`, the axios calls and the `localStorage` session check. The fetched payload arrives as the `JsNumber` that `Number(value)` yields, so string, null and object payloads are not parsed. Infinite values are not modelled.
- `StockPriceService.getStockPrice` is the abstract function `price`. Its exception on a failed request and its 0.0 result for a missing quote are not modelled.
- `RealTimeDashboard.PercentChange`: the JavaScript test `totalValue ?` is also false for NaN. `real` has no NaN, so only the zero base is modelled. `toFixed(2)`, `toLocaleString` and all double rounding are left out, and arithmetic is exact over `real`.
- `PortfolioService.RandomTickers`: `java.util.Random` is replaced by a finite input sequence of drawn indices in [0, 10). The source draws from an infinite stream and so always gets five tickers. The model only reaches five when the given prefix holds five distinct indices.
- `Stock.java` is not part of this model. The fields of `Stock` (an optional id, name, ticker, buyPrice, quantity) are inferred from the setters the service calls, and quantity is taken to be an integer.
- `PortfolioService.StockService.AddStock`: the repository's `save` is assumed to use generated ids. A holding whose id is not stored gets a fresh id from a counter. The persistence provider's id generation strategy is not modelled beyond that.
- `PortfolioService.StockService.DeleteStock`: `deleteById` of a missing id is modelled as doing nothing. Some Spring Data versions throw an exception instead.
- `PortfolioService.StockService.GetAllStocks`: the order of `findAll` is the loop's choice of key. The model states only that every stored holding appears exactly once.
- The controllers, `WebConfig`, the `User` entity and the repository's `findByUserId` are not part of this model. `StockController` calls `userId`-taking service methods that the single-user service does not have.
- The view components are not part of this model: landing page, auth pages, stock form and lists, 3D scenes, `App.jsx`, the other dashboard variant and `RealTimePortfolioValue.jsx`. They hold no valuation logic. `StockList`'s current value comes from `Math.random`.

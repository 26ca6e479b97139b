# Performance monitor and service worker of the Text-to-Voice Generator

This project models the two pieces of the Text-to-Voice Generator's client
code that hold state. It proves properties of both models in Dafny.

- **`PerformanceMonitor`** (`performance-monitoring.js`). This is a metric store: a map from
  metric name to the samples recorded for it, keeping at most 100 samples per
  series. Around it sit `recordMetric` with its threshold warnings, the
  per-series statistics of `getMetrics`, the report of `generateReport` and
  `destroy`. It also covers the translators that turn platform timing entries
  into `recordMetric` calls: navigation timing, measures, long tasks and the
  running layout-shift (CLS) total.
- **The service worker** (`service-worker.js`). Its `install` handler precaches
  the app shell, its `activate` handler deletes stale caches, and its `fetch`
  handler serves same-origin documents, styles and scripts cache-first. It
  stores good responses and falls back to an offline page. These handlers work
  on a model of the Cache API store: named caches in creation order, each
  mapping a request URL to a response.

Files:

- `wrappers.dfy`: `Option`.
- `metric_store.dfy` (module `MetricStore`): the store as values.
  - `Record` is one `recordMetric` call on the map.
  - `Replay` is the store after a sequence of calls.
  - The module also holds the statistics and the lemmas about retention and summaries.
- `performance_monitor.dfy` (module `PerformanceMonitoring`):
  - the thresholds and the translators;
  - the report projection;
  - the class `PerformanceMonitor`. Its `metrics` map and its `clsValue` accumulator are updated in place. A ghost log of every `recordMetric` call since construction or the last `destroy` ties the map to `Replay`.
- `caches.dfy` (module `Caches`): the Cache API store, as the class `CacheStorage` with `open`, `match`, `put`, `delete` and `addAll`.
- `service_worker.dfy` (module `ServiceWorker`): the three event handlers as methods over a `CacheStorage`.

The clock (`Date.now`), the network (`fetch`) and the worker's own origin
(`location.origin`) are parameters: `now`, `net` and `selfOrigin`.

## Model

| member | source | states |
|---|---|---|
| MetricStore.Trim | performance-monitoring.js:241-245 | after the splice a series holds min(n, 100) samples |
| MetricStore.TrimKeepsLast | performance-monitoring.js:239-245 | the splice never removes the sample just pushed |
| MetricStore.RecordEffect | performance-monitoring.js:232-249 | after `recordMetric(name, v)` the series for `name` exists and its last sample is `v`; it is the last min(n+1, 100) samples of the old series with the new sample appended (at most 100 in all); every other series is unchanged and no other name is added |
| MetricStore.RecordGrowth | performance-monitoring.js:235-245 | a series below 100 grows by exactly the new sample; a full series drops its oldest sample and appends the new one; a new name starts with just the new sample |
| MetricStore.TrimSnoc | performance-monitoring.js:241-245 | trimming after every push gives the same series as trimming once at the end |
| MetricStore.ReplayWellFormed | performance-monitoring.js:235-245 | after any sequence of calls every series is non-empty and holds at most 100 samples |
| MetricStore.RecordedNames | performance-monitoring.js:235-237 | after any sequence of calls the store has a series for exactly the names that were recorded |
| MetricStore.ReplaySeries | performance-monitoring.js:239-245 | after any sequence of calls the series of a name is exactly the last min(n, 100) samples recorded under it, in call order, and exists exactly when n > 0 |
| MetricStore.Min | performance-monitoring.js:274 | `Math.min` over a non-empty list is one of its values and bounds every value from below |
| MetricStore.Max | performance-monitoring.js:275 | `Math.max` over a non-empty list is one of its values and bounds every value from above |
| MetricStore.AverageWithin | performance-monitoring.js:273 | the mean of a non-empty list lies between any lower and upper bound of its values |
| MetricStore.Summarize | performance-monitoring.js:270-277 | for a non-empty series: `count` is its length and `current` its last value; `min`/`max` are attained and bound every value; `average` is sum/count; min ≤ current ≤ max and min ≤ average ≤ max |
| MetricStore.SummaryAfterCalls | performance-monitoring.js:232-249 | after any sequence of calls, a recorded name's `count` is min(n, 100) and its `current` is the value of the most recent call for it |
| PerformanceMonitoring.ThresholdWarnings | performance-monitoring.js:251-264 | the warning fires only for the six listed names, only strictly above the threshold, and for every larger value once it fires |
| PerformanceMonitoring.LongTaskWarningImpliesThreshold | performance-monitoring.js:206-213 | a long task over 100 ms also exceeds the LONG_TASK threshold of 50 |
| PerformanceMonitoring.NavigationMetrics | performance-monitoring.js:185-195 | no navigation reading ever draws a threshold warning, since none of the seven names is watched; for timestamps in processing order every recorded duration is non-negative and TLS_HANDSHAKE ≤ TCP_CONNECT; TLS_HANDSHAKE counts only when `secureConnectionStart > 0` |
| PerformanceMonitoring.UpperCase | performance-monitoring.js:203 | `toUpperCase` keeps the length and maps each ASCII letter to upper case; no ASCII lower-case letter remains |
| PerformanceMonitoring.MeasureMetricName | performance-monitoring.js:202-204 | no measure's series is watched, so recording a measure never draws a threshold warning, whatever its duration |
| PerformanceMonitoring.SameMeasureSeries | performance-monitoring.js:203 | two measures share a series exactly when their names agree up to ASCII letter case |
| PerformanceMonitoring.MeasureNamesIgnoreCase | performance-monitoring.js:203 | measure names that differ only in letter case share one series |
| PerformanceMonitoring.ShiftTotals | performance-monitoring.js:114-121 | the CLS values recorded for a batch are at most one per shift; the last is the running total plus the scores of the shifts without recent input; none are recorded when every shift had recent input |
| PerformanceMonitoring.QualifyingSumNonNegative | performance-monitoring.js:116-118 | with non-negative scores the running total never decreases |
| PerformanceMonitoring.ShiftTotalsNonDecreasing | performance-monitoring.js:114-121 | with non-negative scores the recorded CLS values never decrease and stay between the starting and the final total |
| PerformanceMonitoring.PerformanceMonitor.constructor | performance-monitoring.js:5-8 | a new monitor has an empty store and a zero CLS total |
| PerformanceMonitoring.PerformanceMonitor.RecordMetric | performance-monitoring.js:232-249 | the store becomes `Record` of the old store and the call is logged; the CLS total is unchanged; `warned` is exactly the threshold condition |
| PerformanceMonitoring.PerformanceMonitor.GetMetrics | performance-monitoring.js:266-281 | one summary per stored name and no other, and the names are exactly those recorded since construction or the last `destroy`; each summary is the `Summarize` of that name's series |
| PerformanceMonitoring.PerformanceMonitor.GenerateReport | performance-monitoring.js:283-304 | each report field is the summary of its series or absent; `longTasks` is the LONG_TASK count or 0, which is min(n, 100) for n long tasks recorded since the last reset; the store is untouched |
| PerformanceMonitoring.PerformanceMonitor.Destroy | performance-monitoring.js:347-354 | the store is emptied; the CLS total survives |
| PerformanceMonitoring.PerformanceMonitor.ProcessNavigationEntry | performance-monitoring.js:185-200 | the seven durations are recorded in order, all stamped `now`; nothing else changes |
| PerformanceMonitoring.PerformanceMonitor.ProcessMeasureEntry | performance-monitoring.js:202-204 | the duration is recorded under the measure's series name, and no threshold warning is drawn |
| PerformanceMonitoring.PerformanceMonitor.ProcessLongTaskEntry | performance-monitoring.js:206-213 | the duration is recorded under LONG_TASK; the long-task warning fires exactly above 100 ms |
| PerformanceMonitoring.PerformanceMonitor.ProcessLayoutShift | performance-monitoring.js:116-120 | a shift without recent input is added to the total, and the new total is recorded under CLS; a shift with recent input changes nothing; `warned` is whether the new total drew the CLS warning (above 0.1) |
| PerformanceMonitoring.PerformanceMonitor.ProcessLayoutShifts | performance-monitoring.js:115-122 | after a callback the total has grown by the scores of the shifts without recent input, and the calls made are the running totals (`ShiftTotals`) under CLS; `warnings` says, total by total, whether each drew the CLS warning |
| Caches.FirstMatchSpec | service-worker.js:68-73 | `caches.match` returns the response held by the first cache, in creation order, that holds the URL, and nothing exactly when no cache holds it |
| Caches.FirstMatchAfterStore | service-worker.js:84-90 | after storing a response for a URL that no cache held, that response is what the URL matches |
| Caches.FirstMatchOtherUrl | service-worker.js:84-90 | storing under one URL leaves the match for every other URL as it was |
| Caches.FirstMatchAfterOpen | service-worker.js:84-86 | opening a new empty cache changes no match |
| Caches.RemoveMembers | service-worker.js:41 | deleting a cache name removes exactly that name from the list and keeps the others distinct |
| Caches.StoreAllEffect | service-worker.js:22 | after a successful `addAll` every requested URL holds the network's response for it, other stored URLs are kept, and nothing else is added |
| Caches.CacheStorage.Match | service-worker.js:68 | `caches.match` (here and for the offline page at line 96): a non-GET request matches nothing; a GET request gets the response of the first cache, in creation order, that holds the URL, and nothing exactly when no cache holds it |
| Caches.CacheStorage.Open | service-worker.js:19 | `caches.open` creates the cache, empty and last in order, only when it is absent |
| Caches.CacheStorage.Put | service-worker.js:87 | `cache.put` replaces the entry for the request's URL; a request other than GET is refused and nothing changes |
| Caches.CacheStorage.Delete | service-worker.js:41 | `caches.delete` removes the cache and its name and reports whether it existed |
| Caches.CacheStorage.AddAll | service-worker.js:22 | `cache.addAll` stores all responses exactly when every request is a GET answered ok with no URL repeated; otherwise it stores nothing |
| ServiceWorker.PrecacheList | service-worker.js:8-12 | the precache list has no repeated URL, and the offline fallback page is on it |
| ServiceWorker.Install | service-worker.js:15-29 | STATIC_CACHE is opened; `skipWaiting` is reached exactly when every precache path fetches ok, and then each path holds its response; on failure no response is stored |
| ServiceWorker.CacheNameFilter | service-worker.js:36-44 | exactly the names other than CACHE_NAME and STATIC_CACHE are deleted and exactly those two are kept |
| ServiceWorker.ActivateIdempotent | service-worker.js:36-44 | a second activation deletes nothing and keeps every cache |
| ServiceWorker.Activate | service-worker.js:32-50 | the deleted names are the stale ones in `caches.keys()` order; the store keeps the current names in order with their contents unchanged |
| ServiceWorker.CachedResponseMatches | service-worker.js:76-90 | after a miss, opening CACHE_NAME and storing the response makes the same GET request a hit on that response |
| ServiceWorker.HandleFetch | service-worker.js:53-101 | cross-origin requests and other destinations are not intercepted. A hit returns the cached response with no fetch and no change. A miss fetches: a 200 `basic` response is returned and CACHE_NAME is opened; for a GET request the response is stored under its URL there, so the same request then hits, while for any other method `put` refuses and nothing is stored; any other response is returned as it is with nothing stored. A network failure gives the cached offline page for documents and `undefined` otherwise, with no change |

## Left out

- Observer plumbing is not modelled: `PerformanceObserver` setup, `observe` and `disconnect`, DOM and window listeners, `visibilitychange`, `beforeunload` and the `observers` map. Platform entries are inputs to the translator methods instead.
- The FCP, LCP and FID observers (performance-monitoring.js:76-110 and 129-141) and slider tracking (lines 169-173) are not modelled. They call `recordMetric` directly, which is modelled, with values the platform supplies.
- Speech tracking (lines 175-182) and `startMeasure`/`endMeasure` (lines 215-230) are not modelled. They call `performance.mark` and `performance.measure`, which are platform calls. A completed measure reaches the store only as a measure entry, which `ProcessMeasureEntry` records.
- Click tracking (lines 159-166) is not modelled. It sets a `click-*` start mark that no `endMeasure` ever completes, so it records nothing.
- PerformanceMonitoring.PerformanceMonitor.constructor: the model starts from an empty store. The source's constructor also runs `init`, which installs observers and takes one memory sample at once through `performance.memory` (`JS_HEAP_SIZE`, `JS_HEAP_LIMIT` and `JS_HEAP_USED_PCT`). Memory sampling, its heap-percentage division and its timer are platform APIs and are left out.
- `setInterval` reporting, `startContinuousMonitoring`, `sendToAnalytics` (`sendBeacon` or `fetch` with keepalive) and JSON serialisation are left out as timing and network I/O.
- Console output is represented only by the boolean results that say whether a warning would be logged: `console.warn`, `group`, `table` and `log`. `ProcessNavigationEntry` returns none, because no navigation reading can draw one (`NavigationMetrics`).
- `Date.now` is the `now` parameter. Each observer callback is given one `now`, although the source reads the clock at every `recordMetric`.
- `toISOString`, `navigator.userAgent` and `location.href` are parameters of `GenerateReport`.
- Metric values are exact reals. IEEE-754 rounding, `NaN` and `undefined` operands are not modelled. Navigation Timing Level 2 entries have no `domLoading` or `navigationStart`, so in a browser DOM_PROCESSING and LOAD_COMPLETE come out as `NaN`. The model takes both fields as given numbers.
- PerformanceMonitoring.UpperCase: handles ASCII letters only, not full Unicode case mapping.
- `generateReport`: `longTasks` is `metrics.LONG_TASK?.count || 0`, a plain count, unlike the other report fields, which are statistics objects or absent. The model follows the code.
- The service worker's fetch handler is taken as one atomic step. The un-awaited `caches.open(...).then(cache.put)` race, the asynchronous gap between `match` and `put`, and `Promise.all` interleaving in `activate` are not modelled.
- `clients.claim`, `skipWaiting`'s effect on the client lifecycle, and the push, sync, message, error and unhandledrejection handlers are left out. They are lifecycle or notification glue with no cache state.
- `fetch` is modelled as resolving to a response or rejecting. The `!response` case of line 78 never arises, because `fetch` never resolves to a missing response.
- Response bodies, headers, `Vary`, `clone()` and request modes are not modelled. Cache entries are keyed by URL. `caches.match` failing, and the storage quota, are not modelled.
- Caches.CacheStorage.AddAll: rejects on a non-GET request, a network failure, a non-ok or error response, or a repeated URL. It does not model the status-206, `Vary: *` or URL-scheme checks of the Cache API.

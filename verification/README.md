# IoT security dashboard — a Dafny model

This project models the logic of a React dashboard that monitors IoT devices on
a home network. It covers:

- **Mock data** (`src/services/mockData.ts`): the generators for devices,
  alerts, traffic samples and the protocol breakdown.
- **Live simulation** (`src/services/simulationService.ts`): a singleton that
  keeps a list of subscriber callbacks and a timer handle. Every three seconds
  it pushes a traffic point, and sometimes an alert, to the subscribers. Its
  traffic level and alert severity depend on the simulation mode.
- **Dashboard** (`src/pages/Dashboard.tsx`): the subscriber. It keeps a
  60-sample traffic window, a newest-first alert list and a toast stack that
  is cleaned five seconds after each batch. It also shows the active-device
  count, the alerts of the day and a risk score.
- **Device table** (`src/components/DeviceTable.tsx`): column-sort state, the
  sort comparator and the colour chosen for a score and for a status.
- **Device monitor** (`src/pages/DeviceMonitor.tsx`): search and status
  filter, and per-status counts.
- **Alerts page** (`src/pages/Alerts.tsx`): search and severity filter,
  per-severity counts and the CSV export text.
- **Traffic analytics** (`src/pages/TrafficAnalytics.tsx`): point count per
  time range, spike-chart mapping and integer averages.

Every `Math.random()` call becomes an explicit draw parameter:

- a threshold test (`Math.random() > 0.85`) becomes a boolean;
- `Math.floor(Math.random() * k)` becomes a natural number below `k`;
- the noise factor of the live traffic formula becomes a real in `[0, 1)`.

The clock (`Date.now()`, `new Date()`) becomes an integer millisecond
parameter. Timers become explicit events:

- `SimulationService.Tick` is one interval firing;
- `ReversionFires` is the 15-second `setTimeout` of `simulateAttack`;
- `DashboardPage.CleanupFires` is the 5-second toast cleanup.

Subscriber callbacks are identified by a number (`ListenerId`), and
`notify` returns the list of deliveries it makes, in order.

Modules, one file each:

| module | models |
|---|---|
| `Wrappers` | `Option` and `Result` |
| `Arith` | floor-division facts behind the percentage and the averages |
| `Text` | rendering of numbers (decimal, hexadecimal), `padStart`, `toUpperCase`/`toLowerCase` (ASCII), `includes`, `localeCompare` (code points), `join`, `split` |
| `Seqs` | `filter`, `slice(-n)` and a stable `sort` |
| `MockData` | mockData.ts |
| `Simulation` | simulationService.ts |
| `Dashboard` | Dashboard.tsx |
| `DeviceTable` | DeviceTable.tsx |
| `DeviceMonitor` | DeviceMonitor.tsx |
| `AlertsPage` | Alerts.tsx |
| `TrafficAnalytics` | TrafficAnalytics.tsx |

Points where the model follows details of the code:

- **Status draw.** `generateDevices` draws twice for a device's status
  (`src/services/mockData.ts:42`):
  - the first draw above 0.85 gives `suspicious`;
  - otherwise a second, independent draw above 0.95 gives `critical`;
  - otherwise the status is `safe`.
- **Empty device list.** `generateAlerts` throws on an empty device list when
  it must produce at least one alert. The model returns `Failure(UndefinedDevice)`.
- **Time ranges.** "Last Day" and "Last Week" generate 24 and 168 samples
  one minute apart, so they cover 23 and 167 minutes (`ShowAnalytics`).
- **Clock truncation.** `new Date(Date.now() - Math.random() * 3600000)`
  drops the fraction of a millisecond, so `lastSeen` can be exactly one hour
  back; an alert's age can likewise be exactly one day
  (`src/services/mockData.ts:52`, `src/services/mockData.ts:68`).

Each row of the table below names the member whose contract states the
property. A function that only computes a value (for example `NextSort`,
`Join` or `ExportCsv`) is stated by the lemma about it, and that lemma's row
names the function in its third column.

## Model

| member | source | states |
|---|---|---|
| Text.DecimalString | src/services/mockData.ts:44 | a number's decimal text is non-empty, all digits, and has two or more digits exactly from 10 on |
| Text.DecimalRoundTrip | src/services/mockData.ts:44 | reading a number's decimal text back gives the number, so decimal rendering is injective |
| Text.DecimalInjective | src/services/mockData.ts:44-47 | two numbers with the same decimal text are equal (what makes `device-{i+1}` and `192.168.1.{10+i}` distinct) |
| Text.NumberString | src/pages/Alerts.tsx:25 | a number in a template literal is an optionally signed digit string that reads back as the number, and starts with `-` exactly when the number is negative |
| Text.HexString | src/services/mockData.ts:53 | `toString(16)` is non-empty, one digit exactly below 16 and at most two digits exactly below 256 |
| Text.UpperHexDigitDistinct | src/services/mockData.ts:53 | distinct hex digit values give distinct upper-case digits |
| Text.PadStart | src/services/mockData.ts:53 | `padStart` keeps the text as a suffix, fills only the missing width, and never shortens |
| Text.Lower | src/pages/DeviceMonitor.tsx:13 | `toLowerCase` keeps the length, leaves no upper-case letter and keeps every other character in place |
| Text.LowerIdempotent | src/pages/DeviceMonitor.tsx:13 | lower-casing an already lower-cased text changes nothing |
| Text.Upper | src/services/mockData.ts:53 | `toUpperCase` keeps the length, leaves no lower-case letter, keeps every other character in place, and lower-cases to the same text as its input |
| Text.Contains | src/pages/DeviceMonitor.tsx:13-14 | `includes` holds exactly when the needle occurs at some offset of the text |
| Text.ContainsEmpty | src/pages/DeviceMonitor.tsx:13 | every text includes the empty search |
| Text.CompareStrings | src/components/DeviceTable.tsx:32 | the three-way comparison is -1, 0 or 1 and is 0 exactly for equal texts |
| Text.CompareAntisymmetric | src/components/DeviceTable.tsx:32 | swapping the operands negates the comparison |
| Text.CompareTransitive | src/components/DeviceTable.tsx:32 | "not after" is transitive, so the comparator is consistent |
| Text.Split | src/pages/Alerts.tsx:29-32 | splitting always yields at least one part |
| Text.SplitJoin | src/pages/Alerts.tsx:29-32 | `Join` (`join`) is undone by `Split`: splitting a join at its separator gives back the parts when no part holds the separator |
| Text.JoinFirstPart | src/pages/Alerts.tsx:30-32 | the first part of a split join is the first joined part, whatever follows |
| Text.JoinAvoids | src/pages/Alerts.tsx:31 | a character that is neither the separator nor in any part is not in the join |
| Text.JoinEndsWithLast | src/pages/Alerts.tsx:29-32 | a join ends with its last part, so nothing trails it |
| Seqs.Filter | src/pages/Dashboard.tsx:48 | `filter` keeps exactly the elements of the input that satisfy the predicate and is never longer |
| Seqs.FilterIsSubsequence | src/pages/DeviceMonitor.tsx:12 | `filter` keeps an order-preserving sub-sequence |
| Seqs.SubsequenceOrder | src/pages/Alerts.tsx:11 | two elements of a sub-sequence appear in the same order in the original |
| Seqs.FilterPartition | src/pages/DeviceMonitor.tsx:56-62 | filters by complementary predicates split the length |
| Seqs.FilterKeepsAll | src/pages/DeviceMonitor.tsx:12-17 | a predicate true everywhere keeps the whole list |
| Seqs.FilterNone | src/pages/Dashboard.tsx:49-53 | a predicate false everywhere keeps nothing |
| Seqs.FilterIdempotent | src/pages/Dashboard.tsx:37 | filtering twice with the same predicate equals filtering once |
| Seqs.FilterCongruent | src/pages/Alerts.tsx:11-16 | predicates that agree on every element filter a list alike |
| Seqs.FilterAppend | src/pages/Dashboard.tsx:37 | filtering distributes over concatenation |
| Seqs.TakeLast | src/pages/Dashboard.tsx:28 | `slice(-n)` has `min(length, n)` elements and is a suffix of the input |
| Seqs.Insert | src/services/mockData.ts:79 | inserting into a list adds exactly that element (multiset) |
| Seqs.SortBy | src/services/mockData.ts:79 | `sort` returns a permutation of its input |
| Seqs.SortBySorted | src/services/mockData.ts:79 | under a consistent comparator the sorted list is ordered by it |
| MockData.StatusScoreInBand | src/services/mockData.ts:49-51 | a score draw below the status's span lands in its band: critical 80–99, suspicious 50–79, safe 10–49 |
| MockData.SeverityScoreInBand | src/services/mockData.ts:72-74 | a score draw below the severity's span lands in its band: high 80–99, medium 50–79, low 20–49 |
| MockData.DeviceIdsDistinct | src/services/mockData.ts:44-47 | distinct indices give distinct ids and distinct IP addresses |
| MockData.MacSuffixDigits | src/services/mockData.ts:53 | below 256 the MAC suffix is exactly the two upper-case hex digits of the index; from 256 on it has three or more characters |
| MockData.HexPairDistinct | src/services/mockData.ts:53 | two different indices below 256 differ in one of their two hex digits |
| MockData.DeviceMacsDistinct | src/services/mockData.ts:53 | distinct indices below 256 give distinct MAC addresses |
| MockData.DeviceAtPolicy | src/services/mockData.ts:42-53 | for `DeviceAt`, one loop iteration: status is suspicious iff the first draw passes, critical iff only the second passes; the score is in the status band; lastSeen is at most one hour back and not in the future; the type is `deviceTypes[i mod 9]` and the name is the type and `i div 9 + 1` |
| MockData.BuiltDevicesSpec | src/services/mockData.ts:41-54 | a list built index by index from valid draws has ids `device-1`, `device-2`, …, scores in their bands, pairwise distinct ids and IP addresses, and distinct MACs up to 256 devices |
| MockData.GenerateDevices | src/services/mockData.ts:39-57 | exactly `count` devices (none when count ≤ 0), the i-th built from index i and the i-th draw, ids `device-{i+1}`, scores in their bands, ids and IP addresses pairwise distinct, MACs distinct up to 256 devices |
| MockData.PushedAlerts | src/services/mockData.ts:61-78 | the loop pushes exactly `count` alerts |
| MockData.PushedAlertAt | src/services/mockData.ts:62-77 | the k-th pushed alert is `AlertAt` of index k: it is built from the k-th draw and the device it picks |
| MockData.PushedAlertsWellFormed | src/services/mockData.ts:62-77 | every pushed alert copies one device's id and name, takes its attack type from the catalog and its score from its severity's band |
| MockData.SortNewestFirstCorrect | src/services/mockData.ts:79 | `SortNewestFirst`, the timestamp sort, returns a newest-first permutation |
| MockData.GenerateAlerts | src/services/mockData.ts:59-80 | fails exactly when an alert is due and there is no device; otherwise exactly `count` alerts, a newest-first permutation of the pushed ones, each well formed |
| MockData.GenerateTrafficData | src/services/mockData.ts:82-95 | exactly `points` samples one minute apart, the last at `now`, each field in its range (packets 3000–7999, bandwidth 20–69, connections 50–149) |
| MockData.ProtocolDataConsistent | src/services/mockData.ts:97-106 | `ProtocolData` has six protocols whose percentages add up to 100, each count being 100 times its percentage |
| MockData.MockSeed | src/services/mockData.ts:108-111 | the module constants, built with the default arguments: 15 devices with distinct MACs, 50 newest-first well-formed alerts naming those devices, 60 samples ending now and in range, and protocol shares totalling 100 |
| Simulation.TrafficPointRanges | src/services/simulationService.ts:42-71 | for `TrafficPoint` (with `ModeProfile` and `Noisy`): per mode, the bounds each field of a live traffic point stays within (normal packets 3150–3849, attack 7875–13124, port scan 5950–8049, bot 4200–6299; likewise for bandwidth and connections) |
| Simulation.ModesOrderTraffic | src/services/simulationService.ts:50-69 | whatever the noise draws, attack traffic exceeds normal and bot traffic in every field, and bot and port-scan traffic exceed normal traffic |
| Simulation.LiveAttackTypesInSeedCatalog | src/services/simulationService.ts:75 | the live attack types are a subset of the seed catalog |
| Simulation.LiveAlert | src/services/simulationService.ts:73-93 | a live alert has the mode's severity `ModeSeverity` (normal low, attack high, otherwise medium), a score in that band, a live attack type, the identity of a population device and the current time |
| Simulation.TickPayload | src/services/simulationService.ts:24-28 | a tick carries alerts iff the alert draw passes, then exactly one, and traffic stamped now |
| Simulation.WithoutSpec | src/services/simulationService.ts:12-14 | `Without`, the unsubscribe filter, removes every copy of that callback, keeps every other one in order, and is idempotent |
| Simulation.SubscribeUnsubscribe | src/services/simulationService.ts:10-15 | subscribing a new callback and then unsubscribing it restores the list |
| Simulation.UnsubscribeOther | src/services/simulationService.ts:10-15 | unsubscribing another callback leaves a newly added one at the end |
| Simulation.SimulationService.constructor | src/services/simulationService.ts:5-8 | no listeners, no interval, normal mode |
| Simulation.SimulationService.Subscribe | src/services/simulationService.ts:10-11 | appends the callback to the listeners |
| Simulation.SimulationService.Unsubscribe | src/services/simulationService.ts:12-14 | the listeners become the old list without the callback |
| Simulation.SimulationService.Notify | src/services/simulationService.ts:17-19 | delivers the payload once to each listener, in subscription order |
| Simulation.SimulationService.Start | src/services/simulationService.ts:21-29 | a running service is unchanged; a stopped one gets a fresh handle; exactly one timer is live afterwards |
| Simulation.SimulationService.Stop | src/services/simulationService.ts:31-36 | no interval and no live timer afterwards, whatever the state before |
| Simulation.SimulationService.SetMode | src/services/simulationService.ts:38-40 | the mode becomes the given one |
| Simulation.SimulationService.SimulateAttack | src/services/simulationService.ts:95-101 | sets the mode and schedules one more reversion |
| Simulation.SimulationService.ReversionFires | src/services/simulationService.ts:98-100 | a due reversion sets the mode back to normal |
| Simulation.SimulationService.Tick | src/services/simulationService.ts:24-28 | one interval firing builds the payload from the current mode and delivers it to every listener in order |
| Dashboard.NextWindowSpec | src/pages/Dashboard.tsx:27-30 | `NextWindow` keeps at most 60 samples, ends with the new one, is a suffix of the old window plus the sample, and equals old plus sample while under 60 |
| Dashboard.NextWindowChronological | src/pages/Dashboard.tsx:27-30 | a chronological window stays chronological when a later sample arrives |
| Dashboard.PrependKeepsNewestFirst | src/pages/Dashboard.tsx:33 | prepending newer alerts to a newest-first list keeps it newest first, with the old list as its tail |
| Dashboard.RemoveBatchSpec | src/pages/Dashboard.tsx:36-38 | `RemoveBatch`, the cleanup, removes every toast of its batch and keeps every other toast, in order |
| Dashboard.CloseByIdSpec | src/pages/Dashboard.tsx:66 | `CloseById` removes every toast with that id and keeps the rest, in order |
| Dashboard.VisibleToasts | src/pages/Dashboard.tsx:62 | at most three toasts are shown: all of them while there are at most three, else the last three |
| Dashboard.ActiveDevicesComplement | src/pages/Dashboard.tsx:48 | `ActiveDevices` plus critical devices is the number of devices |
| Dashboard.AlertsToday | src/pages/Dashboard.tsx:49-53 | the alerts of the day are never more than all alerts |
| Dashboard.TodayPrefixExact | src/pages/Dashboard.tsx:49-53 | on a newest-first list, an alert passes `Today` (at or after midnight) exactly when it lies in the leading run of such alerts |
| Dashboard.FilterTodayIsPrefix | src/pages/Dashboard.tsx:49-53 | on a newest-first list, filtering today's alerts keeps exactly that leading run |
| Dashboard.AlertsTodayArePrefix | src/pages/Dashboard.tsx:49-53 | on a newest-first list, today's alerts are exactly its first entries |
| Dashboard.RiskScore | src/pages/Dashboard.tsx:55-57 | no score without alerts; otherwise a percentage 0–100 that is 100 exactly when every alert is high |
| Dashboard.PercentBounds | src/pages/Dashboard.tsx:55-57 | the integer percentage of a part of a whole lies in 0–100 and is 100 exactly for the whole |
| Dashboard.DashboardPage.constructor | src/pages/Dashboard.tsx:19-21 | the page starts from the seed traffic and alerts with no toasts |
| Dashboard.DashboardPage.OnData | src/pages/Dashboard.tsx:26-39 | slides the traffic window; with alerts, prepends them to the list, appends them to the toasts and schedules their cleanup; without alerts nothing else changes |
| Dashboard.DashboardPage.CleanupFires | src/pages/Dashboard.tsx:36-38 | the oldest scheduled cleanup removes its batch's toasts |
| Dashboard.DashboardPage.CloseToast | src/pages/Dashboard.tsx:66 | no toast with the closed id remains |
| Dashboard.DashboardPage.Mount | src/pages/Dashboard.tsx:23-26 | mounting starts the service and subscribes the page's callback |
| Dashboard.DashboardPage.Unmount | src/pages/Dashboard.tsx:42-45 | unmounting unsubscribes the callback and stops the service |
| DeviceTable.NextSortSpec | src/components/DeviceTable.tsx:18-25 | `NextSort`: a click selects its column; the same column flips the order, so two clicks restore it; another column starts ascending |
| DeviceTable.DeviceTableState.constructor | src/components/DeviceTable.tsx:15-16 | initially sorted by behaviour score, descending |
| DeviceTable.DeviceTableState.HandleSort | src/components/DeviceTable.tsx:18-25 | the new sort state is the transition of the old one for the clicked column |
| DeviceTable.DescReversesAsc | src/components/DeviceTable.tsx:31-37 | in `Compare` (over `KeyText`), the descending comparison is the negated ascending one, for every column |
| DeviceTable.ComesFirstTotalPreorder | src/components/DeviceTable.tsx:27-40 | `ComesFirst`, every column's comparator, is total and transitive |
| DeviceTable.SortedDevicesSpec | src/components/DeviceTable.tsx:27-40 | `SortedDevices` is a permutation of the devices, ordered by the column: ascending or descending scores, texts in order or in reverse |
| DeviceTable.StatusSortIsAlphabetical | src/components/DeviceTable.tsx:31-32 | sorting by status compares the literals: critical, safe, suspicious |
| DeviceTable.ScoreColor | src/components/DeviceTable.tsx:53-57 | red exactly from 70, orange exactly for 50–69, green exactly below 50 |
| DeviceTable.StatusStyle | src/components/DeviceTable.tsx:42-51 | red exactly for `critical`, orange exactly for `suspicious` |
| DeviceTable.ColoursAgreeOnGeneratedDevice | src/components/DeviceTable.tsx:42-57 | for a generated device, the score colour matches the status colour, except that a suspicious device shows red from 70 on |
| DeviceMonitor.FilteredDevices | src/pages/DeviceMonitor.tsx:12-17 | a device is shown iff its lower-cased name contains the lower-cased search or its IP contains the raw search, and the filter is `all` or its status |
| DeviceMonitor.FilteredDevicesInOrder | src/pages/DeviceMonitor.tsx:12 | the shown devices keep the list's order |
| DeviceMonitor.EmptySearchShowsAll | src/pages/DeviceMonitor.tsx:12-17 | an empty search with `all` shows every device |
| DeviceMonitor.StatusFilterNarrows | src/pages/DeviceMonitor.tsx:15 | a status filter shows exactly the devices of that status among those the search shows, in order |
| DeviceMonitor.NarrowerFilter | src/pages/DeviceMonitor.tsx:12-17 | filtering by a status equals filtering the search result by that status |
| DeviceMonitor.StatusCount | src/pages/DeviceMonitor.tsx:56-62 | a status badge never exceeds the number of devices |
| DeviceMonitor.StatusCountsSum | src/pages/DeviceMonitor.tsx:56-62 | the safe, suspicious and critical badges add up to the number of devices |
| DeviceMonitor.ShownCountBounded | src/pages/DeviceMonitor.tsx:52 | "Showing n of m": n never exceeds m, nor the badge of the filtered status |
| DeviceMonitor.SearchNarrowsStatus | src/pages/DeviceMonitor.tsx:52-62 | the shown devices of a status never outnumber that status's badge |
| AlertsPage.FilteredAlerts | src/pages/Alerts.tsx:11-16 | an alert is shown iff `MatchesSearch` holds, that is its device name or attack type contains the search, ignoring case, and the filter is `all` or its severity |
| AlertsPage.FilteredAlertsInOrder | src/pages/Alerts.tsx:11 | the shown alerts keep the list's order, so a newest-first list stays newest first |
| AlertsPage.SearchIgnoresCase | src/pages/Alerts.tsx:12-13 | an upper-cased search term shows exactly the same alerts as the term itself |
| AlertsPage.EmptySearchShowsAll | src/pages/Alerts.tsx:11-16 | an empty search with `all` shows every alert |
| AlertsPage.SeverityCount | src/pages/Alerts.tsx:43-47 | a severity card never exceeds the number of alerts |
| AlertsPage.SeverityCountsSum | src/pages/Alerts.tsx:43-47 | the high, medium and low cards add up to the number of alerts |
| AlertsPage.Quote | src/pages/Alerts.tsx:31 | a cell is wrapped in one double quote on each side and otherwise unchanged |
| AlertsPage.ReadQuoted | src/pages/Alerts.tsx:31 | reading a quoted cell consumes at least its closing quote |
| AlertsPage.ReadQuotedCell | src/pages/Alerts.tsx:31 | a cell without quotes is read back up to its closing quote |
| AlertsPage.RowRoundTrip | src/pages/Alerts.tsx:31 | a `CsvRow` reads back into its cells, commas inside cells included, when no cell holds a double quote |
| AlertsPage.QuoteInCellIsAmbiguous | src/pages/Alerts.tsx:31 | inner quotes are not doubled: the one-cell row `a","b` equals the two-cell row `a`, `b` |
| AlertsPage.NumberStringSafe | src/pages/Alerts.tsx:25 | a rendered score holds neither a newline nor a quote |
| AlertsPage.RowCellsSafe | src/pages/Alerts.tsx:20-27 | when the free-text cells are safe, every cell of the row is |
| AlertsPage.RowHasNoNewline | src/pages/Alerts.tsx:31 | a row of safe cells is a single line |
| AlertsPage.HeaderLineSpec | src/pages/Alerts.tsx:19-30 | the header line is exactly `Timestamp,Device,Severity,Attack Type,Anomaly Score,Description` |
| AlertsPage.ExportSplitsIntoLines | src/pages/Alerts.tsx:29-32 | for safe alerts, splitting the export at newlines gives back its lines |
| AlertsPage.DataRowsReadBack | src/pages/Alerts.tsx:20-31 | each data line of safe alerts reads back into that alert's six cells |
| AlertsPage.ExportCsvSpec | src/pages/Alerts.tsx:18-32 | `ExportCsv` of safe alerts has the header line and exactly one line per alert (no trailing newline), each reading back into its six cells |
| AlertsPage.ExportStartsWithHeader | src/pages/Alerts.tsx:29-32 | whatever the cells hold, the first line of the export is the header line |
| TrafficAnalytics.DataPoints | src/pages/TrafficAnalytics.tsx:13-24 | the point count of every range lies in 24–168 |
| TrafficAnalytics.SpikeData | src/pages/TrafficAnalytics.tsx:28-32 | one point per sample, in order: label from the range's `TimePattern`, connections copied, packets the rate in hundreds rounded down |
| TrafficAnalytics.Average | src/pages/TrafficAnalytics.tsx:34-42 | no value for no samples; otherwise the largest integer whose multiple by the count does not exceed the sum |
| TrafficAnalytics.SumBounds | src/pages/TrafficAnalytics.tsx:35 | a `Sum` of values in [lo, hi] lies between count·lo and count·hi |
| TrafficAnalytics.AverageWithin | src/pages/TrafficAnalytics.tsx:34-42 | an average of values in [lo, hi] lies in [lo, hi] |
| TrafficAnalytics.Minimum | src/pages/TrafficAnalytics.tsx:34-42 | the minimum belongs to the values and bounds them from below |
| TrafficAnalytics.Maximum | src/pages/TrafficAnalytics.tsx:34-42 | the maximum belongs to the values and bounds them from above |
| TrafficAnalytics.AverageBetweenMinAndMax | src/pages/TrafficAnalytics.tsx:34-42 | each average lies between the smallest and largest value averaged |
| TrafficAnalytics.ShowAnalytics | src/pages/TrafficAnalytics.tsx:13-42 | as many samples as the range asks for, spanning (count − 1) minutes, and three averages of the `MetricOf` columns, each the floor of its mean and inside its field's generated range |

## Left out

- Real timers. `setInterval`, `clearInterval` and the two `setTimeout` calls are events the caller invokes (`Tick`, `ReversionFires`, `CleanupFires`), not elapsed time. Timer handles are counted rather than issued by a browser.
- `Math.random`, `Date.now` and `new Date()` are parameters. The seed generators read the clock once per call, where the code reads it once per iteration (`src/services/mockData.ts:52,68`).
- Simulation.TrafficPoint: the noise formula is computed over exact reals, not IEEE-754 doubles, so a result within one rounding step of an integer may differ from the browser's.
- Dashboard.RiskScore: computes `(high * 100) / n` in exact integers. The source floors the floating-point product `high / n * 100`, which can land one lower (29 high alerts out of 100 give 28 there).
- Text.CompareStrings: code-point order stands for `localeCompare`, whose collation depends on the locale.
- Text.Lower and Text.Upper: ASCII letters only; other characters are unchanged.
- date-fns `format` is a function parameter, so the chart labels and the CSV timestamp cell are whatever it returns. The relative-time labels of `formatDistanceToNow` (the alert feed and the device table's last-seen column) are not modelled.
- Toast removal uses value equality where the source compares object identity. Live alert ids are `alert-<now>`, so batches from different ticks differ.
- The in-place `sort` of a local array becomes a stable functional insertion sort. No one else holds the array.
- MockData.GenerateDevices: MAC addresses are proved distinct only up to 256 devices, where the suffix is exactly two hex digits.
- Simulation.SimulationService.Start: a falsy handle (0) would make `start` create a second timer. Handles here are positive, as browsers issue them.
- The CSV download (`Blob`, object URL, anchor click) and the download file name.
- All JSX, styling, charts, icons, routing, `SimulationControlPanel`, the toast fade animation, `DeviceDetailModal`, `RiskGauge` geometry and React hook scheduling. They are presentation only.

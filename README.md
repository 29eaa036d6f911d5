# Dashboard data rules, modelled in Dafny

The dashboard shows a signed-in user's XP progress, profile summaries and audit ratio. Beneath the
SVG and DOM code lie a few data rules:

- the cumulative-XP line chart (`XPGraph`): the running total over the ordered transactions, the
  time and value scales, which points become x-axis ticks and hover dots, the six value-axis ticks,
  the polyline through every point, and the last path segment a tooltip shows;
- the profile summaries (`ProfileManager`): total and average XP, the B/kB/MB unit rule, the
  skill-name clean-up, the stable largest-first ranking cut to five skills, and the project
  pass/fail tally;
- the audit pie chart (`AuditGraph`): byte totals in MB, the audit ratio, the slices laid out
  round the circle in a fixed order with zero slices skipped, the large-arc flag, the hover
  percentage, the legend and the responsive size.

The project models each of these, and each class keeps the fields that the modelled methods update.

Modules:

- `Wrappers`: `Option` and `Result`.
- `JsMath`: `Math.round` and one-decimal rounding, on reals.
- `Transactions`: the XP transaction record and its left-to-right sum.
- `LineChart`: `js/graphs/xpGraph.js`.
- `SkillRanking`: skill names and the in-place sort of `renderSkillsInfo` in `js/profile.js`.
- `Profile`: the rest of `js/profile.js`.
- `PieChart`: `js/graphs/auditGraph.js`.

Conventions:

- Numbers are idealised. XP amounts and grades are integers or reals with no overflow.
- A JavaScript division that yields NaN or an infinity becomes `None`.
- Angles are fractions of a full turn, so no trigonometry is needed.
- A rendered chart or panel is a datatype value holding what is drawn.
- The gateway's answers are parameters of the load methods. `Err` stands for a request that
  throws.

The code does not do the following, and neither does the model:

- The value axis is not rounded to a "nice" step.
- A zero time span or a zero top value is not guarded against. The scales then give `None`.
- No nearest-point search happens under the pointer. Tooltips belong to the sampled hover dots.
- A tooltip shows the transaction's own amount, not the running total.

## Model

| member | source | states |
|---|---|---|
| `Transactions.SumMonotone` | js/graphs/xpGraph.js:18-24 | with non-negative amounts, a longer prefix of the transactions never has a smaller total |
| `JsMath.Round` | js/profile.js:172 | `Math.round` is the integer within half a unit of its argument, halves going up |
| `JsMath.RoundTenths` | js/graphs/auditGraph.js:48 | `+x.toFixed(1)` has one decimal and is within 0.05 of `x` |
| `LineChart.Cumulative` | js/graphs/xpGraph.js:18-27 | the processed series has one point per transaction |
| `LineChart.CumulativeAt` | js/graphs/xpGraph.js:18-27 | point i keeps transaction i's date, amount and path, its running total is the sum of amounts 0..i, and the last running total is the sum of all amounts |
| `LineChart.CumulativeMonotone` | js/graphs/xpGraph.js:18-24 | with non-negative amounts the running total never decreases along the series |
| `LineChart.LastIsMaximum` | js/graphs/xpGraph.js:18-65 | with non-negative amounts the last running total, the top of the value domain, is the largest |
| `LineChart.CumulativePoints` | js/graphs/xpGraph.js:18-27 | the running-total loop yields exactly the processed series |
| `LineChart.XScale` | js/graphs/xpGraph.js:68-72 | the time scale is undefined (NaN) exactly when the first and last dates coincide |
| `LineChart.XScaleEndpoints` | js/graphs/xpGraph.js:60-72 | the first date maps to 0 and the last date to the plot width |
| `LineChart.XScaleMonotone` | js/graphs/xpGraph.js:68-72 | on a positive span later dates never map further left, and dates in the domain land inside the plot |
| `LineChart.YScale` | js/graphs/xpGraph.js:75-78 | the value scale is undefined exactly when the top of the domain is 0 |
| `LineChart.YScaleEndpoints` | js/graphs/xpGraph.js:65-78 | 0 maps to the plot height (bottom) and the top value to 0 (top) |
| `LineChart.YScaleMonotone` | js/graphs/xpGraph.js:75-78 | for a positive top, larger values are drawn no lower |
| `LineChart.LineRises` | js/graphs/xpGraph.js:196-207 | for ascending dates and non-negative amounts, the polyline runs left to right and never descends |
| `LineChart.TickInterval` | js/graphs/xpGraph.js:104 | `ceil(n/6)` is the least m with n <= 6m |
| `LineChart.XTickIndices` | js/graphs/xpGraph.js:104-110 | ticks are exactly the indices below n that are multiples of `ceil(n/6)`, in order; index 0 is one, and there are at most six |
| `LineChart.TickSpacing` | js/graphs/xpGraph.js:160-161 | consecutive value ticks are max/5 apart |
| `LineChart.TickBounds` | js/graphs/xpGraph.js:160-161 | for a non-negative top, value ticks lie in [0, max] |
| `LineChart.TickShare` | js/graphs/xpGraph.js:160-162 | value tick i is the share i/5 of a non-zero top |
| `LineChart.TickHeight` | js/graphs/xpGraph.js:160-162 | value tick i is drawn at the fixed height i/5 of the plot |
| `LineChart.YTickValues` | js/graphs/xpGraph.js:158-162 | six ticks from 0 to max in equal steps, inside [0, max] for a non-negative max, at heights independent of the data |
| `LineChart.LinePath` | js/graphs/xpGraph.js:196-207 | one path command per point, in series order; only the first is a move, and each sits at its point's scaled position |
| `LineChart.HoverDotIndices` | js/graphs/xpGraph.js:259-260 | dots are exactly at indices with `i % 5 == 0` or `i == n-1`, strictly increasing; the first and last points always get one |
| `LineChart.LastSegment` | js/graphs/xpGraph.js:278 | `split('/').pop()` is the slash-free suffix after the last slash, or the whole path |
| `LineChart.LastSegmentOfJoin` | js/graphs/xpGraph.js:278 | the tooltip of `dir/name` shows `name` |
| `LineChart.TooltipFor` | js/graphs/xpGraph.js:276-278 | a tooltip shows its point's date, its transaction's own amount and the last segment of its path (the part after its last slash), which has no slash |
| `LineChart.XPGraph.constructor` | js/graphs/xpGraph.js:4-10 | a new graph holds no data and has drawn nothing |
| `LineChart.XPGraph.LoadData` | js/graphs/xpGraph.js:12-34 | a successful load keeps the transactions and their processed series; an answer without a transaction list leaves `data` undefined and the series as it was, because the `map` throws; a failed request changes nothing |
| `LineChart.XPGraph.Render` | js/graphs/xpGraph.js:36-297 | no or empty series leaves the container untouched; otherwise the chart has one path command per point, 1 to 6 x-ticks starting at the first date, six y-ticks labelled with their rounded values, and dots at the first and last points |
| `SkillRanking.UpperCase` | js/profile.js:201 | `toUpperCase` on a character maps lower-case ASCII letters to their capitals and keeps every other character |
| `SkillRanking.SkillName` | js/profile.js:195-201 | the name drops a leading `skill_` only when present, upper-cases its first character and keeps the rest |
| `SkillRanking.SkillNameStripsOnlyThePrefix` | js/profile.js:195-201 | `skill_x` becomes capitalised `x`, and a type without the prefix keeps its tail |
| `SkillRanking.ProcessSkill` | js/profile.js:192-208 | a processed skill keeps the node's amount and type and carries its display name |
| `SkillRanking.InsertByAmount` | js/profile.js:211 | inserting a skill into the sorted order adds exactly one element |
| `SkillRanking.SortByAmount` | js/profile.js:211 | the stable largest-first order has as many skills as its input |
| `SkillRanking.SortIsSorted` | js/profile.js:211 | the order is non-increasing in amount |
| `SkillRanking.SortIsPermutation` | js/profile.js:211 | the order holds exactly the input's skills, each as often |
| `SkillRanking.SortIsStable` | js/profile.js:211 | for every amount, the skills with that amount appear in input order |
| `SkillRanking.SortByAmountCorrect` | js/profile.js:211 | the order is non-increasing in amount, a permutation of the input, and stable: skills with equal amounts keep input order |
| `SkillRanking.ShiftSmaller` | js/profile.js:211 | the inner loop moves the skills with a smaller amount than `a[i]` one slot right and leaves the rest of the array alone |
| `SkillRanking.InsertStep` | js/profile.js:211 | one insertion step puts `a[i]` into the sorted prefix at its stable place |
| `SkillRanking.SortInPlace` | js/profile.js:211 | the in-place sort leaves the array in the stable largest-first order of its old contents |
| `SkillRanking.TopSkills` | js/profile.js:212 | `slice(0, 5)` keeps the first min(n, 5) skills |
| `SkillRanking.TopSkillsAreLargest` | js/profile.js:211-212 | the shown skills come from the input, and no skill left out has a larger amount than a shown one |
| `SkillRanking.TopSkillsComeFromInput` | js/profile.js:211-212 | the shown skills are some of the input's skills, each at most as often as in the input |
| `SkillRanking.TopSkillsOutrankTheRest` | js/profile.js:211-212 | no skill left out by `slice(0, 5)` has a larger amount than a skill shown |
| `Profile.FormatXPWithUnits` | js/profile.js:232-240 | MB with 2 decimals from 1,000,000, kB with 1 decimal from 1,000 to 999,999, B below 1,000; the three ranges partition all amounts |
| `Profile.ScaledInRange` | js/profile.js:155-163 | the quotient passed to `toFixed` is at least 1 for kB and MB, and below 1000 for B and kB |
| `Profile.UnitMonotone` | js/profile.js:232-240 | a larger amount is never shown in a smaller unit |
| `Profile.TotalXP` | js/profile.js:151-152 | the `forEach` total is the sum of all amounts |
| `Profile.AverageXP` | js/profile.js:172 | 0 without transactions, otherwise the integer within half a unit of total/count |
| `Profile.SumOfConstant` | js/profile.js:151-152 | n transactions of amount a total n*a |
| `Profile.AverageOfConstant` | js/profile.js:172 | the average of equal amounts is that amount |
| `Profile.AverageBounds` | js/profile.js:172 | the average of a non-negative total lies between 0 and the total |
| `Profile.ExtractSkills` | js/profile.js:112-117 | the first user's aggregate nodes when the whole path exists, the empty list otherwise |
| `Profile.ProcessAll` | js/profile.js:192-208 | the `map` processes each node in place and order |
| `Profile.IsProject` | js/profile.js:247-249 | a result without an object is never a project result |
| `Profile.Passed` | js/profile.js:251 | `grade > 0`: a result with a null grade has not passed |
| `Profile.Failed` | js/profile.js:252 | `grade === 0`: a result with a null grade has not failed, and a failed result has not passed |
| `Profile.Projects` | js/profile.js:247-249 | the filter keeps every project result as often as it occurs and nothing else |
| `Profile.CountPassed` | js/profile.js:251 | the count of passed results is at most their number, 0 exactly when none passed and all exactly when all passed |
| `Profile.CountPassedAppend` | js/profile.js:251 | the passed count of two lists laid end to end is the sum of their counts, so each passed row adds exactly one |
| `Profile.CountFailed` | js/profile.js:252 | the count of failed results is at most their number, 0 exactly when none failed and all exactly when all failed |
| `Profile.CountFailedAppend` | js/profile.js:252 | the failed count of two lists laid end to end is the sum of their counts, so each failed row adds exactly one |
| `Profile.TallyBound` | js/profile.js:251-254 | pass + fail never exceeds the number of project results, with equality exactly when all grades are present and non-negative |
| `Profile.ProfileManager.constructor` | js/profile.js:4-16 | a new manager holds no data and shows nothing |
| `Profile.ProfileManager.RenderXPInfo` | js/profile.js:148-180 | nothing changes without XP data; otherwise the panel shows the total, the count, the last date (none for an empty list), the average and their units |
| `Profile.ProfileManager.LoadXPData` | js/profile.js:63-80 | a successful load stores the list and renders it: the panel shows the total, the count, the last date (none for an empty list) and the average, each with its unit; a failed one keeps the data and shows the error row |
| `Profile.ProfileManager.LoadResultsData` | js/profile.js:95-104 | a successful load stores the results; a failed one changes nothing |
| `Profile.ProfileManager.RenderSkillsInfo` | js/profile.js:183-229 | no or empty skills render "No skills data available"; otherwise the rows are the top five of the stable largest-first order of the processed skills |
| `Profile.ProfileManager.LoadSkillsData` | js/profile.js:107-133 | a successful load stores the extracted nodes, the empty list when the path is missing, and renders them; a failed one keeps the data and shows the error row |
| `Profile.ProfileManager.GetProjectRatio` | js/profile.js:243-255 | without results, pass 0, fail 0 and no total; otherwise the counts over project results, with total = pass + fail and no more than the number of project results |
| `PieChart.ToMB` | js/graphs/auditGraph.js:45-46 | a missing total is 0 MB; otherwise 1,000,000 times the MB value is the byte total |
| `PieChart.AuditRatio` | js/graphs/auditGraph.js:48 | 0 when down is not positive, otherwise up/down to one decimal, within 0.05 |
| `PieChart.RatioIsUnitFree` | js/graphs/auditGraph.js:45-48 | the ratio computed in MB equals the rounded ratio of the byte totals |
| `PieChart.RatioExample` | js/graphs/auditGraph.js:45-48 | 15 MB done against 10 MB received is a ratio of 1.5 |
| `PieChart.PieData` | js/graphs/auditGraph.js:51-54 | two entries, up then down, with their fixed labels and colours |
| `PieChart.Drawn` | js/graphs/auditGraph.js:92-93 | the drawn slices are no more than the slices and have no zero value |
| `PieChart.DrawnKeepsNonZero` | js/graphs/auditGraph.js:91-93 | every non-zero slice is drawn as often as it occurs, and no zero slice is |
| `PieChart.DrawnAppend` | js/graphs/auditGraph.js:91-93 | the drawn slices keep their order: drawing a concatenation draws each part in turn |
| `PieChart.DrawnSum` | js/graphs/auditGraph.js:47-93 | skipping zero slices does not change the total |
| `PieChart.ValueBelowSum` | js/graphs/auditGraph.js:47-96 | with non-negative values each value is at most the total, so a non-zero slice implies a positive total |
| `PieChart.ArcFor` | js/graphs/auditGraph.js:95-106 | a slice sweeps value/total of a turn from its start and has the large-arc flag exactly when it is over half the total |
| `PieChart.Percentage` | js/graphs/auditGraph.js:127 | the hover shows the arc's share in percent, rounded to the nearest integer with halves up |
| `PieChart.ArcsOf` | js/graphs/auditGraph.js:90-97 | one arc per drawn slice |
| `PieChart.ArcsOfAt` | js/graphs/auditGraph.js:90-97 | arc k starts at the share of the slices before it and spans its own share |
| `PieChart.NextArcStart` | js/graphs/auditGraph.js:95-144 | arc k + 1 starts where arc k ends |
| `PieChart.ArcsAreContiguous` | js/graphs/auditGraph.js:90-144 | the first arc starts at 0 and each later one starts where the previous ended |
| `PieChart.ArcsFillTheTurn` | js/graphs/auditGraph.js:96-144 | when the total is the sum of the drawn values, the last arc ends at exactly one turn |
| `PieChart.SliceArcs` | js/graphs/auditGraph.js:90-145 | the `startAngle` loop draws nothing when the total is 0 and otherwise exactly the contiguous arcs of the non-zero slices in order |
| `PieChart.PieCoversOneTurn` | js/graphs/auditGraph.js:90-145 | with a positive total the arcs start at 0 and end at exactly one full turn |
| `PieChart.PieDataSum` | js/graphs/auditGraph.js:47-54 | the two entries of `pieData` add up to the total up + down |
| `PieChart.PieDataDrawn` | js/graphs/auditGraph.js:51-93 | the drawn entries are those of up and down that are not 0, up first |
| `PieChart.OneSliceIsTheWholePie` | js/graphs/auditGraph.js:92-106 | both totals 0 draw nothing; a lone non-zero total, done or received, is one full-turn large arc with that total's caption at 100 percent |
| `PieChart.WholeSlice` | js/graphs/auditGraph.js:96-127 | a slice equal to the total sweeps a full turn, sets the large-arc flag and shows 100 percent |
| `PieChart.RoundedSharesAddUp` | js/graphs/auditGraph.js:127 | two rounded shares of 100 percent add up to 100 or 101 |
| `PieChart.TwoPercentages` | js/graphs/auditGraph.js:96-127 | the hover percentages of two slices making up the whole total add up to 100 or 101 |
| `PieChart.PercentagesAddUp` | js/graphs/auditGraph.js:127 | with both totals positive there are two arcs, up then down, whose hover percentages add up to 100 or 101 |
| `PieChart.Legend` | js/graphs/auditGraph.js:170-187 | one legend row per entry, zero values included, with its label, colour and value |
| `PieChart.ChartSize` | js/graphs/auditGraph.js:13-14 | the size is the container width capped at 500, and 500 for a zero width |
| `PieChart.Radius` | js/graphs/auditGraph.js:87 | the radius plus the margin is half the smaller side |
| `PieChart.AuditGraph.constructor` | js/graphs/auditGraph.js:4-9 | a new chart is square at the chart size, with margin 40 below 400 pixels and 60 otherwise, and no data |
| `PieChart.AuditGraph.UpdateDimensions` | js/graphs/auditGraph.js:11-22 | width and height become the chart size; below 400 the margin becomes 40, otherwise it is kept |
| `PieChart.AuditGraph.RadiusBounds` | js/graphs/auditGraph.js:87 | the radius is at most 210, positive exactly when the size exceeds twice the margin, and at least 140 from 400 pixels up |
| `PieChart.AuditGraph.LoadData` | js/graphs/auditGraph.js:24-33 | the first user, none for an empty list; a failed request changes nothing |
| `PieChart.DrawPie` | js/graphs/auditGraph.js:44-187 | for a user at a given size, the chart shows the login, the ratio of the MB totals, the arcs of the non-zero totals (none when both are 0), both legend rows and the radius |
| `PieChart.AuditGraph.Render` | js/graphs/auditGraph.js:35-187 | no data leaves the chart as it was; otherwise it shows the login, the ratio, the arcs of the non-zero totals (none when both are 0), both legend rows and the radius |

## Left out

- js/api.js, js/auth.js and js/main.js are not part of this model. They hold the network transport, sign-in, token storage and DOM wiring.
- SVG and DOM construction is left out: elements, attribute strings, `innerHTML` markup, event listeners, CSS classes and the tooltip's on-screen position. Each panel and chart is reduced to the values it displays.
- The `setTimeout` fade-in (js/graphs/auditGraph.js:192-202) is left out because it is timing only.
- Locale formatting (`toLocaleString`, `toLocaleDateString`) and date parsing are left out. `createdAt` is a millisecond timestamp.
- LineChart.YTick: the label is the tick value rounded with `Math.round` (js/graphs/xpGraph.js:178), kept as a number; its `toLocaleString` digit grouping is left out with the other locale formatting.
- `toFixed` text is left out. The unit rule returns the unit, divisor and number of decimals instead. The audit ratio's `toFixed(1)` is idealised on reals, halves rounding up; its inputs are never negative, so the different tie rule of `toFixed` for negative numbers does not arise.
- Profile.ScaledInRange: bounds the quotient, not the displayed text. `toFixed(1)` can round a kB quotient from 999.95 up to "1000.0 kB" (xp from 999,950 to 999,999, js/profile.js:159); B amounts are printed unrounded and stay below 1000.
- JavaScript doubles are idealised as mathematical integers and reals. That includes `Math.round` and the arc fractions.
- Trigonometry is left out: the arc endpoints and the hover push-out (js/graphs/auditGraph.js:100-103, 118-121). Angles are fractions of a turn.
- `loadAllData`, its `Promise.all` fan-out (js/profile.js:19-40) and the `init` methods are left out. They only sequence I/O.
- From reading the code, not executed: js/api.js defines neither `getUserProgress` nor `getUserResults`, which js/profile.js:85 and 97 call. In this repository those loads therefore always fail, `loadAllData` rejects before js/main.js:129-131 reaches `initializeGraphs`, and `getProjectRatio` has no caller. The model follows profile.js as written and treats the results load as an I/O result that may succeed.
- `loadUserInfo`, `renderUserInfo` and `loadProgressData` (js/profile.js:43-60, 82-92, 136-145) are left out. They store and print gateway fields without any rule.
- The checks that a container element exists are left out. Every panel and chart is assumed present.
- SkillRanking.UpperCase: upper-cases ASCII letters only, because the model has no Unicode case mapping.
- PieChart.AuditUser: byte totals are non-negative integers or absent, as the gateway reports them. Negative totals are not modelled.
- LineChart.XPGraph.Render: states the shape of the chart rather than every coordinate. The coordinates are stated by `XTickIndices`, `YTickValues`, `LinePath` and `HoverDotIndices`, which `Render` uses.
- Profile.ProfileManager.LoadSkillsData: an exception thrown while rendering inside the `try` is not modelled. Only a failed request leads to the error row.

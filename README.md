# Scheduled store agents and order tools, in Dafny

This project models the core of a multi-agent tea-shop demo built on a graph-of-agents
library. The model covers these parts:

- **Daily store report** (`OperationAnalysisAgent`): a three-stage graph.
  - A data loader reads the report window's orders and feedback and fills a report template.
  - A chat model writes the report.
  - A DingTalk robot node posts the report.
- **Complaint alert** (`ReviewAnalysisAgent`): a five-stage graph.
  - A session loader turns the window's feedback into texts.
  - An iteration classifies each text with a classifier node.
  - A summary stage tallies the verdicts.
  - A chat model phrases the alert, and the same DingTalk node posts it.
- **XXL-JOB task registry**: it installs one job handler per scheduled agent.
- **Cron agent tool**: it schedules a known agent graph.
- **Session file reader**: it splits a sessions file at separator lines.
- **Order server**: its service over users, products and orders, the order entity, and the
  agent tools that turn each service outcome into a reply.
- **Feedback entity** of the feedback server.

Graph state is a map from keys to values (`StateBag`). Every key of both graphs is declared
with the replace strategy, and each stage returns a partial update that is merged into the
state. Money is held as integer cents (BigDecimal of scale 2). Shares and percentages are
kept as exact ratios rather than doubles. A Java `null` is `None`, and an exception is
`Err(message)`. Outside effects are parameters of the operations that use them:

- the clock and the zone offset;
- the chat model's answer;
- the HTTP post to the robot;
- Gson's decoding of the classifier's answers;
- the per-session sub-graph;
- the rows the mappers return.

Modules, one per file:

- `Wrappers`: `Option` and `Result`.
- `Text`: Java's decimal rendering and `String.trim`.
- `StateBag`: graph state, merge strategies and running a chain of stages.
- `TimeWindow`: year-month parsing, the Gregorian day count and the report windows.
- `ReportStats`: rating sentiment and the star histogram.
- `ProductRanking`: grouping orders by product and the top three.
- `DailyReport` and `DailyReportFacts`: the daily loader as the code writes it, step by
  step, and the properties of its output.
- `DingSender`: the DingTalk node and its builder.
- `Classifier`: the classifier node and its builder.
- `Scheduler`: the task registry.
- `CronTools`: the cron agent tool.
- `SessionReader`: the session file reader.
- `Evaluation`: the complaint graph's loader and summary stages.
- `Pipelines`: the two graphs wired together.
- `Orders`, `OrderService` and `OrderTools`: the order server.
- `Feedback`: the feedback entity.

Three behaviours of the code shape the model:

- **Average price.** With no order in the window, `BigDecimal.divide` raises an
  `ArithmeticException` ("/ by zero"), so a daily run stops at the loader and nothing is
  posted (`Pipelines.DailyNoOrdersAbort`).
- **Quantity share.** The top-sales share is taken over the number of orders, not over the
  total quantity, so it can exceed 100% (`DailyReportFacts.SalesShareCanExceedHundred`).
- **Maximum month.** The query that gives the maximum month reads the feedback table
  (supervisor-agent `OrderMapper.java` line 38). The model takes its answer as an input.

## Model

| member | source | states |
|---|---|---|
| Text.Trim | supervisor-agent/src/main/java/com/alibaba/cloud/ai/demo/config/scheduling/SessionFileReader.java:51 | `String.trim` on a session's text: the result is the slice of the input left after removing a run of characters at or below U+0020 from each end, and a non-empty result has no such character at either end |
| Text.TrimEmptyIffBlank | supervisor-agent/src/main/java/com/alibaba/cloud/ai/demo/config/scheduling/SessionFileReader.java:51-52 | a trimmed session text is empty exactly when every character of the run's text is at or below U+0020 |
| StateBag.ValueOf | supervisor-agent/src/main/java/com/alibaba/cloud/ai/demo/config/scheduling/DailyReportAgentConfiguration.java:159 | `OverAllState.value(key)` is present exactly when the key is in the state and does not hold null, and then gives the stored value |
| StateBag.ApplyUpdate | supervisor-agent/src/main/java/com/alibaba/cloud/ai/demo/config/scheduling/DailyReportAgentConfiguration.java:363-368 | merging a stage's update keeps every key of the state and adds the update's keys; a key the update does not write keeps its value |
| StateBag.ReplaceIsOverride | supervisor-agent/src/main/java/com/alibaba/cloud/ai/demo/config/scheduling/DailyReportAgentConfiguration.java:363-368 | with the replace strategy declared for every key, merging an update lays it over the state (map override) |
| StateBag.LatestWriteWins | supervisor-agent/src/main/java/com/alibaba/cloud/ai/demo/config/scheduling/EvaluationAgentConfiguration.java:215-227 | under replace, two successive writes of one key leave only the later value |
| StateBag.RunAppend | supervisor-agent/src/main/java/com/alibaba/cloud/ai/demo/config/scheduling/DailyReportAgentConfiguration.java:369-375 | running two chains of stages back to back equals running their concatenation |
| StateBag.AbortAt | supervisor-agent/src/main/java/com/alibaba/cloud/ai/demo/config/scheduling/DailyReportAgentConfiguration.java:369-375 | when a stage raises, the run fails with that stage's message and no later stage runs |
| TimeWindow.ParseYearMonth | supervisor-agent/src/main/java/com/alibaba/cloud/ai/demo/config/scheduling/DailyReportAgentConfiguration.java:171 | text of the form `yyyy-MM`, with four unsigned year digits and a month in 1..12, parses to that month; any other text is rejected, which sends the loader to the 365-day window |
| TimeWindow.ParseFormatYearMonth | supervisor-agent/src/main/java/com/alibaba/cloud/ai/demo/config/scheduling/DailyReportAgentConfiguration.java:171 | every valid month survives a round trip through its `YYYY-MM` text |
| TimeWindow.DayOfFirstIsCalendar | supervisor-agent/src/main/java/com/alibaba/cloud/ai/demo/config/scheduling/DailyReportAgentConfiguration.java:172-174 | the closed-form day number of a month's first day equals the count got by walking the Gregorian calendar month by month |
| TimeWindow.EpochIsJanuary1970 | supervisor-agent/src/main/java/com/alibaba/cloud/ai/demo/config/scheduling/DailyReportAgentConfiguration.java:172-174 | the first of January 1970 is day zero of the epoch, so instants are epoch milliseconds |
| TimeWindow.ConsecutiveMonths | supervisor-agent/src/main/java/com/alibaba/cloud/ai/demo/config/scheduling/DailyReportAgentConfiguration.java:172-174 | the first days of consecutive months lie exactly that month's length apart |
| TimeWindow.LoadWindow | supervisor-agent/src/main/java/com/alibaba/cloud/ai/demo/config/scheduling/DailyReportAgentConfiguration.java:165-183 | the window ends now and starts at local midnight on the first day of the maximum month, or 365 days before now when that month is null, empty or unparsable |
| TimeWindow.PriorWindow | supervisor-agent/src/main/java/com/alibaba/cloud/ai/demo/config/scheduling/DailyReportAgentConfiguration.java:225-226 | the comparison window is the 365 days that end where the current window starts |
| TimeWindow.WindowsShareStart | supervisor-agent/src/main/java/com/alibaba/cloud/ai/demo/config/scheduling/DailyReportAgentConfiguration.java:225-226 | because BETWEEN includes both ends, the two windows share exactly one instant, the current window's start |
| TimeWindow.FallbackWindow | supervisor-agent/src/main/java/com/alibaba/cloud/ai/demo/config/scheduling/DailyReportAgentConfiguration.java:177-181 | example: a null month, an empty month and the out-of-range month "2025-13" each give the 365 days up to now |
| ReportStats.ValidRatingsComeFromRows | supervisor-agent/src/main/java/com/alibaba/cloud/ai/demo/config/scheduling/DailyReportAgentConfiguration.java:191-193 | every valid rating is the rating of some loaded row: ratings are dropped, never invented |
| ReportStats.AllRatedKeepsAll | supervisor-agent/src/main/java/com/alibaba/cloud/ai/demo/config/scheduling/DailyReportAgentConfiguration.java:191-193 | when every row has a rating no row is dropped |
| ReportStats.SentimentPartition | supervisor-agent/src/main/java/com/alibaba/cloud/ai/demo/config/scheduling/DailyReportAgentConfiguration.java:197-200 | the positive (rating 5), neutral (3..4) and negative (below 3) classes never overlap and, with ratings in 1..5, count every rating exactly once |
| ReportStats.SentimentFromHistogram | supervisor-agent/src/main/java/com/alibaba/cloud/ai/demo/config/scheduling/DailyReportAgentConfiguration.java:197-212 | each sentiment count is the sum of its star buckets |
| ReportStats.HistogramTotal | supervisor-agent/src/main/java/com/alibaba/cloud/ai/demo/config/scheduling/DailyReportAgentConfiguration.java:208-212 | with ratings in 1..5 the five star buckets add up to the number of ratings |
| ReportStats.Rate | supervisor-agent/src/main/java/com/alibaba/cloud/ai/demo/config/scheduling/DailyReportAgentConfiguration.java:203-205 | a rate is count times 100 over the total, and 0 when there is no valid rating |
| ReportStats.RatesSumToHundred | supervisor-agent/src/main/java/com/alibaba/cloud/ai/demo/config/scheduling/DailyReportAgentConfiguration.java:203-205 | with ratings in 1..5 the positive, neutral and negative rates add up to exactly 100 |
| ReportStats.RatingStatistics | supervisor-agent/src/main/java/com/alibaba/cloud/ai/demo/config/scheduling/DailyReportAgentConfiguration.java:208-218 | the histogram loops: bucket i, filled by its own filter-and-count pass, holds the number of ratings equal to i + 1, and its percentage is that count over all valid ratings |
| ProductRanking.AddTo | supervisor-agent/src/main/java/com/alibaba/cloud/ai/demo/config/scheduling/DailyReportAgentConfiguration.java:232-235 | adding to a product's entry creates it when missing and raises that product's value, and only it, by the amount |
| ProductRanking.AddToDistinct | supervisor-agent/src/main/java/com/alibaba/cloud/ai/demo/config/scheduling/DailyReportAgentConfiguration.java:232-235 | adding to an entry keeps the product ids of the grouping distinct |
| ProductRanking.GroupFacts | supervisor-agent/src/main/java/com/alibaba/cloud/ai/demo/config/scheduling/DailyReportAgentConfiguration.java:232-235 | `groupingBy` gives one entry per distinct product, each holding the sum over that product's rows, and the entries add up to the sum over all rows |
| ProductRanking.Insert | supervisor-agent/src/main/java/com/alibaba/cloud/ai/demo/config/scheduling/DailyReportAgentConfiguration.java:237-238 | inserting an entry into a ranked list adds exactly that entry |
| ProductRanking.InsertNonIncreasing | supervisor-agent/src/main/java/com/alibaba/cloud/ai/demo/config/scheduling/DailyReportAgentConfiguration.java:237-238 | inserting into a list ranked largest first keeps it ranked |
| ProductRanking.Sort | supervisor-agent/src/main/java/com/alibaba/cloud/ai/demo/config/scheduling/DailyReportAgentConfiguration.java:237-238 | the sort is a permutation of the grouping |
| ProductRanking.SortNonIncreasing | supervisor-agent/src/main/java/com/alibaba/cloud/ai/demo/config/scheduling/DailyReportAgentConfiguration.java:237-238 | the sorted grouping is ranked by value descending |
| ProductRanking.Top3Ranks | supervisor-agent/src/main/java/com/alibaba/cloud/ai/demo/config/scheduling/DailyReportAgentConfiguration.java:237-246 | the top three hold min(3, n) entries of the grouping, largest first, and no entry left out is larger than an entry kept |
| ProductRanking.Top3Facts | supervisor-agent/src/main/java/com/alibaba/cloud/ai/demo/config/scheduling/DailyReportAgentConfiguration.java:237-246 | the ranking of the window's orders holds min(3, distinct products) entries, largest first, each a product of the rows with its sum over them |
| ProductRanking.GroupsSumToTotal | supervisor-agent/src/main/java/com/alibaba/cloud/ai/demo/config/scheduling/DailyReportAgentConfiguration.java:221-235 | the revenue groups add up to the total revenue and the quantity groups to the total quantity |
| ProductRanking.Top3Dominates | supervisor-agent/src/main/java/com/alibaba/cloud/ai/demo/config/scheduling/DailyReportAgentConfiguration.java:232-246 | a product of the rows that the ranking leaves out has a sum no larger than any ranked entry's |
| ProductRanking.SumsNonNegative | supervisor-agent/src/main/java/com/alibaba/cloud/ai/demo/config/scheduling/DailyReportAgentConfiguration.java:223-235 | with no negative weight, every per-product sum and the total are non-negative |
| ProductRanking.InsertTotal | supervisor-agent/src/main/java/com/alibaba/cloud/ai/demo/config/scheduling/DailyReportAgentConfiguration.java:237-238 | inserting an entry into a ranked list raises its total by exactly the entry's value |
| ProductRanking.SortTotal | supervisor-agent/src/main/java/com/alibaba/cloud/ai/demo/config/scheduling/DailyReportAgentConfiguration.java:237-238 | sorting a grouping keeps its total |
| ProductRanking.PrefixTotal | supervisor-agent/src/main/java/com/alibaba/cloud/ai/demo/config/scheduling/DailyReportAgentConfiguration.java:239 | with no negative entry, a prefix of a list totals between 0 and the whole list's total |
| ProductRanking.GroupNonNegative | supervisor-agent/src/main/java/com/alibaba/cloud/ai/demo/config/scheduling/DailyReportAgentConfiguration.java:232-235 | with no negative weight, every entry of a grouping is non-negative |
| ProductRanking.Top3WithinTotal | supervisor-agent/src/main/java/com/alibaba/cloud/ai/demo/config/scheduling/DailyReportAgentConfiguration.java:232-246 | with no negative weight, the top three entries add up to between 0 and the sum over all rows |
| DailyReport.RenderKeys | supervisor-agent/src/main/java/com/alibaba/cloud/ai/demo/config/scheduling/DailyReportAgentConfiguration.java:249-338 | the map handed to the next stage holds the name of each filled slot and nothing else |
| DailyReport.FeedbackIn | supervisor-agent/src/main/java/com/alibaba/cloud/ai/demo/mapper/FeedbackMapper.java:40 | the feedback query returns only rows created inside the window, both ends included |
| DailyReport.OrdersIn | supervisor-agent/src/main/java/com/alibaba/cloud/ai/demo/mapper/OrderMapper.java:47 | the order query returns only rows created inside the window, both ends included |
| DailyReport.Texts | supervisor-agent/src/main/java/com/alibaba/cloud/ai/demo/config/scheduling/DailyReportAgentConfiguration.java:188 | one formatted text per loaded feedback record, in load order |
| DailyReport.ContextOf | supervisor-agent/src/main/java/com/alibaba/cloud/ai/demo/config/scheduling/DailyReportAgentConfiguration.java:159-163 | a context the loader goes on with is always a job context |
| DailyReport.TokenOf | supervisor-agent/src/main/java/com/alibaba/cloud/ai/demo/config/scheduling/DailyReportAgentConfiguration.java:340-351 | a token is found only in the parameter of a present job context |
| DailyReport.DivHalfUp | supervisor-agent/src/main/java/com/alibaba/cloud/ai/demo/config/scheduling/DailyReportAgentConfiguration.java:255 | `divide(..., HALF_UP)` lands within half the divisor of the exact quotient, with halves rounded away from zero |
| DailyReport.AvgPrice | supervisor-agent/src/main/java/com/alibaba/cloud/ai/demo/config/scheduling/DailyReportAgentConfiguration.java:255 | the average price fails, with "/ by zero", exactly when there is no order, and is otherwise within half a cent per order of revenue over count |
| DailyReport.ProductName | supervisor-agent/src/main/java/com/alibaba/cloud/ai/demo/config/scheduling/DailyReportAgentConfiguration.java:284-294 | a missing product is shown as "Product " followed by its id |
| DailyReport.FullTemplate | supervisor-agent/src/main/java/com/alibaba/cloud/ai/demo/config/scheduling/DailyReportAgentConfiguration.java:249-338 | a finished template holds exactly the figure, star, rank and content slots, each with its value |
| DailyReport.FigureTemplateFilled | supervisor-agent/src/main/java/com/alibaba/cloud/ai/demo/config/scheduling/DailyReportAgentConfiguration.java:250-271 | after the first k figure puts, those slots hold their values and no other slot is present |
| DailyReport.PutCounts | supervisor-agent/src/main/java/com/alibaba/cloud/ai/demo/config/scheduling/DailyReportAgentConfiguration.java:250-254 | the puts before the average price fill the first five figure slots |
| DailyReport.PutRates | supervisor-agent/src/main/java/com/alibaba/cloud/ai/demo/config/scheduling/DailyReportAgentConfiguration.java:255-271 | the puts from the average price to the report time fill the remaining figure slots; `report_date` and the date inside `report_time` come from two separate clock readings |
| DailyReport.PutStarRates | supervisor-agent/src/main/java/com/alibaba/cloud/ai/demo/config/scheduling/DailyReportAgentConfiguration.java:274-276 | the star loop puts `star1_rate` to `star5_rate` with the bucket percentages |
| DailyReport.PutRevenueRank | supervisor-agent/src/main/java/com/alibaba/cloud/ai/demo/config/scheduling/DailyReportAgentConfiguration.java:280-309 | each pass of the revenue loop adds that rank's three slots |
| DailyReport.PutSalesRank | supervisor-agent/src/main/java/com/alibaba/cloud/ai/demo/config/scheduling/DailyReportAgentConfiguration.java:311-337 | each pass of the quantity loop adds that rank's three slots |
| DailyReport.PutRevenueSlots | supervisor-agent/src/main/java/com/alibaba/cloud/ai/demo/config/scheduling/DailyReportAgentConfiguration.java:280-309 | the revenue loop fills three slots per rank, padding past the ranking's end, and appends one content line per ranked product |
| DailyReport.PutSalesSlots | supervisor-agent/src/main/java/com/alibaba/cloud/ai/demo/config/scheduling/DailyReportAgentConfiguration.java:311-337 | the quantity loop does the same for the sales ranking |
| DailyReport.PutAfterAverage | supervisor-agent/src/main/java/com/alibaba/cloud/ai/demo/config/scheduling/DailyReportAgentConfiguration.java:255-338 | everything put after the average price completes the template |
| DailyReport.PutContent | supervisor-agent/src/main/java/com/alibaba/cloud/ai/demo/config/scheduling/DailyReportAgentConfiguration.java:338 | putting the content completes a template whose other slots are filled |
| DailyReport.LoadData | supervisor-agent/src/main/java/com/alibaba/cloud/ai/demo/config/scheduling/DailyReportAgentConfiguration.java:157-353 | the loader, written as a sequence of puts and loops, yields the update of the reference loader function |
| DailyReportFacts.TemplateSlots | supervisor-agent/src/main/java/com/alibaba/cloud/ai/demo/config/scheduling/DailyReportAgentConfiguration.java:249-338 | a successful template holds the 13 figure slots, `star1_rate` to `star5_rate`, three slots for each of three ranks in both rankings, and the content, and nothing else |
| DailyReportFacts.LoaderFails | supervisor-agent/src/main/java/com/alibaba/cloud/ai/demo/config/scheduling/DailyReportAgentConfiguration.java:255 | the loader fails exactly when the context has the wrong kind or the window has no order, and with no order the failure is "/ by zero" |
| DailyReportFacts.ContextCastFails | supervisor-agent/src/main/java/com/alibaba/cloud/ai/demo/config/scheduling/DailyReportAgentConfiguration.java:159 | a context value of another kind fails the cast before anything is read |
| DailyReportFacts.LoaderUpdate | supervisor-agent/src/main/java/com/alibaba/cloud/ai/demo/config/scheduling/DailyReportAgentConfiguration.java:340-351 | a successful update holds the rendered template under `data_summary`, and holds `access_token` exactly when the job parameter carries a token |
| DailyReportFacts.NoContextIsFirstStore | supervisor-agent/src/main/java/com/alibaba/cloud/ai/demo/config/scheduling/DailyReportAgentConfiguration.java:159-163 | without a job context the report is for shard 0, named store 1 |
| DailyReportFacts.FiguresOfWindow | supervisor-agent/src/main/java/com/alibaba/cloud/ai/demo/config/scheduling/DailyReportAgentConfiguration.java:187-246 | the figures are those of the window's rows: its order count, revenue sum and two rankings, the prior window's count and revenue sum, and the ratings of the window's rated feedback |
| DailyReportFacts.RankIth | supervisor-agent/src/main/java/com/alibaba/cloud/ai/demo/config/scheduling/DailyReportAgentConfiguration.java:237-246 | rank i exists exactly when the rows hold more than i products, and is then the i-th largest per-product sum: a product of the rows, no larger than the ranks before it, and no smaller than any product left out |
| DailyReportFacts.RevenueRankOf | supervisor-agent/src/main/java/com/alibaba/cloud/ai/demo/config/scheduling/DailyReportAgentConfiguration.java:280-309 | revenue rank i names the product with the i-th largest revenue of the day, shows that revenue and its share of the day's revenue, and shows "N/A", 0 and "0.0" when the day has fewer products |
| DailyReportFacts.SalesRankOf | supervisor-agent/src/main/java/com/alibaba/cloud/ai/demo/config/scheduling/DailyReportAgentConfiguration.java:311-337 | quantity rank i names the product with the i-th largest quantity of the day, shows that quantity and its share of the number of orders, and shows "N/A", 0 and "0.0" when the day has fewer products |
| DailyReportFacts.WindowPricesNonNegative | supervisor-agent/src/main/java/com/alibaba/cloud/ai/demo/config/scheduling/DailyReportAgentConfiguration.java:221 | every order row of a window is a stored row, so none has a negative price when no stored row does |
| DailyReportFacts.RevenueRanksWithinRevenue | supervisor-agent/src/main/java/com/alibaba/cloud/ai/demo/config/scheduling/DailyReportAgentConfiguration.java:296-299 | with no negative price, the three revenue ranks hold at most the day's revenue, so their share numerators add up to at most 100 times it |
| DailyReportFacts.WindowRevenuesNonNegative | supervisor-agent/src/main/java/com/alibaba/cloud/ai/demo/config/scheduling/DailyReportAgentConfiguration.java:223-229 | with no negative price, the revenue of both windows is non-negative |
| DailyReportFacts.GrowthShown | supervisor-agent/src/main/java/com/alibaba/cloud/ai/demo/config/scheduling/DailyReportAgentConfiguration.java:257-260 | `sales_growth` is "📈%" exactly when revenue is at least the prior revenue, and `order_change` exactly when the order count is at least the prior count; otherwise each shows the drop as a share of the prior figure, in [-100%, 0%) for non-negative figures |
| DailyReportFacts.WindowRatingsInRange | supervisor-agent/src/main/java/com/alibaba/cloud/ai/demo/config/scheduling/DailyReportAgentConfiguration.java:191-193 | with every stored rating in 1..5, so is every rating of the window |
| DailyReportFacts.RatingSharesSumToHundred | supervisor-agent/src/main/java/com/alibaba/cloud/ai/demo/config/scheduling/DailyReportAgentConfiguration.java:197-217 | with ratings in 1..5 and at least one of them, the five star shares and the three sentiment shares are each over the number of ratings and each add up to 100% |
| DailyReportFacts.SalesShareCanExceedHundred | supervisor-agent/src/main/java/com/alibaba/cloud/ai/demo/config/scheduling/DailyReportAgentConfiguration.java:329 | the quantity share is taken over the number of orders, so one order of two cups shows 200% |
| DingSender.WebhookUrl | supervisor-agent/src/main/java/com/alibaba/cloud/ai/demo/config/scheduling/DingMessageSenderNode.java:154 | a custom webhook URL with length is used as is; otherwise the robot URL is built from the token |
| DingSender.CreateRequestBody | supervisor-agent/src/main/java/com/alibaba/cloud/ai/demo/config/scheduling/DingMessageSenderNode.java:175-185 | the body is exactly `{msgtype: "markdown", markdown: {title, text}}`, with the title and the content |
| DingSender.ApplyFacts | supervisor-agent/src/main/java/com/alibaba/cloud/ai/demo/config/scheduling/DingMessageSenderNode.java:121-144 | every update holds exactly the result key; only content of the wrong kind or a null result key escapes as an exception |
| DingSender.EmptyContentFacts | supervisor-agent/src/main/java/com/alibaba/cloud/ai/demo/config/scheduling/DingMessageSenderNode.java:129-132 | absent or empty content reports an error naming the content key, and nothing is posted |
| DingSender.ContentFacts | supervisor-agent/src/main/java/com/alibaba/cloud/ai/demo/config/scheduling/DingMessageSenderNode.java:122-128 | an assistant message is unwrapped to its text and a string is taken as is |
| DingSender.TokenFacts | supervisor-agent/src/main/java/com/alibaba/cloud/ai/demo/config/scheduling/DingMessageSenderNode.java:133-136 | the token is the state's value at `accessTokenKey` when that key has text and a value is there, and the configured token otherwise |
| DingSender.SendFacts | supervisor-agent/src/main/java/com/alibaba/cloud/ai/demo/config/scheduling/DingMessageSenderNode.java:137-143 | with usable content the node posts exactly the envelope of that content to the chosen URL and reports the response or the failure, never raising; with a null result key the post still goes out and the update fails with a NullPointerException |
| DingSender.Request | supervisor-agent/src/main/java/com/alibaba/cloud/ai/demo/config/scheduling/DingMessageSenderNode.java:121-144 | a post is made exactly when the content is a string with length and the token is not null, whatever the result key |
| DingSender.NullTokenFacts | supervisor-agent/src/main/java/com/alibaba/cloud/ai/demo/config/scheduling/DingMessageSenderNode.java:137-143 | a null token fails inside the guarded block: the failure is reported and nothing is posted |
| DingSender.Builder.constructor | supervisor-agent/src/main/java/com/alibaba/cloud/ai/demo/config/scheduling/DingMessageSenderNode.java:194-195 | a new builder reports under "dingding_message_result", titles "Notification" and has nothing else set |
| DingSender.Builder.SetAccessToken | supervisor-agent/src/main/java/com/alibaba/cloud/ai/demo/config/scheduling/DingMessageSenderNode.java:198-201 | the setter changes only the token |
| DingSender.Builder.SetAccessTokenKey | supervisor-agent/src/main/java/com/alibaba/cloud/ai/demo/config/scheduling/DingMessageSenderNode.java:203-206 | the setter changes only the token key |
| DingSender.Builder.SetMessageContentKey | supervisor-agent/src/main/java/com/alibaba/cloud/ai/demo/config/scheduling/DingMessageSenderNode.java:208-211 | the setter changes only the content key |
| DingSender.Builder.SetResultKey | supervisor-agent/src/main/java/com/alibaba/cloud/ai/demo/config/scheduling/DingMessageSenderNode.java:213-216 | the setter changes only the result key |
| DingSender.Builder.SetTitle | supervisor-agent/src/main/java/com/alibaba/cloud/ai/demo/config/scheduling/DingMessageSenderNode.java:218-221 | the setter changes only the title |
| DingSender.Builder.SetCustomWebhookUrl | supervisor-agent/src/main/java/com/alibaba/cloud/ai/demo/config/scheduling/DingMessageSenderNode.java:223-226 | the setter changes only the custom URL |
| DingSender.Builder.Build | supervisor-agent/src/main/java/com/alibaba/cloud/ai/demo/config/scheduling/DingMessageSenderNode.java:228-230 | the node gets every setting unchanged |
| DingSender.DefaultSender | supervisor-agent/src/main/java/com/alibaba/cloud/ai/demo/config/scheduling/DingMessageSenderNode.java:238-240 | a node built with only its content key reports under "dingding_message_result", titles "Notification" and posts to the templated URL |
| Classifier.UpdateFacts | supervisor-agent/src/main/java/com/alibaba/cloud/ai/demo/config/scheduling/EvaluationClassifierNode.java:93-105 | the update maps the output key to the model's answer to the input text, and holds "messages" exactly when the state does |
| Classifier.InputTextFacts | supervisor-agent/src/main/java/com/alibaba/cloud/ai/demo/config/scheduling/EvaluationClassifierNode.java:89-91 | without an input key the kept text never changes; with a key the state lacks, the previous text is reused |
| Classifier.CarriedOver | supervisor-agent/src/main/java/com/alibaba/cloud/ai/demo/config/scheduling/EvaluationClassifierNode.java:89-91 | when the second of two calls finds no input text, it classifies the first call's text again |
| Classifier.ClassifierNode.constructor | supervisor-agent/src/main/java/com/alibaba/cloud/ai/demo/config/scheduling/EvaluationClassifierNode.java:77-85 | a new node has the given settings and no kept text |
| Classifier.ClassifierNode.Apply | supervisor-agent/src/main/java/com/alibaba/cloud/ai/demo/config/scheduling/EvaluationClassifierNode.java:88-108 | `apply` stores the text it read and returns the update for that text, or raises |
| Classifier.Builder.constructor | supervisor-agent/src/main/java/com/alibaba/cloud/ai/demo/config/scheduling/EvaluationClassifierNode.java:110-112 | a new builder has nothing set |
| Classifier.Builder.SetInputTextKey | supervisor-agent/src/main/java/com/alibaba/cloud/ai/demo/config/scheduling/EvaluationClassifierNode.java:126-129 | the setter changes only the input key |
| Classifier.Builder.SetCategories | supervisor-agent/src/main/java/com/alibaba/cloud/ai/demo/config/scheduling/EvaluationClassifierNode.java:136-139 | the setter changes only the categories |
| Classifier.Builder.SetInstructions | supervisor-agent/src/main/java/com/alibaba/cloud/ai/demo/config/scheduling/EvaluationClassifierNode.java:141-144 | the setter changes only the instructions |
| Classifier.Builder.SetOutputKey | supervisor-agent/src/main/java/com/alibaba/cloud/ai/demo/config/scheduling/EvaluationClassifierNode.java:146-149 | the setter changes only the output key |
| Classifier.Builder.Build | supervisor-agent/src/main/java/com/alibaba/cloud/ai/demo/config/scheduling/EvaluationClassifierNode.java:151-154 | the node gets all settings unchanged and no kept text |
| Scheduler.OperationsKeepReachable | supervisor-agent/src/main/java/com/alibaba/cloud/ai/demo/config/scheduling/XxlJobScheduledAgentManager.java:52-99 | every operation keeps each active task under its own name, with its handler installed |
| Scheduler.RegisterThenLookup | supervisor-agent/src/main/java/com/alibaba/cloud/ai/demo/config/scheduling/XxlJobScheduledAgentManager.java:52-74 | after a registration the task is found under its name |
| Scheduler.ReregisterReplaces | supervisor-agent/src/main/java/com/alibaba/cloud/ai/demo/config/scheduling/XxlJobScheduledAgentManager.java:61 | registering the same name again replaces the earlier task and handler |
| Scheduler.UnregisteredStillFires | supervisor-agent/src/main/java/com/alibaba/cloud/ai/demo/config/scheduling/XxlJobScheduledAgentManager.java:66-69 | an unregistered task is no longer found, but its job handler still fires and runs it |
| Scheduler.FireInputs | supervisor-agent/src/main/java/com/alibaba/cloud/ai/demo/config/scheduling/XxlJobScheduledAgentManager.java:55-58 | a fire runs the task with inputs holding exactly the job context, and a null context fails |
| Scheduler.ShutdownFacts | supervisor-agent/src/main/java/com/alibaba/cloud/ai/demo/config/scheduling/XxlJobScheduledAgentManager.java:92-99 | after shutdown no task is found, the flag is still down and the handlers still fire |
| Scheduler.Registry.constructor | supervisor-agent/src/main/java/com/alibaba/cloud/ai/demo/config/scheduling/XxlJobScheduledAgentManager.java:47-49 | a new registry has no task, no handler and the flag down |
| Scheduler.Registry.RegisterTask | supervisor-agent/src/main/java/com/alibaba/cloud/ai/demo/config/scheduling/XxlJobScheduledAgentManager.java:52-63 | installs the handler, records the task under its name and returns that name |
| Scheduler.Registry.UnregisterTask | supervisor-agent/src/main/java/com/alibaba/cloud/ai/demo/config/scheduling/XxlJobScheduledAgentManager.java:66-69 | removes only the task, and always answers true |
| Scheduler.Registry.GetTask | supervisor-agent/src/main/java/com/alibaba/cloud/ai/demo/config/scheduling/XxlJobScheduledAgentManager.java:72-74 | the task registered under the id, empty for an unknown id |
| Scheduler.Registry.GetAllActiveTaskIds | supervisor-agent/src/main/java/com/alibaba/cloud/ai/demo/config/scheduling/XxlJobScheduledAgentManager.java:77-79 | always the empty set, whatever is registered |
| Scheduler.Registry.GetActiveTaskCount | supervisor-agent/src/main/java/com/alibaba/cloud/ai/demo/config/scheduling/XxlJobScheduledAgentManager.java:82-84 | always 0, whatever is registered |
| Scheduler.Registry.IsShutdown | supervisor-agent/src/main/java/com/alibaba/cloud/ai/demo/config/scheduling/XxlJobScheduledAgentManager.java:92-94 | always false |
| Scheduler.Registry.Shutdown | supervisor-agent/src/main/java/com/alibaba/cloud/ai/demo/config/scheduling/XxlJobScheduledAgentManager.java:97-99 | clears the active tasks and nothing else |
| Scheduler.Registry.Fire | supervisor-agent/src/main/java/com/alibaba/cloud/ai/demo/config/scheduling/XxlJobScheduledAgentManager.java:53-60 | the executor's fire of a job name runs the installed handler's task with that fire's context |
| CronTools.Reply | supervisor-agent/src/main/java/com/alibaba/cloud/ai/demo/tools/CronAgentTools.java:51-62 | the reply is the not-found text exactly when there is no agent map or the name is unknown |
| CronTools.ReplyFacts | supervisor-agent/src/main/java/com/alibaba/cloud/ai/demo/tools/CronAgentTools.java:60-62 | the reply to a known agent names the cron expression and the agent's graph |
| CronTools.AgentsDesc | supervisor-agent/src/main/java/com/alibaba/cloud/ai/demo/tools/CronAgentTools.java:65-72 | one line per agent, in the map's order, each naming the agent; nothing without a map |
| CronTools.AgentsDescCount | supervisor-agent/src/main/java/com/alibaba/cloud/ai/demo/tools/CronAgentTools.java:65-72 | the listing has exactly one line per agent |
| CronTools.CronAgentTools.constructor | supervisor-agent/src/main/java/com/alibaba/cloud/ai/demo/tools/CronAgentTools.java:43-44 | a new tool has the given agent map and nothing scheduled |
| CronTools.CronAgentTools.CreateCronAgent | supervisor-agent/src/main/java/com/alibaba/cloud/ai/demo/tools/CronAgentTools.java:47-63 | schedules a known agent once under the cron expression, changes nothing for an unknown one, and replies |
| SessionReader.KeptAreSessions | supervisor-agent/src/main/java/com/alibaba/cloud/ai/demo/config/scheduling/SessionFileReader.java:51-54 | every session is non-empty and trimmed at both ends |
| SessionReader.RunCount | supervisor-agent/src/main/java/com/alibaba/cloud/ai/demo/config/scheduling/SessionFileReader.java:46-61 | the line runs are one more than the separator lines |
| SessionReader.RunsHaveNoSeparator | supervisor-agent/src/main/java/com/alibaba/cloud/ai/demo/config/scheduling/SessionFileReader.java:47-56 | no run holds a separator line |
| SessionReader.RunsCoverContent | supervisor-agent/src/main/java/com/alibaba/cloud/ai/demo/config/scheduling/SessionFileReader.java:57-60 | together the runs are exactly the non-separator lines, in file order |
| SessionReader.SessionCount | supervisor-agent/src/main/java/com/alibaba/cloud/ai/demo/config/scheduling/SessionFileReader.java:46-69 | sessions never outnumber the separators plus one |
| SessionReader.BlankRunDropped | supervisor-agent/src/main/java/com/alibaba/cloud/ai/demo/config/scheduling/SessionFileReader.java:51-54 | a run of blank lines gives no session |
| SessionReader.NoSeparator | supervisor-agent/src/main/java/com/alibaba/cloud/ai/demo/config/scheduling/SessionFileReader.java:63-69 | without a separator there is at most one session, the whole text trimmed |
| SessionReader.ReadSessions | supervisor-agent/src/main/java/com/alibaba/cloud/ai/demo/config/scheduling/SessionFileReader.java:38-72 | the reading loop yields the sessions of the line runs, in file order |
| Evaluation.SessionLoaderFacts | supervisor-agent/src/main/java/com/alibaba/cloud/ai/demo/config/scheduling/EvaluationAgentConfiguration.java:96-136 | the loader's update holds the window's records as texts, in load order; it holds `access_token` exactly when the job parameter carries one, and fails only on a context of the wrong kind |
| Evaluation.Sessions | supervisor-agent/src/main/java/com/alibaba/cloud/ai/demo/config/scheduling/EvaluationAgentConfiguration.java:120-121 | there are never more sessions than feedback rows |
| Evaluation.TruncDiv | supervisor-agent/src/main/java/com/alibaba/cloud/ai/demo/config/scheduling/EvaluationAgentConfiguration.java:165 | Java's int division truncates toward zero: the quotient times the divisor lies within one divisor of the dividend, on the dividend's side of zero |
| Evaluation.IntValue | supervisor-agent/src/main/java/com/alibaba/cloud/ai/demo/config/scheduling/EvaluationAgentConfiguration.java:162 | `intValue()` of a number is its value truncated toward zero when that fits in an `int`, and `Integer.MAX_VALUE` or `Integer.MIN_VALUE` beyond either end |
| Evaluation.Wrap | supervisor-agent/src/main/java/com/alibaba/cloud/ai/demo/config/scheduling/EvaluationAgentConfiguration.java:150-162 | the `int` accumulator holds a value in the `int` range that is congruent to the exact value modulo 2^32, and equal to it when it fits |
| Evaluation.WrapAdd | supervisor-agent/src/main/java/com/alibaba/cloud/ai/demo/config/scheduling/EvaluationAgentConfiguration.java:162 | adding to the `int` accumulator step by step wraps to the same value as wrapping the exact sum |
| Evaluation.ComplaintCount | supervisor-agent/src/main/java/com/alibaba/cloud/ai/demo/config/scheduling/EvaluationAgentConfiguration.java:155-156 | the complaint count never exceeds the number of results |
| Evaluation.TallyFacts | supervisor-agent/src/main/java/com/alibaba/cloud/ai/demo/config/scheduling/EvaluationAgentConfiguration.java:152-164 | the loop succeeds exactly when every item decodes and has a complaint, and then counts the "yes" complaints, holds the sum of the numeric satisfactions wrapped into the `int` range, and joins the complaint summaries in order |
| Evaluation.FirstBadItemAborts | supervisor-agent/src/main/java/com/alibaba/cloud/ai/demo/config/scheduling/EvaluationAgentConfiguration.java:153-155 | the first item without a usable complaint aborts the loop, whatever follows it, with its own exception: ClassCastException for an element that is not a string, JsonSyntaxException for text Gson cannot decode, NullPointerException for a missing or null complaint |
| Evaluation.SummarizeResults | supervisor-agent/src/main/java/com/alibaba/cloud/ai/demo/config/scheduling/EvaluationAgentConfiguration.java:152-164 | the loop with three counters computes the reference tally |
| Evaluation.FailureStays | supervisor-agent/src/main/java/com/alibaba/cloud/ai/demo/config/scheduling/EvaluationAgentConfiguration.java:152-164 | once a prefix of the loop fails, the whole loop fails with the same message |
| Evaluation.SummarizeStage | supervisor-agent/src/main/java/com/alibaba/cloud/ai/demo/config/scheduling/EvaluationAgentConfiguration.java:139-171 | the stage with its loop yields the reference summary update, whose list decoding raises, gives null or gives the list |
| Evaluation.SummaryFacts | supervisor-agent/src/main/java/com/alibaba/cloud/ai/demo/config/scheduling/EvaluationAgentConfiguration.java:141-169 | an absent list reads as "[]"; an empty list gives an empty update; a list text Gson reads as null fails with a NullPointerException at `results.size()`; a non-empty list whose items all have a complaint gives exactly `summary_message` with the list's counts |
| Evaluation.MeanInRange | supervisor-agent/src/main/java/com/alibaba/cloud/ai/demo/config/scheduling/EvaluationAgentConfiguration.java:150-165 | when every numeric satisfaction lies in 0..5 and there are at most `Integer.MAX_VALUE / 5` results, the `int` accumulator does not wrap and the integer mean it reports lies in 0..5 |
| Evaluation.SumBounds | supervisor-agent/src/main/java/com/alibaba/cloud/ai/demo/config/scheduling/EvaluationAgentConfiguration.java:161-162 | when each satisfaction lies in 0..5, their exact sum lies between 0 and 5 times the number of results |
| Pipelines.AllReplace | supervisor-agent/src/main/java/com/alibaba/cloud/ai/demo/config/scheduling/DailyReportAgentConfiguration.java:363-368 | every declared key of a graph uses the replace strategy |
| Pipelines.SenderFor | supervisor-agent/src/main/java/com/alibaba/cloud/ai/demo/config/scheduling/DailyReportAgentConfiguration.java:382-393 | a graph's sender reads the analysis message, reports under `message_sender_result`, prefers the state's `access_token` and has the graph's title |
| Pipelines.DailyChain | supervisor-agent/src/main/java/com/alibaba/cloud/ai/demo/config/scheduling/DailyReportAgentConfiguration.java:369-378 | the daily graph runs the loader, the analysis and the sender, in that order, within the iteration limit |
| Pipelines.EvaluationStages | supervisor-agent/src/main/java/com/alibaba/cloud/ai/demo/config/scheduling/EvaluationAgentConfiguration.java:229-242 | the complaint graph runs the session loader, the iteration, the summary, the message parse and the sender, in that order, within the iteration limit |
| Pipelines.DailyKeysDeclared | supervisor-agent/src/main/java/com/alibaba/cloud/ai/demo/config/scheduling/DailyReportAgentConfiguration.java:362-368 | every key a daily stage writes is declared |
| Pipelines.EvaluationKeysDeclared | supervisor-agent/src/main/java/com/alibaba/cloud/ai/demo/config/scheduling/EvaluationAgentConfiguration.java:214-227 | every key a complaint stage writes is declared |
| Pipelines.DailyNoOrdersAbort | supervisor-agent/src/main/java/com/alibaba/cloud/ai/demo/config/scheduling/DailyReportAgentConfiguration.java:255 | a daily run whose window holds no order stops at the loader, so nothing is posted |
| Pipelines.DailyChainSends | supervisor-agent/src/main/java/com/alibaba/cloud/ai/demo/config/scheduling/DailyReportAgentConfiguration.java:356-375 | when the loader succeeds and the model answers with text, the run ends with the loader's and model's updates and the send's outcome |
| Pipelines.LlmAnswers | supervisor-agent/src/main/java/com/alibaba/cloud/ai/demo/config/scheduling/DailyReportAgentConfiguration.java:356-360 | an LLM node writes its model's answer to the value at its parameter key |
| Pipelines.DailyReportPosted | supervisor-agent/src/main/java/com/alibaba/cloud/ai/demo/config/scheduling/DailyReportAgentConfiguration.java:356-393 | a successful daily run ends with the outcome of sending the model's text under `message_sender_result` |
| Pipelines.DailyReportRequest | supervisor-agent/src/main/java/com/alibaba/cloud/ai/demo/config/scheduling/DailyReportAgentConfiguration.java:382-393 | the daily post carries the analysis text titled "门店经营日报" to the webhook of the job's token, or of the configured one |
| Pipelines.NoSummaryBeforeSummarizing | supervisor-agent/src/main/java/com/alibaba/cloud/ai/demo/config/scheduling/EvaluationAgentConfiguration.java:229-233 | neither the session loader nor an iteration that keeps to its own keys writes `summary_message` |
| Pipelines.EmptyResultsPromptWithoutSummary | supervisor-agent/src/main/java/com/alibaba/cloud/ai/demo/config/scheduling/EvaluationAgentConfiguration.java:167-175 | with an empty result list the summary adds nothing, and the model is asked with no `summary_message` at all |
| Orders.SweetnessCode | order-mcp-server/src/main/java/com/alibaba/cloud/ai/order/service/OrderService.java:479-489 | every word maps to a code in 1..5 |
| Orders.IceLevelCode | order-mcp-server/src/main/java/com/alibaba/cloud/ai/order/service/OrderService.java:494-504 | every word maps to a code in 1..5 |
| Orders.SweetnessText | order-mcp-server/src/main/java/com/alibaba/cloud/ai/order/entity/Order.java:204-214 | the text is "未知" exactly for a missing code or one outside 1..5, otherwise that code's word |
| Orders.IceLevelText | order-mcp-server/src/main/java/com/alibaba/cloud/ai/order/entity/Order.java:217-227 | the text is "未知" exactly for a missing code or one outside 1..5, otherwise that code's word |
| Orders.CodeTextRoundTrip | order-mcp-server/src/main/java/com/alibaba/cloud/ai/order/entity/Order.java:204-227 | reading a code's word back gives the code, for every code in 1..5 |
| Orders.TextCodeRoundTrip | order-mcp-server/src/main/java/com/alibaba/cloud/ai/order/service/OrderService.java:479-504 | each table word reads as its position plus one, and that code's text is the word |
| Orders.UnknownWordsDefault | order-mcp-server/src/main/java/com/alibaba/cloud/ai/order/OrderMcpTools.java:280-305 | a missing or unknown word reads as 5, whose text is the standard word |
| Orders.ValidOrderTexts | order-mcp-server/src/main/java/com/alibaba/cloud/ai/order/entity/Order.java:41-47 | a valid order's codes always have known texts |
| Orders.Order.constructor | order-mcp-server/src/main/java/com/alibaba/cloud/ai/order/entity/Order.java:72-86 | the ten-argument constructor sets the given fields, no id, and both instants to now |
| Orders.Order.OnCreate | order-mcp-server/src/main/java/com/alibaba/cloud/ai/order/entity/Order.java:89-92 | `onCreate` sets both instants to now and nothing else |
| Orders.Order.OnUpdate | order-mcp-server/src/main/java/com/alibaba/cloud/ai/order/entity/Order.java:94-96 | `onUpdate` sets only the update instant |
| Orders.Order.SetRemark | order-mcp-server/src/main/java/com/alibaba/cloud/ai/order/entity/Order.java:183-185 | changes only the remark |
| Orders.Order.SetId | order-mcp-server/src/main/java/com/alibaba/cloud/ai/order/entity/Order.java:103-105 | changes only the id |
| OrderService.UserError | order-mcp-server/src/main/java/com/alibaba/cloud/ai/order/service/OrderService.java:63-88 | a user passes validation exactly when the id is given and the user exists |
| OrderService.OnSaleProduct | order-mcp-server/src/main/java/com/alibaba/cloud/ai/order/service/OrderService.java:105-108 | a product is found exactly when its name is in the table with status on sale |
| OrderService.PlaceFacts | order-mcp-server/src/main/java/com/alibaba/cloud/ai/order/service/OrderService.java:118-133 | an order is placed exactly when the product is on sale with enough stock; then only its stock drops, by the quantity, and one row with total price equal to unit price times quantity is appended |
| OrderService.PlaceErrors | order-mcp-server/src/main/java/com/alibaba/cloud/ai/order/service/OrderService.java:105-116 | a failed placement names the missing product, or the stock and the quantity |
| OrderService.NonPositiveQuantityAccepted | order-mcp-server/src/main/java/com/alibaba/cloud/ai/order/service/OrderService.java:111-116 | a zero or negative quantity is accepted, gives an order that breaks the entity's constraints and does not lower the stock |
| OrderService.PlacedOrderValid | order-mcp-server/src/main/java/com/alibaba/cloud/ai/order/service/OrderService.java:172-188 | with a positive quantity, a priced product whose name is not blank once trimmed, and codes in range, the stored order meets every declared constraint, `@NotBlank` read as not empty after `trim` |
| OrderService.WordsGiveCodesInRange | order-mcp-server/src/main/java/com/alibaba/cloud/ai/order/service/OrderService.java:94-125 | the word form stores codes in 1..5, with no user and no remark |
| OrderService.UserCheckedFirst | order-mcp-server/src/main/java/com/alibaba/cloud/ai/order/service/OrderService.java:155-162 | an unknown or missing user fails with the validation message whatever the products; a known user is placed as usual |
| OrderService.PlaceKeepsValid | order-mcp-server/src/main/java/com/alibaba/cloud/ai/order/service/OrderService.java:118-133 | placing keeps the generated keys unique and below the next one |
| OrderService.AvailableIffPlaceable | order-mcp-server/src/main/java/com/alibaba/cloud/ai/order/service/OrderService.java:414-430 | a product is reported in stock exactly when an order of that quantity would pass the product and stock checks, with the stock query assumed to test existence, sale status and stock |
| OrderService.MatchIndices | order-mcp-server/src/main/java/com/alibaba/cloud/ai/order/mapper/OrderMapper.java:118 | the select finds exactly the rows of that user and order id, in table order |
| OrderService.Selected | order-mcp-server/src/main/java/com/alibaba/cloud/ai/order/mapper/OrderMapper.java:118 | the select gives nothing exactly when no row matches, and otherwise a matching row |
| OrderService.Unmatched | order-mcp-server/src/main/java/com/alibaba/cloud/ai/order/mapper/OrderMapper.java:53-54 | the delete removes exactly the matching rows and keeps the others |
| OrderService.UnmatchedKeepsKeys | order-mcp-server/src/main/java/com/alibaba/cloud/ai/order/mapper/OrderMapper.java:53-54 | deleting keeps the keys unique and below the next one |
| OrderService.DeleteFacts | order-mcp-server/src/main/java/com/alibaba/cloud/ai/order/service/OrderService.java:355-378 | delete answers true exactly when the user is known and one row matches; that row goes, the rest stay, and false changes nothing |
| OrderService.RemarkUpdateFacts | order-mcp-server/src/main/java/com/alibaba/cloud/ai/order/service/OrderService.java:383-409 | a remark update changes only the remark and update instant of the one matching row; an absent order leaves the store as it was |
| OrderService.OrderService.constructor | order-mcp-server/src/main/java/com/alibaba/cloud/ai/order/service/OrderService.java:51-58 | a new service has the given users and products and no orders |
| OrderService.OrderService.ValidateUser | order-mcp-server/src/main/java/com/alibaba/cloud/ai/order/service/OrderService.java:63-88 | returns the user id when the user exists, else the validation message |
| OrderService.OrderService.Place | order-mcp-server/src/main/java/com/alibaba/cloud/ai/order/service/OrderService.java:105-140 | the shared placement steps reach the reference placement's store and return its new order |
| OrderService.OrderService.CreateOrder | order-mcp-server/src/main/java/com/alibaba/cloud/ai/order/service/OrderService.java:94-145 | the word form of `createOrder` reaches the reference store |
| OrderService.OrderService.CreateOrderFor | order-mcp-server/src/main/java/com/alibaba/cloud/ai/order/service/OrderService.java:150-198 | the request form of `createOrder` reaches the reference store |
| OrderService.OrderService.DeleteOrder | order-mcp-server/src/main/java/com/alibaba/cloud/ai/order/service/OrderService.java:355-378 | `deleteOrder` reaches the reference store and answers |
| OrderService.OrderService.UpdateOrderRemark | order-mcp-server/src/main/java/com/alibaba/cloud/ai/order/service/OrderService.java:383-409 | `updateOrderRemark` reaches the reference store and returns the updated order |
| OrderService.OrderService.CheckStock | order-mcp-server/src/main/java/com/alibaba/cloud/ai/order/service/OrderService.java:414-430 | the product is reported available exactly when the query does not raise and the assumed stock test holds: the product exists, is on sale and has at least the quantity in stock |
| OrderTools.ToolRequest | order-mcp-server/src/main/java/com/alibaba/cloud/ai/order/OrderMcpTools.java:56-60 | the request carries the user, product, quantity and remark as given and codes in 1..5 |
| OrderTools.CreateOrderWithUserFacts | order-mcp-server/src/main/java/com/alibaba/cloud/ai/order/OrderMcpTools.java:47-69 | the reply starts with the failure prefix exactly when the placement fails, and then carries the service's message; otherwise it describes the new order |
| OrderTools.CreatedWords | order-mcp-server/src/main/java/com/alibaba/cloud/ai/order/OrderMcpTools.java:56-65 | the created order shows the customer's sweetness and ice words when they are in the table, and the standard words otherwise |
| OrderTools.GetOrderFacts | order-mcp-server/src/main/java/com/alibaba/cloud/ai/order/OrderMcpTools.java:75-111 | an absent order is reported with its id; a known user without such an order is told so; a found order is that user's own |
| OrderTools.StockReplyTellsAvailability | order-mcp-server/src/main/java/com/alibaba/cloud/ai/order/OrderMcpTools.java:117-128 | the two stock replies differ, so the reply tells the availability |
| OrderTools.ValidateReplyTellsExistence | order-mcp-server/src/main/java/com/alibaba/cloud/ai/order/OrderMcpTools.java:266-275 | the two validation replies differ, so the reply tells whether the product is on sale |
| OrderTools.DeleteToolFacts | order-mcp-server/src/main/java/com/alibaba/cloud/ai/order/OrderMcpTools.java:227-240 | success is reported exactly when the service deleted |
| OrderTools.RemarkToolFacts | order-mcp-server/src/main/java/com/alibaba/cloud/ai/order/OrderMcpTools.java:246-260 | an absent order gives the failure text and changes nothing; a found one gives the success text with the new remark |
| OrderTools.LineAt | order-mcp-server/src/main/java/com/alibaba/cloud/ai/order/OrderMcpTools.java:142-147 | each order's line sits right after the lines of the orders before it |
| OrderTools.AppendLines | order-mcp-server/src/main/java/com/alibaba/cloud/ai/order/OrderMcpTools.java:141-147 | the listing loop yields the header followed by one line per order, in order |
| OrderTools.ListReply | order-mcp-server/src/main/java/com/alibaba/cloud/ai/order/OrderMcpTools.java:134-153 | a non-empty listing is the header followed by exactly the orders' lines |
| OrderTools.GetAllOrders | order-mcp-server/src/main/java/com/alibaba/cloud/ai/order/OrderMcpTools.java:134-153 | `getAllOrders` replies with the reference listing |
| OrderTools.GetOrdersByUser | order-mcp-server/src/main/java/com/alibaba/cloud/ai/order/OrderMcpTools.java:159-178 | `getOrdersByUser` replies with the reference listing under the user's header |
| OrderTools.QueryOrders | order-mcp-server/src/main/java/com/alibaba/cloud/ai/order/OrderMcpTools.java:184-221 | `queryOrders` replies with the listing under a header counting the orders, or with the failure text |
| OrderTools.EmptyListFacts | order-mcp-server/src/main/java/com/alibaba/cloud/ai/order/OrderMcpTools.java:137-139 | a list tool with no orders gives its fixed text, never a header |
| Feedback.TypeText | feedback-mcp-server/src/main/java/com/alibaba/cloud/ai/feedback/entity/Feedback.java:158-167 | the type text is "未知" exactly for a missing type or one outside 1..4, otherwise that type's word |
| Feedback.RatingText | feedback-mcp-server/src/main/java/com/alibaba/cloud/ai/feedback/entity/Feedback.java:170-173 | "未评分" without a rating, else the rating's digits followed by "星" |
| Feedback.TypeTextsDistinct | feedback-mcp-server/src/main/java/com/alibaba/cloud/ai/feedback/entity/Feedback.java:158-167 | distinct types in 1..4 have distinct texts |
| Feedback.RatingTextsDistinct | feedback-mcp-server/src/main/java/com/alibaba/cloud/ai/feedback/entity/Feedback.java:170-173 | distinct ratings, missing included, have distinct texts |
| Feedback.ValidTypeIsKnown | feedback-mcp-server/src/main/java/com/alibaba/cloud/ai/feedback/entity/Feedback.java:31-44 | a valid feedback always has a known type text |
| Feedback.FeedbackEntity.Empty | feedback-mcp-server/src/main/java/com/alibaba/cloud/ai/feedback/entity/Feedback.java:53-56 | the no-argument constructor sets only the two instants |
| Feedback.FeedbackEntity.WithContent | feedback-mcp-server/src/main/java/com/alibaba/cloud/ai/feedback/entity/Feedback.java:58-63 | the three-argument constructor sets user, type and content |
| Feedback.FeedbackEntity.ForOrder | feedback-mcp-server/src/main/java/com/alibaba/cloud/ai/feedback/entity/Feedback.java:65-72 | the five-argument constructor sets order, user, type, rating and content |
| Feedback.FeedbackEntity.OnCreate | feedback-mcp-server/src/main/java/com/alibaba/cloud/ai/feedback/entity/Feedback.java:75-78 | `onCreate` sets both instants to now and nothing else |
| Feedback.FeedbackEntity.OnUpdate | feedback-mcp-server/src/main/java/com/alibaba/cloud/ai/feedback/entity/Feedback.java:80-82 | `onUpdate` sets only the update instant |

## Left out

- The chat model, the prompt templates' wording and the iteration sub-graph are parameters. Their answers are inputs, so no claim is made about what a model says.
- The graph runtime's asynchrony, checkpoints and thread pool are not modelled. The iteration limits (100 and 1000) are only shown to be at least the number of stages.
- Floating-point formatting (`%.0f`, `%.1f`, `%.2f` of doubles) is not modelled. Shares and rates are exact ratios. `%.2f` of a BigDecimal amount is rendered from cents.
- Gson parsing, the HTTP client, the clock, `System.currentTimeMillis` and reading the sessions resource are parameters of the operations that use them. Logging and console output are left out.
- Time zones: local midnight is taken at a fixed offset from UTC, so daylight-saving changes are not modelled.
- HashMap iteration order is not modelled. Products with equal sums are ranked by ascending id. The agent listing follows an order given as input.
- The `ORDER BY created_at DESC` of the order queries is not modelled. Sums, counts and rankings do not depend on row order.
- The SQL filtering, paging and time-string parsing of the order list tools are not modelled. These tools take the service's outcome as a parameter. `getOrder` takes the lookup by order id as a parameter.
- The product and user mappers' own queries are not part of this model. Products are found by name in a map, and `checkStock` takes a failed query as a flag.
- The service's pass-through getters (`getAvailableProducts`, `getProductByName`, pagination) are not modelled. Neither are the entities' setters other than `setRemark` and `setId`.
- `OrderResponse` is taken to carry the order's own fields and texts.
- MyBatis raising on more than one row from a single-row select is modelled as an error result. Other database failures are not modelled.
- Stock overflow and the product table's timestamps are not modelled.
- Lower-casing the sweetness and ice words has no effect on the Chinese table words, so the model compares the words as given.
- `Character.isWhitespace` is modelled on the Latin-1 range only. `String.trim` is exact, and `@NotBlank` is read as Hibernate's validator reads it: not null and not empty after `trim`.
- The handler table of the XXL-JOB executor is a field of the registry rather than a static table. The shared task scheduler is left out.
- Classifier.ClassifierNode.Apply: with a null output key, the model's update leaves the answer out. The code's HashMap keeps it under the null key, and what the graph's merge does with that key is not modelled.
- DingSender.SendFacts: the post always answers a string, so a null response body is not modelled. In the code, `Map.of` would reject the null inside the guarded block.
- OrderService.OrderService.CreateOrder: the clock instant given to the entity's constructor and to `onCreate` is one value, so the two instants agree.
- Orders.Order.constructor, Orders.Order.OnCreate, Feedback.FeedbackEntity.Empty, Feedback.FeedbackEntity.WithContent, Feedback.FeedbackEntity.ForOrder and Feedback.FeedbackEntity.OnCreate: each takes one `now` for both instants, where the code reads the clock twice (`Order.java` lines 68-69 and 90-91, `Feedback.java` lines 54-55 and 76-77), so instants a tick apart are not modelled.
- TimeWindow.LoadWindow, TimeWindow.FallbackWindow, DailyReport.LoadData and Evaluation.SessionLoaderFacts: each loader's window takes one `now` for both the fallback start and the end. The code reads the clock for each (`DailyReportAgentConfiguration.java` lines 177 or 181 and 183, `EvaluationAgentConfiguration.java` lines 112 or 116 and 118), so a window a tick shorter than 365 days is not modelled. `report_date` and the date inside `report_time` (lines 270-271) are separate inputs of the daily loader, one per `LocalDate.now()` call, and the time of day is a third, so a run that crosses midnight between them is expressible.
- Evaluation.IntValue: a JSON number is taken at the exact value of its literal. Gson first rounds it to the nearest `Double`, so a literal with more digits than a double holds can differ: "4.99999999999999999" reads as 5.0 and counts 5, where the model counts 4. The truncation, the saturation at the `int` bounds and the 32-bit wrap of the `int` accumulator are modelled.
- ProductRanking.GroupFacts: the per-product quantity sums are exact. `summingInt(Order::getQuantity)` wraps at 2^31, which a product reaches only with more than 2147483647 cups in the window. The ranking lemmas rely on the exact sums.
- TimeWindow.ParseYearMonth: only four unsigned year digits are accepted. `YearMonth.parse` also accepts a signed or longer year such as "-0001-01" or "+10000-01", which the model rejects and sends to the 365-day window. The `DATE_FORMAT(created_at, '%Y-%m')` query that supplies the text never produces such a year.
- OrderService.AvailableIffPlaceable: the SQL of `productMapper.checkStockAvailability` is not part of this model. The query is assumed to succeed exactly when the product exists, is on sale, and has at least the quantity in stock, so this equivalence holds under that assumption.
- OrderService.OrderService.CheckStock: it rests on the same assumed stock query: the product exists, is on sale, and has at least the quantity in stock.
- DailyReport.AvgPrice: the "/ by zero" message is that of BigDecimal's compact (long) form. A revenue beyond the `long` range would fail with BigInteger's own message, which is not modelled.
- Pipelines.EmptyResultsPromptWithoutSummary: this lemma requires that the iteration writes only its own keys. The sub-graph itself is not modelled.

# SwitchON core in Dafny

SwitchON is a go-to-market automation platform for SaaS companies. Its backend is
a set of Express routers over a hosted database:

- onboarding stores a company;
- the Strategy Architect agent writes a go-to-market strategy;
- the Outreach Creator turns a lead and the active strategy into a draft campaign;
- actions wait for approval, and an approval triggers a workflow webhook;
- analytics folds metric, lead and meeting rows into KPIs;
- the Campaign Optimizer turns a campaign's recent performance into a pending action.

Browser scripts render this data as badges, filtered lists, detail buttons, a
small markdown formatter for strategies, and chart series.

This project models the decision logic of those pieces as pure Dafny functions
and proves what they promise. Each route handler is a function from a request,
the store and the outcomes of its foreign calls to an `Outcome`:

- the HTTP reply;
- the store afterwards;
- the outbound calls attempted, in order;
- whether a best-effort step only logged a warning.

Modules:

| module | file | what it holds |
|---|---|---|
| `Js` | js.dfy | JavaScript values and truthiness, property reads, `trim`, `split`/`join`, `charAt(0).toUpperCase()`, `JSON.stringify`, template interpolation |
| `Seqs` | seqs.dfy | order-preserving filters, sums, and the group-by fold the charts use |
| `Db` | db.dfy | the rows of each table, the store, and the foreign-call outcomes (`DbError`, `Insert`, `Read`, `AgentReply`) |
| `Agents` | agents.dfy | agent configuration merge, completion request and reply, the four prompt templates |
| `Kpi` | kpi.dfy | `calculateKPIs` and `calculateCampaignPerformance` |
| `Effects` | effects.dfy | replies, outbound calls and handler outcomes |
| `ActionRoutes`, `ContentRoutes`, `StrategyRoutes`, `OnboardingRoutes`, `AnalyticsRoutes` | *_routes.dfy | the five backend routers |
| `View`, `ActionsView`, `ContentView`, `StrategyView`, `AnalyticsView` | *view.dfy | the browser scripts of the four pages |

Foreign calls are parameters of the handlers. A database statement carries an
`Option<DbError>`, where `None` means success. An insert reports the id it
assigned or fails. The completion endpoint either replies or raises. A
notification, approval flow or webhook is either delivered or not.

## Model

| member | source | states |
|---|---|---|
| `Kpi.Accumulate` | home/ubuntu/SwitchON/src/backend/routes/analytics.js:302-307 | each running total ends as its start plus the sum over the rows, a null counter contributing 0 |
| `Kpi.Ratio` | home/ubuntu/SwitchON/src/backend/routes/analytics.js:310-313 | a guarded ratio: it times the positive divisor gives the numerator, and it is 0 when the divisor is 0 |
| `Kpi.CalculateKpis` | home/ubuntu/SwitchON/src/backend/routes/analytics.js:285-316 | the counters are the sums over the rows; ctr, conversion rate, cpa and meeting rate are the zero-guarded quotients; leads and meetings are row counts; qualified leads are those scoring at least 70 and never exceed leads |
| `Kpi.KpisOneMoreLead` | home/ubuntu/SwitchON/src/backend/routes/analytics.js:295-296 | one more lead adds one lead, adds one qualified lead exactly when its score is at least 70 (null excluded), and leaves the metric totals alone |
| `Kpi.KpisSplitMetrics` | home/ubuntu/SwitchON/src/backend/routes/analytics.js:302-307 | the totals over two row lists together are the sums of the totals over each |
| `Kpi.Track` | home/ubuntu/SwitchON/src/backend/routes/analytics.js:333-347 | the `forEach` keeps the totals and pushes one daily entry per row, keeping the entries already pushed |
| `Kpi.CampaignPerformance` | home/ubuntu/SwitchON/src/backend/routes/analytics.js:319-355 | the totals are the sums over the rows; `dailyMetrics` has one entry per row, in row order, with its date and defaulted counters; the rates are zero-guarded |
| `Kpi.DailySums` | home/ubuntu/SwitchON/src/backend/routes/analytics.js:340-346 | summing a field over daily entries built from rows is summing the defaulted field over those rows |
| `Kpi.PerformanceMatchesDaily` | home/ubuntu/SwitchON/src/backend/routes/analytics.js:333-346 | the performance totals equal the sums over its own `dailyMetrics` |
| `Kpi.PerformanceAgreesWithKpis` | home/ubuntu/SwitchON/src/backend/routes/analytics.js:302-312 | the campaign performance and the dashboard KPIs over the same rows agree on every total and rate |
| `Kpi.PerformanceObjectReads` | home/ubuntu/SwitchON/src/backend/routes/analytics.js:321-330 | the object handed to the optimizer prompt carries the performance's own impressions, ctr, conversionRate and cpa under those names |
| `AnalyticsRoutes.TimeFrame` | home/ubuntu/SwitchON/src/backend/routes/analytics.js:19 | an absent or empty period becomes 'month'; any other period is echoed back |
| `AnalyticsRoutes.StartOffset` | home/ubuntu/SwitchON/src/backend/routes/analytics.js:25-43 | 'day' and 'week' step back 1 and 7 days, 'month' and 'quarter' 1 and 3 months, 'year' 1 year; every other period steps back 1 month like 'month' |
| `AnalyticsRoutes.PeriodDefaultsToMonth` | home/ubuntu/SwitchON/src/backend/routes/analytics.js:25-43 | a missing or unrecognised period selects the same window start as 'month' |
| `AnalyticsRoutes.KnownPeriodsDistinct` | home/ubuntu/SwitchON/src/backend/routes/analytics.js:25-40 | the five named periods select five different window starts |
| `AnalyticsRoutes.GetDashboard` | home/ubuntu/SwitchON/src/backend/routes/analytics.js:13-107 | the first failed read decides a 500 with its message; otherwise a 200 holding the time frame, the window's offset, the KPIs of the three reads and the rows themselves, whatever rows the metric read returned |
| `AnalyticsRoutes.DashboardMetricsAsWritten` | home/ubuntu/SwitchON/src/backend/routes/analytics.js:50-55 | as written, every metric row in the window comes back; a row carries its campaign's name and channel exactly when the campaign belongs to the company |
| `AnalyticsRoutes.DashboardMetrics` | home/ubuntu/SwitchON/src/backend/routes/analytics.js:50-55 | the company's read: only rows of the company's campaigns, each carrying its campaign |
| `AnalyticsRoutes.DashboardMetricsDropsForeignRows` | home/ubuntu/SwitchON/src/backend/routes/analytics.js:50-55 | the company's read is the as-written read without the rows whose campaign came back null |
| `AnalyticsRoutes.DashboardImpressions` | home/ubuntu/SwitchON/src/backend/routes/analytics.js:50-89 | on the company's read the impressions KPI sums exactly the company's rows; on the as-written read it sums every row in the window |
| `AnalyticsRoutes.DashboardCountsOtherCompanies` | home/ubuntu/SwitchON/src/backend/routes/analytics.js:50-89 | a row of another company's campaign is counted in the as-written dashboard's impressions and not in the company's |
| `AnalyticsRoutes.GetCampaignReport` | home/ubuntu/SwitchON/src/backend/routes/analytics.js:110-155 | a campaign read fault is a 500 and a missing campaign a 404; then a metric read fault is a 500 with its message; otherwise a 200 report holding the first campaign with that id, all its metric rows and their performance |
| `AnalyticsRoutes.RecordMetrics` | home/ubuntu/SwitchON/src/backend/routes/analytics.js:158-194 | without a campaign id the answer is 400 and nothing is written; otherwise exactly one row is appended, with absent counters and cost stored as 0 and an absent date as today's |
| `AnalyticsRoutes.Recommend` | home/ubuntu/SwitchON/src/backend/routes/analytics.js:219-277 | the optimizer is asked about the performance of the recent rows; a failed read, a raised completion or a failed insert leaves the store untouched; when the read returned at most seven stored rows of this campaign (`RecentOf`), the reported performance has at most seven daily entries, each that of a stored row of the campaign |
| `AnalyticsRoutes.RecentPerformanceIsOwn` | home/ubuntu/SwitchON/src/backend/routes/analytics.js:219-224 | the performance of a read of at most seven stored rows of the campaign has at most seven daily entries, each that of a stored row of the campaign |
| `AnalyticsRoutes.Record` | home/ubuntu/SwitchON/src/backend/routes/analytics.js:238-277 | a successful insert stores one action and answers 200 with it, then notifies the user with a link to the action |
| `AnalyticsRoutes.Optimize` | home/ubuntu/SwitchON/src/backend/routes/analytics.js:197-282 | a campaign read fault is a 500 and a missing campaign a 404; otherwise the found campaign goes on to `Recommend`; on success, with a `RecentOf` read, the performance has at most seven daily entries, each that of a stored row of the campaign |
| `AnalyticsRoutes.OptimizeStoresOneAction` | home/ubuntu/SwitchON/src/backend/routes/analytics.js:237-277 | a successful optimization stores exactly one pending 'optimization' action for the campaign and its company, holding the trimmed recommendations, then notifies the user with a link to it; when the rows are at most seven stored rows of the campaign, so are the performance's daily entries |
| `AnalyticsRoutes.OptimizeSucceedsExactly` | home/ubuntu/SwitchON/src/backend/routes/analytics.js:203-252 | 200 exactly when the campaign exists, the reads and the insert succeed and the optimizer replies; any other answer leaves the store untouched |
| `AnalyticsRoutes.OptimizeNotificationBestEffort` | home/ubuntu/SwitchON/src/backend/routes/analytics.js:255-265 | whether the notification was delivered changes neither the reply, the store nor the calls |
| `ActionRoutes.ListActions` | home/ubuntu/SwitchON/src/backend/routes/actions.js:12-44 | a read fault is a 500; otherwise the company's actions narrowed by the given filters, in table order |
| `ActionRoutes.ListActionsMembers` | home/ubuntu/SwitchON/src/backend/routes/actions.js:17-30 | an action is listed iff it belongs to the company and passes each filter that was given (an empty filter is none) |
| `ActionRoutes.ListActionsUnfiltered` | home/ubuntu/SwitchON/src/backend/routes/actions.js:17-20 | without filters the list is every action of the company |
| `ActionRoutes.GetAction` | home/ubuntu/SwitchON/src/backend/routes/actions.js:47-71 | a fault is a 500, no row a 404, and otherwise a 200 with the first stored row with that id |
| `ActionRoutes.CreateAction` | home/ubuntu/SwitchON/src/backend/routes/actions.js:74-111 | a missing or empty company, type or content is a 400 with no insert; otherwise one pending action is appended, with an empty due date stored as null |
| `ActionRoutes.CreateThenGet` | home/ubuntu/SwitchON/src/backend/routes/actions.js:84-105 | an action just created is found by its id |
| `ActionRoutes.WebhookPathsDistinct` | home/ubuntu/SwitchON/src/backend/routes/actions.js:209-229 | the five workflow types have five distinct paths, none of them the generic path, and every other type gets the generic path |
| `ActionRoutes.Trigger` | home/ubuntu/SwitchON/src/backend/routes/actions.js:136-144 | a webhook is attempted only for 'approved', with the first updated row; with no updated row the step only warns |
| `ActionRoutes.UpdateStatus` | home/ubuntu/SwitchON/src/backend/routes/actions.js:114-155 | a status outside the four states is a 400 with the store unchanged; a fault is a 500; otherwise the rows with the id are updated and the first is returned |
| `ActionRoutes.UpdateStatusTouchesOnlyTarget` | home/ubuntu/SwitchON/src/backend/routes/actions.js:125-129 | only the status and `updated_at` of the rows with the id change; every other row and table stays as it was |
| `ActionRoutes.UpdateStatusIdempotent` | home/ubuntu/SwitchON/src/backend/routes/actions.js:125-129 | setting the same status twice at the same time stores what setting it once does |
| `ActionRoutes.WebhookOnlyOnApproval` | home/ubuntu/SwitchON/src/backend/routes/actions.js:137-144 | the webhook is called iff the new status is 'approved' and a row was updated, and it receives that approved row |
| `ActionRoutes.UpdateStatusWebhookBestEffort` | home/ubuntu/SwitchON/src/backend/routes/actions.js:138-150 | a failed webhook changes neither the reply, the store nor the calls |
| `ActionRoutes.AssignNote` | home/ubuntu/SwitchON/src/backend/routes/actions.js:180-190 | the assignee is notified about the first updated row; with no updated row the step only warns |
| `ActionRoutes.Assign` | home/ubuntu/SwitchON/src/backend/routes/actions.js:158-201 | a missing assignee is a 400 with the store unchanged; a fault is a 500; otherwise the rows with the id get the assignee |
| `ActionRoutes.AssignSetsAssignee` | home/ubuntu/SwitchON/src/backend/routes/actions.js:168-172 | after an assignment every row with the id names the assignee and keeps its status, and no other row changes |
| `ActionRoutes.AssignNotificationBestEffort` | home/ubuntu/SwitchON/src/backend/routes/actions.js:180-195 | a failed notification changes neither the reply, the store nor the calls |
| `ContentRoutes.Latest` | home/ubuntu/SwitchON/src/backend/routes/content.js:39-46 | the chosen strategy is one of the rows, created no earlier than any other; there is none only for no rows |
| `ContentRoutes.SaveDraft` | home/ubuntu/SwitchON/src/backend/routes/content.js:68-104 | a failed insert is a 500 with the store unchanged; otherwise one draft campaign is appended and the user is notified best-effort |
| `ContentRoutes.Outreach` | home/ubuntu/SwitchON/src/backend/routes/content.js:39-108 | a fault other than "no rows" is a 500; no active strategy is a 404; otherwise the Outreach Creator is asked with the latest active strategy's text |
| `ContentRoutes.Generate` | home/ubuntu/SwitchON/src/backend/routes/content.js:13-109 | a missing or empty company, lead or channel is a 400 before any read; a lead fault is a 500 and a missing lead a 404 |
| `ContentRoutes.GenerateSavesDraft` | home/ubuntu/SwitchON/src/backend/routes/content.js:58-84 | the stored campaign is a draft for the company, tied to its latest active strategy, aimed at the lead, named "<Channel> outreach to <lead>", holding the trimmed content |
| `ContentRoutes.OutreachSucceedsExactly` | home/ubuntu/SwitchON/src/backend/routes/content.js:48-84 | 201 exactly when an active strategy is found, the completion succeeds and the insert does; every other answer leaves the store untouched |
| `ContentRoutes.GenerateSucceedsExactly` | home/ubuntu/SwitchON/src/backend/routes/content.js:17-104 | 201 exactly when the body is complete, the lead and an active strategy exist, the completion succeeds and the insert does; every other answer leaves the store untouched |
| `ContentRoutes.GetCampaign` | home/ubuntu/SwitchON/src/backend/routes/content.js:112-136 | a fault is a 500, no row a 404, and otherwise a 200 with the first stored row with that id |
| `ContentRoutes.ListCampaigns` | home/ubuntu/SwitchON/src/backend/routes/content.js:139-166 | a fault is a 500; otherwise the company's campaigns, narrowed to the channel when one is given |
| `ContentRoutes.ListCampaignsMembers` | home/ubuntu/SwitchON/src/backend/routes/content.js:144-152 | a campaign is listed iff it is the company's and, when a channel was given, on that channel |
| `ContentRoutes.UpdateCampaignStatus` | home/ubuntu/SwitchON/src/backend/routes/content.js:169-200 | a status outside draft/active/paused/completed is a 400 with the store unchanged; otherwise the rows with the id take the status |
| `ContentRoutes.UpdateCampaignStatusIdempotent` | home/ubuntu/SwitchON/src/backend/routes/content.js:180-184 | only status and `updated_at` of the rows with the id change, and repeating the update stores the same |
| `ContentRoutes.UpdateContent` | home/ubuntu/SwitchON/src/backend/routes/content.js:203-243 | missing content is a 400 with the store unchanged; otherwise the rows with the id take the content |
| `ContentRoutes.UpdateContentKeepsRest` | home/ubuntu/SwitchON/src/backend/routes/content.js:213-227 | the name changes only when a non-empty one is given; channel, status, company and strategy stay; other campaigns are untouched |
| `ContentRoutes.TemplatesAsWritten` | home/ubuntu/SwitchON/src/backend/routes/content.js:333-337 | the lookup as written answers 200 for the names of inherited object members too |
| `ContentRoutes.Templates` | home/ubuntu/SwitchON/src/backend/routes/content.js:252-337 | 200 with the channel's templates exactly when the channel has templates of its own; otherwise 404 |
| `ContentRoutes.TemplatesInheritedAsWritten` | home/ubuntu/SwitchON/src/backend/routes/content.js:333-337 | for an inherited member name such as "constructor", the lookup as written answers 200 where the own-property lookup answers 404 |
| `ContentRoutes.TemplatesAgreeElsewhere` | home/ubuntu/SwitchON/src/backend/routes/content.js:252-337 | on every other channel the two lookups give the same answer |
| `ContentRoutes.TemplateIds` | home/ubuntu/SwitchON/src/backend/routes/content.js:253-330 | each channel with templates offers two, with ids `<channel>-1` and `<channel>-2` |
| `StrategyRoutes.SaveStrategy` | home/ubuntu/SwitchON/src/backend/routes/strategy.js:40-68 | a failed insert is a 500 with the store unchanged; otherwise one draft strategy is appended and the approval flow attempted |
| `StrategyRoutes.Generate` | home/ubuntu/SwitchON/src/backend/routes/strategy.js:13-73 | a fault is a 500 and a missing company a 404; otherwise the Strategy Architect is asked about the company and a raised completion is a 500 |
| `StrategyRoutes.GenerateSucceedsExactly` | home/ubuntu/SwitchON/src/backend/routes/strategy.js:24-53 | 201 exactly when the company is found, the completion succeeds and the insert does; any other answer leaves the store untouched |
| `StrategyRoutes.GenerateThenGet` | home/ubuntu/SwitchON/src/backend/routes/strategy.js:37-68 | the stored strategy is a draft titled "Go-To-Market Strategy for <name>" holding the trimmed completion, the approval flow is attempted for it, and a read by its id returns it |
| `StrategyRoutes.ApprovalFlowBestEffort` | home/ubuntu/SwitchON/src/backend/routes/strategy.js:56-68 | the approval flow's failure changes neither the reply, the store nor the calls; it only warns, and only after a success |
| `StrategyRoutes.GetStrategy` | home/ubuntu/SwitchON/src/backend/routes/strategy.js:76-100 | a fault is a 500, no row a 404, and otherwise a 200 with the first stored row with that id |
| `StrategyRoutes.ListStrategies` | home/ubuntu/SwitchON/src/backend/routes/strategy.js:103-123 | a fault is a 500; otherwise exactly the company's strategies |
| `StrategyRoutes.UpdateStatus` | home/ubuntu/SwitchON/src/backend/routes/strategy.js:126-157 | a status outside draft/active/archived is a 400 with the store unchanged; otherwise the rows with the id take the status |
| `StrategyRoutes.UpdateStatusTouchesOnlyTarget` | home/ubuntu/SwitchON/src/backend/routes/strategy.js:137-141 | only the rows with the id change, so activating one strategy leaves the company's other strategies as they were |
| `StrategyRoutes.UpdateContent` | home/ubuntu/SwitchON/src/backend/routes/strategy.js:160-200 | missing content is a 400 with the store unchanged; otherwise the rows with the id take the content |
| `StrategyRoutes.UpdateContentKeepsStatus` | home/ubuntu/SwitchON/src/backend/routes/strategy.js:166-184 | the edited row keeps its status and company, and its title changes only when a non-empty one is given |
| `OnboardingRoutes.At` | home/ubuntu/SwitchON/src/backend/routes/onboarding.js:17-28 | reading `body.section.key` throws exactly when the section is missing or null |
| `OnboardingRoutes.Read` | home/ubuntu/SwitchON/src/backend/routes/onboarding.js:9-28 | the form is read iff all four sections are present, and each value comes from its section and key |
| `OnboardingRoutes.CompanyRow` | home/ubuntu/SwitchON/src/backend/routes/onboarding.js:21-25 | the stored `icp` is the text of a JSON object |
| `OnboardingRoutes.Onboard` | home/ubuntu/SwitchON/src/backend/routes/onboarding.js:7-51 | a missing section ends in the catch's 500; a failed insert is a 500; otherwise a 201 with one appended company row |
| `OnboardingRoutes.OnboardDropsOtherFields` | home/ubuntu/SwitchON/src/backend/routes/onboarding.js:17-28 | two bodies that agree on the eight properties read give the same reply and store, so every other field is dropped |
| `OnboardingRoutes.AtUnique` | home/ubuntu/SwitchON/src/backend/routes/onboarding.js:17-28 | a nested property that occurs once is read as given |
| `OnboardingRoutes.FormFirstHalf` | home/ubuntu/SwitchON/src/backend/routes/onboarding.js:18-20 | the company and financial values of the page's form are read back from where the page put them |
| `OnboardingRoutes.FormSecondHalf` | home/ubuntu/SwitchON/src/backend/routes/onboarding.js:22-27 | the profile and marketing values of the page's form are read back from where the page put them |
| `OnboardingRoutes.ReadForm` | home/ubuntu/SwitchON/src/backend/routes/onboarding.js:17-28 | reading the page's nested form gives back each of its eight values |
| `OnboardingRoutes.OnboardStoresForm` | home/ubuntu/SwitchON/src/backend/routes/onboarding.js:17-46 | the row takes name and industry from company, arr and ticket size from financial, channels from marketing, and `icp` is the serialisation of exactly industries, sizes and decisionMakers |
| `OnboardingRoutes.GetCompany` | home/ubuntu/SwitchON/src/backend/routes/onboarding.js:54-78 | a fault is a 500, no row a 404, and otherwise a 200 with the first stored row with that id |
| `OnboardingRoutes.OnboardThenGet` | home/ubuntu/SwitchON/src/backend/routes/onboarding.js:31-46 | a company just onboarded is found by its id |
| `OnboardingRoutes.ApplyUpdates` | home/ubuntu/SwitchON/src/backend/routes/onboarding.js:86-90 | an update never changes a row's id or creation time |
| `OnboardingRoutes.UpdateCompany` | home/ubuntu/SwitchON/src/backend/routes/onboarding.js:81-106 | a fault is a 500; otherwise only the rows with the id change, each by the body's columns, and the first is returned |
| `OnboardingRoutes.UpdateTouchesNamedColumns` | home/ubuntu/SwitchON/src/backend/routes/onboarding.js:84-88 | a column the body does not name keeps its value; one it names takes the value last given for it |
| `OnboardingRoutes.CreateUser` | home/ubuntu/SwitchON/src/backend/routes/onboarding.js:109-137 | a missing body is the catch's 500; a failed insert a 500; otherwise one user row is appended |
| `OnboardingRoutes.CreateUserCopies` | home/ubuntu/SwitchON/src/backend/routes/onboarding.js:111-121 | email, company id and role are stored as sent, and a field left out is stored as null |
| `Agents.Or` | home/ubuntu/SwitchON/src/ai-agents/agents.js:6-8 | `a \|\| b` is `a` when truthy, else `b` |
| `Agents.MergeConfigLookup` | home/ubuntu/SwitchON/src/ai-agents/agents.js:5-10 | every key the caller supplied wins whatever its value, temperature 0 included; an absent model, temperature or max_tokens takes its default; nothing else is added |
| `Agents.DefaultConfig` | home/ubuntu/SwitchON/src/ai-agents/agents.js:6-8 | an agent built without configuration has model 'gpt-4', temperature 0.7 and max_tokens 2000 |
| `Agents.CompletionRequestLookup` | home/ubuntu/SwitchON/src/ai-agents/agents.js:15-21 | additional parameters override everything, the prompt included; otherwise the request carries the configured model, temperature and max_tokens and the prompt |
| `Agents.Complete` | home/ubuntu/SwitchON/src/ai-agents/agents.js:23-27 | a reply comes back trimmed, neither starting nor ending with white space; a raised error is raised again unchanged |
| `Agents.CompleteIdempotent` | home/ubuntu/SwitchON/src/ai-agents/agents.js:23 | completing an already completed reply changes nothing |
| `Agents.RenderPartsAppend` | home/ubuntu/SwitchON/src/ai-agents/agents.js:39-59 | a template literal renders piecewise: the text of two runs of parts is the text of each |
| `Agents.RenderDependsOnHoles` | home/ubuntu/SwitchON/src/ai-agents/agents.js:39-59 | a prompt changes only through its holes: arguments whose holes read the same text give the same prompt |
| `Agents.RenderPartsReadsHole` | home/ubuntu/SwitchON/src/ai-agents/agents.js:39-59 | when the holes agree except one, the two texts agree exactly when that hole reads the same text: the literal text around a hole cannot make up for a change in it |
| `Agents.RenderReadsHole` | home/ubuntu/SwitchON/src/ai-agents/agents.js:39-59 | the same for whole templates sharing their opening text |
| `Agents.RenderReads` | home/ubuntu/SwitchON/src/ai-agents/agents.js:39-59 | a template's text depends on exactly what its holes read: equal readings give equal text, and readings that differ in one place give equal text exactly when that reading is equal |
| `Agents.RenderUpdated` | home/ubuntu/SwitchON/src/ai-agents/agents.js:39-59 | replacing one field of one argument, when only hole n can read it, changes the text exactly when hole n's text changes |
| `Agents.StrategyReads` | home/ubuntu/SwitchON/src/ai-agents/agents.js:38-59 | the strategy prompt depends on exactly how the company's name, industry, arr, icp, ticket-size property and channels print, in that order |
| `Agents.QualifierReads` | home/ubuntu/SwitchON/src/ai-agents/agents.js:72-92 | the qualifier prompt depends on exactly how the lead's name, company, position, industry, companySize, budget and painPoints print, and on the ICP text |
| `Agents.OutreachReads` | home/ubuntu/SwitchON/src/ai-agents/agents.js:105-122 | the outreach prompt depends on exactly the channel, how the lead's name, company, position, industry and pain-points property print, and the strategy text |
| `Agents.OptimizerReads` | home/ubuntu/SwitchON/src/ai-agents/agents.js:135-158 | the optimizer prompt depends on exactly how the campaign's name, channel, target-audience property and content print, and the performance's impressions, ctr, conversionRate and cpa |
| `Agents.StrategyTicketAsWritten` | home/ubuntu/SwitchON/src/ai-agents/agents.js:48 | as written, the ticket-size line reads "undefined" for every stored company |
| `Agents.StrategyIgnoresTicketSize` | home/ubuntu/SwitchON/src/ai-agents/agents.js:38-59 | as written, two companies that differ only in ticket size get the same prompt |
| `Agents.StrategyAsWrittenVsCorrected` | home/ubuntu/SwitchON/src/ai-agents/agents.js:48 | the prompt as written equals the corrected one exactly when the stored ticket size itself prints "undefined" |
| `Agents.StrategyTicketCorrected` | home/ubuntu/SwitchON/src/ai-agents/agents.js:48 | reading the stored column, the line shows the company's ticket size |
| `Agents.StrategyCorrectedReadsTicketSize` | home/ubuntu/SwitchON/src/ai-agents/agents.js:48 | reading the stored column, changing only the ticket size changes the prompt exactly when its printed text changes |
| `Agents.OutreachPainAsWritten` | home/ubuntu/SwitchON/src/ai-agents/agents.js:116 | as written, the pain-points line reads "undefined" for every stored lead |
| `Agents.OutreachIgnoresPainPoints` | home/ubuntu/SwitchON/src/ai-agents/agents.js:105-122 | as written, two leads that differ only in pain points get the same prompt |
| `Agents.OutreachAsWrittenVsCorrected` | home/ubuntu/SwitchON/src/ai-agents/agents.js:116 | the prompt as written equals the corrected one exactly when the lead's pain points are the text "undefined" |
| `Agents.OutreachPainCorrected` | home/ubuntu/SwitchON/src/ai-agents/agents.js:116 | reading the stored column, the line shows the lead's pain points |
| `Agents.OutreachCorrectedReadsPainPoints` | home/ubuntu/SwitchON/src/ai-agents/agents.js:116 | reading the stored column, changing only the pain points changes the prompt exactly when their printed text changes (a null prints "null") |
| `Agents.OptimizerAudienceAsWritten` | home/ubuntu/SwitchON/src/ai-agents/agents.js:144 | as written, the target-audience line reads "undefined" for every stored campaign |
| `Agents.OptimizerIgnoresAudience` | home/ubuntu/SwitchON/src/ai-agents/agents.js:135-158 | as written, two campaigns that differ only in target audience get the same prompt |
| `Agents.OptimizerAsWrittenVsCorrected` | home/ubuntu/SwitchON/src/ai-agents/agents.js:144 | the prompt as written equals the corrected one exactly when the campaign's target audience is the text "undefined" |
| `Agents.OptimizerAudienceCorrected` | home/ubuntu/SwitchON/src/ai-agents/agents.js:144 | reading the stored column, the line shows the campaign's target audience |
| `Agents.OptimizerCorrectedReadsAudience` | home/ubuntu/SwitchON/src/ai-agents/agents.js:144 | reading the stored column, changing only the target audience changes the prompt exactly when its printed text changes (a null prints "null") |
| `Effects.PromptText` | home/ubuntu/SwitchON/src/ai-agents/agents.js:38-158 | the prompt a completion call sends is built as written, and equals the corrected prompt exactly when the misread column itself prints "undefined" |
| `Effects.PromptIgnoresColumn` | home/ubuntu/SwitchON/src/ai-agents/agents.js:38-158 | the prompt as sent is unchanged by any change to the misread column: ticket size, pain points or target audience |
| `Effects.CorrectedPromptReadsColumn` | home/ubuntu/SwitchON/src/ai-agents/agents.js:38-158 | the corrected prompt changes with that column exactly when the column prints differently |
| `Js.Trim` | home/ubuntu/SwitchON/src/ai-agents/agents.js:23 | the result is a slice with only white space outside it, and it neither starts nor ends with white space |
| `Js.TrimIdempotent` | home/ubuntu/SwitchON/src/ai-agents/agents.js:23 | trimming twice is trimming once |
| `Js.Capitalize` | home/ubuntu/SwitchON/src/backend/routes/content.js:65 | same length, first character upper-cased, the rest unchanged |
| `Js.Split` | home/ubuntu/SwitchON/src/frontend/js/strategy.js:194 | at least one part, no part contains the separator, and joining the parts gives the text back |
| `Js.SplitJoin` | home/ubuntu/SwitchON/src/frontend/js/strategy.js:206 | splitting parts joined by a separator they cannot be cut at gives the parts back |
| `Js.LastValueAppend` | home/ubuntu/SwitchON/src/ai-agents/agents.js:9 | in `{...a, ...b}` a key of `b` wins whatever its value, and other keys come from `a` |
| `Js.GetProp` | home/ubuntu/SwitchON/src/backend/routes/onboarding.js:9-14 | a property read throws exactly on undefined and null; a key an object lacks reads as undefined |
| `Js.JsonText` | home/ubuntu/SwitchON/src/backend/routes/onboarding.js:21-25 | `JSON.stringify` gives no text exactly for undefined, and braces for an object |
| `Js.NatToStringRoundTrip` | home/ubuntu/SwitchON/src/frontend/js/strategy.js:202 | the decimal digits written for a heading rank read back as that number |
| `Seqs.FilterFilter` | home/ubuntu/SwitchON/src/frontend/js/actions.js:189-197 | two filters in a row keep what one filter by both tests keeps, in order |
| `Seqs.GroupByGroups` | home/ubuntu/SwitchON/src/frontend/js/analytics.js:188-204 | grouping gives distinct keys, each bucket is exactly the rows with its key in order, and every row's key has a bucket |
| `Seqs.GroupByPreservesSum` | home/ubuntu/SwitchON/src/frontend/js/analytics.js:201-203 | the buckets' sums add up to the sum over all rows |
| `ActionsView.StatusBadge` | home/ubuntu/SwitchON/src/frontend/js/actions.js:203-225 | the badge text is the capitalised status |
| `ActionsView.StatusBadgesDistinguish` | home/ubuntu/SwitchON/src/frontend/js/actions.js:207-222 | the four states the backend accepts get four different classes, and exactly the other statuses get the grey fallback |
| `ActionsView.TypeBadge` | home/ubuntu/SwitchON/src/frontend/js/actions.js:228-253 | the badge text is the capitalised type |
| `ActionsView.TypeBadgeFollowsWorkflows` | home/ubuntu/SwitchON/src/frontend/js/actions.js:232-250 | a type has the class `type-<type>` exactly when it has a workflow of its own, and no class otherwise |
| `ActionsView.Preview` | home/ubuntu/SwitchON/src/frontend/js/actions.js:165 | the preview keeps the first 50 characters and adds "..." exactly when the content is longer |
| `ActionsView.PreviewIdempotent` | home/ubuntu/SwitchON/src/frontend/js/actions.js:165 | a preview previews as itself |
| `ActionsView.PreviewSeesFifty` | home/ubuntu/SwitchON/src/frontend/js/actions.js:165 | two long contents sharing their first 50 characters have the same preview |
| `ActionsView.TwoFiltersAsOne` | home/ubuntu/SwitchON/src/frontend/js/actions.js:189-197 | the status filter then the type filter keep exactly what both tests together keep |
| `ActionsView.FilterActions` | home/ubuntu/SwitchON/src/frontend/js/actions.js:183-200 | the shown actions are those passing both non-empty filters, in list order; with both empty the list is unchanged |
| `ActionsView.ClientFilterMatchesServer` | home/ubuntu/SwitchON/src/frontend/js/actions.js:189-197 | filtering the full list in the browser gives what the server returns for the same filters |
| `ActionsView.DetailButtons` | home/ubuntu/SwitchON/src/frontend/js/actions.js:322-331 | Reject and Approve iff pending, Mark Completed iff approved, Assign iff nobody is assigned |
| `ActionsView.Sends` | home/ubuntu/SwitchON/src/frontend/js/actions.js:343-362 | Assign is the one button that sends no status; every other button sends a status the server accepts, never 'pending' |
| `ActionsView.SendsDistinct` | home/ubuntu/SwitchON/src/frontend/js/actions.js:343-362 | different status buttons send different statuses |
| `ActionsView.ButtonsSendValidStatuses` | home/ubuntu/SwitchON/src/frontend/js/actions.js:343-362 | every status button the page shows sends a status the server accepts |
| `ActionsView.ApproveThenComplete` | home/ubuntu/SwitchON/src/frontend/js/actions.js:322-346 | approving a pending action makes the returned row offer Mark Completed and no longer Approve or Reject |
| `ContentView.StatusBadge` | home/ubuntu/SwitchON/src/frontend/js/content.js:221-243 | the badge text is the capitalised status |
| `ContentView.StatusBadgesDistinguish` | home/ubuntu/SwitchON/src/frontend/js/content.js:225-240 | the four campaign states get four different classes; any other status looks like a draft |
| `ContentView.ChannelBadge` | home/ubuntu/SwitchON/src/frontend/js/content.js:246-268 | the badge text is the capitalised channel |
| `ContentView.ChannelBadgeClass` | home/ubuntu/SwitchON/src/frontend/js/content.js:250-265 | the class is `channel-<channel>` exactly for email, linkedin, sms and ads; every channel with templates has one, and ads has one without templates |
| `ContentView.FilterCampaigns` | home/ubuntu/SwitchON/src/frontend/js/content.js:206-218 | an empty channel shows every campaign; otherwise exactly the campaigns on that channel |
| `ContentView.ClientFilterMatchesServer` | home/ubuntu/SwitchON/src/frontend/js/content.js:211-215 | filtering the company's campaigns in the browser gives what the server returns for that channel, in the same order |
| `ContentView.DetailButtons` | home/ubuntu/SwitchON/src/frontend/js/content.js:320-323 | Edit always; Activate exactly for a draft |
| `ContentView.ActivateAccepted` | home/ubuntu/SwitchON/src/frontend/js/content.js:408-423 | activating sends a status the server accepts, and the returned row no longer offers Activate |
| `ContentView.GenerationRequest` | home/ubuntu/SwitchON/src/frontend/js/content.js:358-385 | no request without both a lead and a channel; otherwise the body names them with the page's company and user |
| `ContentView.FormPassesValidation` | home/ubuntu/SwitchON/src/frontend/js/content.js:365-385 | a request the form sends is answered 400 exactly when the page has no company id |
| `ContentView.GeneratedCampaignCanBeActivated` | home/ubuntu/SwitchON/src/frontend/js/content.js:320-322 | a freshly generated campaign offers Activate |
| `StrategyView.StatusBadge` | home/ubuntu/SwitchON/src/frontend/js/strategy.js:98-117 | the badge text is the capitalised status |
| `StrategyView.StatusBadgesDistinguish` | home/ubuntu/SwitchON/src/frontend/js/strategy.js:102-114 | the three strategy states get three different classes; any other status looks like a draft |
| `StrategyView.DetailButtons` | home/ubuntu/SwitchON/src/frontend/js/strategy.js:164-167 | Edit always; Approve exactly for a draft |
| `StrategyView.GeneratedStrategyCanBeApproved` | home/ubuntu/SwitchON/src/frontend/js/strategy.js:164-166 | a freshly generated strategy offers Approve |
| `StrategyView.ApproveAccepted` | home/ubuntu/SwitchON/src/frontend/js/strategy.js:268-284 | approving sends "active", which the server accepts, and the returned row no longer offers Approve |
| `StrategyView.Run` | home/ubuntu/SwitchON/src/frontend/js/strategy.js:200 | the longest prefix of characters passing the test |
| `StrategyView.MarkerLength` | home/ubuntu/SwitchON/src/frontend/js/strategy.js:205 | what the list test matches is a whole marker: `-` or digits and a dot, then one white-space character |
| `StrategyView.MarkerFound` | home/ubuntu/SwitchON/src/frontend/js/strategy.js:205-209 | a line that starts with a marker is recognised by exactly that marker |
| `StrategyView.NoMarker` | home/ubuntu/SwitchON/src/frontend/js/strategy.js:205 | a line the list test rejects starts with no marker at all |
| `StrategyView.Unmark` | home/ubuntu/SwitchON/src/frontend/js/strategy.js:209 | removing the marker keeps a suffix of the line, and a line without a marker is kept whole |
| `StrategyView.Classify` | home/ubuntu/SwitchON/src/frontend/js/strategy.js:199-216 | a leading `#` makes a heading whose level is the run of `#`s and whose text follows the white space after them; otherwise a leading marker makes a list with one item per line; anything else is the paragraph itself |
| `StrategyView.ClassifyHeading` | home/ubuntu/SwitchON/src/frontend/js/strategy.js:199-202 | writing a heading back as `#`s, white space and text reads as that heading |
| `StrategyView.ClassifyItems` | home/ubuntu/SwitchON/src/frontend/js/strategy.js:205-211 | writing list lines back, each a marker and its text, reads as the list of those texts |
| `StrategyView.ClassifyList` | home/ubuntu/SwitchON/src/frontend/js/strategy.js:205-209 | a paragraph opening with a marker and no `#` is the list of its lines without their markers |
| `StrategyView.ListOpens` | home/ubuntu/SwitchON/src/frontend/js/strategy.js:205 | written-back list lines pass the list test and not the heading test |
| `StrategyView.SplitLines` | home/ubuntu/SwitchON/src/frontend/js/strategy.js:206 | lines without a newline, joined by newlines, split back into themselves |
| `StrategyView.UnmarkLines` | home/ubuntu/SwitchON/src/frontend/js/strategy.js:208-210 | each written-back line loses exactly its marker |
| `StrategyView.FormatSingle` | home/ubuntu/SwitchON/src/frontend/js/strategy.js:194-218 | a text without a blank line is formatted as one block |
| `StrategyView.FormatFirst` | home/ubuntu/SwitchON/src/frontend/js/strategy.js:194-218 | the first paragraph is formatted on its own and the rest after it |
| `StrategyView.FormatJoin` | home/ubuntu/SwitchON/src/frontend/js/strategy.js:192-218 | paragraphs joined by blank lines are formatted one block per paragraph, in order |
| `StrategyView.FormatParagraph` | home/ubuntu/SwitchON/src/frontend/js/strategy.js:214-216 | plain text with no heading mark, list marker or blank line is emitted verbatim inside `<p>` |
| `AnalyticsView.QualificationRate` | home/ubuntu/SwitchON/src/frontend/js/analytics.js:91 | the card is qualified leads over leads, times 100, and 0 without leads |
| `AnalyticsView.QualificationRateIsPercent` | home/ubuntu/SwitchON/src/frontend/js/analytics.js:91 | the card is always between 0 and 100 |
| `AnalyticsView.LeadsChart` | home/ubuntu/SwitchON/src/frontend/js/analytics.js:108-127 | no day shows more qualified leads than leads |
| `AnalyticsView.LeadsChartExact` | home/ubuntu/SwitchON/src/frontend/js/analytics.js:113-127 | each day appears once and counts exactly that day's leads and its qualified ones, so a day without a qualified lead shows 0; every lead's day appears |
| `AnalyticsView.LeadsChartAddsUp` | home/ubuntu/SwitchON/src/frontend/js/analytics.js:113-120 | the per-day counts add up to the dashboard's lead and qualified-lead cards |
| `AnalyticsView.Label` | home/ubuntu/SwitchON/src/frontend/js/analytics.js:191 | a missing or empty name shows as "Unknown"; any other name as itself |
| `AnalyticsView.BarsExact` | home/ubuntu/SwitchON/src/frontend/js/analytics.js:188-204 | each label appears once, its totals are those of exactly the rows with that label, and every row's label appears |
| `AnalyticsView.CampaignChart` | home/ubuntu/SwitchON/src/frontend/js/analytics.js:188-204 | one bar per campaign name, each name once, each bar the totals of exactly the rows with that name, and every row's name has a bar |
| `AnalyticsView.BarsAddUp` | home/ubuntu/SwitchON/src/frontend/js/analytics.js:201-203 | across all bars, impressions, clicks and conversions add up to the dashboard's totals, whatever the label |
| `AnalyticsView.ChannelPointOf` | home/ubuntu/SwitchON/src/frontend/js/analytics.js:299-312 | per channel, ctr and conversion rate in percent and cpa, each 0 when its divisor is 0 |
| `AnalyticsView.ChannelChart` | home/ubuntu/SwitchON/src/frontend/js/analytics.js:275-312 | one point per channel, each channel once, each point the rates of exactly the rows of that channel, and every row's channel has a point |
| `AnalyticsView.OneChannelMatchesKpis` | home/ubuntu/SwitchON/src/frontend/js/analytics.js:275-312 | rows from one channel give one point whose rates are the dashboard's own, in percent |

## Left out

- Express, HTTP parsing and JSON encoding of replies are not modelled. Each handler is one atomic step, so concurrent requests and last-write-wins are not modelled either.
- The database is not modelled as a query engine; its tables are sequences. The ordering clauses are not modelled: `order('created_at', { ascending: false })` on lists and `order('date')` on metrics. Lists come back in table order.
- `.single()` reports "no row" and "several rows" as an error object. Both come through the read's fault parameter. The 404 branches for a row that is missing while no error is reported are modelled as the route writes them.
- `ContentRoutes.Latest`: the database leaves ties in `created_at` unordered. The model breaks them toward table order, and its contract promises only a latest row.
- The dashboard's date window depends on the clock, so the three dashboard reads come in as `Read` parameters; the window start is modelled only as an offset (`Days`, `Months`, `Years`).
- `AnalyticsRoutes.Recommend`: the optimizer's metric read (analytics.js:219-224) has no date window; it takes the campaign's rows, newest `date` first, at most seven. The model takes the read's rows as a parameter. `RecentOf` states that they are at most seven stored rows of the campaign, and the success clauses of `Recommend`, `Optimize` and `OptimizeStoresOneAction` assume it. Which seven (the newest by date), their order and their number (seven, or all of them when there are fewer) are not modelled, because the model has no date ordering.
- `new Date()` is a parameter: `now`, and `today` for the metric date. So is `toLocaleDateString` (`DayText`).
- The leads chart's sort by date is not modelled. Neither is the order `Object.keys` gives integer-like labels. The chart points come in first-seen order.
- `toFixed` and JavaScript's number-to-text conversion are not modelled. The latter is a `NumberText` parameter.
- Cost and every rate are exact reals, so floating-point rounding is not modelled.
- `toUpperCase` is modelled for ASCII letters only. `substring` counts characters, not UTF-16 code units.
- The formatter and the badges insert text into HTML without escaping, as the source does. No escaping property is stated.
- `AnalyticsView.BarsAddUp`: covers impressions, clicks and conversions. The channel chart's cost sum is not related to the dashboard cost, because reals summed in another grouping order need an extra rearrangement lemma.
- The meeting-rate card, the total-cost card and their `toFixed` formatting are not modelled. Neither are the campaigns table of the analytics page, the DOM, Chart.js, `fetch`, `alert` and `confirm`.
- The Lead Qualifier's prompt is modelled (`Agents.QualifierReads`), but no route calls the agent, so nothing calls it in the model.
- These files are not part of this model:
  - the notification client (`backend/services/lovable.js`);
  - the n8n workflow templates;
  - the onboarding page script;
  - the server bootstrap.
- The webhook base URL and API key come from the environment, so a webhook call is recorded by its path and payload only.
- The browser scripts for the actions, content and analytics pages are modelled only up to the visible end of each file, about 16 KB. Later functions (the assignment dialog, the campaign chart's rendering) are not part of this model.
- `OnboardingRoutes.UpdateCompany`: models only the six data columns of a company. A body naming `id` or `created_at`, or a column the table lacks, is outside the model; the database would reject or rewrite such a write.
- `Db.Column`: an `undefined` property is left out of an insert and stored as null. The table's own column defaults are not modelled.
- Request bodies and query strings: the fields the routes read as text (`channel`, `lead_id`, `status`, `type`, `content`, `assigned_to`, `period`, …) are assumed to be strings or absent, and the counters and cost of `POST /metrics` to be numbers or absent. Any other JSON value there is outside the model, and so is a repeated query parameter, which Express turns into an array. For example, `{"channel": 5}` passes the test at content.js:18 but throws at `channel.charAt` (content.js:65) after the completion call, and the catch (content.js:105-107) answers 500. Only the onboarding routes (`Onboard`, `UpdateCompany`, `CreateUser`) read their body as JavaScript values (`Js.Value`).
- `Db.Action`: `content` is a text column, but the schema lets it be null. A null content is not modelled; the page's `content.substring` would throw on it.
- Group labels that are names of inherited object members (`__proto__`, `constructor`) behave differently in a JavaScript object. The chart model treats every label as an ordinary key.

## Findings

| source | as written | input that shows it | evidently intended | confidence | as-written member | corrected member |
|---|---|---|---|---|---|---|
| home/ubuntu/SwitchON/src/ai-agents/agents.js:48 | the strategy prompt reads `companyData.ticketSize`, but the company row stores `ticket_size` | any stored company, e.g. one with `ticket_size` 5000: the line reads "Average Ticket Size: undefined" | the line shows the stored ticket size | not executed | `Agents.StrategyTicketAsWritten` | `Agents.StrategyTicketCorrected` |
| home/ubuntu/SwitchON/src/ai-agents/agents.js:116 | the outreach prompt reads `leadData.painPoints`, but the lead row stores `pain_points` | any stored lead: the line reads "Pain Points: undefined" | the line shows the lead's pain points | not executed | `Agents.OutreachPainAsWritten` | `Agents.OutreachPainCorrected` |
| home/ubuntu/SwitchON/src/ai-agents/agents.js:144 | the optimizer prompt reads `campaignData.targetAudience`, but the campaign row stores `target_audience` | any stored campaign: the line reads "Target Audience: undefined" | the line shows the campaign's target audience | not executed | `Agents.OptimizerAudienceAsWritten` | `Agents.OptimizerAudienceCorrected` |
| home/ubuntu/SwitchON/src/backend/routes/content.js:333-337 | `if (templates[channel])` is also true for members every object inherits | `GET /templates/constructor` answers 200 with no templates | 404 for every channel without templates of its own | not executed | `ContentRoutes.TemplatesAsWritten` | `ContentRoutes.Templates` |
| home/ubuntu/SwitchON/src/backend/routes/analytics.js:50-55 | the dashboard filters on `campaigns.company_id`, which restricts only the embedded campaign, so the metric rows of every company in the date window come back | company "mine" asks for its dashboard while company "other" has a campaign with a metric row of 10 impressions in the window: the impressions KPI reads 10, and the row shows under "Unknown" in the charts | only the company's metric rows are read and counted | not executed | `AnalyticsRoutes.DashboardCountsOtherCompanies` | `AnalyticsRoutes.DashboardImpressions` |

A completion call is recorded as the question it was built from, and
`Effects.PromptText` is the prompt that call sends, built as written.
`Effects.CorrectedPromptText` is the corrected half of the three prompt
findings. The templates route is modelled both ways: `ContentRoutes.TemplatesAsWritten`
as written and `ContentRoutes.Templates` as intended. So is the dashboard's
metric read: `AnalyticsRoutes.DashboardMetricsAsWritten` and
`AnalyticsRoutes.DashboardMetrics`. `AnalyticsRoutes.GetDashboard` takes whatever
rows that read returned.

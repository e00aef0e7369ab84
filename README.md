# Activity statistics service: webhook classification and dashboard datasets

This project models the core of a small Go service. The service receives webhook events from a client-portal product. It attributes each event to an actor class, either the portal's `client` or its `admin`, and appends one entry per event to an activity log. It serves the dashboard a fixed list of chart datasets computed from that log.

The model has six modules:

- `Wrappers`: `Option` and `Result`.
- `StatsModel` (`stats_model.go`): the actor class and the chart kinds with their wire strings, the log entry, data points, datasets and the response.
- `Webhook` (`main.go`, classifier):
  - `ParseField`, and `Contains` for the Go `strings.Contains`.
  - The classification table `RuleFor` and the classification it defines, `Classify`.
  - The registry lookups a body causes, `RegistryQueries`.
  - Lemmas for each per-event rule.
- `ActivityStore`: the log store, kept abstract. The class `ActivityLogStore` holds an append-only `entries: seq<ActivityLog>`. `InsertActivity` appends to it. `CountForEvents` stands for the store's count query.
- `Stats` (`main.go`, dataset builders): `SignupData`, `ActivityPerPortal`, the trend points `LinePoints` with the imperative `SigupLineChart`, `PortalPerClient`, and the filter `Present` that keeps the successful builders' charts.
- `Handlers` (`main.go`, the handler struct): the class `APIHandlers`, which holds the store. `WebhookEvents` builds the entry by updating its fields branch by branch, as the Go code does, and then inserts it. `GetActivityStats` appends each successful chart in turn.

Modelling choices:

- A JSON value under a key of the payload's `data` is `Str(s)` or `Other` (any non-string value, `null` included).
  - A body that does not decode is `None`.
  - An `inviteUrl` that is present but not a string makes the Go type assertion panic. The model records this as `Panicked`, with no entry.
- The registry call `GetClient` is the oracle `lookupSucceeds: string -> bool`. It is true of an id when the call returns no error. `WebhookEvents` returns the ids it looked up, so that "no lookup for an empty subject" can be stated.
- Time is passed in as integers:
  - `now` is the instant stored in an entry.
  - `today` is a day number. `Weekday(d) = d % 7`, where day 0 is a Sunday, numbered as Go's `time.Weekday` numbers days. Dafny's `%` is Euclidean, so earlier days also get the right weekday.
- The per-day and per-client store queries are not in the source. They are inputs of `GetActivityStats` of type `Result`.
- The log entry follows the handler's use of it: `eventType`, `userId`, `createdBy` and `createDate`. The handler never sets the id, so it is `""`. `stats_model.go` declares the fields as `Type`, `CreateType` and a pointer time.
- Go field names that are Dafny keywords are renamed: `Type` becomes `kind`, `Label` becomes `caption`.

Two behaviours of the code are easy to misread, and the model keeps them as written:

- A successful registry lookup makes a file, link or message event a `client` event. The comment at `main.go:298` reads the other way.
- The trend chart has exactly as many points as the store's per-day list. The handler does not fill in missing days, so the chart has 7 points only when the store returns 7 counts, and position i always stands for i days back (`SigupLineChart`, `LinePoints`).

## Model

| member | source | states |
|---|---|---|
| `StatsModel.CreateType.Wire` | stats_model.go:5-10 | the actor class is written as "client" or "admin" |
| `StatsModel.CreateTypeFromWire` | stats_model.go:7-10 | exactly the strings "client" and "admin" are actor classes, each reads back to the class that writes it |
| `StatsModel.CreateTypeRoundTrip` | stats_model.go:7-10 | each actor class reads back from its own wire string, so the two constants differ |
| `StatsModel.ActivityStatsType.Wire` | stats_model.go:24-31 | a chart kind is written as one of "pie", "line", "bar-single", "bar-multiple" |
| `StatsModel.StatsTypeFromWire` | stats_model.go:26-31 | exactly those four strings are chart kinds, each reads back to the kind that writes it |
| `StatsModel.StatsTypeRoundTrip` | stats_model.go:26-31 | each of the four chart kinds reads back from its own wire string |
| `Webhook.ParseField` | main.go:309-322 | the field's string when the key is present and holds a string, "" when it is absent or not a string; no precondition, no failure |
| `Webhook.ContainsIff` | main.go:271 | the substring search answers true exactly when "/u/" (any `sub`) occurs at some position of the URL |
| `Webhook.RuleFor` | main.go:267-304 | exactly the seven handled event types have a rule |
| `Webhook.NoEntryUnlessRecognised` | main.go:257-267 | an undecodable body yields no entry; an unhandled event type yields no entry and no lookup; a handled one yields an entry with the payload's event type, time = now and no id, or (only for client.created) a panic |
| `Webhook.ClientCreatedAttribution` | main.go:268-275 | client.created panics exactly when inviteUrl is present and not a string; otherwise the subject is data.id and the class is admin iff inviteUrl is present and contains "/u/"; no lookup |
| `Webhook.FixedAttribution` | main.go:276-285 | client.deleted is admin, client.activated and form_response.completed client, subject from id / clientId, whatever else the payload holds; no lookup |
| `Webhook.RegistryAttribution` | main.go:286-301 | file/link subject from createdBy, message subject from senderId; empty subject: admin and no lookup; otherwise exactly one lookup of the subject and client iff it succeeds |
| `Webhook.OnlyQueriedLookupsMatter` | main.go:295-300 | the registry affects the classification only through the ids actually looked up |
| `Webhook.ClassifiedEntriesWellAttributed` | main.go:276-285 | every entry the classifier produces gives deletions the admin class and activations and form submissions the client class |
| `Webhook.InvitedSignupScenario` | main.go:268-275 | a client.created body with id "u1" and an invitation URL containing "/u/" is recorded as an admin-caused entry for "u1" |
| `Webhook.DirectSignupScenario` | main.go:268-275 | a client.created body with id "u2" and no inviteUrl is recorded as a client-caused entry for "u2" |
| `ActivityStore.CountForEvents` | main.go:79 | the count query never exceeds the log's size and is 0 on an empty log |
| `ActivityStore.CountForEventsAppend` | main.go:306 | inserting one entry raises by one exactly the count of its (event type, class) pair and leaves every other count alone |
| `ActivityStore.CountSplitByActor` | stats_model.go:7-10 | since every entry is client or admin, an event type's client and admin counts add up to all its entries |
| `ActivityStore.ActivityLogStore.constructor` | main.go:21 | the opened store holds exactly the entries it was opened over, which may come from earlier runs |
| `ActivityStore.ActivityLogStore.InsertActivity` | main.go:306 | inserting appends the entry after all earlier ones and changes nothing else |
| `Stats.SignupData` | main.go:177-204 | the signup chart never fails and is a pie of two points |
| `Stats.SignupSourceCounts` | main.go:188-202 | "direct-signup" counts client-caused client.created entries, "invited" admin-caused ones, and the two add up to all client.created entries |
| `Stats.ActivityPerPortal` | main.go:78-175 | the portal chart never fails and is nine bars in a fixed order with distinct keys, bar i counting the (event type, class) pair of row i of the table |
| `Stats.PortalActivitySplitsEveryCreation` | main.go:94-122 | the admin and client bars of files, links and messages together count every such entry |
| `Stats.PortalActivityCountsEveryFixedEvent` | main.go:79-92 | on a log of classified entries the deletion, activation and form bars count every entry of their event type |
| `Stats.LinePoints` | main.go:216-223 | one trend point per per-day count, no more and no fewer |
| `Stats.LinePointsAt` | main.go:216-223 | point i carries count i and is keyed and labelled with the weekday name of today - i |
| `Stats.LinePointsAppend` | main.go:218-222 | appending a count appends one point for the day that many days back |
| `Stats.LinePointsStepBack` | main.go:217 | point i is labelled with the weekday of today - i and point i+1 with the weekday before it |
| `Stats.WeekdayOfDayBefore` | main.go:217 | stepping back one day steps the weekday back by one, from Sunday to Saturday |
| `Stats.SevenPointsDistinctDays` | main.go:216-223 | with seven counts the seven labels are pairwise different weekdays |
| `Stats.SevenPointsCoverTheWeek` | main.go:216-223 | with seven counts every weekday labels some point, weekday w the point (today - w) mod 7 |
| `Stats.SigupLineChart` | main.go:206-231 | a failed per-day query gives an error and no chart; otherwise a line chart with as many points as counts, point i having count i and the weekday of today - i as key and label |
| `Stats.PortalPerClient` | main.go:233-245 | the per-client chart is the store's rows unchanged as a multiple-bar chart, and an error exactly when the query failed |
| `Stats.PresentIff` | main.go:51-68 | a chart is in the response exactly when some builder produced it |
| `Stats.ResponseShape` | main.go:50-72 | the response has 2 to 4 charts: signup source first, then the trend if its query succeeded, the portal chart, and the per-client chart last if its query succeeded |
| `Handlers.APIHandlers.constructor` | main.go:34-36 | the handlers hold the given store |
| `Handlers.APIHandlers.WebhookEvents` | main.go:254-307 | the log gains exactly the classified entry (none when undecodable, unhandled or panicked), the earlier entries are unchanged, the lookups made are exactly `RegistryQueries`, and a log of well-attributed entries stays so |
| `Handlers.APIHandlers.GetActivityStats` | main.go:50-76 | the response holds the successful builders' charts in order, 2 to 4 of them, always the signup source first and the portal chart, and 4 iff both store queries succeeded |
| `Handlers.SignupReachesDashboard` | main.go:268-275 | after a client.created event the invited slice grows by one if its URL is an invitation link, the direct slice grows by one otherwise |
| `Handlers.DeletionReachesDashboard` | main.go:276-278 | after a client.deleted event the "clients-deleted" bar grows by one |

## Left out

- `main` (main.go:15-44): the port and asset-path configuration, the file server and `ListenAndServe`. These are process setup and I/O.
- `GetClient` (main.go:324-350): the HTTP request to the client registry. It is the `lookupSucceeds` oracle, so its key, host, status and body handling are not modelled.
- JSON decoding of the webhook body and JSON encoding of the response. The decoded body is an input and the response is returned as a value.
- ActivityStore.CountForEvents: counts the whole log. The store's query, its 7-day window and its error path are not part of this model. The builders use the returned count even when the query reports an error, and the model does not represent that error.
- ActivityStore.ActivityLogStore.InsertActivity: always appends. The store's insert can fail, but the handler ignores the result (main.go:306), so a failed insert only means a missing entry. The store assigns ids, which is not modelled.
- The per-day and per-client store queries (`EventCountOverTime`, `EventCountByUser`) are not part of this model. This includes their day bucketing and the display-name enrichment with its "Demo Client" fallback. They enter `GetActivityStats` as `Result` inputs.
- Stats.SigupLineChart: the model computes weekdays from day numbers. Go's `AddDate` and `Weekday` use the local time zone and daylight-saving rules, which are not modelled.
- The `fmt.Println` and `log` calls are logging only.
- Concurrency between requests is left to `net/http` and the database.
- `web/src/pages/Home/index.tsx` renders a fixed demonstration chart and is outside the core.

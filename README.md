# Dashboard layout store, metrics string indexer and three endpoints: a Dafny model

This project models five pieces of logic from the error-monitoring product's
repository and proves properties about them:

- **Grid-layout store** (`GridLayout`, `grid_layout.dfy`). A dashboard's widget
  layout is kept in browser storage under `grid-layout-<org>-<dashboard>`.
  The store is a `map<string, string>` field of the `LayoutStore` class. JSON is
  an abstract `stringify`/`parse` pair, and `parse` may throw. Placeholder ids
  (those starting with `index`) are relabelled `<savedWidgets[i].id>-<id>`
  after a save.
- **Metrics string indexer** (`StringIndexer`, `string_indexer.dfy`). A table
  of string/id rows whose ids are distinct, with a fresh-id allocator.
  `bulk_record` inserts only the missing strings and keeps every existing id.
  `resolve` and `reverse_resolve` read the table in either direction.
- **Processing-issue hint** (`ProcessingIssueHint`,
  `processing_issue_hint.dfy`). A priority rule over three counters picks the
  alert kind, icon, text, last-event note and details button, or renders
  nothing.
- **Integration publish request** (`SentryAppPublishRequest`,
  `publish_request.dfy`). An ordered chain of 400 guards. If every guard
  passes, the status becomes "publish request in progress", a mail is built
  from the questionnaire in a loop, and the answer is 201.
- **Notification fine-tuning** (`NotificationFineTuning`, `fine_tuning.dfy`).
  The checks run in order: 404 for an unknown type, then 400 for a
  non-integer id, then 403 for an id that is not the user's. The request then
  takes either the email path (verified-address check, then one address per
  project) or the settings path (only the parents the payload names). Each
  path writes in one transaction.

`Strings` (`strings.dfy`) holds the shared helpers: prefixes, splitting at
the first separator, and Python's `str(int)` / `int(str)`.
`Wrappers` (`wrappers.dfy`) holds `Option` and `Result`.

`getDashboardLayout` has no `try`, so a SyntaxError from `JSON.parse` on
malformed stored text reaches the caller. `GridLayout.Load` returns
`SyntaxError` in that case (see `GridLayout.LoadCorruptThrows`); it does not
fall back to the empty layout.

The settings path of the fine-tuning endpoint uses the corrected partition of
lines 149-153 (see "## Findings"): a project parent is written as the
`project` argument. The code as written passes it as `organization`; that
version is `NotificationFineTuning.PartitionAsWritten`.

## Model

| member | source | states |
|---|---|---|
| `GridLayout.StorageKey` | static/app/views/dashboardsV2/gridLayout/utils.ts:6-7 | the key starts with `grid-layout-`, followed by the organization id, `-` and the dashboard id |
| `GridLayout.StorageKeyCollides` | static/app/views/dashboardsV2/gridLayout/utils.ts:6-7 | two (organization, dashboard) pairs share a key exactly when `org + "-" + dashboard` agree |
| `GridLayout.StorageKeyNotInjective` | static/app/views/dashboardsV2/gridLayout/utils.ts:6-7 | the key is not injective: ("a-b", "c") and ("a", "b-c") give the same key |
| `GridLayout.StorageKeyInjective` | static/app/views/dashboardsV2/gridLayout/utils.ts:6-7 | when neither organization id contains `-`, equal keys mean equal organization and dashboard ids |
| `GridLayout.Load` | static/app/views/dashboardsV2/gridLayout/utils.ts:9-19 | nothing or "" under the dashboard's key gives the empty layout; any other stored text gives what `JSON.parse` makes of it, error included |
| `GridLayout.Save` | static/app/views/dashboardsV2/gridLayout/utils.ts:21-30 | the storage afterwards has the dashboard's key added, holding `JSON.stringify(layout)`; every other key keeps its value |
| `GridLayout.LoadMissIsEmpty` | static/app/views/dashboardsV2/gridLayout/utils.ts:14-18 | nothing stored, or the empty string stored, under the key loads as the empty layout |
| `GridLayout.LoadCorruptThrows` | static/app/views/dashboardsV2/gridLayout/utils.ts:14-16 | non-empty stored text that `JSON.parse` rejects makes the load throw; it does not become [] |
| `GridLayout.SaveThenLoad` | static/app/views/dashboardsV2/gridLayout/utils.ts:9-30 | if parse undoes stringify and stringify never gives "", loading after a save returns the saved layout |
| `GridLayout.SaveWritesOnlyItsKey` | static/app/views/dashboardsV2/gridLayout/utils.ts:26-29 | a save leaves every other key's presence and value unchanged |
| `GridLayout.SaveIsolation` | static/app/views/dashboardsV2/gridLayout/utils.ts:9-30 | saving a dashboard with a different key does not change what another dashboard loads |
| `GridLayout.SaveOverwrites` | static/app/views/dashboardsV2/gridLayout/utils.ts:26-29 | last writer wins: two saves to the same dashboard leave the storage the second save alone would |
| `GridLayout.LayoutStore.GetDashboardLayout` | static/app/views/dashboardsV2/gridLayout/utils.ts:9-19 | reading the storage field gives exactly the `Load` specification, so the lemmas about `Load` apply to the method |
| `GridLayout.LayoutStore.SaveDashboardLayout` | static/app/views/dashboardsV2/gridLayout/utils.ts:21-30 | the new storage is the old one with the computed key overwritten by the stringified layout |
| `GridLayout.ReassignLayoutId` | static/app/views/dashboardsV2/gridLayout/utils.ts:32-40 | an item whose id lacks the `index` prefix is returned unchanged, for any widgets and position. A placeholder gets the id `savedWidgets[i].id + "-" + id` and keeps every other field. Only the placeholder case needs `0 <= i < |savedWidgets|` |
| `GridLayout.ReassignedIdDecodes` | static/app/views/dashboardsV2/gridLayout/utils.ts:33-37 | with a decimal widget id, the new id splits at its first `-` back into that widget id and the placeholder |
| `GridLayout.ReassignedIdsDistinct` | static/app/views/dashboardsV2/gridLayout/utils.ts:33-37 | two placeholders get different ids if they were saved as different widgets or had different placeholder ids |
| `GridLayout.ReassignSettles` | static/app/views/dashboardsV2/gridLayout/utils.ts:32-40 | a relabelled id is no longer a placeholder, so relabelling again changes nothing |
| `StringIndexer.InsertFreshKeepsInjective` | src/sentry/sentry_metrics/indexer/postgres.py:15-20 | inserting a new string under an id above all ids in use keeps ids distinct |
| `StringIndexer.ReverseLookup` | src/sentry/sentry_metrics/indexer/postgres.py:61-71 | None exactly when no row has the id; otherwise a string whose row has that id |
| `StringIndexer.ReverseLookupInverts` | src/sentry/sentry_metrics/indexer/postgres.py:61-71 | with distinct ids, the reverse lookup of a string's id is that string |
| `StringIndexer.PGStringIndexer.BulkRecordMissing` | src/sentry/sentry_metrics/indexer/postgres.py:15-26 | the rows become the old rows plus the given strings. Existing ids are unchanged and new ids are fresh. The answer maps exactly the given strings to their ids |
| `StringIndexer.PGStringIndexer.MergeRows` | src/sentry/sentry_metrics/indexer/postgres.py:39-40 | the answer's keys become the found strings plus the newly inserted ones, each with its row's id |
| `StringIndexer.PGStringIndexer.BulkRecord` | src/sentry/sentry_metrics/indexer/postgres.py:28-42 | every input string is a key of the answer and of the table, with its table id. Strings already stored keep their old id. Only missing strings are inserted, and existing rows are untouched. If nothing is missing, the table and allocator are unchanged |
| `StringIndexer.PGStringIndexer.Record` | src/sentry/sentry_metrics/indexer/postgres.py:44-47 | the returned id is the string's id in the table. An existing string gives its old id and changes nothing, so a second `record` returns the same id. A new string is the only row added |
| `StringIndexer.PGStringIndexer.Resolve` | src/sentry/sentry_metrics/indexer/postgres.py:49-59 | None exactly when no row holds the string; otherwise that row's id |
| `StringIndexer.PGStringIndexer.ReverseResolve` | src/sentry/sentry_metrics/indexer/postgres.py:61-71 | None exactly when no row has the id; otherwise the row's string |
| `StringIndexer.RecordThenResolve` | src/sentry/sentry_metrics/indexer/postgres.py:44-71 | after `record(s)` returns `n`, `resolve(s)` is `n` and `reverse_resolve(n)` is `s`. Recording `s` again returns `n` |
| `ProcessingIssueHint.DetailsLink` | static/app/components/stream/processingIssueHint.tsx:20 | the details link is a path under `/settings/` |
| `ProcessingIssueHint.DetailsLinkNamesOrganization` | static/app/components/stream/processingIssueHint.tsx:20 | the link is `/settings/<orgId>/projects/<projectId>/processing-issues/`: after the prefix it splits at the first `/` into the organization and the rest |
| `ProcessingIssueHint.RenderHint` | static/app/components/stream/processingIssueHint.tsx:19-92 | `numIssues > 0` gives an error alert with the button and the last-event note, whatever the other counters are. Otherwise `issuesProcessing > 0` gives an info alert without a button. Otherwise `resolveableIssues > 0` gives a warning with the button. With all three `<= 0` nothing renders. The button links to the details page; the note appears only for errors; the project prefix appears exactly when `showProject` is set |
| `ProcessingIssueHint.FirstPositive` | static/app/components/stream/processingIssueHint.tsx:36-74 | an independent statement of the priority rule: the position of the first positive counter, all earlier ones non-positive |
| `ProcessingIssueHint.HintFollowsFirstPositiveCounter` | static/app/components/stream/processingIssueHint.tsx:36-74 | the hint is absent exactly when no counter is positive. Otherwise its alert kind is the first positive counter's (error, info, warning) |
| `SentryAppPublishRequest.AnyIssueLink` | src/sentry/api/endpoints/sentry_app_publish_request.py:14 | true exactly when some element has type `issue-link` |
| `SentryAppPublishRequest.IsIssueLinkIntegration` | src/sentry/api/endpoints/sentry_app_publish_request.py:11-14 | true exactly when the schema has elements and one has type `issue-link`; a missing schema or missing elements gives false |
| `SentryAppPublishRequest.PublishGuard` | src/sentry/api/endpoints/sentry_app_publish_request.py:20-49 | published, internal and in-progress apps are rejected first, each with its own message. With the logo feature on, a missing colour logo is rejected, then an issue-link app without a black-and-white logo. The request passes exactly when the app is unpublished and the required logos exist |
| `SentryAppPublishRequest.QuestionnaireTextConcat` | src/sentry/api/endpoints/sentry_app_publish_request.py:59-60 | the questionnaire text of two parts is the first part's text followed by the second's (blocks in order) |
| `SentryAppPublishRequest.MessageHeader` | src/sentry/api/endpoints/sentry_app_publish_request.py:57 | the first line starts with `User ` and the user's address and ends with the integration's slug and a newline |
| `SentryAppPublishRequest.QuestionnaireText` | src/sentry/api/endpoints/sentry_app_publish_request.py:59-60 | an empty questionnaire adds nothing; otherwise each pair adds at least the four characters of its block's frame |
| `SentryAppPublishRequest.BuildMessage` | src/sentry/api/endpoints/sentry_app_publish_request.py:57-60 | the message is the header followed by `"\n\n>" + question + "\n" + answer` for each pair, in order |
| `SentryAppPublishRequest.Outbox.Send` | src/sentry/api/endpoints/sentry_app_publish_request.py:64-70 | the mail is appended to what was sent |
| `SentryAppPublishRequest.Post` | src/sentry/api/endpoints/sentry_app_publish_request.py:18-72 | a rejected request answers 400 with the guard's message and changes neither the status nor the mail sent. Otherwise the status becomes in progress. A present questionnaire then sends one mail (subject, message, sender, partners address, reply-to) and answers 201. A missing questionnaire raises after the status update: 500, no mail. Every rejection is status 400, success 201 |
| `SentryAppPublishRequest.PostTwice` | src/sentry/api/endpoints/sentry_app_publish_request.py:18-72 | the same request twice: if the first went through, the second is refused as in progress and sends nothing (one mail in all, or none without a questionnaire); if the first was refused, the second is refused the same way and nothing changes |
| `NotificationFineTuning.ParseFineTuningKey` | src/sentry/api/endpoints/user_notification_fine_tuning.py:68-74 | a known key is the one whose name was given; an unknown name matches no key |
| `NotificationFineTuning.ParseFineTuningKeyName` | src/sentry/api/endpoints/user_notification_fine_tuning.py:68-74 | every key's name parses back to that key |
| `NotificationFineTuning.Lookup` | src/sentry/api/endpoints/user_notification_fine_tuning.py:156 | `data[key]` is the value of an item with that key |
| `NotificationFineTuning.Parents` | src/sentry/api/endpoints/user_notification_fine_tuning.py:87-93 | deploy and reports take the user's organizations; alerts, email and workflow take the user's projects |
| `NotificationFineTuning.IdsToUpdate` | src/sentry/api/endpoints/user_notification_fine_tuning.py:77-83 | None exactly when some key is not an integer; otherwise the set of integers the keys read as |
| `NotificationFineTuning.NamedParentIsRequested` | src/sentry/api/endpoints/user_notification_fine_tuning.py:141-145 | a parent whose `str(id)` is a payload key is among the validated ids (so it passed the 403 check) |
| `NotificationFineTuning.PaddedKeyNamesNoParent` | src/sentry/api/endpoints/user_notification_fine_tuning.py:141-145 | the converse fails: key `"07"` validates as id 7, but `str(7)` is not a key, so parent 7 is skipped |
| `NotificationFineTuning.ValidatePut` | src/sentry/api/endpoints/user_notification_fine_tuning.py:68-104 | an unknown type gives 404 before anything else. Then a non-integer key gives 400. Then ids outside the parent ids give 403, and the bad ids reported are exactly requested minus allowed (never empty). On success the parents are the user's organizations for organization-scoped keys and the user's projects otherwise, and every id is a parent's. Conversely, a known type whose keys are all integers naming the user's parents always passes, with those parents and ids |
| `NotificationFineTuning.EmailCountCheck` | src/sentry/api/endpoints/user_notification_fine_tuning.py:116-121 | the two counts are equal exactly when every value to check is one of the user's verified addresses |
| `NotificationFineTuning.ApplyEmailsFrame` | src/sentry/api/endpoints/user_notification_fine_tuning.py:128-135 | a project that no payload key names keeps its `mail:email` option |
| `NotificationFineTuning.ApplyEmails` | src/sentry/api/endpoints/user_notification_fine_tuning.py:128-135 | existing addresses stay keyed; the project of the last item gets `str(value)` of that item |
| `NotificationFineTuning.ApplyEmailsKeys` | src/sentry/api/endpoints/user_notification_fine_tuning.py:128-135 | the projects with an address afterwards are those that had one plus exactly the ids the payload names |
| `NotificationFineTuning.ApplyEmailsSets` | src/sentry/api/endpoints/user_notification_fine_tuning.py:128-135 | a project named by an item, and by no later item, gets `str(value)` of that item |
| `NotificationFineTuning.PartitionAsWritten` | src/sentry/api/endpoints/user_notification_fine_tuning.py:149-153 | as written, the split is the corrected one with its two halves swapped |
| `NotificationFineTuning.PartitionAsWrittenMisfilesProjects` | src/sentry/api/endpoints/user_notification_fine_tuning.py:147-153 | as written, for "alerts" (project parents) the parent is passed as the organization and no project is passed |
| `NotificationFineTuning.Partition` | src/sentry/api/endpoints/user_notification_fine_tuning.py:147-153 | corrected: a project parent is passed as the project, an organization parent as the organization |
| `NotificationFineTuning.ApplySettingsFailureSticks` | src/sentry/api/endpoints/user_notification_fine_tuning.py:141-166 | once a value raises, the whole update fails |
| `NotificationFineTuning.ApplySettingsFrame` | src/sentry/api/endpoints/user_notification_fine_tuning.py:141-145 | the settings of parents the payload does not name (and every other target) are untouched |
| `NotificationFineTuning.ApplySettings` | src/sentry/api/endpoints/user_notification_fine_tuning.py:141-164 | the loop over the parents, with the corrected partition: a successful update keeps every target that was set |
| `NotificationFineTuning.ApplySettingsKeys` | src/sentry/api/endpoints/user_notification_fine_tuning.py:141-164 | the targets set afterwards are the earlier ones plus exactly one per parent the payload names (corrected partition) |
| `NotificationFineTuning.ApplySettingsSets` | src/sentry/api/endpoints/user_notification_fine_tuning.py:141-164 | a named parent's value reads as an integer. Its setting becomes the option value of that integer, for the key's setting type, under the corrected partition's target |
| `NotificationFineTuning.NotificationStore.HandlePutEmails` | src/sentry/api/endpoints/user_notification_fine_tuning.py:113-137 | unequal counts give 400 and no write. A payload id that is not an existing project raises: 500, no write. Otherwise 204, each payload project's option set by the items in order, and the settings untouched |
| `NotificationFineTuning.NotificationStore.HandlePutNotificationSettings` | src/sentry/api/endpoints/user_notification_fine_tuning.py:139-166 | a raising value gives 500 with nothing written. Otherwise 204 with the settings as `ApplySettings` computes them, so with the corrected partition rather than the one as written. The email options are untouched |
| `NotificationFineTuning.NotificationStore.Put` | src/sentry/api/endpoints/user_notification_fine_tuning.py:45-111 | a failed check answers its response and writes nothing. The email type goes to the email path and never answers 500. Every other type goes to the settings path over the validated parents, under the corrected partition. A failed check answers 404, 400 or 403 |

## Left out

- Browser storage availability: the storage wrapper `sentry/utils/localStorage` is not part of this model. The storage is assumed available. When it is not, the wrapper ignores writes and reads nothing.
- JSON itself: `stringify`/`parse` are abstract functions. Stored JSON that parses to something other than a layout array is covered only as "some layout or a SyntaxError".
- Layout items carry `i`, `x`, `y`, `w`, `h` only. The relabelling copies the whole record (`item.(i := ...)`), so extra grid fields would be kept as well.
- Widgets without an id (the template would print `undefined`) are not modelled; saved widgets always carry an id here.
- GridLayout.ReassignLayoutId: out-of-range positions throw in the source; the model excludes them with a precondition, only in the relabelling case.
- The indexer's caches (`get_many_from_cache`, `get_from_cache`), concurrent writers and the `ignore_conflicts` race handling: the table is modelled sequentially, and a conflicting insert is skipped.
- StringIndexer.PGStringIndexer.BulkRecordMissing: states that new ids are fresh and distinct, not which string gets which id. The ids follow the iteration order of a Python set.
- Rendering of the hint: markup, styles, icon components, i18n pluralisation (`tn`, `tct`) and `TimeSince`. The text is the message kind with its count, and the last-event note is the `lastSeen` value it shows.
- Publish request: the feature flag and the two avatar queries are boolean inputs. `Updater.run` is reduced to its status change; its other effects are not part of this model. Mail delivery is an append to an outbox. Permission checks of the endpoint base class are not modelled.
- Publish request: questionnaire items without a `question` or `answer` key, and a schema whose `elements` is present but `null`, raise in the source. The model does not represent them.
- NotificationFineTuning.NotificationStore.HandlePutNotificationSettings: writes under the corrected partition of lines 149-153, not the one as written; the as-written split is modelled separately as `PartitionAsWritten` (see "## Findings").
- Fine-tuning: the read-only `get` handler is serializer glue and is not modelled.
- Fine-tuning: `get_type_from_fine_tuning_key` and `get_option_value_from_int` are not part of this model; their results are the symbolic terms `TypeOf(key)` and `OptionValueOf(type, value)`. `get_scope_type` is not part of this model either. Its scope comes from the handler's own documentation (lines 54-55): organization ids for deploy and reports, project ids otherwise.
- Fine-tuning: `NotificationSetting.objects.update_settings` is not part of this model. A call is recorded as a map entry keyed by its `project`/`organization` arguments and setting type. What it then stores (for instance deleting on the default value) is not modelled.
- Python's `int()` also accepts surrounding whitespace, `_` between digits and non-ASCII digits; the model reads only an optional sign followed by ASCII digits. JSON floats, `null`, lists and objects as payload values are not modelled.
- The payload is a sequence of items. A JSON object's keys are distinct, but the model does not rely on it.
- `transaction.atomic` is modelled by building the new options aside and writing them at once. A raise writes nothing.
- The group activity view, the vitals query wrapper, the narrow layout, the releases index and the component test specs are views and glue and are not modelled.

## Findings

| source | as written | input that shows it | evidently intended | confidence | as-written member | corrected member |
|---|---|---|---|---|---|---|
| src/sentry/api/endpoints/user_notification_fine_tuning.py:149-153 | `(None, parent)` when the parent type is PROJECT, else `(parent, None)`, bound to `project_option, organization_option` | type `alerts` (its parents are the user's projects), payload `{"<project id>": "1"}`: the project goes in as `organization=` and `project=None`. For `deploy` an organization goes in as `project=` | each parent passed in the argument of its own scope: `project=` for projects, `organization=` for organizations | medium; not executed; the scope helper is not part of this model | `NotificationFineTuning.PartitionAsWrittenMisfilesProjects` | `NotificationFineTuning.Partition` |

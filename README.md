# ColiseumCheck `check` handler — a Dafny model

ColiseumCheck polls the ticket calendar of the Colosseum booking site. Each run
of the `check` handler (`handler.js`) does the following:

1. It reads the previous snapshot (`state.json`).
2. It fetches the anti-bot challenge page and takes the text of its first
   non-empty `<script>` element.
3. It hands that text to the challenge solver. The solver returns two cookie
   values, which go into the shared `Cookie` request header.
4. It scrapes the month calendar of every ticket type (`full`, then `simple`).
   It keeps the dates whose day cell is marked `available`.
5. It compares each type's list with the previous snapshot using the strict,
   order-sensitive `isArrayEqual`. A changed list sends a Telegram
   notification; an unchanged one sends a "No changes" health-check ping.
6. It sends a summary health check and saves the new snapshot. The response is
   200 with the snapshot. Any error instead sends a failure health check with
   the error message and the response is 500.

The model has one module per part of the handler:

- `AssocList`: JavaScript plain objects as insertion-ordered association lists.
  `Put` keeps an existing key where it is and appends a new one.
- `Html`: the token stream the HTML parser delivers to its callbacks,
  `String.prototype.split(' ')`, and the search for a separator character
  that the readers of the cookie header and of the date list share.
- `ScriptExtractor`: the callback state machine of `catchChallengeScript`. It
  is proved equal to a direct definition of "the first non-empty script
  element".
- `Calendar`: `catchDates` (the day-cell fold and the 14-date threshold) and
  `filterAvailableDates`.
- `JsValues`: the JSON values read back from the state, JavaScript
  truthiness, strict equality and `isArrayEqual`.
- `Cookies`: the module-level `headers` object as a class, the `Cookie` header
  assembly loop, and a parser that reads the header back.
- `Decision`: what the ticket-type loop decides. This covers the new
  snapshot, which types are notified and `hasChanges`.
- `Handler`: the whole run, with every outside call as an input. It has a
  function `RunCheck` and the imperative `Check` that is proved equal to it.

- `Notification`: the Telegram message text, with a reader that gets the
  dates back from `join(', ')`.

Network, S3, Telegram and the solver are inputs of type `Handler.Env`. The
page fetches give token streams and the solver is a function from script text
to its two cookie values. Each awaited outward call either succeeds or throws
a given message. Which one it does is given by the call's position among all
outward calls of the run and by the call itself, so the same call made twice
in one run may succeed once and throw once. The run records every outward
call it makes as an `Effect`, in order.

Rows marked "helper:" are proof steps used by the other rows rather than
promises of the handler. Rows marked "definition:" are functions without a
contract of their own; what they mean is stated by the lemmas named in them.

## Model

| member | source | states |
|---|---|---|
| AssocList.Lookup | handler.js:92 | a key is found exactly when it is one of the object's keys, and the value found is stored under it |
| AssocList.Put | handler.js:92 | after `obj[k] = v`, reading `k` gives `v` |
| AssocList.PutOther | handler.js:92 | assigning `k` leaves every other key reading as before |
| AssocList.PutKeys | handler.js:92 | assigning an existing key keeps the key order; a new key goes last |
| AssocList.PutKeepsNoDup | handler.js:92 | assignment never creates a second entry for a key |
| AssocList.LookupEntry | handler.js:109-110 | in an object without repeated keys, reading an entry's key yields that entry's value |
| AssocList.Dedup | handler.js:100 | the first occurrences of a list: no repeats, same members, no longer than the list |
| AssocList.PutAllKeys | handler.js:84-95 | the keys of an object built by successive assignments are the assigned keys in first-assignment order |
| AssocList.LastAssignmentPrefix | handler.js:92 | helper: an assignment that is last for its key stays last once a later assignment to another key is dropped |
| AssocList.PutAllLookup | handler.js:92 | the value of a key is the one from its last assignment |
| AssocList.PutAllSize | handler.js:100 | `Object.keys(o).length` is the number of distinct keys assigned |
| AssocList.NoDupCardinality | handler.js:100 | a repeat-free key list is as long as its set of keys |
| AssocList.SubsequenceLength | handler.js:107-115 | a sub-sequence is never longer than the sequence it is taken from |
| Html.SplitSpace | handler.js:89 | `split(' ')` gives at least one piece and no piece contains a space |
| Html.JoinSplit | handler.js:89 | joining the pieces of `split(' ')` with spaces gives back the string |
| Html.SplitJoin | handler.js:89 | splitting a space-joined list of space-free words gives back the words |
| Html.SplitNoSpace | handler.js:89 | a string without spaces splits into itself alone |
| Html.SplitWordSpace | handler.js:89 | a leading space-free word followed by a space splits off as the first piece |
| ScriptExtractor.Step | handler.js:51-67 | definition: the three parser callbacks on one token; `RunIsFirstScript` states what a run of them yields |
| ScriptExtractor.FirstScript | handler.js:46-72 | definition: the text of the first script element whose text is non-empty; related to `Step` by `RunIsFirstScript` |
| ScriptExtractor.RunFrom | handler.js:50-70 | definition: `parseComplete` driving the three callbacks over the page's tokens; stated by `RunIsFirstScript` and `RunFromAppend` |
| ScriptExtractor.BodyLength | handler.js:63-66 | the position of the first closing `script` tag: none before it, and it is one |
| ScriptExtractor.RunFromAppend | handler.js:50-70 | feeding two token runs one after the other is feeding their concatenation |
| ScriptExtractor.RunBody | handler.js:57-61 | inside a script element every text token is appended to the content |
| ScriptExtractor.RunCaptured | handler.js:52-54 | once content is non-empty, no later script tag starts capturing again |
| ScriptExtractor.RunIsFirstScript | handler.js:46-72 | the callback state machine yields the text of the first script element with non-empty text |
| ScriptExtractor.CatchChallengeScript | handler.js:46-72 | the parse loop returns exactly the first non-empty script element's text |
| ScriptExtractor.LeadingEventsIgnored | handler.js:52-60 | tokens before the first script opening tag contribute nothing |
| ScriptExtractor.FirstNonEmptyScriptWins | handler.js:52-72 | a script element with text is the one captured, whatever its attributes and whatever follows |
| ScriptExtractor.EmptyScriptSkipped | handler.js:52-66 | an empty script element, whatever its attributes, is passed over and the next one is considered |
| ScriptExtractor.BodyLengthOf | handler.js:63-66 | the element body ends at the first closing `script` tag |
| ScriptExtractor.NoScriptNoText | handler.js:50-72 | a page without a script opening tag yields the empty string |
| Calendar.ClassAttr | handler.js:89 | definition: the class attribute, or the empty string when it is missing; its use is stated by `DayCellClassWords` and `DayCellWithoutClass` |
| Calendar.DateAttr | handler.js:91 | definition: `attribs['data-date']` as a property key, "undefined" when missing; stated by `DayCellClassWords` |
| Calendar.DayCell | handler.js:87-95 | definition: what one open-tag callback records; stated by `DayCellClassWords`, `DayCellWithoutClass` and `UnavailableIsNotAvailable` |
| Calendar.DayCells | handler.js:86-98 | definition: the assignments line 92 makes over a page, in document order; stated by `DayCellsStep`, `CalendarThreshold`, `CalendarKeys` and `CalendarValue` |
| Calendar.CalendarOf | handler.js:84-104 | definition: the outcome of the scan; stated by `CalendarThreshold`, `CalendarKeys` and `CalendarValue` |
| Calendar.AvailableKeys | handler.js:107-115 | definition: the keys mapped to true; stated by `AvailableKeysSpec`, `AvailableKeysNoDup` and `AvailableKeysLookup` |
| Calendar.CatchDates | handler.js:84-104 | the parse loop builds the date-to-availability object, or fails with "No dates available" |
| Calendar.DayCellsStep | handler.js:87-95 | helper: one open-tag callback either assigns one date or leaves the object as it was |
| Calendar.CalendarThreshold | handler.js:100-102 | the scan succeeds exactly when at least 14 distinct dates were recorded, and otherwise fails with "No dates available" |
| Calendar.CalendarKeys | handler.js:84-104 | the dates come in first-seen page order, each once |
| Calendar.CalendarValue | handler.js:92 | a date's availability is the one its last day cell gave |
| Calendar.DayCellClassWords | handler.js:88-93 | a tag is a day cell exactly when it is a `div` whose class words include `day-number`; it is available exactly when they include `available`, as whole words |
| Calendar.DayCellWithoutClass | handler.js:89-90 | a tag without a class attribute is never a day cell |
| Calendar.UnavailableIsNotAvailable | handler.js:89-92 | every `div` whose class is `day-number unavailable` is a day cell recorded as not available, under its `data-date`; the `available` test is not a substring test |
| Calendar.UnavailableWords | handler.js:89-90 | helper: `day-number unavailable` splits into the two words `day-number` and `unavailable`, neither of which is `available` |
| Calendar.AvailableKeysSpec | handler.js:107-115 | the filtered dates are exactly the keys whose value is true, in key order |
| Calendar.AvailableKeysNoDup | handler.js:107-115 | the filtered dates hold no repeats and are no more than the dates scanned |
| Calendar.AvailableKeysLookup | handler.js:109-111 | a date is kept exactly when the object maps it to true |
| Calendar.FilterAvailableDates | handler.js:107-115 | the loop returns the available dates in key order |
| JsValues.Truthy | handler.js:226 | definition: JavaScript truthiness, which decides whether the state read or `{}` is used |
| JsValues.StrictEquals | handler.js:214 | definition: `!==` negated, on JSON values; used by `IsArrayEqualMeaning` |
| JsValues.IsArrayEqual | handler.js:204-220 | definition: the comparison as written; stated by `IsArrayEqualMeaning` and `StringListsEqual` |
| JsValues.Member | handler.js:244 | definition: `previousAvailableDates[ticketType]`, `undefined` when missing or not an object; stated by `MemberOfSnapshotValue` and `AllChangedWithoutState` |
| JsValues.ElementsEqualMeaning | handler.js:213-217 | the element loop is true exactly when all elements at the same index are strictly equal |
| JsValues.IsArrayEqualMeaning | handler.js:204-220 | equal exactly when both are arrays of the same length with pairwise strictly equal elements |
| JsValues.StringListsEqual | handler.js:204-220 | two string arrays compare equal exactly when they are the same list |
| JsValues.MissingIsNeverEqual | handler.js:205-207 | a missing or non-array previous entry never compares equal |
| JsValues.OrderMatters | handler.js:213-217 | the comparison is order-sensitive: the same dates in another order differ |
| Cookies.CookieHeader | handler.js:233-235 | definition: the pairs `name=value;` in property order; stated by `CookieHeaderAppend` and `ParseCookieHeaderRoundTrip` |
| Cookies.CookieHeaderAppend | handler.js:233-235 | the header of two cookie lists is the two headers one after the other |
| Cookies.Headers.constructor | handler.js:8-21 | the shared headers start with no `Cookie` entry |
| Cookies.Headers.InstallCookies | handler.js:232-235 | the `Cookie` header becomes `name=value;` for each cookie, in order |
| Cookies.SolverCookieHeader | handler.js:232-235 | after a solve the header is `octofence_jslc=…;octofence_jslc_fp=…;` |
| Cookies.ParseCookieHeaderRoundTrip | handler.js:232-235 | when names hold neither `=` nor `;` and values hold no `;`, the header determines every cookie, in order |
| Decision.Changed | handler.js:244 | definition: a type's new list is not `isArrayEqual` to its previous entry; stated by `ChangedIsNotified` and `NotifiedIsChanged` |
| Decision.DecideStep | handler.js:240-253 | definition: one loop iteration's bookkeeping; stated by `DecideSnapshot` and `DecideNotified` |
| Decision.Decide | handler.js:237-254 | definition: the loop's bookkeeping over all types; stated by `DecideSnapshot`, `DecideNotified` and `HasChangesIffNotified` |
| Decision.DecideSnapshot | handler.js:238-242 | the new snapshot is the object built by assigning each type's list in loop order |
| Decision.OneEntryPerType | handler.js:238-242 | with distinct ticket types, the snapshot has one entry per type, in order, holding that type's list |
| Decision.DecideNotified | handler.js:237-254 | the loop notifies exactly the types whose list changed, in loop order, and `hasChanges` says whether there are any |
| Decision.ChangedTypesPrefix | handler.js:239-254 | the changed types of the first types are a prefix of all changed types |
| Decision.ChangedTypesHas | handler.js:244-253 | a type whose list changed is among the changed types |
| Decision.ChangedTypesOnly | handler.js:244-253 | every one of the changed types had a list that differs from its previous entry |
| Decision.AllChangedWithoutState | handler.js:204-207 | against the empty object every type's list counts as changed |
| Decision.NotifiedGrows | handler.js:239-254 | notifications are only ever appended |
| Decision.ChangedIsNotified | handler.js:244-253 | every type whose list differs from the previous one is notified |
| Decision.NotifiedIsChanged | handler.js:244-253 | every notified type had a list that differs from the previous one |
| Decision.HasChangesIffNotified | handler.js:237-254 | `hasChanges` is set exactly when some notification was sent |
| Decision.NoPreviousStateNotifiesAll | handler.js:226-253 | without a stored state (`null` or any falsy value read, so `{}` is used) every type is notified, and `hasChanges` holds whenever there is a type |
| Decision.MemberOfSnapshotValue | handler.js:184-198 | reading a type from the stored snapshot gives its list as a string array |
| Decision.RerunIsQuiet | handler.js:226-262 | a run that sees the lists it saved last time sends no notification and reports no changes |
| Decision.NewDateScenario | handler.js:244-253 | a new date for `full` notifies `full`; the same list again notifies nothing |
| Notification.JoinComma | handler.js:252 | definition: `join(', ')`; stated by `JoinCommaRoundTrip` |
| Notification.Message | handler.js:252 | definition: the Telegram text; stated by `MessageRoundTrip` |
| Notification.SplitComma | handler.js:252 | helper: the reader of `join(', ')` yields at least one piece |
| Notification.JoinCommaCons | handler.js:252 | helper: a join of two or more puts the first, a comma and a space before the join of the rest |
| Notification.JoinCommaNonEmpty | handler.js:252 | helper: a join starting with a non-empty date is non-empty |
| Notification.SplitCommaAfter | handler.js:252 | helper: a comma-free first piece is cut off at the comma and the space after it is skipped |
| Notification.JoinCommaRoundTrip | handler.js:252 | a list joined with `, ` can be read back when no date is empty or holds a comma |
| Notification.MessageRoundTrip | handler.js:252 | the notification names the ticket type and lists exactly its available dates |
| Handler.ExtractDates | handler.js:240-242 | definition: `catchDates` then `filterAvailableDates`; implemented by `ExtractTicketDates` |
| Handler.TypeEffect | handler.js:244-253 | definition: the call made for one type, the notification or the "No changes" ping |
| Handler.TypeStep | handler.js:240-253 | definition: one loop iteration, stopping with the error of the scrape or of its outward call |
| Handler.RunTypes | handler.js:239-254 | definition: the loop, stopping at the first error; stated by `RunTypesCompletes`, `RunTypesFirstError` and `RunTypesNoError` |
| Handler.Abort | handler.js:272-286 | definition: the `catch` block; stated by `AbortReports` and `AbortNeverSaves` |
| Handler.Summary | handler.js:256-260 | definition: the summary health check, "No changes" or the new state |
| Handler.Finish | handler.js:256-270 | definition: summary, save, 200; stated by `FinishSucceedsIffNoError`, `FinishSavedIffSucceeded`, `FinishSucceeded` and `FinishFailed` |
| Handler.AfterLoop | handler.js:237-286 | definition: the `catch` block after a failed loop, else the finish; stated by `AfterLoopSucceedsIffNoError` |
| Handler.AfterSolve | handler.js:237-286 | definition: the loop and what follows it; stated by `AfterSolveSavedIffSucceeded` |
| Handler.RunCheck | handler.js:222-288 | definition: the whole handler; stated by `SucceedsIffSaved`, `SucceedsIffNoError`, `SuccessfulRun`, `CleanRunSucceeds`, `FailedRun` and `CookieInstalledOnSolve`, and implemented by `Check` |
| Handler.FirstError | handler.js:225-286 | definition: the error of the first step that throws, in program order; stated by `SucceedsIffNoError` and `FailedRun` |
| Handler.RunTypesSnoc | handler.js:239-254 | helper: the loop over one more type is the loop so far followed by one more step, unless it already failed |
| Handler.RunTypesStops | handler.js:239-254 | after a type fails, the later types are never processed |
| Handler.RunTypesStuck | handler.js:239-254 | helper: once the loop has failed, one more type changes nothing |
| Handler.ExtractedSnoc | handler.js:240-242 | helper: the extracted lists of one more type are those so far plus that type's list |
| Handler.TypeEffectsSnoc | handler.js:244-253 | helper: one more list adds exactly its notification or its "No changes" ping |
| Handler.LastTypeExtracted | handler.js:240 | helper: a loop that ran through scraped its last type and ran through before it |
| Handler.ExtractedAt | handler.js:239-254 | a loop that ran through scraped the type at each position |
| Handler.RunTypesExtractsAll | handler.js:239-254 | a loop that ran through scraped every type successfully |
| Handler.RunTypesCompletes | handler.js:239-254 | a loop that ran through made the decision of `Decision.Decide` and one call per type, in order |
| Handler.RunTypesNeverSaves | handler.js:239-254 | the loop never writes the state |
| Handler.RunTypesFirstError | handler.js:239-254 | a loop that threw did so at the first type whose scrape or outward call threw, every earlier type having run through |
| Handler.RunTypesNoError | handler.js:239-254 | when every type's calendar is scraped and no outward call throws, the loop runs through |
| Handler.AbortReports | handler.js:272-286 | helper: the `catch` block sends the failure health check with the message, then answers 500 with it, and leaves the cookie header alone |
| Handler.AbortNeverSaves | handler.js:272-286 | the `catch` block neither saves nor answers 200 |
| Handler.FinishSucceedsIffNoError | handler.js:256-270 | after the loop, the run answers 200 exactly when neither the summary nor the save throws |
| Handler.FinishSavedIffSucceeded | handler.js:256-270 | after the loop, the run answers 200 exactly when the save went through |
| Handler.AfterSolveSavedIffSucceeded | handler.js:237-270 | after the cookies are set, the run answers 200 exactly when it saved |
| Handler.AfterLoopSucceedsIffNoError | handler.js:237-286 | after the cookies are set, the run answers 200 exactly when neither the loop, the summary nor the save throws |
| Handler.SucceedsIffSaved | handler.js:222-288 | the run answers 200 exactly when the new state was saved; no error path saves |
| Handler.SucceedsIffNoError | handler.js:222-288 | the run answers 200 exactly when no step throws: reading the state, the challenge, the solver, the loop, the summary and the save |
| Handler.SuccessfulRun | handler.js:222-270 | a 200 run read the state, scraped every type, notified as `Decision.Decide` says, sent the summary and then saved the snapshot it answers with |
| Handler.FinishSucceeded | handler.js:256-270 | helper: a 200 finish sent the summary, then the save, and answers with the snapshot |
| Handler.CleanRunSucceeds | handler.js:222-270 | when the state read, the challenge, the solver and every scrape succeed and no call throws, the run answers 200 and its last call saves the decided state, whether or not anything changed |
| Handler.FailedRun | handler.js:222-288 | a run that did not answer 200 had a first failing step; its last call is the failure health check with that step's error, and a 500 answer carries that error |
| Handler.FinishFailed | handler.js:256-286 | a failed finish ended with a failure health check carrying the error of the summary or else of the save, and a 500 answer carries it |
| Handler.CookieInstalledOnSolve | handler.js:225-235 | the `Cookie` header is replaced by the solver's two cookies exactly when the state read, the challenge fetch and the solver succeed; otherwise it is left as it was |
| Handler.TicketTypesRerunIsQuiet | handler.js:23-26 | the keys of `URLs` are distinct, so rerunning over the same calendars after a saved run notifies nothing and reports no changes |
| Handler.Fail | handler.js:272-286 | the `catch` block as code: the report is appended and the 500 answer or the rejection follows |
| Handler.ExtractTicketDates | handler.js:240-242 | fetching, scanning and filtering one calendar as code gives `ExtractDates` |
| Handler.CompareAndNotify | handler.js:244-253 | the comparison as code picks the notification exactly when the list changed |
| Handler.CheckTicketType | handler.js:240-253 | one loop iteration as code is one step of the loop's specification |
| Handler.CheckTicketTypes | handler.js:237-270 | the loop, the summary and the save as code match their specification |
| Handler.LoopStep | handler.js:239-254 | helper: a loop iteration that matches one step extends the loop's specification by one type |
| Handler.LoopFailed | handler.js:239-254 | helper: a failed type sends the run to the `catch` block with the calls made so far |
| Handler.LoopDone | handler.js:239-262 | helper: a loop that ran through goes on to the summary health check and the save |
| Handler.ReportAndSave | handler.js:256-270 | the summary health check and the save as code match their specification |
| Handler.Check | handler.js:222-288 | the handler as code yields the outcome, the sequence of outward calls and the `Cookie` header of `RunCheck` |

## Left out

- Network fetches, S3 reads and writes, Telegram and the health-check endpoint
  are not executed. Each is an input of `Handler.Env`. An awaited call either
  succeeds or throws a given message. A fetch is modelled by the tokens its
  page yields.
- The first `sendHealthCheck(SIGNAL_START)` is not awaited (fire and forget).
  The model records it first and lets it fail nothing. How it interleaves with
  later calls is not modelled.
- The solver (`solver/main.js`, Babel parsing, cookie extraction and
  fingerprinting) is a function input. It returns the `octofence_jslc` value
  and the fingerprint, or fails. Its internals are not part of this model.
- The HTML tokenizer (`htmlparser2`) is not modelled. Pages are given as the
  sequence of open-tag, text and close-tag callbacks it delivers, with
  attribute lists in source order.
- `JSON.parse`, `JSON.stringify` and the pretty-printed response bodies are
  not modelled as text. `Decision.SnapshotValue` is the modelled reading of
  `JSON.parse(JSON.stringify(snapshot))`: an object with the same keys in the
  same order, each holding its list as an array of strings. It is a
  definition, not a proved property of JSON text. `Decision.PreviousState` is
  `readStateFromS3() || {}` as a definition; what it means for a run is
  stated by `Decision.NoPreviousStateNotifiesAll`. The 500 body carries the
  error message; the 200 body carries the snapshot.
- The fixed request headers, the calendar URLs and the environment variables
  are not modelled. `Handler.TicketTypes` keeps the order of the `URLs` keys,
  and `Check` takes the ticket types as a parameter.
- `console.log` output is not modelled.
- JSON numbers are integers here; floating point is not modelled.
- JavaScript objects use integer-like keys in numeric order first. Date
  strings such as `01/11/2023` are not integer-like, so insertion order is
  what the model keeps. Keys inherited from `Object.prototype` are not
  modelled.
- JsValues.StrictEquals: two arrays or objects compare as different. In
  JavaScript they are equal when they are the same reference, but arrays read
  from JSON never share one.
- Handler.SuccessfulRun: the lists are compared with `Decision.Decide` over
  the types' lists as extracted. `Decision.OneEntryPerType` turns that into
  per-type statements only when the ticket types are distinct, as the keys of
  `URLs` are.
- Retries, time-outs, credential caching with a lifetime, deduplication of
  concurrent solves, time-slot scraping, a minimum script length, a validity
  check on the solved cookies and saving the calendar HTML on failure:
  `handler.js` contains none of these mechanisms, so none is modelled. `handler.js` also processes the ticket
  types one after the other, not concurrently, and the model follows it.

# VoiceErpAssistant — a verified model of the command core

VoiceErpAssistant lets a user speak, or type, commands such as "check
inventory for product Widget" or "show open orders". The app routes each
command to an ERP back end (ERPNext or QBS), answers in one sentence, and keeps
a history of every command it handled.

This project models the parts of the app that decide what happens to a
command:

- **Text** (`text.dfy`): the JavaScript string operations the app relies on.
  These are `toLowerCase` on ASCII, `includes`, `trim`, `\s`, `\d`, `\w`, and
  number rendering.
- **Schema** (`schema.dfy`): the stored records, and the
  `{ ...existing, ...patch }` merges that update them.
- **Slots** (`slots.dfy`): the regular-expression extractors of the two
  command interpreters, for the number, the product and the customer. They are
  modelled as a leftmost, greedy, backtracking match.
- **Commands** (`commands.dfy`): `handleVoiceCommand` of both interpreters.
  - The routing if-chain is modelled, and proved equal to a first-match rule
    table.
  - Each handler is split at its `await`. `Plan` chooses an immediate answer or
    a back-end request. `Finish` turns the request's outcome into the sentence.
- **HistoryFilter** (`history_filter.dfy`): the search box of the history page.
- **Recognizer** (`recognizer.dfy`): the speech-recognition hook.
  - The `onresult` loop assembles the transcript.
  - The hook's `isListening` and `error` state follow start, stop, error and
    end.
- **VoiceSession** (`voice_session.dfy`): the voice context, as a state machine.
  - Its states are inactive, listening, processing and showing a result.
  - It keeps the records it posts to the history, the replies it speaks, the
    pending five-second timers, and the page it navigated to.
- **Storage** (`storage.ts` as `storage.dfy`): the in-memory server store.
  - It is a class over five maps and five id counters.
  - Lookups find the first record by id.
  - Lists are stably sorted: the history newest first, quick commands by their
    order field.
- **SimpleControls** (`simple_controls.dfy`): the typed-command panel. It calls
  the back end directly, sums stock over bins, and records its history.

Inputs from the environment are parameters of the model:

- the back end's replies (an `Api` or `Backend` of `Got`/`Thrown` outcomes);
- whether the browser has a speech recognizer, and whether `start()` throws;
- the current time.

## Model

| member | source | states |
|---|---|---|
| Text.Trim | client/src/components/voice/SimpleControls.tsx:26 | `trim` gives an infix of the text with no leading or trailing `\s`; it is empty exactly when the text is all white space |
| Text.TrimOfTrimmed | client/src/lib/erpCommands.ts:41 | a text that neither starts nor ends with white space is left unchanged by `trim` |
| Text.NatToString | client/src/lib/erpCommands.ts:156 | rendering a count gives a non-empty run of decimal digits |
| Text.DigitsValueOfNatToString | client/src/lib/erpCommands.ts:24-27 | reading the rendered digits back gives the same number |
| Schema.MergeSettings | server/storage.ts:169-179 | each field of the merged settings is the patch's when supplied (an explicit `null` included) and the stored one otherwise; the id is kept |
| Schema.MergeQuickCommand | server/storage.ts:195-205 | each field is the patch's when supplied and the stored one otherwise; the id is kept |
| Schema.MergeConnection | server/storage.ts:226-240 | each field is the patch's when supplied (for `isActive` an explicit `null` included) and the stored one otherwise; the id is kept and `lastConnected` is the current time |
| Slots.SpaceRunEnd | client/src/lib/erpCommands.ts:33-35 | the `\s+` run after a keyword ends at the first non-space character |
| Slots.SlotRunEnd | client/src/lib/erpCommands.ts:33-35 | the greedy `[\w\s]+` run ends at the first character outside the class |
| Slots.TryEnd | client/src/lib/erpCommands.ts:33-35 | backtracking picks the longest end of the run after which the tail (white space, a full stop or the end) follows, or none when no end qualifies |
| Slots.MatchAt | client/src/lib/erpCommands.ts:33-35 | a match found at a position is a full match of the pattern there |
| Slots.Search | client/src/lib/erpCommands.ts:33-35 | `match` returns a match at or after the start position |
| Slots.MatchAtFindsMatch | client/src/lib/erpCommands.ts:33-35 | whenever the pattern matches with its keyword at a position, the engine tried there finds a match |
| Slots.SearchNoneIff | client/src/lib/erpCommands.ts:33-35 | `match` returns null exactly when the pattern matches at no start from the given position on |
| Slots.SearchIsLeftmost | client/src/lib/erpCommands.ts:33-35 | the match returned is a match of the pattern, and it starts no later than any other match |
| Slots.SearchFindsFirstMatch | client/src/lib/erpCommands.ts:33-35 | with no match starting before a position where the engine matches, `match` returns the engine's match there |
| Slots.SearchFindsFirstOccurrence | client/src/lib/erpCommands.ts:33-35 | the special case used by the examples: with no keyword occurrence before a position that matches, `match` returns that match |
| Slots.SearchFindsNothing | client/src/lib/erpCommands.ts:33-35 | with no keyword occurrence at all there is no match |
| Slots.FirstCapture | client/src/lib/erpCommands.ts:30-46 | an extracted name consists of ASCII letters, digits and white space, has no white space at either end, and may be empty |
| Slots.FirstCaptureNoneBySearch | client/src/lib/erpCommands.ts:38-45 | the extractor's loop returns null exactly when the search for every pattern comes back empty |
| Slots.FirstCaptureNone | client/src/lib/erpCommands.ts:30-46 | the extractor returns null exactly when none of its patterns matches anywhere in the text |
| Slots.FirstCaptureAppend | client/src/lib/qbsCommands.ts:30-47 | trying patterns `a` then `b` gives `a`'s capture when there is one and `b`'s otherwise |
| Slots.QbsProductExtendsErp | client/src/lib/qbsCommands.ts:36 | the QBS product extractor agrees with the ERPNext one whenever the latter finds a product; only otherwise does the bare `for` pattern apply |
| Slots.QbsProductOfPlate | client/src/lib/qbsCommands.ts:30-47 | for "check inventory for Plate" ERPNext finds no product and QBS finds "Plate" |
| Slots.ErpProductOfWidget | client/src/lib/erpCommands.ts:30-46 | for "check inventory for product Widget." the product is "Widget" |
| Slots.ErpProductMissing | client/src/lib/erpCommands.ts:30-46 | "check inventory" has no product |
| Slots.CaptureRunsToEnd | client/src/lib/erpCommands.ts:33-35 | a keyword followed by space and slot characters up to the end captures to the end |
| Slots.TrimOfSlotChars | client/src/lib/erpCommands.ts:41 | trimming a run of slot characters leaves slot characters only |
| Slots.FirstDigitRun | client/src/lib/erpCommands.ts:25 | `\d+` finds the leftmost maximal run of digits, and none exactly when the text has no digit |
| Slots.ExtractNumber | client/src/lib/erpCommands.ts:24-27 | `extractNumber` is null exactly when the text has no digit |
| Slots.ExtractNumberReadsRendered | client/src/lib/erpCommands.ts:24-27 | a number rendered between digit-free text reads back as itself |
| Commands.ClassifyFollowsTable | client/src/lib/erpCommands.ts:176-214 | the routing if-chain equals the first firing row of the rule table, for both interpreters |
| Commands.DisconnectedGate | client/src/lib/erpCommands.ts:171-173 | without a connection, a command mentioning neither "help" nor "settings" gets exactly the not-connected sentence |
| Commands.NoConnectionNoCall | client/src/lib/qbsCommands.ts:191-193 | without a connection no back-end request is ever made; a command routed to inventory, invoice, orders or contacts gets the not-connected sentence, even one that passed the gate by mentioning help or settings |
| Commands.RequestsFollowRules | client/src/lib/erpCommands.ts:176-191 | a request for stock, an invoice or open orders is issued if and only if there is a connection, the command is routed to that action, and its product or customer slot was extracted and is non-empty |
| Commands.MissingProductPrompts | client/src/lib/erpCommands.ts:76-80 | an inventory command with no product, or an empty one, gets the prompt for a product |
| Commands.MissingCustomerPrompts | client/src/lib/erpCommands.ts:114-118 | an invoice command with no customer, or an empty one, gets the prompt for a customer |
| Commands.ContactsAreSimulated | client/src/lib/qbsCommands.ts:168-183 | QBS answers a contacts command with the fixed contact list; ERPNext never routes to contacts |
| Commands.OpenOrdersIsQuery | client/src/lib/erpCommands.ts:188-191 | a command with "open orders" is routed to inventory, invoice or orders, never to navigation; without inventory or invoice words it is the orders query |
| Commands.NavigationNeedsDestination | client/src/lib/erpCommands.ts:194-205 | navigation happens only with a navigation phrase and to the destination named; settings only when neither dashboard nor history is named; a navigation phrase without a destination falls through |
| Commands.ErrorSentences | client/src/lib/erpCommands.ts:97-162 | a reply starts with "Error " exactly when it is one of the failure replies |
| Commands.ErrorIffFailed | client/src/lib/erpCommands.ts:83-102 | a back-end reply starts with "Error " exactly when the call threw or came back unsuccessful |
| Commands.OrdersCountReadsBack | client/src/lib/erpCommands.ts:156 | the number in the open-orders sentence reads back, through `extractNumber`, as the number of orders |
| Commands.QbsHelpMentionsContacts | client/src/lib/qbsCommands.ts:240 | the QBS help sentence lists "show contacts" |
| Commands.HelpMeCheckInventory | client/src/lib/erpCommands.ts:171-179 | "help me check inventory" is routed to inventory, yet passes the no-connection gate because it mentions help |
| Commands.WidgetInventoryRequest | client/src/lib/erpCommands.ts:176-179 | "Check inventory for product Widget." requests the stock of "Widget", in the casing spoken |
| HistoryFilter.Filter | client/src/pages/CommandHistoryPage.tsx:13-16 | the filtered list is no longer than the history, and every entry in it is in the history and matches |
| HistoryFilter.FilterKeepsExactlyMatches | client/src/pages/CommandHistoryPage.tsx:13-16 | a record is listed if and only if it is in the history and matches the term |
| HistoryFilter.FilterIsSubsequence | client/src/pages/CommandHistoryPage.tsx:13 | the list shown keeps the history's order |
| HistoryFilter.EmptyTermKeepsAll | client/src/pages/CommandHistoryPage.tsx:13-16 | an empty search box lists the whole history unchanged |
| HistoryFilter.EveryRecordMatchesEmpty | client/src/pages/CommandHistoryPage.tsx:14 | the empty term matches every record |
| HistoryFilter.NoResponseMatchesCommand | client/src/pages/CommandHistoryPage.tsx:15 | a record with no response is matched on its command alone |
| HistoryFilter.ResponseMatchKeeps | client/src/pages/CommandHistoryPage.tsx:15 | a term occurring in the response, whatever its case, keeps the record |
| Recognizer.AssembleTranscript | client/src/hooks/useSpeechRecognition.tsx:92-106 | the loop yields the final entries joined, from `resultIndex` on, or the interim ones when no final text exists |
| Recognizer.FinalsAppend | client/src/hooks/useSpeechRecognition.tsx:96-104 | the final text of two runs of entries is the concatenation of their final texts |
| Recognizer.InterimsAppend | client/src/hooks/useSpeechRecognition.tsx:96-104 | the same for the interim text |
| Recognizer.EarlierResultsIgnored | client/src/hooks/useSpeechRecognition.tsx:96 | entries before `resultIndex` do not affect the transcript |
| Recognizer.IndexPastEndIsEmpty | client/src/hooks/useSpeechRecognition.tsx:96 | an index at or past the end gives the empty transcript |
| Recognizer.FinalTextWins | client/src/hooks/useSpeechRecognition.tsx:106 | a non-empty final entry makes the final text the transcript, and its words appear in it |
| Recognizer.NoFinalGivesInterim | client/src/hooks/useSpeechRecognition.tsx:106 | with no final entry the transcript is the interim text |
| Recognizer.ErrorMessage | client/src/hooks/useSpeechRecognition.tsx:113 | an error event is reported as "Speech recognition error: …" |
| Recognizer.SpeechRecognizer.constructor | client/src/hooks/useSpeechRecognition.tsx:70-79 | not listening, empty transcript, and the unsupported-browser error exactly when there is no recognizer |
| Recognizer.SpeechRecognizer.Setup | client/src/hooks/useSpeechRecognition.tsx:70-131 | the setup effect run again leaves `isListening` and the transcript alone; without a recognizer it sets the unsupported-browser error again and calls `onError`, and only then |
| Recognizer.SpeechRecognizer.Start | client/src/hooks/useSpeechRecognition.tsx:134-149 | listening starts, and the error clears, exactly when a recognizer exists and `start()` does not throw; otherwise the state is kept |
| Recognizer.SpeechRecognizer.Stop | client/src/hooks/useSpeechRecognition.tsx:152-157 | not listening afterwards; error and transcript kept |
| Recognizer.SpeechRecognizer.OnError | client/src/hooks/useSpeechRecognition.tsx:112-117 | records the error message and stops listening |
| Recognizer.SpeechRecognizer.OnEnd | client/src/hooks/useSpeechRecognition.tsx:120-123 | stops listening, nothing else changes |
| Recognizer.SpeechRecognizer.OnResult | client/src/hooks/useSpeechRecognition.tsx:92-109 | the stored and handed-on transcript is the assembled one |
| Recognizer.SpeechRecognizer.ResetTranscript | client/src/hooks/useSpeechRecognition.tsx:160-162 | clears the transcript only |
| VoiceSession.ErrorText | client/src/context/VoiceContext.tsx:220 | the shown error is "Error: " followed by exactly the message |
| VoiceSession.NonBlankGuard | client/src/context/VoiceContext.tsx:125 | `finalText && finalText.trim() !== ""` holds exactly when the text is not blank |
| VoiceSession.Session.constructor | client/src/context/VoiceContext.tsx:56-141 | the context starts inactive, with nothing recognised, posted, spoken or scheduled |
| VoiceSession.Session.LoadSettings | client/src/context/VoiceContext.tsx:64 | only the settings change |
| VoiceSession.Session.StartListening | client/src/context/VoiceContext.tsx:147-153 | transcript and texts cleared and state listening; the recognizer listens, and its error clears, exactly when it exists and `start()` does not throw, and otherwise keeps its previous flag and error |
| VoiceSession.Session.StopListening | client/src/context/VoiceContext.tsx:156-159 | state inactive and recognizer stopped |
| VoiceSession.Session.RecognizerResult | client/src/context/VoiceContext.tsx:119-121 | the recognised text is the assembled transcript |
| VoiceSession.Session.BeginCommand | client/src/context/VoiceContext.tsx:162-171 | state processing and one pending record posted |
| VoiceSession.Session.SettleCommand | client/src/context/VoiceContext.tsx:191-240 | when the awaited call resolves, the ERPNext interpreter's sentence for the command is shown and a navigation reply moves the page; when it throws, "Error: " and the message is shown and the page stays. The text is spoken when the settings captured when processing began have voice replies on. A success or error record is posted. A resume timer carrying the captured `continuousListening`, or a stop timer, is queued |
| VoiceSession.Session.ProcessCommand | client/src/context/VoiceContext.tsx:162-217 | a pending then a success record carrying the interpreter's sentence; the shown text is that sentence; the page moves to the interpreter's destination |
| VoiceSession.Session.RecognizerEnd | client/src/context/VoiceContext.tsx:122-132 | only while listening: a non-blank transcript starts processing it and a blank one goes inactive; in other states nothing but the recognizer changes |
| VoiceSession.Session.RecognizerError | client/src/context/VoiceContext.tsx:133-140 | the error is recorded and the state becomes inactive |
| VoiceSession.Session.DelayElapsed | client/src/context/VoiceContext.tsx:211-217 | the oldest timer fires: after a success with continuous listening on it restarts listening, with the recognizer's flag and error as `startListening` leaves them; otherwise the state becomes inactive and the recognizer is untouched |
| VoiceSession.Session.RenderEffect | client/src/hooks/useSpeechRecognition.tsx:70-79 | after a render without a recognizer, the error is set again and `onError` makes the session inactive (VoiceContext.tsx line 139); with a recognizer the state and error are kept |
| VoiceSession.Session.WakeWordCheck | client/src/context/VoiceContext.tsx:249-259 | the wake word heard while listening continuously and inactive clears the transcript and starts listening; otherwise nothing changes |
| Storage.FindFirst | server/storage.ts:121-125 | the lookup returns the lowest id whose record qualifies, and none exactly when no record does |
| Storage.InsertByRankKeepsOrder | server/storage.ts:138-142 | inserting a newer record after all of no greater rank keeps the list ordered, with ties broken by id, and adds exactly that record |
| Storage.SortedSelection | server/storage.ts:136-142 | the selected records, sorted stably: ordered by rank and then id, and exactly the records that qualify |
| Storage.OrderedListIsUnique | server/storage.ts:138-142 | two lists that are ordered this way and hold the same records are equal, so the sorted result is determined |
| Storage.OrderedHistoryIsNewestFirst | server/storage.ts:138-142 | in the sorted history each record is newer than the next, or as new and created earlier |
| Storage.SliceEnd | server/storage.ts:144 | `slice(0, n)` ends at `min(n, len)` for non-negative `n` and at `max(len + n, 0)` for negative `n` |
| Storage.ApplyLimit | server/storage.ts:144 | a limit keeps a prefix: all of it when the limit is absent or 0, `min(limit, len)` records when positive, and `len + limit` records (at least 0) when negative |
| Storage.SeedRecord | server/storage.ts:77-103 | the k-th seeded quick command has id k, order k, and belongs to the admin |
| Storage.MemStorage.constructor | server/storage.ts:61-114 | the store holds exactly the admin user, the four seeded quick commands and the admin's settings, with the counters that follow |
| Storage.MemStorage.GetUser | server/storage.ts:117-119 | the user with that id, if any |
| Storage.MemStorage.GetUserByUsername | server/storage.ts:121-125 | the first user by id with that name, and none exactly when no user has it |
| Storage.MemStorage.CreateUser | server/storage.ts:127-132 | the new user takes the next id, is added to the users, and nothing else changes |
| Storage.MemStorage.GetCommandHistory | server/storage.ts:135-145 | the user's records, newest first and stably sorted, cut by the limit |
| Storage.MemStorage.CreateCommandHistory | server/storage.ts:147-153 | the record takes the next id, greater than every stored id, and the current time; nothing else changes |
| Storage.MemStorage.GetVoiceSettings | server/storage.ts:156-160 | the first settings by id for the user, and none exactly when the user has none |
| Storage.MemStorage.CreateVoiceSettings | server/storage.ts:162-167 | the settings take the next id; nothing else changes |
| Storage.MemStorage.UpdateVoiceSettings | server/storage.ts:169-179 | none exactly when the user has no settings; otherwise their first settings are replaced by the merge |
| Storage.MemStorage.GetQuickCommands | server/storage.ts:182-186 | exactly the user's quick commands, ordered by their order field and then by id |
| Storage.MemStorage.CreateQuickCommand | server/storage.ts:188-193 | the command takes the next id; nothing else changes |
| Storage.MemStorage.UpdateQuickCommand | server/storage.ts:195-205 | none exactly when the id is unknown; otherwise the stored command is replaced by the merge |
| Storage.MemStorage.DeleteQuickCommand | server/storage.ts:207-209 | the command is removed, and the result says whether it was there |
| Storage.MemStorage.GetErpConnection | server/storage.ts:212-216 | the first connection by id for the user, and none exactly when there is none |
| Storage.MemStorage.CreateErpConnection | server/storage.ts:218-224 | the connection takes the next id and the current time; nothing else changes |
| Storage.MemStorage.UpdateErpConnection | server/storage.ts:226-240 | none exactly when the user has no connection; otherwise the first one is replaced by the merge stamped with the current time |
| SimpleControls.BranchPriority | client/src/components/voice/SimpleControls.tsx:41-160 | stock when "inventory" or "check" occurs; orders when "order" occurs and neither of those does; users for "user list" alone; the remaining ERP commands are exactly the ones with "invoice" |
| SimpleControls.WordRunEnd | client/src/components/voice/SimpleControls.tsx:54 | `\w+` runs to the first non-word character |
| SimpleControls.WordAfterForIsLeftmost | client/src/components/voice/SimpleControls.tsx:54 | `/for (\w+)/` takes the word after the leftmost "for " that is followed by a word character, and none exactly when no such place exists |
| SimpleControls.ProductNameShape | client/src/components/voice/SimpleControls.tsx:53-57 | the product is "Plate" when no match exists, and otherwise a non-empty run of word characters |
| SimpleControls.TotalQuantity | client/src/components/voice/SimpleControls.tsx:85-88 | the loop's total is the sum of the bins' quantities, a missing quantity counting 0 |
| SimpleControls.SumQtyAppend | client/src/components/voice/SimpleControls.tsx:85-88 | the sum over two runs of bins is the sum of their sums |
| SimpleControls.MissingQuantityAddsNothing | client/src/components/voice/SimpleControls.tsx:87 | a bin without a quantity adds nothing |
| SimpleControls.SumQtyBoundsEachBin | client/src/components/voice/SimpleControls.tsx:85-90 | with non-negative quantities the total is at least each bin's quantity |
| SimpleControls.NonNegativeSum | client/src/components/voice/SimpleControls.tsx:85-90 | with non-negative quantities the total is non-negative |
| SimpleControls.StockIsSumOverBins | client/src/components/voice/SimpleControls.tsx:69-90 | the stock sentence reports the first matching item with the sum over all its bins |
| SimpleControls.NonErpEchoed | client/src/components/voice/SimpleControls.tsx:165-168 | a command with none of the ERP words is echoed back as `Processed command: "…"` |
| SimpleControls.UrlRequired | client/src/components/voice/SimpleControls.tsx:49-163 | a connection without a url stops every ERP command with the no-connection sentence |
| SimpleControls.OrdersSentences | client/src/components/voice/SimpleControls.tsx:112-118 | no orders gives "No open orders found."; otherwise the count and the first order are reported |
| SimpleControls.SuccessRecord | client/src/components/voice/SimpleControls.tsx:171-176 | the success record carries the command and the text shown, with status "success" |
| SimpleControls.StaleResultRecorded | client/src/components/voice/SimpleControls.tsx:171-176 | the success record as written stores the response from before the command, not the text shown |
| SimpleControls.Panel.constructor | client/src/components/voice/SimpleControls.tsx:8-12 | empty input, not recording, no result, nothing posted |
| SimpleControls.Panel.SetInput | client/src/components/voice/SimpleControls.tsx:8 | only the input changes |
| SimpleControls.Panel.StartRecording | client/src/components/voice/SimpleControls.tsx:15-18 | recording, with the result cleared |
| SimpleControls.Panel.StopRecording | client/src/components/voice/SimpleControls.tsx:20-22 | not recording |
| SimpleControls.Panel.Stock | client/src/components/voice/SimpleControls.tsx:51-100 | the stock branch, with the bins summed by the loop, gives the specified stock answer |
| SimpleControls.Panel.Route | client/src/components/voice/SimpleControls.tsx:40-168 | the branches of the handler give the specified answer, or the thrown error |
| SimpleControls.Panel.ProcessCommand | client/src/components/voice/SimpleControls.tsx:25-192 | blank input changes nothing; otherwise the routed answer, or the thrown error, is shown, and a pending record then an error record, or a success record whose response is the `result` from before the click, are posted |
| SimpleControls.Panel.ProcessCommandIntended | client/src/components/voice/SimpleControls.tsx:25-192 | the same, except that the success record carries the text just shown |

## Left out

- HTTP and network access are not modelled: the routes, the ERP and QBS
  clients, the query cache and the axios calls. Each back-end answer is a
  parameter (`Api`, `Backend`); a thrown call is `Thrown`.
- Speech synthesis and toasts are not modelled. A spoken reply is recorded in
  `spoken`; toasts are dropped.
- Navigation by `window.location.href` reloads the page. The model records the
  target page in `location`.
- The five-second timers are not modelled in real time. They form a queue that
  `DelayElapsed` pops in order.
- VoiceSession.Session.ProcessCommand: other events that arrive during the
  `await` are not interleaved with it. `BeginCommand` and `SettleCommand` model
  the two halves separately. `BeginCommand` records the settings the closure
  captures, and `SettleCommand` reads those. So an interleaving is a sequence
  of calls. `SettleCommand` takes the connection and the back-end answers as
  parameters, and the page moves when the command settles rather than during
  the `await`. The `Rejected` case stands for a throw inside the `try` block;
  the interpreter itself catches every failure of its own calls.
- SimpleControls.Panel.ProcessCommand: a run is modelled as atomic. The source
  disables the button while a command is processing, but the Enter key still
  starts `processCommand` on any non-blank input. So two runs can overlap: both
  pending records are posted before either run settles, and `result` ends as
  the text of the run that settles last. That overlap is not modelled.
- A POST to the history that fails is not modelled, in either the panel or the
  voice context. In the panel such a failure would be caught as a command
  error.
- Recognizer.SpeechRecognizer.constructor: the model keeps one recognizer
  whose handlers always see the session's current state. The source does not.
  The provider passes fresh callbacks on every render, so the setup effect runs
  after every render. It stops the running browser recognizer and installs a
  new one. The stopped one's end event can still arrive, and its handler
  closes over an older render's state. `RenderEffect` models the effect's
  visible part: in a browser without a recognizer, the error is reported again
  and the session goes inactive. The stop of the old recognizer and its late
  end event are not modelled. A later `RecognizerEnd` stands for that event,
  and it reads the current state.
- VoiceSession.Session.WakeWordCheck: settings without a wake word never wake
  the session. The source would throw on `undefined.toLowerCase()`.
- Storage.MemStorage.GetQuickCommands: quick commands are assumed to have an
  order field. A missing one makes the JavaScript comparator return `NaN`.
  The column is nullable, and an update can store `sortOrder: null`. The
  subtraction then reads `null` as 0, so such a command sorts as order 0. The
  model cannot express a null order.
- Lower-casing is modelled for ASCII only.
- Slots.ExtractNumber: returns the exact value of the digit run. `parseInt`
  returns a double, which rounds runs above 2^53; that rounding is not
  modelled.
- Stock quantities are integers, not floating-point numbers.
- A field that is `undefined` inside a sentence renders the same as one that
  is `null`.
- The `metadata` column of the history is not modelled.
- server/routes.ts parses the `limit` query text. That parsing is not part of
  this model; `ApplyLimit` takes the number that results, with `None` for an
  absent or non-numeric limit.

## Findings

| source | as written | input that shows it | evidently intended | confidence | as-written member | corrected member |
|---|---|---|---|---|---|---|
| client/src/components/voice/SimpleControls.tsx:171-176 | the success record stores `result`, which is the value captured when the command started, not the text the panel shows | on a fresh panel, type "hello": the panel shows `Processed command: "hello"` but the record's response is "" | the record stores the text shown | not executed | SimpleControls.Panel.ProcessCommand, SimpleControls.StaleResultRecorded | SimpleControls.Panel.ProcessCommandIntended, SimpleControls.SuccessRecord |

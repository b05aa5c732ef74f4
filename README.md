# MT5 trade sync: a Dafny model

This project models the trade-synchronisation path of the MT-EA-CONNECT web app. The app moves
closed MetaTrader 5 trades into a browser trade journal. It has four routes for the trades:

- **Relay.** An expert advisor (EA) is generated from a template that holds the user's sync
  key. The EA posts the closing deals of the last 90 days, as a JSON array, to a small Express
  relay (`server.js`). The relay stores the last body under the key. The connect form polls the
  relay until a non-empty answer arrives, normalises the trades and hands them to the app shell.
- **Ingestion route.** A Next.js route (`route.ts`) validates a `{trades, account,
  openPositions}` payload with zod. It then merge-writes the payload into a Firestore session
  document. A live page (`page.tsx`) mirrors that document.
- **Report import.** An HTML report can be imported instead. Its table rows are parsed into
  trades, newest first.
- **MetaApi.** A MetaApi client finds or creates a cloud account, deploys it, waits for it to
  connect, maps its order history to trades and always asks for the undeploy.

The journal view computes the figures shown on its cards and table.

One Dafny module models each source file:

| module | source |
|---|---|
| `Relay` | `server.js` |
| `Ingest` | `route.ts` |
| `Dashboard` | `page.tsx` |
| `Bridge` | `ConnectForm.tsx` |
| `Report` | the report parser of `mockMT5Service.ts` |
| `Mql5` | `mql5Script.ts` |
| `MetaApi` | `metaApiService.ts` |
| `Journal` | `TradeJournal.tsx` |
| `AppShell` | `App.tsx` |

Shared modules:

- `Js`: JSON values, JavaScript numbers with NaN, truthiness, `Number(..)` and `x || 0`.
- `Strings`: `trim`, `toLowerCase`, `indexOf`, `replace` with a string pattern, and `join`.
- `TradeTypes`: the `Trade` record of `types.ts`.
- `Sorting`: the newest-first sort, which is stable.
- `Lists`: the `filter`/`map` pipeline.
- `Wrappers`: `Option` and `Result`.

Objects whose fields change become classes: Express's store, the Firestore collection, the two
React components with state, and the app shell. Their methods are proved against functions of
the old state. The parsers, validators and view figures are functions, with lemmas about them.
The loops become methods with loop invariants, proved against the functions they compute:

- the relay's EA serialisation loop;
- the report parser's row loop;
- the MetaApi connection wait.

A written description of the system says more than the code does. Where the two differ, the
model follows the code:

- The relay keeps its state in memory only. It has no timestamp-based delta poll (no 304), no
  rate limiter and no file persistence.
- The relay answers a missing key with 400. The ingestion route answers it with 401.
- The ingestion route merges into the stored document (`merge: true`). It does not replace it.
- The route answers a body that is not JSON with 500, through its `catch`.
- The relay's poll answers 404 with `{success: false, message: "No data yet"}` and no other
  member.

## Model

| member | source | states |
|---|---|---|
| Relay.PollPath | server.js:36 | the poll route is "/api/trades/" followed by the key, unchanged |
| Relay.WebhookAnswer | server.js:19-33 | 200 exactly when a non-empty key header is given; otherwise 400 "Missing Sync-Key header", whatever the body |
| Relay.TradeStore.constructor | server.js:16 | the store starts empty |
| Relay.TradeStore.Webhook | server.js:19-33 | the reply is the webhook answer, and the entry for the key becomes the body wholesale; without a key nothing changes |
| Relay.TradeStore.Poll | server.js:36-45 | the reply is 200 with `{success: true, trades}` for a stored truthy body, else 404; always 200 or 404 |
| Relay.MissingKeyChangesNothing | server.js:23-25 | a request without a usable key is refused with 400 and leaves every entry unchanged |
| Relay.PushIsolation | server.js:30 | a push under one key changes only that key's entry; polls of every other key answer as before |
| Relay.PollAfterPush | server.js:19-45 | after a push of any object or array body under a key, a poll of that key answers 200 with exactly that body |
| Relay.NeverPushedNotFound | server.js:38-44 | a key never pushed is answered 404 `{success: false, message: "No data yet"}` |
| Relay.LatestBody | server.js:30 | absent exactly when no request of the sequence was accepted under the key |
| Relay.LastWriteWins | server.js:19-45 | after any sequence of pushes, a poll sees the body of the last push accepted under the key, or answers as before when there was none |
| Relay.InheritedNameIsFound | server.js:16-40 | on the plain-object store, polling "constructor" with nothing pushed answers 200, where the intended answer is 404 |
| Relay.AsWrittenAgreesElsewhere | server.js:38-44 | the plain-object store and the map agree on every key that is not an inherited name |
| Ingest.FieldIssues | JFX_Integration_Files/route.ts:6-44 | no issue exactly when every schema field is well-typed; each issue is the path of a failing field |
| Ingest.ObjectIssues | JFX_Integration_Files/route.ts:6-44 | no issue exactly when the value is an object matching the schema |
| Ingest.ElementIssuesEmpty | JFX_Integration_Files/route.ts:47-49 | an array has no issues exactly when every element matches the schema |
| Ingest.BadElementReported | JFX_Integration_Files/route.ts:47-49 | a bad element is reported under its own index |
| Ingest.PayloadIssuesEmpty | JFX_Integration_Files/route.ts:46-50 | the issue list is empty exactly when the payload meets the schema: trades valid, account absent, null or valid, positions absent or valid |
| Ingest.OneBadTradeRejects | JFX_Integration_Files/route.ts:46-71 | one bad trade rejects the payload, with an issue at `trades.<index>` |
| Ingest.Strip | JFX_Integration_Files/route.ts:6-44 | the output keeps exactly the schema's names that are present; unknown members are dropped |
| Ingest.StripAll | JFX_Integration_Files/route.ts:47-49 | each element becomes its stripped object, one for one |
| Ingest.Validate | JFX_Integration_Files/route.ts:64-73 | accepts exactly the valid payloads; a rejection lists exactly the payload's issues, never none |
| Ingest.ValidateShape | JFX_Integration_Files/route.ts:46-73 | the parsed payload has one trade per input trade and keeps absent, null and given accounts, and absent positions, apart |
| Ingest.TypeIsAnyString | JFX_Integration_Files/route.ts:9 | any string is accepted as a trade's or position's `type`, not only "Buy"/"Sell" |
| Ingest.IsRealCoercion | JFX_Integration_Files/route.ts:28 | `isReal` accepts exactly booleans and strings; a boolean is kept and a string becomes `s == "true"` |
| Ingest.StripValue | JFX_Integration_Files/route.ts:6-44 | a present schema member keeps its value, after that field's transform |
| Ingest.BareArrayRejected | JFX_Integration_Files/route.ts:46-71 | a bare JSON array is rejected at the root path |
| Ingest.StripStable | JFX_Integration_Files/route.ts:64-73 | stripping is idempotent and its output passes the same schema |
| Ingest.TradeNamesDistinct | JFX_Integration_Files/route.ts:6-18 | the trade schema names each member once |
| Ingest.AccountNamesDistinct | JFX_Integration_Files/route.ts:20-29 | the account schema names each member once |
| Ingest.ValidatedTradesStable | JFX_Integration_Files/route.ts:64-88 | every validated trade passes the trade schema again and is unchanged by a second parse |
| Ingest.Written | JFX_Integration_Files/route.ts:87-92 | the write holds the trades, the positions or [], the time, the forwarded address or "unknown", and the account only when one was sent, as with Firestore's `ignoreUndefinedProperties` |
| Ingest.Merge | JFX_Integration_Files/route.ts:87-93 | the merged document has both documents' names; unmentioned members are kept, and written members replace old ones unless both are objects |
| Ingest.Store | JFX_Integration_Files/route.ts:80-93 | the key's document is created or merged; no other document changes |
| Ingest.SessionStore.Post | JFX_Integration_Files/route.ts:52-103 | the reply is decided in key, JSON, schema, write order, and the collection changes only on success |
| Ingest.MissingKeyUnauthorized | JFX_Integration_Files/route.ts:56-60 | without a key the answer is 401 whatever the body, and nothing is written |
| Ingest.MalformedIsServerError | JFX_Integration_Files/route.ts:63-102 | a body that is not JSON is answered 500 with the parser's message, not 400 |
| Ingest.InvalidIsRejected | JFX_Integration_Files/route.ts:64-71 | an invalid body is answered 400 listing exactly its issues, and nothing is written |
| Ingest.MergedDocument | JFX_Integration_Files/route.ts:87-93 | after a write the document holds the sent trades, positions, time and address, and keeps every member the write does not name |
| Ingest.StoredWrite | JFX_Integration_Files/route.ts:80-97 | a valid request with a key is stored as the merge into the key's document, and no other document changes |
| Ingest.BareArrayNeverStored | JFX_Integration_Files/route.ts:64-71 | the EA's bare array is answered 400 at the root and never written |
| Dashboard.Member | JFX_Integration_Files/page.tsx:30-34 | a member is present exactly when the document has it, with its value |
| Dashboard.OrEmptyArray | JFX_Integration_Files/page.tsx:32-33 | `v \|\| []` keeps a truthy value and otherwise gives an empty array; the result is truthy |
| Dashboard.ConnectedAfter | JFX_Integration_Files/page.tsx:29-38 | connected exactly when the document exists |
| Dashboard.MemberAfter | JFX_Integration_Files/page.tsx:31-34 | `account` and `lastUpdated` become the document's member, or undefined when it is missing; a missing document keeps the old value |
| Dashboard.ListAfter | JFX_Integration_Files/page.tsx:32-33 | the list becomes the member or []; a missing document keeps the old list |
| Dashboard.Page.constructor | JFX_Integration_Files/page.tsx:16-22 | the page starts with key "default_user", disconnected, time 0, null account and empty lists |
| Dashboard.Page.OnSnapshot | JFX_Integration_Files/page.tsx:28-39 | each state member becomes its after-snapshot value |
| Dashboard.InitialPage | JFX_Integration_Files/page.tsx:16-49 | the fresh page subscribes, shows "Waiting for Data" and hides the account cards and the positions table |
| Dashboard.MissingDocumentKeepsData | JFX_Integration_Files/page.tsx:36-38 | a missing document only disconnects: the account, lists and positions table stay |
| Dashboard.SnapshotOfWrite | JFX_Integration_Files/page.tsx:28-116 | a snapshot of a written document shows exactly the written trades and positions, shows the account cards for an account object, and shows the table exactly when a position was sent |
| Dashboard.SnapshotAfterStore | JFX_Integration_Files/page.tsx:28-39 | after the route stores a payload under the page's key, the next snapshot shows what the request carried |
| Strings.TrimCorrect | services/mockMT5Service.ts:88 | `trim` gives the slice without leading or trailing white space; it is empty exactly for all-space text, and it is the identity on text with nothing to trim |
| Strings.ToLower | services/mockMT5Service.ts:91 | the same length, with every ASCII capital lowered and every other character kept; for the test against "buy"/"sell" this agrees with `toLowerCase` |
| Strings.IndexOf | components/ConnectForm.tsx:73 | the first position where the pattern occurs; absent exactly when it does not occur |
| Js.OrZero | services/mockMT5Service.ts:105-106 | `x \|\| 0` keeps a non-zero number and turns 0 and NaN into 0 |
| Js.Add | components/TradeJournal.tsx:20 | number addition: finite exactly when both operands are, and then the real sum |
| Js.NumberOf | components/ConnectForm.tsx:92-98 | `Number(undefined)` is NaN, `Number(null)` is 0, and a number is itself |
| Bridge.NoWebhookKeptWhole | components/ConnectForm.tsx:73-74 | a webhook address without "/webhook" is kept whole as the base |
| Bridge.PollUrlMatchesRelay | components/ConnectForm.tsx:73-74 | for any origin without "/webhook" of its own, the relay's webhook address gives the relay's poll route for the key |
| Bridge.DefaultPollUrl | components/ConnectForm.tsx:53-74 | the default address is the relay's webhook route, and it polls the relay's `/api/trades/<key>` |
| Bridge.NumberOrZero | components/ConnectForm.tsx:97-98 | a falsy or missing member gives 0; otherwise `Number` of it |
| Bridge.Normalise | components/ConnectForm.tsx:89-99 | mapping fails exactly for `null`, whose member access throws |
| Bridge.NormaliseAll | components/ConnectForm.tsx:89-99 | the map fails exactly when some element is `null`; otherwise one record per trade, in order |
| Bridge.AcceptanceRule | components/ConnectForm.tsx:78-107 | waiting goes on exactly unless the response is OK, parses and passes `success && trades && trades.length > 0`, where an object's `length` is converted with `Number` as `>` does; fetch errors keep waiting |
| Bridge.CoercedLengthStops | components/ConnectForm.tsx:83-104 | a pushed object whose `length` is `"5"`, `true` or `[5]` stops the polling, and the `map` that follows throws, so nothing is handed on |
| Bridge.ConnectIsNonEmpty | components/ConnectForm.tsx:83-101 | `onConnect` is only given a non-empty array, one record per received trade |
| Bridge.NormaliseFields | components/ConnectForm.tsx:89-99 | other members are kept, the seven numeric ones are converted, and falsy commission and swap become 0 |
| Bridge.NormaliseKeepsNumbers | components/ConnectForm.tsx:92-98 | numeric members that are already numbers keep their values |
| Bridge.FromRelay | components/ConnectForm.tsx:80-82 | the relay's answer reaches the form with its body |
| Bridge.FoundArrayOutcome | components/ConnectForm.tsx:81-101 | a pushed empty array keeps the form waiting; a non-empty one connects unless an element is `null`, which stops waiting without connecting |
| Bridge.FoundBodyMembers | server.js:41 | the relay's found body has `success: true` and the `trades` body |
| Bridge.RelayPushConnects | components/ConnectForm.tsx:78-101 | once the EA has pushed a non-empty array without `null` under the key, the next poll connects with those trades normalised; an empty push keeps waiting |
| Bridge.NothingPushedKeepsWaiting | components/ConnectForm.tsx:81 | before any push the relay answers 404 and the form keeps waiting |
| Bridge.ConnectForm.constructor | components/ConnectForm.tsx:52-65 | the form starts with the given key, the default address, not waiting and nothing delivered |
| Bridge.ConnectForm.SetWebhookUrl | components/ConnectForm.tsx:219 | only the address changes |
| Bridge.ConnectForm.StartListener | components/ConnectForm.tsx:132-134 | waiting starts; nothing else changes |
| Bridge.ConnectForm.Cancel | components/ConnectForm.tsx:306 | waiting stops; nothing else changes |
| Bridge.ConnectForm.PollResolved | components/ConnectForm.tsx:78-107 | waiting ends on an accepted answer, the mapped trades are delivered only on a connect, and every delivery stays non-empty |
| Bridge.ConnectForm.ImportReport | components/ConnectForm.tsx:162-176 | empty text changes nothing, parsed trades are delivered when there are some, and otherwise the "No valid trades" alert is raised |
| Report.DotsToDashes | services/mockMT5Service.ts:110 | the same length, with every dot turned into a dash and every other character kept |
| Report.RowKept | services/mockMT5Service.ts:84-127 | a row yields a trade exactly when it has 13 cells, an integer ticket, a buy/sell side, a close time and convertible dates |
| Report.RowFields | services/mockMT5Service.ts:88-124 | each field comes from its fixed column; commission and swap fall back to 0, and the profit does not |
| Report.SideIgnoresCase | services/mockMT5Service.ts:91-92 | an upper-case "BUY" is read as "buy" |
| Report.ExtractExact | services/mockMT5Service.ts:82-128 | at most one trade per row, and the extracted trades are exactly the trades of the accepted rows |
| Report.ShortRowIgnored | services/mockMT5Service.ts:84 | a row with fewer than 13 cells contributes nothing |
| Report.ParseRow | services/mockMT5Service.ts:83-127 | the loop body returns the row's trade, each `continue` and the caught exception giving none |
| Report.ParsedCorrect | services/mockMT5Service.ts:74-130 | the result is a permutation of the extracted trades, newest first, with trades of equal close time in row order, at most one per row, and holds exactly the accepted rows' trades |
| Report.ParseReport | services/mockMT5Service.ts:74-130 | the loop and the sort compute the parsed trades |
| Sorting.SortCorrect | services/mockMT5Service.ts:130 | the sort is a permutation, ordered newest first, and stable for equal close times |
| Mql5.FillLayout | services/mql5Script.ts:2-14 | the generated text is the head, the key verbatim, the middle, the address verbatim and the tail |
| Mql5.FillInjective | services/mql5Script.ts:13-14 | keys of one length and the address are recovered from the text |
| Mql5.UnescapedKeyIsAmbiguous | services/mql5Script.ts:13-14 | an unescaped key holding the middle text gives the same program as an empty key |
| Mql5.GeneratedInputLines | services/mql5Script.ts:13-14 | the key line holds the key and the address line the address |
| Mql5.OnInit | services/mql5Script.ts:22-43 | start-up fails exactly for an empty key, with the missing-key alert |
| Mql5.HeaderValue | services/mql5Script.ts:130 | the relay receives the key without the spaces and tabs at either end; empty exactly for a key of blanks; a key without end blanks arrives unchanged |
| Mql5.BlankKeyRefused | services/mql5Script.ts:24-28 | a key of only blanks starts the expert, yet every post of it is refused with 400 |
| Mql5.DealObjectFields | services/mql5Script.ts:100-115 | each object has eleven members; open and close time are the same text, the open price is 0.0, and the type is "Buy" only for a buy deal |
| Mql5.ObjectsExact | services/mql5Script.ts:78-122 | exactly the closing buy/sell deals are serialised, one object per closing deal; a history without one gives "[]" |
| Mql5.SerialiseAll | services/mql5Script.ts:74-122 | the loop builds the bracketed, comma-joined serialisations of the kept deals and counts them |
| Mql5.SyncHistory | services/mql5Script.ts:61-144 | nothing is sent when the history cannot be selected; otherwise the request carries the key header and the payload, counts the closing deals, and succeeds exactly on 200 |
| Mql5.DealJsonDenoted | services/mql5Script.ts:100-115 | each member text of a deal's object reads back as the intended value (ticket, symbol, side, the close time twice, the rounded money, 0.0, the rounded price), given how JSON reads the formatted numbers and a symbol and time text that need no escaping |
| Mql5.PayloadDenoted | services/mql5Script.ts:74-122 | under the same conditions the posted text reads back as the bare array of the intended deal objects, one per serialised object |
| Mql5.PayloadElementsAreObjects | services/mql5Script.ts:103-119 | every element of the intended body is an object, never `null` |
| Mql5.ExpertToRelay | services/mql5Script.ts:74-135 | once started, the EA's post is accepted with 200 exactly when its key is not all blanks; its text reads back as the intended array, which is then polled back as posted under the received key, and the form connects when a deal was sent; the ingestion route rejects the same body |
| Journal.Wins | components/TradeJournal.tsx:17 | at most the number of trades |
| Journal.Losses | components/TradeJournal.tsx:18 | at most the number of trades |
| Journal.WinsAndLossesPartition | components/TradeJournal.tsx:16-18 | wins, losses and NaN profits add up to the count, so wins and losses do exactly when no profit is NaN |
| Journal.FeesDoNotClassify | components/TradeJournal.tsx:17-18 | commission and swap never change the win and loss counts |
| Journal.NetIsProfitPlusFees | components/TradeJournal.tsx:233-254 | net is profit plus the fees column, and a row is green exactly when the finite sum is not negative |
| Journal.TotalIsSumOfNet | components/TradeJournal.tsx:20 | the closed P&L card equals the sum of the rows' net results |
| Journal.TotalFinite | components/TradeJournal.tsx:20 | the total is a number exactly when every trade's money is |
| Journal.Floating | components/TradeJournal.tsx:25-28 | no positions give 0 |
| Journal.FloatingIsSum | components/TradeJournal.tsx:25-28 | the floating result is the sum of the positions' profit and swap, without commission |
| Journal.WinRate | components/TradeJournal.tsx:19 | 0 without trades, between 0 and 100, and wins times 100 over the count |
| Journal.AvgTrade | components/TradeJournal.tsx:205 | 0 without trades or for a NaN total; otherwise the total over the count |
| Journal.MemberOrZero | components/TradeJournal.tsx:107 | always a number; a missing account gives 0 |
| Journal.MarginUsedWithoutAccount | components/TradeJournal.tsx:107 | without an account the card shows 0 plus the floating result, a number exactly when that is one |
| Journal.MarginUsedWithAccount | components/TradeJournal.tsx:107 | equity minus balance plus floating |
| Journal.MarginUsedMissingMember | components/TradeJournal.tsx:107 | a missing or NaN balance counts as 0 |
| Journal.Render | components/TradeJournal.tsx:12-28 | the render throws exactly when the open positions are not passed |
| Journal.RenderedFigures | components/TradeJournal.tsx:15-131 | the cards show the count, wins, losses, the total as the sum of the net column and the floating result, and the positions table exactly when there is a position |
| MetaApi.Find | services/metaApiService.ts:38 | the first account with the same login and server; absent exactly when none matches |
| MetaApi.WaitOutcome | services/metaApiService.ts:72-86 | the wait connects on the first ready reply within 30 checks, and times out exactly when none of the 30 replies was ready or failed |
| MetaApi.WaitForConnection | services/metaApiService.ts:72-86 | the loop computes the wait's outcome |
| MetaApi.HistoryTradesCorrect | services/metaApiService.ts:99-114 | the result is a permutation of the mapped buy and sell orders, one trade per such order, newest first, with trades of equal close time in history order |
| MetaApi.OrderTradeFields | services/metaApiService.ts:101-113 | a mapped trade has no fees, a finite profit, and side Buy exactly for a buy order |
| MetaApi.CreatesOnlyWhenMissing | services/metaApiService.ts:38-41 | the found id is that of the first matching account; a new account is made only without one |
| MetaApi.UndeployWhenResolved | services/metaApiService.ts:121-129 | undeploy is requested exactly when an id was resolved, on success and on failure alike |
| MetaApi.DeployAndSuccess | services/metaApiService.ts:63-116 | a deploy error stops the call unless it says "already deployed"; timeout and success give their results |
| MetaApi.ConnectAndFetchHistory | services/metaApiService.ts:24-131 | the steps compute the call's result and its undeploy request |
| AppShell.AfterConnect | App.tsx:10-13 | connected, with exactly the handed-in trades |
| AppShell.AfterDisconnect | App.tsx:15-18 | back to the initial state |
| AppShell.ScreenOf | App.tsx:28-34 | as written: the journal is shown exactly while connected, with the state's trades and with neither an account nor a position list |
| AppShell.CorrectedScreenOf | App.tsx:28-34 | with the corrected props (see ## Findings): the journal is shown exactly while connected, with the state's trades and an empty position list |
| AppShell.ConnectThenDisconnect | App.tsx:10-18 | a connect followed by a disconnect returns to the initial state and the connect screen |
| AppShell.ConnectThrowsAsWritten | App.tsx:10-29 | as written, the journal shown after a connect holds the handed-in trades and throws on its render |
| AppShell.ConnectShowsTrades | App.tsx:10-29 | with the corrected props (see ## Findings), after a connect the journal renders, showing exactly the handed-in trades |
| AppShell.JournalThrowsAsWritten | App.tsx:29 | as written, the journal's render throws, because `openPositions` is not passed |
| AppShell.JournalRendersWithPositions | App.tsx:29 | with an empty position list the journal renders with no table, floating 0 and margin used 0 |
| AppShell.App.constructor | App.tsx:7-8 | no trades, not connected |
| AppShell.App.HandleConnect | App.tsx:10-13 | the new state is the after-connect state |
| AppShell.App.HandleDisconnect | App.tsx:15-18 | the new state is the initial state |

## Left out

- I/O is not modelled: HTTP, Firestore, the DOM, `FileReader`, timers, the clipboard and the
  download. Each request becomes its outcome, given as a parameter. Each timer tick becomes a
  method call.
- Engine conversions are parameters: `parseInt`, `parseFloat`, `Number` of a string, the `Date`
  parsing and formatting, and MQL5's `%d`/`%.2f`/`%.5f` and `TimeToString`. `toFixed` on the
  cards is not modelled.
- Infinities are not modelled. A number is a real or NaN.
- The random `sk_…` key of the connect form is a constructor parameter.
- Concurrency is not modelled: overlapping poll requests, and a poll resolving after the form
  unmounts.
- Bridge.Normalise: the spread of a string or array element yields no members here. JavaScript
  copies its characters or elements as indexed members ("0", "1", …). Numbers and booleans
  spread to nothing in both.
- Mql5.Tail: the template text holds the program up to line 17 of `mql5Script.ts`. The rest of
  the program (lines 18-145) is not part of the text constant. Its behaviour is modelled by
  `OnInit` and `SyncHistory`.
- Mql5.Denotes: the JSON reading of the posted text is defined on the member lists from which
  the text is built: a quoted text is a string, any other text is a number read by a parameter.
  The characters are not parsed by a JSON grammar. A symbol or time text with a quote, a
  backslash or a control character (U+0000 to U+001F) reads as no value, because the EA writes
  it unescaped and `JSON.parse` refuses it.
- Mql5.HeaderValue: only the spaces and tabs around the key are modelled. A key holding a
  carriage return or a line feed, which would break the header line, is not.
- Mql5 logging (`Print`), the WebRequest permission note, `EventSetTimer`/`OnTimer`/`OnDeinit`,
  the 90-day history window and the 5-second `WebRequest` timeout are left out. `OnInit` records
  whether start-up fails and the alert it raises. `HistorySelect` and `WebRequest` give their
  outcomes as parameters.
- MetaApi.Order: history orders are assumed to carry every mapped member and an ISO
  `doneTime`. An absent `price` or `profit` cannot be represented, and `timeOf` cannot give NaN
  for a missing or unparsable `doneTime`, where the comparator at
  services/metaApiService.ts:114 would return NaN and leave the order to the engine.
- MetaApi request URLs, the request bodies, `sleep(2000)` and the fire-and-forget undeploy
  request are left out. The model records which account is undeployed.
- Journal: money is a JavaScript number (a real or NaN). Rounding in floating point is not
  modelled.
- AppShell trades are typed as `Trade`. The records the connect form delivers are not checked
  against that type, as in the source.
- The dashboard's rendered markup, charts and the `geminiService.ts` commentary are not part of
  this model.
- Relay.PushIsolation: the first clause also holds trivially for the empty key, which the
  relay refuses.
- Relay.PollAnswerAsWritten: it holds only while nothing was pushed under `__proto__`. On the
  source's plain object such a push (server.js:30) replaces the store's prototype with the body.
  Polls of the body's own member names then answer 200, which also breaks `PushIsolation` for
  the as-written store. The model's map store has no prototype.
- Ingest.Written: an absent `account` is left out of the write. This assumes Firestore's
  `ignoreUndefinedProperties` setting, which would live in `@/lib/firebase-admin`; that file is
  not part of this model. With the Admin SDK's default the write of `account: undefined`
  throws, and the route answers 500.
- Ingest.Merge: an empty object in the write keeps the old object, where Firestore would store
  `{}`. The route never writes one, as a validated account has eight members.

## Findings

| source | as written | input that shows it | evidently intended | confidence | as-written member | corrected member |
|---|---|---|---|---|---|---|
| server.js:16-40 | `tradeStore` is a plain object, so `tradeStore[syncKey]` also finds members inherited from `Object.prototype` | `GET /api/trades/constructor` with nothing pushed answers 200 `{success: true}` | a key that was never pushed is answered 404 "No data yet" | not executed | Relay.InheritedNameIsFound | Relay.NeverPushedNotFound |
| App.tsx:29 | `TradeJournal` is rendered without `openPositions`, so `openPositions.reduce` at components/TradeJournal.tsx:26 runs on `undefined` and throws | any connect with any trades | the journal renders with an empty position list | not executed | AppShell.JournalThrowsAsWritten | AppShell.JournalRendersWithPositions |

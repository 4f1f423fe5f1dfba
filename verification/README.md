# Verified model of the KuCoin Pro gateway

A Dafny model of the parts of the gateway that carry state, with proofs over all runs. Four
parts, each a set of files:

- **Account** (`Account*.dfy`, `StaleQuery.dfy`): the drop-copy stream climbs a ladder of
  subscriptions and downloads, the REST stream serves the downloads through shared request
  slots, stale orders are collected in a set and asked for in batches, and the private token
  is renewed. One step system of both streams and the shared state; an event is a tick, an
  answer, a connect, a disconnect, a welcome, an acknowledgement or a token expiry.
- **Fan-out** (`Fanout*.dfy`): client subscriptions and instrument downloads feed one list of
  symbols, cut into slices, one market-data stream per slice.
- **Orders** (`Json*.dfy`, `FixedPoint.dfy`, `Encoder*.dfy`, `Ws*.dfy`): the order encoder
  over a reused buffer, with an independent JSON reader, and the websocket order session.
- **Folds** (`Dispatch.dfy`, `Throttle.dfy`): dispatch of top-level messages and the throttle
  deadline.

Each stateful part has a `...Spec` module of values and step functions, theorems about every
reachable state or every run, and a `...Gateway` module with the classes of the source, whose
methods are proved to do to their fields what the step functions say. History that the source
does not keep (requests sent, keys ever inserted, the trace of a session) is kept in fields
marked as such.

In the account part a failed assert stops the process, as `log::fatal` does, and is proved not
to happen. The websocket session has an assert that can fail, and goes on after it as a build
without asserts does.

Runs that exhibit a failure name an arbitrary time `now` at which every connect and tick of the
run takes place, so none of them turns on the clock; that of a lost token needs time to pass
and says how its clock runs.

`dafny verify dfyconfig.toml` checks the project.

## What the code does differently from what it, or its documentation, suggests

Each of these is a lemma below; the model follows the code.

- Details of a stale order are requested with the arguments in the wrong order
  (`StaleQuery.DetailQueryExact`).
- A request that is pending when the drop copy disconnects goes out in the next session at once,
  before the subscription it belongs to is acknowledged there
  (`AccountExamples.EarlyRequestExample`, exactly when: `AccountSends.AsksEarlyExact`).
- The fatal check of GET_STALE_ORDERS is reachable after a reconnect
  (`AccountExamples.FatalCheckReachable`, exactly when: `AccountFatal.FatalAtWelcomeExact`,
  `AccountStale.FatalCheckExact`).
- A batch in which no order is known is never committed and blocks every later download of the
  account (`AccountExamples.WedgedExample`, `AccountStale.UnknownBatchWedges`, `WedgedForever`,
  `AccountReady.WedgedReadyExact`).
- A failed token answer after an expiry, or a batch in which no order is known, loses the token
  for good (`AccountToken.FailedAnswerLoses`, `LostForever`, `AccountLost.TokenReturnsExact`).
  Since the error event is never raised this happens through the simulated expiry only, that
  is exactly to a master account that is configured for it (`AccountLost.LostExact`).
- A refused token request (a CLIENT_ERROR with a readable body) counts as a success: the initial
  download is over and not repeated, without a token (`AccountAnswers.TokenAnswerExact`).
- READY can be reached although every download failed (`AccountReady.CanBecomeReady`); a response
  left over from an earlier session completes a later one's download
  (`AccountExamples.LeftoverExample`, `AccountOnce.LeftoverCompletes`, exactly when READY means
  one request each: `AccountOnce.DownloadsOnceExact`); an account without master is never READY
  (`AccountSession.OnlyMasterBecomesReady`).
- The drop copy's ping interval of 300 has no unit and means nanoseconds
  (`AccountToken.TickPingsExact`).
- The subscribe queue survives a disconnect (`FanoutResults.SentExactlyOnceExact`).
- An auth after the welcome breaks the assert of the logon check
  (`WsTheorems.LogonAssertionExact`); in a build without asserts the tick closes a session that
  was ready (`WsTheorems.LateAuthCloses`).
- The top-level parser never raises the error event (`Dispatch.NeverError`), so an expiry of
  the token is only noticed through the simulated one.
- A 429 is honoured once (`Throttle.TooManyRequestsExact`).
- The examples in `test/json_encoder.cpp` are commented out and show another layout (lower-case
  side, `type`, `marginMode`) than the encoder prints; the model prints what the encoder does.

## Assumptions about classes of the library

They are not part of the repository; what is assumed is what the call sites rely on.

- `core::Download2`: `begin` enters the first state, a state whose function returns 0 is passed
  over, `check` counts only for the current state, `reset` returns to UNDEFINED. Of the REST
  stream's one-state download, sending the request again (`bump`, `retry`) is an event that may
  or may not happen, and whether an answer is superseded (`skip`) is an input.
- `core::limit::Request`: `request` marks pending, `check_pending` starts the slot only if it is
  pending, the handler is `ready()` and `can_request()`, `commit` frees it and records a
  response, `has_response` consumes that response. The rate limiter's verdicts are inputs.
- `core::Symbols`: append-only, cut into chunks of the configured maximum (positive); an update
  returns the number of chunks and the index of the first new symbol.
- The REST client calls back exactly once for each request sent. `refresh` of a web socket is
  true exactly while the socket is upgraded. The two clocks of a tick agree.
- The server sends one welcome per session to the drop copy and acknowledges only ids it was
  sent (other acknowledgements carry ids that are no state).
- The JSON walk visits the fields of a message in order and stops when the callback says so. A
  `T` of null is an unset channel, any other value that is no string throws. Keys are compared
  as texts, that is, the hash has no collisions.
- The raw text of an unset wire value is a parameter of the encoder (`unset`); `Decimal` prints
  exactly as many decimals as its precision.

## Model

| member | source | states |
|---|---|---|
| `AccountSteps.JointInvariant` | src/roq/kucoin_pro/gateway/order_entry_rest.cpp:612-641 | In every reachable state of drop copy, shared slots and REST stream together: a plain download is on the wire exactly while its slot is in flight, every request sent was committed or is still on the wire, the stale counter is the number of order details on the wire, at most one slot is in flight, every key ever inserted is accounted for, the session has done exactly the transcript of its ladder state, and none of the asserts of the two streams and not the fatal line on an unexpected answer is reached |
| `AccountSteps.StepKeeps` | src/roq/kucoin_pro/gateway/drop_copy.cpp:434-480 | Every single event (tick, answer, connect, disconnect, welcome, ack, token) keeps that joint invariant |
| `AccountStale.CounterExact` | src/roq/kucoin_pro/gateway/order_entry_rest.cpp:631-639 | Whatever order answers come in, with failures and reconnects: the counter equals the detail requests not yet answered, so the decrement never finds zero |
| `AccountStale.StaleOrderConservation` | src/roq/kucoin_pro/gateway/order_entry_rest.cpp:1095-1106 | Each insertion of a (user, order) key is still in the set, was sent as a detail request, or was reported unknown; each detail request was answered or is on the wire |
| `AccountStale.KeysLeaveAtDispatch` | src/roq/kucoin_pro/gateway/order_entry_rest.cpp:1098-1105 | A key leaves the set only when the REST stream of a master account hands over the whole batch; at that step its count of detail requests grows by one if the order is known, its count of unknown reports otherwise |
| `AccountStale.RequestConservation` | src/roq/kucoin_pro/gateway/order_entry_rest.cpp:298-327 | Over every run, for the token and the four plain downloads: each request sent was committed exactly once or is still on the wire, and a plain one is on the wire exactly while its slot is in flight |
| `AccountStale.AnswerReleases` | src/roq/kucoin_pro/gateway/order_entry_rest.cpp:363-380 | An answered account, position, orders or execution request commits its slot exactly once on every path of process_response but the redirect, which is fatal |
| `AccountStale.TokenAnswerReleases` | src/roq/kucoin_pro/gateway/order_entry_rest.cpp:298-327 | An answered token request commits its slot exactly once, delivered or not; unless superseded the initial download is over exactly if the category is SUCCESS or CLIENT_ERROR and the body can be decoded |
| `AccountAnswers.TokenAnswerExact` | src/roq/kucoin_pro/gateway/order_entry_rest.cpp:1116-1153 | The whole new state by category and body: a redirect stops; an answer of category SUCCESS or CLIENT_ERROR with a decodable body, unless superseded, sets the flag and ends the initial download, a refused request included; the query reaches the drop copy, and resumes it, exactly if the code is 200000 too; every other answer changes only the slot and the wire |
| `AccountAnswers.OrderAnswerExact` | src/roq/kucoin_pro/gateway/order_entry_rest.cpp:1116-1153 | Of an order's answer only a redirect or not counts; the last of a batch frees its slot |
| `AccountAnswers.ResponseStays` | src/roq/kucoin_pro/gateway/drop_copy.cpp:434-480 | A recorded response of any slot stays through every event but a tick of the drop copy |
| `AccountAnswers.ReadyTickTakesToken` | src/roq/kucoin_pro/gateway/drop_copy.cpp:126-133 | A tick that leaves the stream READY has taken the response of the token |
| `AccountOffline.OfflineSilent` | src/roq/kucoin_pro/gateway/order_entry_rest.cpp:230-237 | After a disconnect and until the next connect the REST stream is DISCONNECTED and sends nothing, hands over nothing and reports nothing, whatever is pending and granted; every download in flight was answered in between or is in flight and answerable |
| `AccountOffline.OfflineSilentExact` | src/roq/kucoin_pro/gateway/order_entry_rest.cpp:221-237 | That is so if and only if the connection is not lost during the initial token download |
| `AccountOffline.RestStatusExact` | src/roq/kucoin_pro/gateway/order_entry_rest.cpp:252-277 | Before the initial token download the REST stream is UNSET or DISCONNECTED and has asked for no token, during it DOWNLOADING or DISCONNECTED, and READY only after it |
| `AccountOffline.ConnectExact` | src/roq/kucoin_pro/gateway/order_entry_rest.cpp:221-228 | The whole new state of a connect: READY with a token, the start of the initial download without, and during it nothing unless the library repeats the request |
| `AccountStale.BatchReleases` | src/roq/kucoin_pro/gateway/order_entry_rest.cpp:630-640 | A batch with a known order commits exactly at the answer that leaves none outstanding |
| `AccountStale.MutualExclusion` | src/roq/kucoin_pro/gateway/request.cpp:17-23 | At most one of the six request kinds is in flight, and on the wire at most one of the four plain downloads or one batch |
| `AccountEffects.TickStartsOne` | src/roq/kucoin_pro/gateway/order_entry_rest.cpp:126-136 | One REST tick offers all slots in turn and starts at most one: the first pending and granted one, none while a slot is in flight, only the token without a master account |
| `AccountEffects.StreamTicks` | src/roq/kucoin_pro/gateway/drop_copy.cpp:122-145 | No event of the drop copy starts, commits or un-marks a request or removes a stale order |
| `AccountStale.CleanSessionNeverFatal` | src/roq/kucoin_pro/gateway/drop_copy.cpp:462-469 | A session whose welcome finds the stale slot idle never reaches the fatal check of GET_STALE_ORDERS, whatever happens until it disconnects |
| `AccountStale.FatalCheckExact` | src/roq/kucoin_pro/gateway/drop_copy.cpp:462-469 | With a batch waiting in GET_STALE_ORDERS the fatal check can fire before the disconnect if and only if the slot holds an unconsumed response or an earlier batch still expects answers; then with no time passing |
| `AccountFatal.FatalAtWelcomeExact` | src/roq/kucoin_pro/gateway/drop_copy.cpp:462-469 | At a welcome: the session can run into the fatal check if and only if the account is the master and its stale slot is not idle (pending, on the wire or answered); a wedged account only with a response to an earlier batch and to every mandatory download |
| `AccountExamples.FatalCheckReachable` | src/roq/kucoin_pro/gateway/drop_copy.cpp:464-466 | A run from the start, for every master account, that ends in that fatal line: a batch on the wire, a reconnect, the late answer, another stale order |
| `AccountStale.UnknownBatchWedges` | src/roq/kucoin_pro/gateway/order_entry_rest.cpp:1095-1106 | Handing over a batch leaves the slot in flight with nothing to free it if and only if none of its orders is known |
| `AccountExamples.WedgedExample` | src/roq/kucoin_pro/gateway/order_entry_rest.cpp:1095-1106 | A run from the start, for every master account, that ends so |
| `AccountStale.WedgedForever` | src/roq/kucoin_pro/gateway/request.cpp:17-19 | Such an account never again requests a download, a stale order or, once it has a token, a token, through every continuation and reconnect |
| `AccountSession.WedgedNeverReady` | src/roq/kucoin_pro/gateway/drop_copy.cpp:442-461 | Such an account, if its ladder has not passed a mandatory download and no response to that is recorded, never becomes READY |
| `AccountReady.WedgedReadyExact` | src/roq/kucoin_pro/gateway/drop_copy.cpp:434-480 | Such an account can still become READY, reconnects included, if and only if responses left over from before answer all that its session, or a new one, still waits for |
| `AccountReady.ReadyExact` | src/roq/kucoin_pro/gateway/drop_copy.cpp:306-313 | At a welcome: the account can become READY in this session if and only if it is the master and is not wedged, or has every answer already |
| `AccountReady.CanBecomeReady` | src/roq/kucoin_pro/gateway/order_entry_rest.cpp:363-380 | Any master account that is not wedged can be brought to READY in the session a welcome opens, even if every download is answered by a failure |
| `AccountReady.ReachableQueued` | src/roq/kucoin_pro/gateway/drop_copy.cpp:508-515 | Stale orders never wait in the set without their slot pending |
| `AccountLadder.DownloadTraceSafety` | src/roq/kucoin_pro/gateway/drop_copy.cpp:242-302 | ready_ always equals status READY; a session completes every step it does not skip in enum order; each slot is marked pending only after the acknowledged subscription it belongs to; READY is published at most once per session, last, and exactly when the ladder is done |
| `AccountSends.AsksEarlyExact` | src/roq/kucoin_pro/gateway/order_entry_rest.cpp:1091-1107 | The request itself: as long as its subscription is not acknowledged in the session, a request for a download can go out before it is if and only if the account is the master, the slot is pending already and the account is not wedged |
| `AccountSends.CleanSessionAsksAfterAck` | src/roq/kucoin_pro/gateway/order_entry_rest.cpp:1091-1107 | In a session whose welcome does not find its slot pending, a download is requested only after its subscription was acknowledged in that session |
| `AccountExamples.EarlyRequestExample` | src/roq/kucoin_pro/gateway/drop_copy.cpp:199-208 | A slot stays pending through a disconnect: a run from the start in which balances are requested while their subscription is not acknowledged |
| `AccountLadder.StepProgress` | src/roq/kucoin_pro/gateway/drop_copy.cpp:333-345 | Within a session a matching ack or response moves the ladder up; duplicates, foreign acks and everything else leave it |
| `AccountLadder.DownloadProgress` | src/roq/kucoin_pro/gateway/drop_copy.cpp:434-480 | A session without disconnect sees at most as many matching answers as ladder steps are left, and that many bring it to DONE |
| `AccountSession.CleanSessionDownloadsOnce` | src/roq/kucoin_pro/gateway/drop_copy.cpp:434-461 | A session that starts with idle slots has by READY sent each of balances, positions and open orders exactly once and got exactly one answer to each |
| `AccountOnce.DownloadsOnceExact` | src/roq/kucoin_pro/gateway/drop_copy.cpp:434-461 | For a master account that is not wedged: READY means one request and one answer for each mandatory download, whatever happens in the session, if and only if the welcome finds the three slots idle |
| `AccountOnce.NotOnce` | src/roq/kucoin_pro/gateway/drop_copy.cpp:434-461 | For each slot that is not idle at the welcome there is a run to READY whose requests for that very download are not exactly one |
| `AccountOnce.LeftoverCompletes` | src/roq/kucoin_pro/gateway/drop_copy.cpp:442-461 | While the ladder waits for a mandatory download that was not requested since the welcome, a poll completes it exactly when a response is recorded, and that response was there at the welcome or answers a request that was on the wire then |
| `AccountExamples.LeftoverExample` | src/roq/kucoin_pro/gateway/drop_copy.cpp:442-446 | A run from the start in which balances are pending and answered at once by the request of the session before, and the next poll completes them with nothing requested |
| `AccountSession.OnlyMasterBecomesReady` | src/roq/kucoin_pro/gateway/order_entry_rest.cpp:129-133 | Without a master account no run is ever READY |
| `AccountToken.TokenWindow` | src/roq/kucoin_pro/gateway/drop_copy.cpp:388-396 | The query is empty exactly while the connection waits suspended for a token; in that window an error event changes nothing and every delivery restores the query and resumes; outside it an error event opens the window with one request |
| `AccountToken.TokenTick` | src/roq/kucoin_pro/gateway/drop_copy.cpp:122-145 | The same of a tick with the simulated expiry: in the window it makes no request, outside it it opens the window with one request exactly when the stream is ready in that tick and the simulated expiry is due |
| `AccountToken.OneRequestPerWindow` | src/roq/kucoin_pro/gateway/drop_copy.cpp:388-396 | Over every run from the event that opens a window, up to the next delivery: exactly one token request is pending or was sent |
| `AccountToken.FailedAnswerLoses` | src/roq/kucoin_pro/gateway/order_entry_rest.cpp:308-325 | The answer to the only token request on the wire in a window loses the token if and only if it is not a decodable one of category SUCCESS or CLIENT_ERROR with code 200000, and no request is pending that can still go out, that is none at all or only one behind a batch of unknown orders |
| `AccountToken.LostForever` | src/roq/kucoin_pro/gateway/drop_copy.cpp:388-391 | Once lost in either way, the query stays empty and no token is requested in any continuation |
| `AccountLost.LostExact` | src/roq/kucoin_pro/gateway/drop_copy.cpp:135-138 | Over runs without the error event, which the dispatch never raises: a lost token is reachable if and only if the account is the master and the expiry is simulated; both ways of losing it then are, from a connect at any time with a clock that does not run backwards |
| `AccountLost.TokenReturnsExact` | src/roq/kucoin_pro/gateway/order_entry_rest.cpp:298-327 | In a window: some continuation restores the query if and only if a token request is on the wire, or is pending and the account is not blocked by a batch of unknown orders; it then can with no time passing |
| `AccountToken.TickPingsExact` | src/roq/kucoin_pro/gateway/drop_copy.cpp:127-131 | The ping interval is 300 nanoseconds: of two successive ready ticks, the first of which pings, the second pings exactly if it comes more than 150 nanoseconds later |
| `AccountStatus.ReadyTickPingsExact` | src/roq/kucoin_pro/gateway/drop_copy.cpp:127-131 | A ready tick pings unless the last ping of the session is at most 150 nanoseconds back |
| `AccountStatus.FinishingTickPings` | src/roq/kucoin_pro/gateway/drop_copy.cpp:125-131 | The tick whose poll completes the ladder already runs the READY part: it sends the first ping of the session |
| `AccountStatus.NoPingsBetween` | src/roq/kucoin_pro/gateway/drop_copy.cpp:199-208 | A disconnect clears the time of the next ping, so each session starts with its first ping |
| `AccountStatus.StatusExact` | src/roq/kucoin_pro/gateway/drop_copy.cpp:199-208 | Over every run the published status is READY exactly if the ladder is done, DOWNLOADING exactly while it is going on, and before it starts DISCONNECTED exactly if the stream was ever dropped |
| `AccountScan.ScanPeriodExact` | src/roq/kucoin_pro/gateway/drop_copy.cpp:508-515 | A ready tick past the last deadline adds all stale orders and asks for a batch if one is new; whatever happens then, downloads and reconnects included, while no tick comes later than the period: the next ready tick does the same if and only if it comes more than the period after the first, and otherwise leaves set and slot alone |
| `AccountScan.TickScansExact` | src/roq/kucoin_pro/gateway/drop_copy.cpp:508-515 | So of two successive ready ticks |
| `AccountLogon.LogonDeadlineExact` | src/roq/kucoin_pro/gateway/drop_copy.cpp:140-144 | A connection is given up if and only if a tick comes more than the request timeout after the connect and before the upgrade |
| `AccountExpiry.SimulatedExpiryExact` | src/roq/kucoin_pro/gateway/drop_copy.cpp:134-138 | While no tick came later than the configured time after the connect, a ready tick takes the query away and asks for a token if and only if it does |
| `AccountExpiry.ExpiresOnce` | src/roq/kucoin_pro/gateway/drop_copy.cpp:136 | After that no tick of the same connection takes a query away |
| `AccountExpiry.NeverExpires` | src/roq/kucoin_pro/gateway/drop_copy.cpp:193-196 | Without a configured time none ever does |
| `AccountGateway.Request.Mark` | src/roq/kucoin_pro/gateway/request.hpp:25-31 | Marks one slot pending and nothing else |
| `AccountGateway.Request.Take` | src/roq/kucoin_pro/gateway/request.hpp:25-31 | Consumes the recorded response of one slot and tells whether there was one |
| `AccountGateway.Request.Commit` | src/roq/kucoin_pro/gateway/request.hpp:25-31 | Frees one slot and records a response |
| `AccountGateway.Request.Insert` | src/roq/kucoin_pro/gateway/drop_copy.cpp:484-496 | Inserts a stale key and tells whether it was new |
| `AccountGateway.DropCopy.OnPrivateToken` | src/roq/kucoin_pro/gateway/drop_copy.cpp:103-110 | The object takes a new, non-empty query and resumes; equal to the step function |
| `AccountGateway.DropCopy.OnTimer` | src/roq/kucoin_pro/gateway/drop_copy.cpp:122-145 | The tick, poll first, then the READY part, or the logon timeout; equal to the step function the theorems are about |
| `AccountGateway.DropCopy.OnConnected` | src/roq/kucoin_pro/gateway/drop_copy.cpp:189-197 | Sets the logon deadline, and the simulated expiry if configured; a deadline still set fails the assert |
| `AccountGateway.DropCopy.OnDisconnected` | src/roq/kucoin_pro/gateway/drop_copy.cpp:199-208 | Resets the session, the ladder included, and leaves query, scan time and slots alone |
| `AccountGateway.DropCopy.Download` | src/roq/kucoin_pro/gateway/drop_copy.cpp:242-302 | Returns 0 exactly for a skipped or the last state; otherwise publishes and subscribes or requests |
| `AccountGateway.DropCopy.Begin` | src/roq/kucoin_pro/gateway/drop_copy.cpp:306-313 | Enters states in order until one waits for an answer |
| `AccountGateway.DropCopy.OnWelcome` | src/roq/kucoin_pro/gateway/drop_copy.cpp:306-313 | Starts the ladder |
| `AccountGateway.DropCopy.OnTokenExpired` | src/roq/kucoin_pro/gateway/drop_copy.cpp:388-396 | Clears the query, suspends and requests a token, unless the query is empty |
| `AccountGateway.DropCopy.OnAck` | src/roq/kucoin_pro/gateway/drop_copy.cpp:333-345 | Counts only for the current state |
| `AccountGateway.DropCopy.CheckRequestQueue` | src/roq/kucoin_pro/gateway/drop_copy.cpp:434-480 | Polls the slot the current state waits for, the scan before the ladder moves on |
| `AccountGateway.DropCopy.CheckStaleOrders` | src/roq/kucoin_pro/gateway/drop_copy.cpp:482-506 | The loop adds exactly the keys that were missing and reports whether there were any |
| `AccountGateway.DropCopy.CheckStaleOrdersTimed` | src/roq/kucoin_pro/gateway/drop_copy.cpp:508-515 | At most one scan per period, which starts anew with it; requests the batch only if something was new |
| `AccountGateway.OrderEntryREST.OnTimer` | src/roq/kucoin_pro/gateway/order_entry_rest.cpp:126-136 | The REST tick; equal to the step function |
| `AccountGateway.OrderEntryREST.CheckRequestQueue` | src/roq/kucoin_pro/gateway/order_entry_rest.cpp:1091-1107 | Offers the five download slots in the source's order |
| `AccountGateway.OrderEntryREST.HandOverAll` | src/roq/kucoin_pro/gateway/order_entry_rest.cpp:1095-1106 | The loop over the set, in any order: counter, requests and warnings are those of the known and unknown keys |
| `AccountGateway.OrderEntryREST.DispatchBatch` | src/roq/kucoin_pro/gateway/order_entry_rest.cpp:1095-1106 | The batch is handed over and the set is empty |
| `AccountGateway.OrderEntryREST.OnConnected` | src/roq/kucoin_pro/gateway/order_entry_rest.cpp:221-228 | Starts or resumes the initial token download, or is READY at once |
| `AccountGateway.OrderEntryREST.OnDisconnected` | src/roq/kucoin_pro/gateway/order_entry_rest.cpp:230-237 | DISCONNECTED; a download that is going on, and what is on the wire, stay |
| `AccountGateway.OrderEntryREST.GetPrivateTokenAck` | src/roq/kucoin_pro/gateway/order_entry_rest.cpp:298-327 | Delivers the token exactly if the category is SUCCESS or CLIENT_ERROR, the body can be decoded with code 200000 and the answer is not superseded; commits on every path but the redirect |
| `AccountGateway.OrderEntryREST.GetAccountAck` | src/roq/kucoin_pro/gateway/order_entry_rest.cpp:363-380 | Commits the balances slot |
| `AccountGateway.OrderEntryREST.GetPositionAck` | src/roq/kucoin_pro/gateway/order_entry_rest.cpp:431-448 | Commits the positions slot |
| `AccountGateway.OrderEntryREST.GetOrdersAck` | src/roq/kucoin_pro/gateway/order_entry_rest.cpp:498-515 | Commits the open-orders slot |
| `AccountGateway.OrderEntryREST.GetExecutionAck` | src/roq/kucoin_pro/gateway/order_entry_rest.cpp:666-683 | Commits the trades slot |
| `AccountGateway.OrderEntryREST.GetOrderAck` | src/roq/kucoin_pro/gateway/order_entry_rest.cpp:612-641 | Counts down, commits the stale slot at zero |
| `AccountGateway.Account.Handle` | src/roq/kucoin_pro/gateway/controller.cpp:217-242 | The two streams of an account on the slots they share, as three objects: each event does to all of them together what the step of the joint system says |
| `AccountGateway.Account.HandleAll` | src/roq/kucoin_pro/gateway/controller.cpp:217-242 | And a whole run what a run says, so the results about runs are about these objects |
| `AccountGateway.TokenRouter.OnPrivateToken` | src/roq/kucoin_pro/gateway/controller.cpp:228-242 | At most one drop copy per account: the first token creates it, later ones reach that same object, no other account's object changes |
| `StaleQuery.GetOrder` | src/roq/kucoin_pro/gateway/order_entry_rest.cpp:581-593 | The text of the query: the symbol and the external id, or the client id without one, whatever the buffer held |
| `StaleQuery.QueryRoundTrip` | src/roq/kucoin_pro/gateway/order_entry_rest.cpp:586-592 | A reader of the query by its parameter names gets back symbol and id, for symbols without an ampersand |
| `StaleQuery.RequestDetail` | src/roq/kucoin_pro/gateway/order_entry_rest.cpp:1097 | The only call passes symbol, client id and external id where client id, external id and symbol are expected |
| `StaleQuery.DetailQueryExact` | src/roq/kucoin_pro/gateway/order_entry_rest.cpp:1097 | So the query is the right one if and only if the three texts are the same |
| `StaleQuery.DetailQueryOfAcknowledgedOrder` | src/roq/kucoin_pro/gateway/order_entry_rest.cpp:1097 | For an order with a client id the exchange is asked for that id as an order id, of a symbol named like the external id |
| `StaleQuery.DetailQueryExample` | src/roq/kucoin_pro/gateway/order_entry_rest.cpp:1097 | A concrete order whose query asks for something else |
| `FanoutResults.ExactlyOnceSubscription` | src/roq/kucoin_pro/gateway/market_data.cpp:174-178 | In every reachable state, for each READY stream and channel, the symbols enqueued since its welcome are its current slice of the shared list, in order, each once, however updates, welcomes and disconnects of all streams interleave |
| `FanoutResults.ChannelsExact` | src/roq/kucoin_pro/gateway/market_data.cpp:457-471 | Per channel of a READY stream: trades always, TICKER or the best bid and offer as configured, the increments only for full depth |
| `FanoutSessions.ReadyExact` | src/roq/kucoin_pro/gateway/market_data.cpp:188-197 | Over every run a stream is READY if and only if a welcome came to it after its last disconnect |
| `FanoutSessions.FlagIsReady` | src/roq/kucoin_pro/gateway/market_data.cpp:188-197 | welcome_ says the same as the status |
| `FanoutSessions.DroppedStreamSilent` | src/roq/kucoin_pro/gateway/market_data.cpp:174-178 | From a disconnect to the next welcome a stream is DISCONNECTED and its queue, its request ids, and what it enqueued and sent do not change, however the list grows |
| `FanoutSessions.WelcomeExact` | src/roq/kucoin_pro/gateway/market_data.cpp:457-471 | A welcome enqueues behind what still waits the whole slice for the best price, then for the trades, then for the depth if configured, numbered one by one |
| `FanoutResults.SentExactlyOnceExact` | src/roq/kucoin_pro/gateway/market_data.cpp:188-197 | The queue is not cleared on disconnect: a ready stream that drained its queue has sent every subscription of the session exactly once if and only if the queue was empty at the welcome |
| `FanoutResults.DuplicateExample` | src/roq/kucoin_pro/gateway/market_data.cpp:188-197 | A run in which a stream drops before its queue is drained and sends the same subscription twice in the next session |
| `FanoutResults.SlicesPartition` | src/roq/kucoin_pro/gateway/controller.cpp:246-256 | The shared list never repeats a symbol, equals all_symbols as a set, is the concatenation of the streams' slices, each non-empty and at most the maximum, and the number of streams is the symbol count divided by the maximum, rounded up |
| `FanoutResults.ListIsSeen` | src/roq/kucoin_pro/gateway/rest.cpp:351-357 | After any run a symbol is in the list, and in all_symbols, if and only if some client asked for it or some downloaded instrument with that symbol was not to be discarded; the list has it once |
| `FanoutResults.StepAppends` | src/roq/kucoin_pro/gateway/controller.cpp:134-148 | Each event leaves the list as it was and appends the symbols it names that were not there, in the order in which it names them first |
| `FanoutTheorems.KeptCount` | src/roq/kucoin_pro/gateway/rest.cpp:358 | The instruments counted are those not to be discarded |
| `FanoutResults.StreamIdsExact` | src/roq/kucoin_pro/gateway/controller.cpp:247-252 | The 16-bit stream ids are pairwise distinct if and only if at most 65536 were given out |
| `FanoutResults.IdsCounted` | src/roq/kucoin_pro/gateway/controller.cpp:247-252 | Every stream, of market data or another kind, took exactly one id |
| `FanoutResults.RequestIdsUnique` | src/roq/kucoin_pro/gateway/market_data.cpp:80-84 | Request ids count up from a million times the stream id; no two subscription requests of any streams and sessions share an id while ids do not wrap and no stream issued a million |
| `FanoutTheorems.StepKeeps` | src/roq/kucoin_pro/gateway/controller.cpp:217-224 | Every event keeps the invariant behind these results |
| `FanoutGateway.Shared.Add` | src/roq/kucoin_pro/gateway/controller.cpp:219 | Library class core::Symbols (assumed): appends, returns number of slices and index of the first new symbol |
| `FanoutGateway.Shared.Emplace` | src/roq/kucoin_pro/gateway/controller.cpp:138 | Inserts and tells whether the item was new |
| `FanoutGateway.MarketData.SubscribeChannel` | src/roq/kucoin_pro/gateway/market_data.cpp:473-489 | One message per symbol, numbered by the next request ids |
| `FanoutGateway.MarketData.SubscribeSymbols` | src/roq/kucoin_pro/gateway/market_data.cpp:457-471 | All channels in the source's order; nothing for no symbols |
| `FanoutGateway.MarketData.Subscribe` | src/roq/kucoin_pro/gateway/market_data.cpp:174-178 | Only when ready, and only the part of the slice from the start index on |
| `FanoutGateway.MarketData.Welcome` | src/roq/kucoin_pro/gateway/market_data.cpp:232-241 | READY, then the whole slice |
| `FanoutGateway.MarketData.Disconnected` | src/roq/kucoin_pro/gateway/market_data.cpp:188-197 | DISCONNECTED, the flag is cleared, the queue stays |
| `FanoutGateway.MarketData.Timer` | src/roq/kucoin_pro/gateway/market_data.cpp:452-455 | Sends what the rate limiter grants, oldest first, when ready: what was queued is what is sent and what is left, in this order |
| `FanoutGateway.Controller.NextStreamId` | src/roq/kucoin_pro/gateway/controller.cpp:248 | ++stream_id_ on 16 bits |
| `FanoutGateway.Controller.EnsureSymbolSlices` | src/roq/kucoin_pro/gateway/controller.cpp:246-256 | The while loop creates the missing streams, one id and one index each |
| `FanoutGateway.Controller.SubscribeStreams` | src/roq/kucoin_pro/gateway/controller.cpp:221-223 | The for loop reaches every stream once |
| `FanoutGateway.Controller.SymbolsUpdate` | src/roq/kucoin_pro/gateway/controller.cpp:217-224 | Append, create, subscribe: equal to the step function |
| `FanoutGateway.Controller.Collect` | src/roq/kucoin_pro/gateway/controller.cpp:136-143 | The loop keeps the items not seen before, each once |
| `FanoutGateway.Controller.OnSubscribe` | src/roq/kucoin_pro/gateway/controller.cpp:134-148 | A client subscription; equal to the step function |
| `FanoutGateway.Controller.CollectKept` | src/roq/kucoin_pro/gateway/rest.cpp:309-359 | The loop over the instruments collects exactly the symbols that are new and that some instrument has that is not to be discarded, and counts those instruments |
| `FanoutGateway.Controller.OnInstruments` | src/roq/kucoin_pro/gateway/rest.cpp:306-370 | A download; an update only if something is new |
| `FanoutGateway.Controller.Handle` | src/roq/kucoin_pro/gateway/controller.cpp:134-226 | Each event, of a source or of one stream, does to the shared symbols and to all streams what the step says |
| `FanoutGateway.Controller.HandleAll` | src/roq/kucoin_pro/gateway/controller.cpp:134-226 | And a whole run what a run says |
| `Json.RoundTripExact` | src/roq/kucoin_pro/protocol/json/encoder.cpp:22-73 | A text printed without escaping reads back as itself if and only if none of its strings needs an escape (RFC 8259 section 7) |
| `JsonExact.TextFollowed` | src/roq/kucoin_pro/protocol/json/encoder.cpp:28-38 | What an unescaped string reads as in front of another member: itself if plain, otherwise a shorter one or one that ends in the comma |
| `FixedPoint.ReadDecimalPrinted` | src/roq/kucoin_pro/protocol/json/encoder.cpp:52-66 | Every fixed-point number, sign and precision included, reads back exactly |
| `EncoderTheorems.OrderTextExact` | src/roq/kucoin_pro/protocol/json/encoder.cpp:16-73 | The text of a MARKET or LIMIT order is one JSON object without duplicate names and reads back as its members if and only if id and symbol need no escape |
| `EncoderTheorems.OrderRoundTrip` | src/roq/kucoin_pro/protocol/json/encoder.cpp:16-73 | With plain id and symbol a reader recovers id, symbol, side, type, postOnly, timeInForce, reduceOnly and the exact size and price of every supported order, and nothing of an unsupported one |
| `EncoderLayout.OrderLayout` | src/roq/kucoin_pro/protocol/json/encoder.cpp:16-73 | The text of an order written out name by name, as the format strings have it, for market and limit orders |
| `EncoderLayout.CancelLayout` | src/roq/kucoin_pro/protocol/json/encoder.cpp:75-105 | The same of a cancel |
| `EncoderLayout.CancelAllLayout` | src/roq/kucoin_pro/protocol/json/encoder.cpp:107-118 | The same of the cancel of all orders |
| `EncoderLayout.WsLayout` | src/roq/kucoin_pro/protocol/json/encoder.cpp:122-159 | The same of the websocket envelope around a REST body |
| `EncoderExact.OrderRecoveredExact` | src/roq/kucoin_pro/protocol/json/encoder.cpp:16-73 | A reader of the text of a supported order recovers that order if and only if id and symbol need no escape |
| `EncoderTheorems.OrderTextInjective` | src/roq/kucoin_pro/protocol/json/encoder.cpp:16-73 | Two supported orders with plain id and symbol have the same text if and only if they have the same content |
| `EncoderTheorems.OrderOfMembersExact` | src/roq/kucoin_pro/protocol/json/map.cpp:304-417 | The tables of side, order type and time in force are undone exactly on the values the exchange has |
| `EncoderTheorems.CancelFields` | src/roq/kucoin_pro/protocol/json/encoder.cpp:75-105 | A cancel names the order by exactly one id: the external one if there is one, else the client's |
| `EncoderTheorems.CancelTextExact` | src/roq/kucoin_pro/protocol/json/encoder.cpp:75-105 | Its text reads back if and only if the id used and the symbol are plain |
| `EncoderExact.CancelRecoveredExact` | src/roq/kucoin_pro/protocol/json/encoder.cpp:75-105 | A reader that looks only for id and symbol recovers both from it under the same condition, and in no other case |
| `EncoderTheorems.CancelAllTextExact` | src/roq/kucoin_pro/protocol/json/encoder.cpp:107-118 | The text of the cancel of all orders reads back if and only if the symbol is plain |
| `EncoderExact.CancelAllRecoveredExact` | src/roq/kucoin_pro/protocol/json/encoder.cpp:107-118 | A reader of it recovers the symbol, and no id, if and only if the symbol is plain |
| `EncoderTheorems.WsOrderExact` | src/roq/kucoin_pro/protocol/json/encoder.cpp:122-139 | The args of an order by websocket read back as exactly the REST body of the same order |
| `EncoderTheorems.WsCancelExact` | src/roq/kucoin_pro/protocol/json/encoder.cpp:141-159 | The text of a cancel by websocket reads back if and only if request id, the id used and the symbol are plain |
| `EncoderTheorems.WsCancelArgs` | src/roq/kucoin_pro/protocol/json/encoder.cpp:141-159 | Its args read back as what the REST body of the same cancel reads as |
| `EncoderExact.WsRecoveredExact` | src/roq/kucoin_pro/protocol/json/encoder.cpp:122-159 | A reader of a websocket message recovers request id, op and args if and only if no string of id and args needs an escape |
| `EncoderExact.WsOrderRecoveredExact` | src/roq/kucoin_pro/protocol/json/encoder.cpp:122-139 | For an order: if and only if id and symbol are plain |
| `EncoderExact.WsCancelRecoveredExact` | src/roq/kucoin_pro/protocol/json/encoder.cpp:141-159 | For a cancel: if and only if request id, the id used and the symbol are plain |
| `Encoder.AddOrder` | src/roq/kucoin_pro/protocol/json/encoder.cpp:16-73 | Clears and appends; the buffer then holds the text of the order whatever it held before, and the view is the whole of it |
| `Encoder.CancelOrder` | src/roq/kucoin_pro/protocol/json/encoder.cpp:75-105 | The same for a cancel |
| `Encoder.CancelAllOrders` | src/roq/kucoin_pro/protocol/json/encoder.cpp:107-118 | The same for the cancel of all orders |
| `Encoder.WsAddOrder` | src/roq/kucoin_pro/protocol/json/encoder.cpp:122-139 | args is a view of the buffer that is then overwritten: the result still depends on the arguments only |
| `Encoder.WsCancelOrder` | src/roq/kucoin_pro/protocol/json/encoder.cpp:141-159 | The same for a cancel |
| `WsTheorems.ReplyRouting` | src/roq/kucoin_pro/gateway/order_entry_ws.cpp:273-371 | For every sequence of events the responses are, in order, exactly one per message with empty session id and op uta.order or uta.cancel, type by op, id copied, ACCEPTED if and only if the code is 200000 |
| `WsTheorems.FatalExact` | src/roq/kucoin_pro/protocol/json/ws_parser.cpp:34-73 | The process is stopped if and only if some event was a binary frame, an undecodable text, an unknown op, or a refused logon that is not to be retried |
| `WsSessions.SessionExact` | src/roq/kucoin_pro/gateway/order_entry_ws.cpp:202-271 | Status, welcome_ and ping interval told by the greetings since the last disconnect alone: READY exactly if the last one was a welcome, LOGIN_SENT exactly if it was an auth |
| `WsSessions.AuthReplied` | src/roq/kucoin_pro/gateway/order_entry_ws.cpp:252-260 | Over every run exactly one auth reply per auth |
| `WsSessions.ClosesExact` | src/roq/kucoin_pro/gateway/order_entry_ws.cpp:294-303 | Over every run the connection is closed exactly as often as a logon was refused that is to be retried, or a usable tick found the session not READY more than the request timeout after the connect |
| `WsSessions.TicksExact` | src/roq/kucoin_pro/gateway/order_entry_ws.cpp:107-116 | The ticks the ping results speak of are the usable ones since the last disconnect that found the session READY |
| `WsSessions.TickPingsExact` | src/roq/kucoin_pro/gateway/order_entry_ws.cpp:375-388 | Such a tick pings unless the last ping is less than half the interval back that held then |
| `WsTheorems.OrderAnswered` | src/roq/kucoin_pro/protocol/json/encoder.cpp:122-139 | A server that reads an order text and echoes id and op gets one response routed to the request id the order was sent with |
| `WsTheorems.CancelAnswered` | src/roq/kucoin_pro/protocol/json/encoder.cpp:141-159 | The same for a cancel |
| `WsTheorems.ReadyMeansWelcomed` | src/roq/kucoin_pro/gateway/order_entry_ws.cpp:262-271 | READY implies welcome_ and a positive ping interval, for non-negative intervals |
| `WsTheorems.LogonAssertionExact` | src/roq/kucoin_pro/gateway/order_entry_ws.cpp:390-396 | The assert of the logon check fails if and only if the deadline has passed and the last greeting of a welcomed session is an auth |
| `WsTheorems.LateAuthCloses` | src/roq/kucoin_pro/gateway/order_entry_ws.cpp:252-260 | The welcome does not clear the deadline: without asserts an auth after it makes the next tick past the deadline close the session |
| `WsTheorems.LateAuthExample` | src/roq/kucoin_pro/gateway/order_entry_ws.cpp:390-396 | Such a session is reachable |
| `WsTheorems.ConnectAssertion` | src/roq/kucoin_pro/gateway/order_entry_ws.cpp:196-200 | The assert of the connect handler holds if connects and disconnects alternate |
| `WsTheorems.PingsApart` | src/roq/kucoin_pro/gateway/order_entry_ws.cpp:375-388 | Successive pings of a session are at least half the ping interval apart |
| `WsTheorems.PingsPrompt` | src/roq/kucoin_pro/gateway/order_entry_ws.cpp:375-388 | With ready ticks at most d apart they are at most half the interval plus d apart |
| `WsGateway.OrderEntryWS.Connected` | src/roq/kucoin_pro/gateway/order_entry_ws.cpp:196-200 | Sets the deadline |
| `WsGateway.OrderEntryWS.Disconnected` | src/roq/kucoin_pro/gateway/order_entry_ws.cpp:202-211 | Clears the session |
| `WsGateway.OrderEntryWS.Auth` | src/roq/kucoin_pro/gateway/order_entry_ws.cpp:252-260 | Answers and is LOGIN_SENT |
| `WsGateway.OrderEntryWS.Welcome` | src/roq/kucoin_pro/gateway/order_entry_ws.cpp:262-271 | READY with the server's interval; the deadline stays |
| `WsGateway.OrderEntryWS.Error` | src/roq/kucoin_pro/gateway/order_entry_ws.cpp:273-320 | Rejects the request of the op, or closes or stops on a refused logon |
| `WsGateway.OrderEntryWS.AddOrderAck` | src/roq/kucoin_pro/gateway/order_entry_ws.cpp:329-349 | One accepted create response |
| `WsGateway.OrderEntryWS.CancelOrderAck` | src/roq/kucoin_pro/gateway/order_entry_ws.cpp:351-371 | One accepted cancel response |
| `WsGateway.OrderEntryWS.Text` | src/roq/kucoin_pro/protocol/json/ws_parser.cpp:34-73 | The message reaches the handler the parser selects |
| `WsGateway.OrderEntryWS.SendPingAt` | src/roq/kucoin_pro/gateway/order_entry_ws.cpp:375-388 | Pings unless it is too early, and sets the next time |
| `WsGateway.OrderEntryWS.CheckLogonTimeoutAt` | src/roq/kucoin_pro/gateway/order_entry_ws.cpp:390-396 | Closes once the deadline has passed |
| `WsGateway.OrderEntryWS.Timer` | src/roq/kucoin_pro/gateway/order_entry_ws.cpp:107-116 | Ping when ready, logon check otherwise |
| `WsGateway.OrderEntryWS.Handle` | src/roq/kucoin_pro/gateway/order_entry_ws.cpp:196-241 | Each event, and nothing once the process has stopped, does to the object what the step says |
| `WsGateway.OrderEntryWS.HandleAll` | src/roq/kucoin_pro/gateway/order_entry_ws.cpp:196-241 | And a whole run what a run says, so the results about runs are about this object |
| `Dispatch.DispatchMessage` | src/roq/kucoin_pro/protocol/json/parser.cpp:43-102 | At most one event is raised, the result is true if and only if one was, and when the call returns, stops or throws is decided by the first decisive field |
| `Dispatch.DecideFirst` | src/roq/kucoin_pro/protocol/json/parser.cpp:46-97 | The first decisive field decides |
| `Dispatch.PermutationExact` | src/roq/kucoin_pro/protocol/json/parser.cpp:43-102 | What is decided is the same under every permutation of the fields if and only if all decisive fields agree |
| `Dispatch.OneDecisive` | src/roq/kucoin_pro/protocol/json/parser.cpp:43-102 | In particular with at most one decisive field |
| `Dispatch.NeverError` | src/roq/kucoin_pro/protocol/json/parser.cpp:47-95 | No message raises the error event, so the token request in the drop copy's error handler is not reached from here |
| `Dispatch.EveryOther` | src/roq/kucoin_pro/protocol/json/parser.cpp:47-95 | Every other event is raised by some message, whatever fields follow |
| `Dispatch.ChannelExact` | src/roq/kucoin_pro/protocol/json/parser.cpp:65-97 | A channel the parser does not know ends the visit without an event, one that is null is fatal, any other value that is no text throws, whatever follows |
| `Dispatch.FieldExact` | src/roq/kucoin_pro/protocol/json/parser.cpp:46-64 | Of message and type only the one text raises its event, another is passed over and a value that is no text throws; a result raises its event whatever it is; other fields are passed over |
| `Throttle.Throttle.MessageHeader` | src/roq/kucoin_pro/tools/throttle.cpp:71-108 | Header values are recorded and never move the deadline |
| `Throttle.Throttle.MessageEnd` | src/roq/kucoin_pro/tools/throttle.cpp:110-132 | A 403 moves the deadline to ten minutes ahead if that is later, a 429 to five seconds ahead if there is none, nothing when disabled |
| `Throttle.HeaderCase` | src/roq/kucoin_pro/tools/throttle.cpp:40-54 | Header names are told apart without regard to case |
| `Throttle.HeaderExact` | src/roq/kucoin_pro/tools/throttle.cpp:40-60 | The three headers are known by exactly these names, but for upper and lower case |
| `Throttle.FirstAnswerExact` | src/roq/kucoin_pro/tools/throttle.cpp:20-23 | From the start a 403 suspends for ten minutes, a 429 for five seconds, and no other status does |
| `Throttle.Monotone` | src/roq/kucoin_pro/tools/throttle.cpp:119 | The deadline never moves back |
| `Throttle.DeadlineExact` | src/roq/kucoin_pro/tools/throttle.cpp:110-132 | After any run it is the latest that a 403, or a 429 that was the first of both, asked for |
| `Throttle.TooManyRequestsExact` | src/roq/kucoin_pro/tools/throttle.cpp:122-128 | A 429 leaves requests suspended beyond its own time if and only if nothing was ever suspended before or the suspension still lasts |
| `Throttle.OnlyFirstCounts` | src/roq/kucoin_pro/tools/throttle.cpp:122-128 | After a first 429 and without any 403 no later 429 moves the deadline |

## Left out

- Order book merging (`market::mbp::Sequencer`) and order book snapshots: the algorithm is in a library.
- Sockets, TLS, the HTTP client, logging, metrics, profiling and publishing of stream status.
- HMAC, base64 and header signing; the auth reply of the order session is only counted.
- Generated JSON decoders, settings, configuration, and the copying of fields into updates for the user.
- Floating point: quantities and prices are integers with a precision, so rounding to the precision and NaN are not modelled.
- Logon deadline and pings of the market-data stream, which have the shape of those of the order session; the message handlers of that stream.
- The currencies and instruments ladder of the REST market-data stream up to the handler of its instrument answer.
- Strings have no bytes or surrogate pairs: a text is a sequence of Unicode scalar values, and the JSON reader refuses an escaped surrogate.
- JSON numbers, arrays and null, which the encoder never prints, are not read.
- An order type that is not set is a failed assertion in the encoder and a precondition here.
- Construction of the streams that take the first ids (REST, order entry): an event of the fan-out model that takes one id each.
- AccountToken.TokenWindow: that the library resumes a suspended connection by itself after 60 seconds is not modelled; `suspended` stands for the call to `suspend_for` without a later `resume`.
- An exception thrown by a handler of a decoded answer is the error path of `process_response` and not told apart from a malformed body.

# Banking agents: branch, notification and client state machines

A Dafny model of the three JADE agents of the `banca` banking demo:

- **The bank branch** (`BankBranchAgent`) keeps a map from account id to balance. It handles
  OPEN_ACCOUNT, DEPOSIT, WITHDRAW and SYNC_ACCOUNT requests. A successful change is
  replicated to the other branches and to the notification agents, and the notification
  agents are told about it.
- **The notification engine** (`NotificationAgent`) keeps a low-balance threshold per account
  (100.0 by default) and a history of at most ten records per account, oldest evicted
  first. It runs the threshold rule on every replicated balance and answers the
  set-threshold, get and clear queries.
- **The client agent** (`GUIAgent`) is modelled for its state machines only:
  - the initial discovery steps;
  - the bounded-retry searches for branches and for the exchange agent;
  - the "one rate request at a time" flag and its timeout;
  - the correlated notifications request;
  - the dispatch of the replies it receives.

## How the model is built

- **Modules.**
  - `Wire` (wire.dfy) is the message text and Java's `String.split(";")`.
  - `Acl` (acl.dfy) is messages, directory search and the message queue.
  - `Branch` (branch.dfy), `Notification` (notification.dfy) and `Client` (client.dfy) are the
    three agents.
  - `Protocol` (protocol.dfy) holds lemmas that join the agents' formats.
- **Message text.** It is a sequence of symbols. A symbol is a character or an opaque
  rendered value: a double, a `%.2f` double, a long, or a date. `split(";")` is modelled
  exactly, including Java's removal of trailing empty fields.
- **Number parsing.** `Double.parseDouble` reads a rendered number back as its value. It
  reads typed text as a signed decimal. Any other text is treated as the exception the
  source throws, including the forms Java accepts that the model does not read (NaN,
  Infinity, exponents; see "## Left out"). A NaN amount is the one of these that changes
  what the branch does; the Java-double fragment below covers it.
- **Agents.** Each agent is a class whose fields are the Java fields. The platform is
  reduced to inputs and logs:
  - directory searches are inputs;
  - `send` appends to a `sent` log;
  - the window's callbacks append to a `ui` log;
  - `addBehaviour` appends to a `launched` log;
  - the clock is a parameter.
- **Branch handlers.** They are proved against specification functions:
  - `Judge` decides the verdict, taking the checks in the source's order;
  - `Apply` gives the new map;
  - `Outbox` gives the messages sent, in order.
  The lemmas about these functions state the properties.
- **Client behaviours.** A behaviour with a counter is a class of its own. Its `Action`
  is one call of JADE's `action()`. Its `Done` is `done()`. The branch and exchange searches
  also have a pure run function over a sequence of search results, used to prove that a
  search gives up after ten failures.

Three things the model shows about the source:

- An account id that contains `;` is accepted by OPEN_ACCOUNT, but its replication payload
  `id;balance` then splits into three fields. If the text after the id's `;` is not a
  number, a peer cannot read the sync at all (`Branch.DelimitedIdBreaksSync`). If it is a
  number, a peer silently reads the sync as one of a different account: for the id `A;5`
  it sets account `A` to 5.0 (`Branch.DelimitedIdOverwritesOther`). The notification agent
  ignores both, since it wants exactly two fields. The round trip holds for every id
  without `;` (`Branch.SyncPayloadRoundTrip`).
- The rate-request timeout watch has two races, listed under "## Findings". The reachable
  one: `action()` and `done()` each read the clock. An action at exactly 5000 ms leaves the
  flag up, and a `done()` test one millisecond later ends the watch anyway. The next rate
  request, and any later one while nothing lowers the flag, is answered "Already
  requesting rates...". The other race needs an EXCHANGE_RATES_UPDATE, the only message
  that lowers the flag. No agent of the repository sends one: the exchange agent's answer is a
  `createReply()`, which keeps the conversation id GET_EXCHANGE_RATES
  (banca/src/banca/CurrencyExchangeAgent.java:100-104). Given such an update, arriving
  between two actions of the watch and taken after the watch has run, a watch left over
  from one request can clear the flag of a newer one.
- The amount checks `amount <= 0` and `balance < amount` are both false for NaN, and the
  GUI's own check (`Double.parseDouble`) lets the text `NaN` through. A NaN deposit or
  withdrawal therefore stores a NaN balance (`Branch.NaNAmountStoresNaN`), which is then
  synced to the peers and raises no alert. The rest of the model reads amounts as numbers
  only, which is the check `!(amount > 0)` would give (`Branch.GuardedKeepsNumber`,
  `Branch.GuardedIsJudge`).

## Model

| member | source | states |
|---|---|---|
| `Branch.RejectionChangesNothing` | banca/src/banca/BankBranchAgent.java:86-142 | A rejected request (the account exists on open; the account is missing or the amount is not positive on deposit or withdraw; the balance is short on withdraw) leaves the account map as it was |
| `Branch.OpenEffect` | banca/src/banca/BankBranchAgent.java:86-96 | Opening an existing id gives "already exists" and changes nothing. Opening a new id adds it with 0.0 and leaves every other entry unchanged |
| `Branch.DepositEffect` | banca/src/banca/BankBranchAgent.java:98-120 | Deposit is checked for a missing id before a non-positive amount. On success the balance becomes old + amount, the verdict carries both balances, and other ids stay unchanged |
| `Branch.WithdrawEffect` | banca/src/banca/BankBranchAgent.java:122-151 | Withdraw is checked for a missing id, then a non-positive amount, then a short balance (the verdict reports that balance). On success the balance becomes old − amount, which is at least zero |
| `Branch.NonNegativeKept` | banca/src/banca/BankBranchAgent.java:127-150 | Open, deposit and withdraw keep every balance ≥ 0, and so does a sync of a non-negative balance |
| `Branch.NaNAmountStoresNaN` | banca/src/banca/BankBranchAgent.java:108-114 | With Java's comparisons, a NaN amount passes the deposit check and the withdraw checks (:132, :139), and the balance stored is NaN |
| `Branch.GuardedKeepsNumber` | banca/src/banca/BankBranchAgent.java:108-145 | With the check `!(amount > 0)`, a deposit or withdrawal keeps a non-negative number a non-negative number, refuses NaN, and decides every numeric amount as the source does |
| `Branch.GuardedIsJudge` | banca/src/banca/BankBranchAgent.java:103-145 | On numeric amounts for an existing account, the guarded checks reject exactly what `Judge` rejects and store the balance `Apply` gives |
| `Branch.SyncIdempotent` | banca/src/banca/BankBranchAgent.java:153-159 | A sync overwrites or creates the entry unconditionally. Applying it twice gives the same map as applying it once |
| `Branch.SyncPayloadRoundTrip` | banca/src/banca/BankBranchAgent.java:166 | For an id without `;`, `id;balance` splits into exactly the id and the balance, and a peer reads back the same pair |
| `Branch.DelimitedIdBreaksSync` | banca/src/banca/BankBranchAgent.java:154-156 | The id `A;B` gives a three-field sync payload, and its balance cannot be read back |
| `Branch.DelimitedIdReadsOther` | banca/src/banca/BankBranchAgent.java:154-156 | The id `A;5` gives a three-field sync payload that reads back as account `A` with balance 5.0 |
| `Branch.DelimitedIdOverwritesOther` | banca/src/banca/BankBranchAgent.java:153-159 | A peer handling that sync sets account `A` to 5.0, whatever balance was replicated |
| `Branch.SyncReceivers` | banca/src/banca/BankBranchAgent.java:163-189 | The sync's receivers are exactly the branch agents other than the sender, followed by the notification agents |
| `Branch.RejectionOnlyReplies` | banca/src/banca/BankBranchAgent.java:86-142 | A rejected request sends exactly one message: the reply, in the request's conversation |
| `Branch.SuccessOutbox` | banca/src/banca/BankBranchAgent.java:92-150 | A successful open, deposit or withdraw sends the sync of the new balance, then its notification-agent messages, then the reply |
| `Branch.SuccessBroadcastsOnce` | banca/src/banca/BankBranchAgent.java:92-150 | A successful open, deposit or withdraw sends exactly one sync, first, and the reply, last |
| `Branch.SuccessNoticeCount` | banca/src/banca/BankBranchAgent.java:92-150 | An open sends one account-opened message per notification agent. A deposit or withdraw sends one transaction message exactly when a notification agent other than the sender exists |
| `Branch.SyncSendsNothing` | banca/src/banca/BankBranchAgent.java:153-159 | A handled sync sends no reply and does not re-broadcast |
| `Branch.ExampleRun` | banca/src/banca/BankBranchAgent.java:122-142 | Opening A1, depositing 50 and then withdrawing 70 is refused with balance 50.0 and leaves 50.0. This covers the branch side of the example only |
| `Branch.BankBranchAgent.FindOtherAgents` | banca/src/banca/BankBranchAgent.java:215-237 | The search results in order, without this agent; with the bank-branch type it is also `findOtherBranches` |
| `Branch.BankBranchAgent.SyncAccount` | banca/src/banca/BankBranchAgent.java:163-189 | Appends exactly the one sync message, with the receivers given by `SyncMessage` |
| `Branch.BankBranchAgent.Reply` | banca/src/banca/BankBranchAgent.java:191-196 | Appends an INFORM to the requester, in the request's conversation and in reply to its tag |
| `Branch.BankBranchAgent.SendTransactionNotification` | banca/src/banca/BankBranchAgent.java:198-213 | Appends one TRANSACTION_COMPLETE message to all the other notification agents, or nothing when there are none |
| `Branch.BankBranchAgent.SendAccountOpenedNotification` | banca/src/banca/BankBranchAgent.java:240-258 | Appends one ACCOUNT_OPENED message per notification agent, in search order |
| `Branch.BankBranchAgent.HandleOpen` | banca/src/banca/BankBranchAgent.java:86-96 | The new map is `Apply` of open and the messages sent are `Outbox` of open |
| `Branch.BankBranchAgent.HandleDeposit` | banca/src/banca/BankBranchAgent.java:98-120 | The new map is `Apply` of the deposit and the messages sent are its `Outbox` |
| `Branch.BankBranchAgent.HandleWithdraw` | banca/src/banca/BankBranchAgent.java:122-151 | The new map is `Apply` of the withdrawal and the messages sent are its `Outbox` |
| `Branch.BankBranchAgent.HandleMessage` | banca/src/banca/BankBranchAgent.java:81-161 | An unknown conversation or a malformed payload changes nothing and sends nothing. Otherwise the map and the log follow `Apply` and `Outbox`, and non-negative balances stay non-negative |
| `Notification.Threshold` | banca/src/banca/NotificationAgent.java:82 | The effective threshold is the account's stored value, or 100.0 when it has none |
| `Notification.Push` | banca/src/banca/NotificationAgent.java:122-129 | One store appends the record last. At capacity it drops the oldest, and it never takes a list within capacity above ten |
| `Notification.PushAllKeepsNewest` | banca/src/banca/NotificationAgent.java:122-129 | Any number of stores leave exactly the newest ten records in storing order (first in, first out) |
| `Notification.StoredThen` | banca/src/banca/NotificationAgent.java:84-96 | Storing one more record for an account after a run of records equals storing the run extended by that record |
| `Notification.StoredWithinCapacity` | banca/src/banca/NotificationAgent.java:122-129 | Storing keeps every account's history at ten records or fewer and changes no other account |
| `Notification.AlertsFor` | banca/src/banca/NotificationAgent.java:84-96 | A low-balance alert iff the balance is below the threshold. A zero-balance alert iff it is exactly zero. Both can occur, low first |
| `Notification.ThresholdExamples` | banca/src/banca/NotificationAgent.java:82-96 | With the default threshold, 50 gives one low alert and 0 gives both. With threshold 40, 60 gives none |
| `Notification.AlertNotesFollowAlerts` | banca/src/banca/NotificationAgent.java:83-95 | The records stored for one check are one per alert the rule gives, in alert order, each with that alert's text and the check's time |
| `Notification.AlertMessagesFollowAlerts` | banca/src/banca/NotificationAgent.java:83-120 | The alerts forwarded for one check are none without a GUI agent, else one NOTIFICATION_ALERT per alert, in alert order, to the first GUI agent |
| `Notification.AlertsCompose` | banca/src/banca/NotificationAgent.java:83-95 | The two guarded steps, run one after the other, store and forward exactly the records and alerts the rule gives |
| `Notification.TwoFields` | banca/src/banca/NotificationAgent.java:49-52 | A payload is accepted iff it splits into exactly two fields whose second parses as a number. An accepted one yields its first field and the parsed second |
| `Notification.TransactionAccount` | banca/src/banca/NotificationAgent.java:56-70 | TRANSACTION_COMPLETE is filed under the text before the first `;`, or under "system" when that text is blank |
| `Notification.LinesOldestFirst` | banca/src/banca/NotificationAgent.java:168-172 | The listing's lines start with the oldest record's line, followed by the lines of the rest |
| `Notification.LinesAppend` | banca/src/banca/NotificationAgent.java:170-172 | The lines of two runs of records are the lines of the first followed by those of the second |
| `Notification.NotificationAgent.StoreNotification` | banca/src/banca/NotificationAgent.java:122-132 | The history map changes only at that account, to its list with the timestamped record pushed |
| `Notification.NotificationAgent.SendNotificationToGui` | banca/src/banca/NotificationAgent.java:100-120 | One message to the first GUI agent found, or none |
| `Notification.NotificationAgent.RaiseAlert` | banca/src/banca/NotificationAgent.java:83-94 | One guarded step of the threshold rule: the record is pushed onto that account's history, and the alert goes to the first GUI agent found, or nowhere |
| `Notification.NotificationAgent.CheckAndNotify` | banca/src/banca/NotificationAgent.java:81-97 | Stores, in order, the records the threshold rule gives, and forwards each to the GUI. Nothing is stored or sent when no alert applies |
| `Notification.NotificationAgent.OnEvent` | banca/src/banca/NotificationAgent.java:44-79 | SYNC_ACCOUNT with exactly two fields runs the threshold rule, and otherwise it is ignored. TRANSACTION_COMPLETE and ACCOUNT_OPENED store one record each with no alert. Thresholds never change |
| `Notification.NotificationAgent.BuildListing` | banca/src/banca/NotificationAgent.java:165-174 | The StringBuilder loop yields exactly `Listing`: the explicit "none" text, or a header and one line per record, oldest first |
| `Notification.NotificationAgent.SetThreshold` | banca/src/banca/NotificationAgent.java:138-153 | Two fields: the threshold is overwritten (last write wins), a confirmation is stored, and a NOTIFICATION_INFO reply is sent. Otherwise nothing changes |
| `Notification.NotificationAgent.GetNotifications` | banca/src/banca/NotificationAgent.java:154-175 | Sends one NOTIFICATIONS_LIST reply whose in-reply-to is the request's reply-with, carrying the account's listing. Both maps are unchanged |
| `Notification.NotificationAgent.ClearNotifications` | banca/src/banca/NotificationAgent.java:176-185 | Removes only that account's history, leaves the thresholds, and confirms with NOTIFICATION_INFO |
| `Notification.NotificationAgent.OnQuery` | banca/src/banca/NotificationAgent.java:134-190 | Dispatches the three queries. SET has exactly `SetThreshold`'s effect: with two fields the threshold is overwritten, a confirmation stored and a NOTIFICATION_INFO reply sent, and otherwise nothing changes. Only SET changes thresholds, GET changes neither map, and any other conversation changes nothing |
| `Client.InitialLaunchesPrefix` | banca/src/banca/GUIAgent.java:93-121 | The initial behaviour's actions launch a prefix of [initial branch discovery, exchange discovery]. After its three actions, each has been launched exactly once, branches first |
| `Client.InitialDiscovery.Action` | banca/src/banca/GUIAgent.java:96-116 | Each action advances the step by one and launches what that step launches |
| `Client.BranchRound` | banca/src/banca/GUIAgent.java:194-231 | Attempts go up only on an empty or failed search. The found list always replaces `branches`, and a failed search keeps the old list |
| `Client.BranchSearchBounded` | banca/src/banca/GUIAgent.java:233-240 | A branch search runs at most its remaining attempts (ten from fresh), and with that many results it is done |
| `Client.BranchSearchFindsFirst` | banca/src/banca/GUIAgent.java:201-215 | Starting with no branches, the search ends at the first result that finds any, and those become the branches |
| `Client.DiscoverBranches.Action` | banca/src/banca/GUIAgent.java:194-236 | The behaviour's counter and the agent's branches follow `BranchRound`, and the counter stays at ten or below. The window gets the branch list, the attempt message (non-initial only) or the first error |
| `Client.ExchangeSearchBounded` | banca/src/banca/GUIAgent.java:278-285 | An exchange search runs at most its remaining attempts and then is done. Once the agent is known, a run changes nothing and stops |
| `Client.ExchangeSearchFindsFirst` | banca/src/banca/GUIAgent.java:258-261 | The exchange agent becomes the first identity of the first result that finds one |
| `Client.DiscoverExchange.Action` | banca/src/banca/GUIAgent.java:247-281 | Follows `ExchangeRound`. Finding the agent sets the flag and launches one rate request. Once the agent is known, an action does nothing |
| `Client.GuiAgent.RequestExchangeRates` | banca/src/banca/GUIAgent.java:132-147 | While a request is in flight nothing is launched. With a known agent the flag is set and one request launched. Otherwise a discovery is launched once the window exists |
| `Client.GuiAgent.RequestRates` | banca/src/banca/GUIAgent.java:153-163 | Sends GET_EXCHANGE_RATES to the exchange agent and launches a timeout starting now |
| `Client.RateTimeoutWatch.Action` | banca/src/banca/GUIAgent.java:165-182 | After more than 5000 ms it clears the flag and is done at any later time. Before that it changes nothing |
| `Client.StaleClockLeavesFlagUp` | banca/src/banca/GUIAgent.java:165-182 | A watch acting at exactly 5000 ms and tested for `done()` at 5001 ms ends with the flag up, and the next rate request is refused as already running |
| `Client.FirstRequestAnswered` | banca/src/banca/GUIAgent.java:54-64 | A rate request whose watch acts at 1000, 2000, 3000 and 4000 ms without ending, then a rates update that wakes the watch at 4600 ms before it is received, leave the flag down, one request sent and one watch launched |
| `Client.LeftoverWatchClearsNewerRequest` | banca/src/banca/GUIAgent.java:165-182 | After that run and a second request at 4700 ms, the first request's watch, not done and acting next at 5600 ms, clears the flag while the second request is within its timeout and unanswered |
| `Client.OwnRateTimeoutWatch.Action` | banca/src/banca/GUIAgent.java:165-182 | Corrected watch: a watch whose request was superseded stops without touching the flag, and any action leaves the watch done only when the flag is down or belongs to a newer request |
| `Client.GuiAgent.ReceiveReplies` | banca/src/banca/GUIAgent.java:54-91 | The oldest rates update is taken first and clears the flag. Otherwise the oldest message is taken, and SYNC_ACCOUNT and NOTIFICATIONS_LIST are never echoed |
| `Client.Echo` | banca/src/banca/GUIAgent.java:72-86 | A message is echoed iff it is neither SYNC_ACCOUNT nor NOTIFICATIONS_LIST, and the echo ends with its content |
| `Client.NotificationsTagInjective` | banca/src/banca/GUIAgent.java:323 | Two notifications tags are equal iff their account ids and times are equal |
| `Client.GuiAgent.RequestNotifications` | banca/src/banca/GUIAgent.java:307-362 | Sends one tagged GET_NOTIFICATIONS and takes only the first queued or arriving NOTIFICATIONS_LIST in reply to that tag. It shows the reply or a timeout text, and the pending slot is clear on every path |
| `Client.GuiAgent.SetLowBalanceThreshold` | banca/src/banca/GUIAgent.java:374-394 | Sends `accountId;threshold` to the first notification agent found, or nothing |
| `Client.GuiAgent.ClearNotifications` | banca/src/banca/GUIAgent.java:404-424 | Sends the account id to the first notification agent found, or nothing |
| `Client.GuiAgent.SendRequest` | banca/src/banca/GUIAgent.java:124-130 | Sends one REQUEST to the named branch, with the action as conversation id |
| `Client.GuiAgent.RefreshBranches` | banca/src/banca/GUIAgent.java:149-151 | Launches one non-initial branch discovery |
| `Client.GuiAgent.AttachGui` | banca/src/banca/GUIAgent.java:44-47 | From then on, the window receives callbacks |
| `Protocol.SyncReadByNotifier` | banca/src/banca/NotificationAgent.java:49-54 | A notification agent reads a branch's `id;balance` back as exactly that id and balance, as a peer branch does |
| `Protocol.TransactionFiledUnderAccount` | banca/src/banca/NotificationAgent.java:58-65 | A branch's transaction record is filed under its account id, or under "system" for a blank id |
| `Protocol.ThresholdPayloadRead` | banca/src/banca/GUIAgent.java:388 | The client's `accountId;threshold` is read back as that account and number. An empty threshold is ignored |
| `Protocol.NotificationsReplyCorrelated` | banca/src/banca/NotificationAgent.java:158-163 | The notification agent's GET reply goes back to the client and matches that request's template, and no other request's template |

## Findings

| source | as written | input that shows it | evidently intended | confidence | as-written member | corrected member |
|---|---|---|---|---|---|---|
| banca/src/banca/GUIAgent.java:170-181 | `action()` and `done()` read the clock separately, so `done()` can end the watch after an action that did not clear the flag | request at 0 ms, watch action at 5000 ms, `done()` at 5001 ms | the watch ends only once the flag is down | not executed; reachable with the repository's agents | `Client.StaleClockLeavesFlagUp` | `Client.OwnRateTimeoutWatch.Action` |
| banca/src/banca/GUIAgent.java:165-182 | a watch is tied only to its start time, so it can clear the flag of a later request | request at 0 ms; watch actions at 1000 to 4000 ms; a rates update wakes the watch at 4600 ms and is then received; a second request at 4700 ms; the first watch acts at 5600 ms | a watch clears only its own request's flag | not executed; needs an EXCHANGE_RATES_UPDATE, which no agent of the repository sends | `Client.LeftoverWatchClearsNewerRequest` | `Client.OwnRateTimeoutWatch.Action` |
| banca/src/banca/BankBranchAgent.java:108-145 | `amount <= 0` rejects non-positive numbers but lets NaN through, and `balance < amount` is false for NaN | a DEPOSIT or WITHDRAW of `A1;NaN`, which the window's `Double.parseDouble` check accepts (banca/src/banca/BankGUI.java:243-245, 261-263) | only a positive amount is accepted | not executed | `Branch.NaNAmountStoresNaN` | `Branch.GuardedKeepsNumber` |

`Client.OwnRateTimeoutWatch` knows its request by the number of rate requests sent when it
started. Its `done()` follows its own action's decision instead of a second clock
reading. It is not used by the agent model, which keeps the watch as written.

The branch model is the corrected one for the third row: it reads no NaN amount, and
`Branch.GuardedIsJudge` shows that on numeric amounts its `Judge` and `Apply` decide as the
guarded checks do.

## Left out

- The worked example (open A1, deposit 50, withdraw 70) is shown for the branch only
  (`Branch.ExampleRun`). The notification side is not run as an example: one opened record,
  one transaction record, the alerts of each sync, and nothing for the refused withdrawal.
- CurrencyExchangeAgent, BankGUI and BankGUIUpdater are not part of this model. The first
  is a random walk over doubles; the other two are the Swing window, which appears only as
  the `ui` log.
- Registration with the directory (`registerToDF`, `registerWithDF`, and the GUI agent's
  registration) is left out. Each search result is an input.
- Scheduling and concurrency are left out:
  - the branch agent's receive loop;
  - the notification agent's two cyclic behaviours, which share one queue, so one can take
    and drop a message meant for the other.
  Each handler is one transition for the message it handles. The GUI agent's `volatile`
  fields and the Swing thread are not modelled; the pending-notifications slot is set and
  cleared inside one action.
- Every DFService call is a fresh search in the source. The model takes one directory
  snapshot per branch handler and one GUI search result per notification check.
  - The branch agent's silent catch of a failed search is therefore modelled as an empty
    result.
  - Within `syncAccount` the model cannot express a case where the branch search succeeds
    and the notification search fails.
- `Branch.NonNegativeKept`: holds over numeric amounts only. In the source a NaN amount,
  which the window's check lets through, passes both guards and makes the balance NaN; that
  case is modelled apart (`Branch.NaNAmountStoresNaN`), with infinities left out.
- Doubles are otherwise modelled as reals: no rounding, NaN or infinity. The `%.2f` and
  `Double.toString` renderings, the console output and Date formatting are opaque.
- `Wire.ParseNumber`: reads typed text only as an optionally signed decimal. It has no
  exponent, whitespace trimming, NaN, Infinity, hex forms or type suffix. Text accepted in
  Java only through those forms is treated like text that makes Java throw.
- A malformed payload makes the Java handler throw out of `action()`. The model says
  nothing changes and nothing is sent. This matches the state the source leaves behind,
  because its parse comes before any update. It does not model the failure itself.
- A null conversation id, on which the branch agent's `switch` would throw, cannot occur in
  the model.
- `createReply` is modelled only as receiver, conversation id and in-reply-to. The other
  fields it copies are left out.
- `Notification.NotificationAgent.CheckAndNotify`: both records stored for one sync carry the
  same time. The source reads the clock once per record.
- The waits are step boundaries (`block(1000)`, `block(2000)`, the `blockingReceive`
  timeout of 5000 ms). The blocking receive sees the messages queued or arriving during the
  wait, given as an input; the wait's length is not modelled.
- `requestNotifications`, `setLowBalanceThreshold` and `clearNotifications` only add a
  one-shot behaviour. The model runs that behaviour's action directly.

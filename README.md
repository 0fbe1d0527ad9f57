# Intent wallet view state

This project models the state machine inside the `App` component of the
Anoma intent wallet frontend. It covers how the wallet's local view changes
when:
- the user selection changes;
- a form draft is edited;
- one of the ledger service's responses arrives. These are the balance,
  transaction-log and intent-log fetches of `loadData`, the faucet, a
  transfer (`sendTx`) and an intent (`createIntent`).

The project has four modules:
- `Ledger` (`ledger.dfy`) holds the wire shapes. It also decides how a
  transfer or intent reply is read. A truthy `error` field is a rejection
  whose text is alerted. A transfer reply without `senderBalance` throws
  before any setter runs, so it ends in the catch handler.
- `ViewModel` (`view_model.dfy`) holds the view state as a value. It has one
  transition function per event, `Step` to dispatch them, and `Replay` to
  apply a sequence of events in arrival order.
- `App` (`view_state.dfy`) holds the class `ViewState`. Its fields are the
  component's `useState` slots, and it has one method per handler. Each
  method updates the fields in place. It is proved to reach exactly the
  state that `Step` gives for the matching event.
- `Sync` (`sync.dfy`) holds the lemmas about arbitrary interleavings of
  events.

The fetch responses are inputs (`Fetch<T>`: a parsed body, or a transport or
parse failure). No request is tagged with the user it was made for, and a
user switch clears nothing. So the last balance-writing response decides the
balance, whichever user is selected by then. A transfer reply writes the
balance under the user captured when `sendTx` was called, because the
handler's closure holds that value.

Two behaviours of `src/App.js` are worth stating outright, because a
careful reader might expect otherwise:
- A user switch clears nothing. Line 145 only calls `setUser`, and the
  effect at lines 49-51 reloads later. Until the responses land, the previous
  user's balance and logs stay on screen. `OnUserSelected` and `BalanceKept`
  state this.
- There is no price feed. `src/App.js` fetches no prices, so there is
  nothing to model.

## Model

| member | source | states |
|---|---|---|
| Ledger.ClassifyTransfer | src/App.js:70-79 | a truthy `error` is a rejection carrying exactly that text; a confirmation needs a falsy `error` and a present `senderBalance`, and carries the reply's tx and balances; a transport failure or a missing `senderBalance` is a failure |
| Ledger.ClassifyIntent | src/App.js:97-105 | a truthy `error` is a rejection carrying that text; otherwise the reply's intent is created; only a transport failure is a failure |
| Ledger.TransferAlert | src/App.js:71-72 | no alert exactly when the transfer is confirmed; a rejection alerts its literal error text; any other failure alerts "Transaction failed" (line 79) |
| Ledger.IntentAlert | src/App.js:98-99 | no alert exactly when the intent is created; a rejection alerts its literal error text; a transport failure alerts "Creating intent failed" (line 105) |
| Ledger.FaucetAlert | src/App.js:54-58 | the faucet alerts "Faucet failed" exactly when the call fails |
| ViewModel.OnUserSelected | src/App.js:145 | selecting a user sets `user` and nothing else; balance, transactions and intents keep their previous values |
| ViewModel.OnDraftEdited | src/App.js:277-372 | editing one form field sets that draft to the typed text; every other draft, the user, the balance and both logs stay the same |
| ViewModel.OnBalanceFetched | src/App.js:33-36 | a balance body replaces the snapshot wholesale; a failure makes it absent; nothing else changes |
| ViewModel.OnTxsFetched | src/App.js:38-41 | a fetched transaction log replaces the local log; a failure empties it; nothing else changes |
| ViewModel.OnIntentsFetched | src/App.js:43-46 | a fetched intent log replaces the local log; a failure empties it; nothing else changes |
| ViewModel.OnFaucet | src/App.js:54-58 | a faucet body replaces the balance; a faucet failure leaves the whole state unchanged |
| ViewModel.OnTransfer | src/App.js:70-79 | on confirmation, the balance becomes `{user, balances: senderBalance.balances}`, the log gains exactly the returned tx at its end, and the amount draft is "". On rejection, transport failure or missing `senderBalance`, the state is unchanged. Nothing besides balance, log and amount ever changes |
| ViewModel.OnIntent | src/App.js:97-105 | on creation, the intent log gains exactly the returned intent at its end and the intent amount draft is ""; on rejection or transport failure the state is unchanged; nothing else changes |
| ViewModel.AlertOf | src/App.js:58-105 | only faucet, transfer and intent replies raise alerts, each the one its handler raises |
| ViewModel.TransferBody | src/App.js:67 | the transfer body is `{from: user, to, token, amount}` taken from the current state |
| ViewModel.IntentBody | src/App.js:88-94 | the intent body always has action "swap", maker = user, and the intent drafts |
| App.ViewState.constructor | src/App.js:17-29 | the initial state: user "alice", no balance, empty logs, empty amounts, token "ETH", recipient "bob", swap "ETH" to "XAN" |
| App.ViewState.SelectUser | src/App.js:49-51 | sets `user` as `OnUserSelected` does; a resync is scheduled exactly when the value changed; balance and logs are untouched |
| App.ViewState.EditDraft | src/App.js:277-372 | updates one draft field in place, as `OnDraftEdited` does |
| App.ViewState.ApplyBalance | src/App.js:33-36 | updates the balance field in place, as `OnBalanceFetched` does |
| App.ViewState.ApplyTxs | src/App.js:38-41 | updates the transaction log in place, as `OnTxsFetched` does |
| App.ViewState.ApplyIntents | src/App.js:43-46 | updates the intent log in place, as `OnIntentsFetched` does |
| App.ViewState.ApplyFaucet | src/App.js:54-58 | updates the state as `OnFaucet` does and returns the faucet's alert |
| App.ViewState.SendTx | src/App.js:64-67 | returns the body `sendTx` POSTs: the selected user as sender and the current drafts |
| App.ViewState.ApplyTransfer | src/App.js:69-79 | updates balance, log and amount in place as `OnTransfer` does, and returns the alert |
| App.ViewState.CreateIntent | src/App.js:85-94 | returns the body `createIntent` POSTs, with action "swap" and maker = user |
| App.ViewState.ApplyIntent | src/App.js:96-105 | updates the intent log and its draft in place as `OnIntent` does, and returns the alert |
| Sync.LastBalanceWins | src/App.js:35-36 | after any sequence of events, the balance is the one written by the last balance-writing response (balance fetch, faucet success, confirmed transfer), whichever user is selected by then |
| Sync.BalanceKept | src/App.js:49-51 | events that write no balance, user switches included, leave the previous balance in place |
| Sync.StaleBalanceAfterSwitch | src/App.js:145 | after a switch from A to B, a balance response for A that lands last stays on screen while B is selected |
| Sync.ReplayTxs | src/App.js:38-41 | the transaction log after any sequence of events is computed from the log fetches and confirmed transfers alone (`TxLog`); user switches, balance and intent events never touch it |
| Sync.TxsAppendOnly | src/App.js:76 | with no log fetch in between, the transaction log grows by exactly the confirmed transfers' txs, in arrival order |
| Sync.TxsAfterLastFetch | src/App.js:38-41 | after a log fetch followed by events that fetch no log, the transaction log is the fetched log (empty if that fetch failed) followed by exactly the txs confirmed after it landed, in order |
| Sync.ReplayIntents | src/App.js:43-46 | the intent log after any sequence of events is computed from the intent-log fetches and created intents alone (`IntentLog`) |
| Sync.IntentsAppendOnly | src/App.js:102 | with no log fetch in between, the intent log grows by exactly the created intents, in arrival order |
| Sync.IntentsAfterLastFetch | src/App.js:43-46 | after an intent-log fetch followed by events that fetch no intent log, the intent log is the fetched log (empty if that fetch failed) followed by exactly the intents created after it landed, in order |
| Sync.ResyncConverges | src/App.js:32-47 | any interleaving of resync responses against an unchanged server sets each slice to the server's value once its response has landed, and touches nothing else |
| Sync.ResyncIdempotent | src/App.js:32-47 | resyncing again against an unchanged server, in any order, leaves the state equal to what the first resync left |
| Sync.TransferRoundTrip | src/App.js:67-77 | a transfer built from the current state and confirmed leaves the returned balances under the submitting user, the log one tx longer, amount "", and recipient and token drafts as sent |
| Sync.Commute | src/App.js:32-106 | two events that write disjoint slices of the state give the same result in either arrival order |

## Left out

- Rendering, styling, tab navigation (`activeTab`), the token logo table and copying the address to the clipboard are presentation. They have no state rules.
- `fetch`, the HTTP verbs, JSON encoding and `BASE_URL` are I/O. Each response is an input `Fetch<T>`: a parsed body or a transport/parse failure. `alert` becomes a returned message.
- Promise scheduling is not modelled. Concurrency is an arbitrary sequence of response events (`Replay`).
- `Number(amount)` is not modelled. Request bodies carry the draft text. Transaction and intent amounts are integers, not JavaScript floats.
- The query strings `?user=` of the balance and faucet fetches are not modelled. Their responses are taken as whatever body arrives.
- Ledger.TransferReply: a success reply without a `tx` field is not modelled. The source would append `undefined` to the log.
- Ledger.IntentReply: a success reply without an `intent` field is not modelled. The source would append `undefined` to the log.
- Ledger.BalanceSnapshot: a balance or faucet body of another JSON shape is not modelled. The source would store it as the balance unchanged.
- ViewModel.OnTxsFetched: a log body that is not an array is not modelled. An example is a non-2xx JSON error object, since lines 39-40 never check `res.ok`. The source stores such a body as the log. The history view then shows no transactions, and the next confirmed transfer's `[...prev, data.tx]` at line 76 throws inside the state updater.
- ViewModel.OnIntentsFetched: a log body that is not an array is not modelled, for the same reason (lines 44-45). The source stores it as the intent log, and the next created intent's `[...prev, data.intent]` at line 102 throws.
- Ledger.ClassifyTransfer: a `/send` body of JSON `null` is not modelled. In the source, `data.error` at line 71 throws, so the reply ends in the catch handler with "Transaction failed" although it arrived. `Fetch<TransferReply>` has no value for it; `TransportFailure` gives the same outcome.
- Ledger.ClassifyIntent: an `/intent` body of JSON `null` is not modelled. In the source, `data.error` at line 98 throws, so the reply ends in the catch handler with "Creating intent failed". `TransportFailure` gives the same outcome.
- Ledger.Truthy: only string error values are modelled. A non-string `error` field is not.
- A reply whose `senderBalance` lacks `balances` is not modelled. The source would store `balances: undefined`.
- The price feed is not modelled, because no such code exists in `src/App.js`.
- The one resync that runs when the component mounts is not returned by `App.ViewState.constructor`.

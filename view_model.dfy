/** The state of the wallet's `App` component as a value, and one transition
    per event that changes it: the user selection, a draft edit, and the
    arrival of each network response. Responses carry no tag saying which user
    they were requested for, so each one is applied to whatever the state is
    when it lands. */
module ViewModel {
  import opened Ledger

  /** The six form drafts. */
  datatype Draft = Amount | Token | To | IntentAmount | FromAsset | ToAsset

  datatype View = View(
    user: string,
    balance: Option<BalanceSnapshot>,
    txs: seq<TxRecord>,
    intents: seq<IntentRecord>,
    amount: string,
    token: string,
    to: string,
    intentAmount: string,
    fromAsset: string,
    toAsset: string)

  /** The state on first render. */
  const Initial := View("alice", None, [], [], "", "ETH", "bob", "", "ETH", "XAN")

  datatype Event =
    | UserSelected(user: string)
    | DraftEdited(field: Draft, text: string)
    | BalanceFetched(balanceReply: Fetch<BalanceSnapshot>)
    | TxsFetched(txsReply: Fetch<seq<TxRecord>>)
    | IntentsFetched(intentsReply: Fetch<seq<IntentRecord>>)
    | FaucetAnswered(faucetReply: Fetch<BalanceSnapshot>)
    | TransferAnswered(request: TransferRequest, transferReply: Fetch<TransferReply>)
    | IntentAnswered(intentReply: Fetch<IntentReply>)

  /** Selecting a user changes only `user`: the previous user's balance and
      logs stay on screen until responses replace them. */
  function OnUserSelected(v: View, u: string): (w: View)
    ensures w.user == u
    ensures w.balance == v.balance && w.txs == v.txs && w.intents == v.intents
    ensures w.(user := v.user) == v
  {
    v.(user := u)
  }

  function OnDraftEdited(v: View, field: Draft, text: string): (w: View)
    ensures DraftOf(w, field) == text
    ensures forall d :: d != field ==> DraftOf(w, d) == DraftOf(v, d)
    ensures w.user == v.user && w.balance == v.balance && w.txs == v.txs && w.intents == v.intents
  {
    match field
    case Amount => v.(amount := text)
    case Token => v.(token := text)
    case To => v.(to := text)
    case IntentAmount => v.(intentAmount := text)
    case FromAsset => v.(fromAsset := text)
    case ToAsset => v.(toAsset := text)
  }

  function DraftOf(v: View, field: Draft): string {
    match field
    case Amount => v.amount
    case Token => v.token
    case To => v.to
    case IntentAmount => v.intentAmount
    case FromAsset => v.fromAsset
    case ToAsset => v.toAsset
  }

  /** A balance body replaces the snapshot wholesale; a failure sets it to
      absent rather than leaving it stale. Nothing else changes. */
  function OnBalanceFetched(v: View, r: Fetch<BalanceSnapshot>): (w: View)
    ensures r.Arrived? ==> w.balance == Some(r.body)
    ensures r.TransportFailure? ==> w.balance == None
    ensures w.(balance := v.balance) == v
  {
    v.(balance := if r.Arrived? then Some(r.body) else None)
  }

  /** A fetched transaction log replaces the local one (no append, no
      deduplication); a failure empties it. Nothing else changes. */
  function OnTxsFetched(v: View, r: Fetch<seq<TxRecord>>): (w: View)
    ensures r.Arrived? ==> w.txs == r.body
    ensures r.TransportFailure? ==> w.txs == []
    ensures w.(txs := v.txs) == v
  {
    v.(txs := if r.Arrived? then r.body else [])
  }

  /** A fetched intent log replaces the local one; a failure empties it.
      Nothing else changes. */
  function OnIntentsFetched(v: View, r: Fetch<seq<IntentRecord>>): (w: View)
    ensures r.Arrived? ==> w.intents == r.body
    ensures r.TransportFailure? ==> w.intents == []
    ensures w.(intents := v.intents) == v
  {
    v.(intents := if r.Arrived? then r.body else [])
  }

  /** A faucet body replaces the snapshot; a failure only alerts, so the
      state is unchanged. */
  function OnFaucet(v: View, r: Fetch<BalanceSnapshot>): (w: View)
    ensures r.Arrived? ==> w.balance == Some(r.body)
    ensures r.TransportFailure? ==> w == v
    ensures w.(balance := v.balance) == v
  {
    if r.Arrived? then v.(balance := Some(r.body)) else v
  }

  /** A confirmed transfer replaces the snapshot with the sender's returned
      balances, under the user captured when the request was made, appends
      the returned tx to the log as it is now, and clears the amount draft.
      A rejection, a transport failure or a body without `senderBalance`
      changes nothing. */
  function OnTransfer(v: View, req: TransferRequest, r: Fetch<TransferReply>): (w: View)
    ensures ClassifyTransfer(r).Sent? ==>
      && w.balance == Some(BalanceSnapshot(req.from, ClassifyTransfer(r).balances))
      && w.txs == v.txs + [r.body.tx]
      && w.amount == ""
    ensures !ClassifyTransfer(r).Sent? ==> w == v
    ensures w.(balance := v.balance, txs := v.txs, amount := v.amount) == v
  {
    match ClassifyTransfer(r)
    case Sent(tx, balances) =>
      v.(balance := Some(BalanceSnapshot(req.from, balances)), txs := v.txs + [tx], amount := "")
    case _ => v
  }

  /** A created intent is appended to the log as it is now and the intent
      amount draft is cleared; a rejection or a transport failure changes
      nothing. The balance is never touched. */
  function OnIntent(v: View, r: Fetch<IntentReply>): (w: View)
    ensures ClassifyIntent(r).Created? ==> w.intents == v.intents + [r.body.intent] && w.intentAmount == ""
    ensures !ClassifyIntent(r).Created? ==> w == v
    ensures w.(intents := v.intents, intentAmount := v.intentAmount) == v
  {
    match ClassifyIntent(r)
    case Created(intent) => v.(intents := v.intents + [intent], intentAmount := "")
    case _ => v
  }

  function Step(v: View, e: Event): View {
    match e
    case UserSelected(u) => OnUserSelected(v, u)
    case DraftEdited(field, text) => OnDraftEdited(v, field, text)
    case BalanceFetched(r) => OnBalanceFetched(v, r)
    case TxsFetched(r) => OnTxsFetched(v, r)
    case IntentsFetched(r) => OnIntentsFetched(v, r)
    case FaucetAnswered(r) => OnFaucet(v, r)
    case TransferAnswered(req, r) => OnTransfer(v, req, r)
    case IntentAnswered(r) => OnIntent(v, r)
  }

  /** The alert an event raises, if any. */
  function AlertOf(e: Event): (m: Option<string>)
    ensures m.Some? ==> e.FaucetAnswered? || e.TransferAnswered? || e.IntentAnswered?
    ensures e.TransferAnswered? ==> m == TransferAlert(e.transferReply)
    ensures e.IntentAnswered? ==> m == IntentAlert(e.intentReply)
    ensures e.FaucetAnswered? ==> m == FaucetAlert(e.faucetReply)
  {
    match e
    case FaucetAnswered(r) => FaucetAlert(r)
    case TransferAnswered(_, r) => TransferAlert(r)
    case IntentAnswered(r) => IntentAlert(r)
    case _ => None
  }

  /** The state after the events of `es` arrive, in order. */
  function Replay(v: View, es: seq<Event>): View
    decreases |es|
  {
    if es == [] then v else Step(Replay(v, es[..|es| - 1]), es[|es| - 1])
  }

  /** The body `sendTx` POSTs: the selected user as sender, and the drafts. */
  function TransferBody(v: View): (b: TransferRequest)
    ensures b.from == v.user && b.to == v.to && b.token == v.token && b.amount == v.amount
  {
    TransferRequest(v.user, v.to, v.token, v.amount)
  }

  /** The body `createIntent` POSTs: always a swap, made by the selected user. */
  function IntentBody(v: View): (b: IntentRequest)
    ensures b.action == SwapAction
    ensures b.maker == v.user && b.amount == v.intentAmount
    ensures b.fromAsset == v.fromAsset && b.toAsset == v.toAsset
  {
    IntentRequest(v.user, SwapAction, v.intentAmount, v.fromAsset, v.toAsset)
  }
}

/** Shapes exchanged with the ledger service, and how the wallet reads a
    transfer or intent reply. A reply counts as rejected when its `error`
    field is truthy in JavaScript's sense; a missing field and the empty
    string are both falsy, so both are written here as "". */
module Ledger {

  datatype Option<+T> = None | Some(value: T)

  /** The outcome of one network call: the parsed JSON body, or a failure of
      `fetch` or of `res.json()` (unreachable host, unparsable body). A non-2xx
      status with a JSON body still arrives as a body; `T` admits only bodies
      of the shape the call expects, so an error object where a log was
      expected, or a `null` reply, has no value here. */
  datatype Fetch<+T> = Arrived(body: T) | TransportFailure

  /** Asset symbol to amount, as the service reports it. */
  type Balances = map<string, int>

  /** The body of `/balance` and `/faucet`, kept by the view as it arrives. */
  datatype BalanceSnapshot = BalanceSnapshot(user: string, balances: Balances)

  datatype TxRecord = TxRecord(from: string, to: string, token: string, amount: int)

  datatype IntentRecord = IntentRecord(maker: string, action: string, amount: int, fromAsset: string, toAsset: string)

  /** Body POSTed to `/send`; `amount` is the draft text handed to `Number`. */
  datatype TransferRequest = TransferRequest(from: string, to: string, token: string, amount: string)

  /** Body POSTed to `/intent`; `amount` is the draft text handed to `Number`. */
  datatype IntentRequest = IntentRequest(maker: string, action: string, amount: string, fromAsset: string, toAsset: string)

  /** Body of a `/send` reply: `{error}` or `{tx, senderBalance: {balances}}`.
      `senderBalance` may be missing. */
  datatype TransferReply = TransferReply(error: string, tx: TxRecord, senderBalance: Option<Balances>)

  /** Body of an `/intent` reply: `{error}` or `{intent}`. */
  datatype IntentReply = IntentReply(error: string, intent: IntentRecord)

  const SwapAction := "swap"
  const FaucetFailedAlert := "Faucet failed"
  const TransferFailedAlert := "Transaction failed"
  const IntentFailedAlert := "Creating intent failed"

  /** JavaScript truthiness of a string-valued `error` field. */
  predicate Truthy(error: string) {
    error != ""
  }

  /** What `sendTx` makes of a reply. */
  datatype TransferVerdict =
    | Sent(tx: TxRecord, balances: Balances)
    | SendRejected(message: string)
    | SendFailed

  /** What `createIntent` makes of a reply. */
  datatype IntentVerdict =
    | Created(intent: IntentRecord)
    | CreateRejected(message: string)
    | CreateFailed

  /** A truthy `error` wins over everything else in the body; a reply without
      `senderBalance` throws on `data.senderBalance.balances` and lands in the
      catch handler like a transport failure. */
  function ClassifyTransfer(r: Fetch<TransferReply>): (v: TransferVerdict)
    ensures v.SendRejected? <==> r.Arrived? && Truthy(r.body.error)
    ensures v.SendRejected? ==> v.message == r.body.error
    ensures v.Sent? <==> r.Arrived? && !Truthy(r.body.error) && r.body.senderBalance.Some?
    ensures v.Sent? ==> v.tx == r.body.tx && v.balances == r.body.senderBalance.value
    ensures r.TransportFailure? ==> v.SendFailed?
  {
    match r
    case TransportFailure => SendFailed
    case Arrived(body) =>
      if Truthy(body.error) then SendRejected(body.error)
      else if body.senderBalance.None? then SendFailed
      else Sent(body.tx, body.senderBalance.value)
  }

  /** A truthy `error` wins; otherwise the reply's intent is taken as created. */
  function ClassifyIntent(r: Fetch<IntentReply>): (v: IntentVerdict)
    ensures v.CreateRejected? <==> r.Arrived? && Truthy(r.body.error)
    ensures v.CreateRejected? ==> v.message == r.body.error
    ensures v.Created? <==> r.Arrived? && !Truthy(r.body.error)
    ensures v.Created? ==> v.intent == r.body.intent
    ensures v.CreateFailed? <==> r.TransportFailure?
  {
    match r
    case TransportFailure => CreateFailed
    case Arrived(body) =>
      if Truthy(body.error) then CreateRejected(body.error) else Created(body.intent)
  }

  /** The alert a transfer reply raises: the error text itself, or the fixed
      catch-handler message; none on success. */
  function TransferAlert(r: Fetch<TransferReply>): (m: Option<string>)
    ensures m.None? <==> ClassifyTransfer(r).Sent?
    ensures r.Arrived? && Truthy(r.body.error) ==> m == Some(r.body.error)
    ensures ClassifyTransfer(r).SendFailed? ==> m == Some(TransferFailedAlert)
  {
    match ClassifyTransfer(r)
    case Sent(_, _) => None
    case SendRejected(message) => Some(message)
    case SendFailed => Some(TransferFailedAlert)
  }

  /** The alert an intent reply raises. */
  function IntentAlert(r: Fetch<IntentReply>): (m: Option<string>)
    ensures m.None? <==> ClassifyIntent(r).Created?
    ensures r.Arrived? && Truthy(r.body.error) ==> m == Some(r.body.error)
    ensures r.TransportFailure? ==> m == Some(IntentFailedAlert)
  {
    match ClassifyIntent(r)
    case Created(_) => None
    case CreateRejected(message) => Some(message)
    case CreateFailed => Some(IntentFailedAlert)
  }

  /** The faucet alerts only when the call itself fails. */
  function FaucetAlert(r: Fetch<BalanceSnapshot>): (m: Option<string>)
    ensures m.None? <==> r.Arrived?
    ensures r.TransportFailure? ==> m == Some(FaucetFailedAlert)
  {
    if r.Arrived? then None else Some(FaucetFailedAlert)
  }
}

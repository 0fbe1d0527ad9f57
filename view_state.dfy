/** The `App` component's state as an object whose fields the handlers update
    in place, one method per event. Each method is proved to take the state
    exactly where the matching `ViewModel` transition takes it. */
module App {
  import opened Ledger
  import opened ViewModel

  class ViewState {
    var user: string
    var balance: Option<BalanceSnapshot>
    var txs: seq<TxRecord>
    var intents: seq<IntentRecord>
    var amount: string
    var token: string
    var to: string
    var intentAmount: string
    var fromAsset: string
    var toAsset: string

    function Snapshot(): View
      reads this
    {
      View(user, balance, txs, intents, amount, token, to, intentAmount, fromAsset, toAsset)
    }

    /** First render: the `useState` initial values. Mounting then runs one
        resync for the initial user. */
    constructor ()
      ensures Snapshot() == Initial
    {
      user := "alice";
      balance := None;
      txs := [];
      intents := [];
      amount := "";
      token := "ETH";
      to := "bob";
      intentAmount := "";
      fromAsset := "ETH";
      toAsset := "XAN";
    }

    /** `setUser` from the account selector. The effect that resyncs runs only
        when the value actually changed; nothing else is cleared. */
    method SelectUser(u: string) returns (resync: bool)
      modifies this
      ensures Snapshot() == Step(old(Snapshot()), UserSelected(u))
      ensures resync <==> u != old(user)
      ensures balance == old(balance) && txs == old(txs) && intents == old(intents)
    {
      resync := u != user;
      user := u;
    }

    /** An `onChange` on one of the form inputs. */
    method EditDraft(field: Draft, text: string)
      modifies this
      ensures Snapshot() == Step(old(Snapshot()), DraftEdited(field, text))
    {
      match field
      case Amount => amount := text;
      case Token => token := text;
      case To => to := text;
      case IntentAmount => intentAmount := text;
      case FromAsset => fromAsset := text;
      case ToAsset => toAsset := text;
    }

    /** Completion of the `/balance` fetch issued by `loadData`. */
    method ApplyBalance(r: Fetch<BalanceSnapshot>)
      modifies this
      ensures Snapshot() == Step(old(Snapshot()), BalanceFetched(r))
    {
      match r
      case Arrived(body) => balance := Some(body);
      case TransportFailure => balance := None;
    }

    /** Completion of the `/txs` fetch issued by `loadData`. */
    method ApplyTxs(r: Fetch<seq<TxRecord>>)
      modifies this
      ensures Snapshot() == Step(old(Snapshot()), TxsFetched(r))
    {
      match r
      case Arrived(body) => txs := body;
      case TransportFailure => txs := [];
    }

    /** Completion of the `/intents` fetch issued by `loadData`. */
    method ApplyIntents(r: Fetch<seq<IntentRecord>>)
      modifies this
      ensures Snapshot() == Step(old(Snapshot()), IntentsFetched(r))
    {
      match r
      case Arrived(body) => intents := body;
      case TransportFailure => intents := [];
    }

    /** Completion of `requestFaucet`. */
    method ApplyFaucet(r: Fetch<BalanceSnapshot>) returns (alert: Option<string>)
      modifies this
      ensures Snapshot() == Step(old(Snapshot()), FaucetAnswered(r))
      ensures alert == AlertOf(FaucetAnswered(r))
    {
      match r
      case Arrived(body) =>
        balance := Some(body);
        alert := None;
      case TransportFailure =>
        alert := Some(FaucetFailedAlert);
    }

    /** The body `sendTx` POSTs from the current state. */
    method SendTx() returns (body: TransferRequest)
      ensures body == TransferBody(Snapshot())
      ensures body.from == user && body.amount == amount
    {
      body := TransferRequest(user, to, token, amount);
    }

    /** Completion of `sendTx`, whose closure captured `req`. */
    method ApplyTransfer(req: TransferRequest, r: Fetch<TransferReply>) returns (alert: Option<string>)
      modifies this
      ensures Snapshot() == Step(old(Snapshot()), TransferAnswered(req, r))
      ensures alert == AlertOf(TransferAnswered(req, r))
    {
      if r.TransportFailure? {
        alert := Some(TransferFailedAlert);
      } else if Truthy(r.body.error) {
        alert := Some(r.body.error);
      } else if r.body.senderBalance.None? {
        alert := Some(TransferFailedAlert);
      } else {
        balance := Some(BalanceSnapshot(req.from, r.body.senderBalance.value));
        txs := txs + [r.body.tx];
        amount := "";
        alert := None;
      }
    }

    /** The body `createIntent` POSTs from the current state. */
    method CreateIntent() returns (body: IntentRequest)
      ensures body == IntentBody(Snapshot())
      ensures body.action == SwapAction && body.maker == user
    {
      body := IntentRequest(user, SwapAction, intentAmount, fromAsset, toAsset);
    }

    /** Completion of `createIntent`. */
    method ApplyIntent(r: Fetch<IntentReply>) returns (alert: Option<string>)
      modifies this
      ensures Snapshot() == Step(old(Snapshot()), IntentAnswered(r))
      ensures alert == AlertOf(IntentAnswered(r))
    {
      if r.TransportFailure? {
        alert := Some(IntentFailedAlert);
      } else if Truthy(r.body.error) {
        alert := Some(r.body.error);
      } else {
        intents := intents + [r.body.intent];
        intentAmount := "";
        alert := None;
      }
    }
  }
}

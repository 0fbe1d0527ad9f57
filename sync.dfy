/** What the wallet shows after an arbitrary interleaving of events. The
    component neither clears its data when the user changes nor discards
    responses requested for an earlier user, so every slice of the state is
    decided by the events that write it, in arrival order. */
module Sync {
  import opened Ledger
  import opened ViewModel

  // ---------------------------------------------------------------- balance

  /** `Some(b)` when the event sets the balance to `b`, `None` when it leaves
      the balance alone. */
  function BalanceWrite(e: Event): Option<Option<BalanceSnapshot>> {
    match e
    case BalanceFetched(r) => Some(if r.Arrived? then Some(r.body) else None)
    case FaucetAnswered(r) => if r.Arrived? then Some(Some(r.body)) else None
    case TransferAnswered(req, r) =>
      if ClassifyTransfer(r).Sent?
      then Some(Some(BalanceSnapshot(req.from, ClassifyTransfer(r).balances)))
      else None
    case _ => None
  }

  lemma StepBalance(v: View, e: Event)
    ensures Step(v, e).balance == if BalanceWrite(e).Some? then BalanceWrite(e).value else v.balance
  {
  }

  lemma ReplaySnoc(v: View, es: seq<Event>, e: Event)
    ensures Replay(v, es + [e]) == Step(Replay(v, es), e)
  {
    assert (es + [e])[..|es|] == es;
  }

  /** Whichever balance-writing response arrives last decides the balance,
      whatever user is selected by then. */
  lemma {:induction false} LastBalanceWins(v: View, es: seq<Event>, k: nat)
    requires k < |es| && BalanceWrite(es[k]).Some?
    requires forall j :: k < j < |es| ==> BalanceWrite(es[j]).None?
    ensures Replay(v, es).balance == BalanceWrite(es[k]).value
    decreases |es|
  {
    var init := es[..|es| - 1];
    StepBalance(Replay(v, init), es[|es| - 1]);
    if k < |es| - 1 {
      LastBalanceWins(v, init, k);
    }
  }

  /** Events that write no balance, a user switch among them, leave the
      previous balance on screen. */
  lemma {:induction false} BalanceKept(v: View, es: seq<Event>)
    requires forall j :: 0 <= j < |es| ==> BalanceWrite(es[j]).None?
    ensures Replay(v, es).balance == v.balance
    decreases |es|
  {
    if es != [] {
      var init := es[..|es| - 1];
      StepBalance(Replay(v, init), es[|es| - 1]);
      BalanceKept(v, init);
    }
  }

  /** After a switch from user A to user B, a balance response for A that lands
      last is what stays on screen under B. */
  lemma StaleBalanceAfterSwitch(v: View, u: string, b: BalanceSnapshot)
    requires u != v.user && b.user == v.user
    ensures Replay(v, [UserSelected(u), BalanceFetched(Arrived(b))]).user == u
    ensures Replay(v, [UserSelected(u), BalanceFetched(Arrived(b))]).balance == Some(b)
  {
    ReplaySnoc(v, [], UserSelected(u));
    ReplaySnoc(v, [UserSelected(u)], BalanceFetched(Arrived(b)));
  }

  // ------------------------------------------------------- transaction log

  /** `Some(log)` when the event replaces the transaction log. */
  function TxsReset(e: Event): Option<seq<TxRecord>> {
    match e
    case TxsFetched(r) => Some(if r.Arrived? then r.body else [])
    case _ => None
  }

  /** The tx a confirmed transfer reply appends: at most one. */
  function ConfirmedTx(e: Event): seq<TxRecord> {
    if e.TransferAnswered? && ClassifyTransfer(e.transferReply).Sent?
    then [ClassifyTransfer(e.transferReply).tx] else []
  }

  /** The txs confirmed by the transfer replies among `es`, in arrival order. */
  function ConfirmedTxs(es: seq<Event>): seq<TxRecord>
    decreases |es|
  {
    if es == [] then [] else ConfirmedTxs(es[..|es| - 1]) + ConfirmedTx(es[|es| - 1])
  }

  /** The transaction log after `es`, computed from the log's own events. */
  function TxLog(log: seq<TxRecord>, es: seq<Event>): seq<TxRecord>
    decreases |es|
  {
    if es == [] then log
    else
      var e := es[|es| - 1];
      if TxsReset(e).Some? then TxsReset(e).value else TxLog(log, es[..|es| - 1]) + ConfirmedTx(e)
  }

  lemma StepTxs(v: View, e: Event)
    ensures Step(v, e).txs == if TxsReset(e).Some? then TxsReset(e).value else v.txs + ConfirmedTx(e)
  {
  }

  /** Only log fetches and transfer replies decide the transaction log. */
  lemma {:induction false} ReplayTxs(v: View, es: seq<Event>)
    ensures Replay(v, es).txs == TxLog(v.txs, es)
    decreases |es|
  {
    if es != [] {
      var init := es[..|es| - 1];
      ReplayTxs(v, init);
      StepTxs(Replay(v, init), es[|es| - 1]);
    }
  }

  lemma TxLogSnoc(log: seq<TxRecord>, es: seq<Event>, e: Event)
    ensures TxLog(log, es + [e]) == if TxsReset(e).Some? then TxsReset(e).value else TxLog(log, es) + ConfirmedTx(e)
    ensures ConfirmedTxs(es + [e]) == ConfirmedTxs(es) + ConfirmedTx(e)
  {
    assert (es + [e])[..|es|] == es;
  }

  lemma {:induction false} TxLogAppendOnly(log: seq<TxRecord>, es: seq<Event>)
    requires forall j :: 0 <= j < |es| ==> TxsReset(es[j]).None?
    ensures TxLog(log, es) == log + ConfirmedTxs(es)
    decreases |es|
  {
    if es != [] {
      var init, e := es[..|es| - 1], es[|es| - 1];
      assert es == init + [e];
      TxLogAppendOnly(log, init);
      TxLogSnoc(log, init, e);
    }
  }

  lemma {:induction false} TxLogAfterFetch(log: seq<TxRecord>, pre: seq<Event>, fetch: Event, post: seq<Event>)
    requires TxsReset(fetch).Some?
    requires forall j :: 0 <= j < |post| ==> TxsReset(post[j]).None?
    ensures TxLog(log, pre + [fetch] + post) == TxsReset(fetch).value + ConfirmedTxs(post)
    decreases |post|
  {
    if post == [] {
      assert pre + [fetch] + post == pre + [fetch];
      TxLogSnoc(log, pre, fetch);
    } else {
      var init, e := post[..|post| - 1], post[|post| - 1];
      assert post == init + [e];
      assert pre + [fetch] + post == (pre + [fetch] + init) + [e];
      TxLogAfterFetch(log, pre, fetch, init);
      TxLogSnoc(log, pre + [fetch] + init, e);
      TxLogSnoc(log, init, e);
    }
  }

  /** Without a log fetch, the log grows by exactly the confirmed transfers. */
  lemma {:induction false} TxsAppendOnly(v: View, es: seq<Event>)
    requires forall j :: 0 <= j < |es| ==> TxsReset(es[j]).None?
    ensures Replay(v, es).txs == v.txs + ConfirmedTxs(es)
  {
    ReplayTxs(v, es);
    TxLogAppendOnly(v.txs, es);
  }

  /** The log is the last fetched one (empty if that fetch failed) followed
      by the transfers confirmed after it arrived. */
  lemma TxsAfterLastFetch(v: View, pre: seq<Event>, fetch: Event, post: seq<Event>)
    requires TxsReset(fetch).Some?
    requires forall j :: 0 <= j < |post| ==> TxsReset(post[j]).None?
    ensures Replay(v, pre + [fetch] + post).txs == TxsReset(fetch).value + ConfirmedTxs(post)
  {
    ReplayTxs(v, pre + [fetch] + post);
    TxLogAfterFetch(v.txs, pre, fetch, post);
  }

  // ------------------------------------------------------- intent log

  /** `Some(log)` when the event replaces the intent log. */
  function IntentsReset(e: Event): Option<seq<IntentRecord>> {
    match e
    case IntentsFetched(r) => Some(if r.Arrived? then r.body else [])
    case _ => None
  }

  /** The intent a created-intent reply appends: at most one. */
  function CreatedIntent(e: Event): seq<IntentRecord> {
    if e.IntentAnswered? && ClassifyIntent(e.intentReply).Created?
    then [ClassifyIntent(e.intentReply).intent] else []
  }

  /** The intents created by the intent replies among `es`, in arrival order. */
  function CreatedIntents(es: seq<Event>): seq<IntentRecord>
    decreases |es|
  {
    if es == [] then [] else CreatedIntents(es[..|es| - 1]) + CreatedIntent(es[|es| - 1])
  }

  /** The intent log after `es`, computed from the log's own events. */
  function IntentLog(log: seq<IntentRecord>, es: seq<Event>): seq<IntentRecord>
    decreases |es|
  {
    if es == [] then log
    else
      var e := es[|es| - 1];
      if IntentsReset(e).Some? then IntentsReset(e).value else IntentLog(log, es[..|es| - 1]) + CreatedIntent(e)
  }

  lemma StepIntents(v: View, e: Event)
    ensures Step(v, e).intents == if IntentsReset(e).Some? then IntentsReset(e).value else v.intents + CreatedIntent(e)
  {
  }

  /** Only log fetches and intent replies decide the intent log. */
  lemma {:induction false} ReplayIntents(v: View, es: seq<Event>)
    ensures Replay(v, es).intents == IntentLog(v.intents, es)
    decreases |es|
  {
    if es != [] {
      var init := es[..|es| - 1];
      ReplayIntents(v, init);
      StepIntents(Replay(v, init), es[|es| - 1]);
    }
  }

  lemma IntentLogSnoc(log: seq<IntentRecord>, es: seq<Event>, e: Event)
    ensures IntentLog(log, es + [e]) == if IntentsReset(e).Some? then IntentsReset(e).value else IntentLog(log, es) + CreatedIntent(e)
    ensures CreatedIntents(es + [e]) == CreatedIntents(es) + CreatedIntent(e)
  {
    assert (es + [e])[..|es|] == es;
  }

  lemma {:induction false} IntentLogAppendOnly(log: seq<IntentRecord>, es: seq<Event>)
    requires forall j :: 0 <= j < |es| ==> IntentsReset(es[j]).None?
    ensures IntentLog(log, es) == log + CreatedIntents(es)
    decreases |es|
  {
    if es != [] {
      var init, e := es[..|es| - 1], es[|es| - 1];
      assert es == init + [e];
      IntentLogAppendOnly(log, init);
      IntentLogSnoc(log, init, e);
    }
  }

  lemma {:induction false} IntentLogAfterFetch(log: seq<IntentRecord>, pre: seq<Event>, fetch: Event, post: seq<Event>)
    requires IntentsReset(fetch).Some?
    requires forall j :: 0 <= j < |post| ==> IntentsReset(post[j]).None?
    ensures IntentLog(log, pre + [fetch] + post) == IntentsReset(fetch).value + CreatedIntents(post)
    decreases |post|
  {
    if post == [] {
      assert pre + [fetch] + post == pre + [fetch];
      IntentLogSnoc(log, pre, fetch);
    } else {
      var init, e := post[..|post| - 1], post[|post| - 1];
      assert post == init + [e];
      assert pre + [fetch] + post == (pre + [fetch] + init) + [e];
      IntentLogAfterFetch(log, pre, fetch, init);
      IntentLogSnoc(log, pre + [fetch] + init, e);
      IntentLogSnoc(log, init, e);
    }
  }

  /** Without a log fetch, the log grows by exactly the created intents. */
  lemma {:induction false} IntentsAppendOnly(v: View, es: seq<Event>)
    requires forall j :: 0 <= j < |es| ==> IntentsReset(es[j]).None?
    ensures Replay(v, es).intents == v.intents + CreatedIntents(es)
  {
    ReplayIntents(v, es);
    IntentLogAppendOnly(v.intents, es);
  }

  /** The log is the last fetched one (empty if that fetch failed) followed
      by the intents created after it arrived. */
  lemma IntentsAfterLastFetch(v: View, pre: seq<Event>, fetch: Event, post: seq<Event>)
    requires IntentsReset(fetch).Some?
    requires forall j :: 0 <= j < |post| ==> IntentsReset(post[j]).None?
    ensures Replay(v, pre + [fetch] + post).intents == IntentsReset(fetch).value + CreatedIntents(post)
  {
    ReplayIntents(v, pre + [fetch] + post);
    IntentLogAfterFetch(v.intents, pre, fetch, post);
  }

  // ---------------------------------------------------------------- resync

  /** The three successful responses of one `loadData` against a server in
      state (b, t, i). */
  function ResyncResponses(b: BalanceSnapshot, t: seq<TxRecord>, i: seq<IntentRecord>): set<Event> {
    {BalanceFetched(Arrived(b)), TxsFetched(Arrived(t)), IntentsFetched(Arrived(i))}
  }

  /** Any interleaving of resync responses against an unchanged server sets
      each slice to the server's value once its response has landed, and
      touches nothing else. */
  lemma {:induction false} ResyncConverges(v: View, es: seq<Event>, b: BalanceSnapshot, t: seq<TxRecord>, i: seq<IntentRecord>)
    requires forall j :: 0 <= j < |es| ==> es[j] in ResyncResponses(b, t, i)
    ensures Replay(v, es) == v.(
      balance := if BalanceFetched(Arrived(b)) in es then Some(b) else v.balance,
      txs := if TxsFetched(Arrived(t)) in es then t else v.txs,
      intents := if IntentsFetched(Arrived(i)) in es then i else v.intents)
    decreases |es|
  {
    if es != [] {
      var init, e := es[..|es| - 1], es[|es| - 1];
      assert es == init + [e];
      assert forall j :: 0 <= j < |init| ==> init[j] in ResyncResponses(b, t, i) by {
        forall j | 0 <= j < |init| ensures init[j] in ResyncResponses(b, t, i) {
          assert init[j] == es[j];
        }
      }
      ResyncConverges(v, init, b, t, i);
      assert forall x :: x in es <==> x in init || x == e;
      assert Replay(v, es) == Step(Replay(v, init), e);
      assert e in ResyncResponses(b, t, i);
    }
  }

  /** Resyncing again against an unchanged server leaves the state as the
      first resync left it: fetched logs replace, they do not append. */
  lemma ResyncIdempotent(v: View, first: seq<Event>, again: seq<Event>, b: BalanceSnapshot, t: seq<TxRecord>, i: seq<IntentRecord>)
    requires forall j :: 0 <= j < |first| ==> first[j] in ResyncResponses(b, t, i)
    requires forall j :: 0 <= j < |again| ==> again[j] in ResyncResponses(b, t, i)
    requires forall x :: x in ResyncResponses(b, t, i) ==> x in first && x in again
    ensures Replay(Replay(v, first), again) == Replay(v, first)
    ensures Replay(v, first) == v.(balance := Some(b), txs := t, intents := i)
  {
    assert BalanceFetched(Arrived(b)) in ResyncResponses(b, t, i);
    assert TxsFetched(Arrived(t)) in ResyncResponses(b, t, i);
    assert IntentsFetched(Arrived(i)) in ResyncResponses(b, t, i);
    ResyncConverges(v, first, b, t, i);
    ResyncConverges(Replay(v, first), again, b, t, i);
  }

  // ------------------------------------------------------- transfer round trip

  /** A transfer submitted from `v` and confirmed while nothing else happened
      leaves the sender's returned balances under the submitting user, the
      log one tx longer, and every draft but the amount as it was. */
  lemma TransferRoundTrip(v: View, r: Fetch<TransferReply>)
    requires ClassifyTransfer(r).Sent?
    ensures Step(v, TransferAnswered(TransferBody(v), r)).balance
      == Some(BalanceSnapshot(v.user, r.body.senderBalance.value))
    ensures Step(v, TransferAnswered(TransferBody(v), r)).txs == v.txs + [r.body.tx]
    ensures Step(v, TransferAnswered(TransferBody(v), r)).amount == ""
    ensures Step(v, TransferAnswered(TransferBody(v), r)).to == TransferBody(v).to
    ensures Step(v, TransferAnswered(TransferBody(v), r)).token == TransferBody(v).token
  {
  }

  // ------------------------------------------------------------ independence

  datatype Slice = UserSlice | BalanceSlice | TxsSlice | IntentsSlice | DraftSlice(draft: Draft)

  /** The slices of the state an event assigns. */
  function Writes(e: Event): set<Slice> {
    match e
    case UserSelected(_) => {UserSlice}
    case DraftEdited(field, _) => {DraftSlice(field)}
    case BalanceFetched(_) => {BalanceSlice}
    case TxsFetched(_) => {TxsSlice}
    case IntentsFetched(_) => {IntentsSlice}
    case FaucetAnswered(r) => if r.Arrived? then {BalanceSlice} else {}
    case TransferAnswered(_, r) =>
      if ClassifyTransfer(r).Sent? then {BalanceSlice, TxsSlice, DraftSlice(Amount)} else {}
    case IntentAnswered(r) =>
      if ClassifyIntent(r).Created? then {IntentsSlice, DraftSlice(IntentAmount)} else {}
  }

  /** Responses that write different slices can land in either order with the
      same result: each handler reads only what it writes. */
  lemma Commute(v: View, e1: Event, e2: Event)
    requires Writes(e1) !! Writes(e2)
    ensures Step(Step(v, e1), e2) == Step(Step(v, e2), e1)
  {
    match e1
    case UserSelected(u) => CommuteUser(v, u, e2);
    case DraftEdited(f, text) => CommuteDraft(v, f, text, e2);
    case BalanceFetched(r) => CommuteBalance(v, r, e2);
    case TxsFetched(r) => CommuteTxs(v, r, e2);
    case IntentsFetched(r) => CommuteIntents(v, r, e2);
    case FaucetAnswered(r) => CommuteFaucet(v, r, e2);
    case TransferAnswered(req, r) => CommuteTransfer(v, req, r, e2);
    case IntentAnswered(r) => CommuteIntent(v, r, e2);
  }

  lemma CommuteUser(v: View, u: string, e: Event)
    requires UserSlice !in Writes(e)
    ensures Step(Step(v, UserSelected(u)), e) == Step(Step(v, e), UserSelected(u))
  {
  }

  lemma CommuteDraft(v: View, f: Draft, text: string, e: Event)
    requires DraftSlice(f) !in Writes(e)
    ensures Step(Step(v, DraftEdited(f, text)), e) == Step(Step(v, e), DraftEdited(f, text))
  {
  }

  lemma CommuteBalance(v: View, r: Fetch<BalanceSnapshot>, e: Event)
    requires BalanceSlice !in Writes(e)
    ensures Step(Step(v, BalanceFetched(r)), e) == Step(Step(v, e), BalanceFetched(r))
  {
  }

  lemma CommuteTxs(v: View, r: Fetch<seq<TxRecord>>, e: Event)
    requires TxsSlice !in Writes(e)
    ensures Step(Step(v, TxsFetched(r)), e) == Step(Step(v, e), TxsFetched(r))
  {
  }

  lemma CommuteIntents(v: View, r: Fetch<seq<IntentRecord>>, e: Event)
    requires IntentsSlice !in Writes(e)
    ensures Step(Step(v, IntentsFetched(r)), e) == Step(Step(v, e), IntentsFetched(r))
  {
  }

  lemma CommuteFaucet(v: View, r: Fetch<BalanceSnapshot>, e: Event)
    requires Writes(FaucetAnswered(r)) !! Writes(e)
    ensures Step(Step(v, FaucetAnswered(r)), e) == Step(Step(v, e), FaucetAnswered(r))
  {
  }

  lemma CommuteTransfer(v: View, req: TransferRequest, r: Fetch<TransferReply>, e: Event)
    requires Writes(TransferAnswered(req, r)) !! Writes(e)
    ensures Step(Step(v, TransferAnswered(req, r)), e) == Step(Step(v, e), TransferAnswered(req, r))
  {
  }

  lemma CommuteIntent(v: View, r: Fetch<IntentReply>, e: Event)
    requires Writes(IntentAnswered(r)) !! Writes(e)
    ensures Step(Step(v, IntentAnswered(r)), e) == Step(Step(v, e), IntentAnswered(r))
  {
  }
}

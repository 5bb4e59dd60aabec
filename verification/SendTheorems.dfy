/** What the send protocol promises, over every run and every interleaving. */
module SendTheorems {
  import opened LedgerBook
  import Entries = LedgerEntries
  import opened Outcomes
  import opened PaymentFlows
  import opened PriceRatios
  import opened SendProtocol
  import opened SendSafety

  // ----- payment flows as attempts

  /** What a fee refund credits: nothing when the fee was exceeded or met exactly. */
  function FeeRefundOf(f: Flow, actualFee: nat): Option<Amounts> {
    if f.btcAmount == 0 || f.usdAmount == 0 then None
    else
      var r := FlowReimbursement(f, actualFee);
      if r.Err? || r.value.btc == 0 then None else Some(r.value)
  }

  function LnAttempt(f: Flow, btcWallet: Option<string>): Attempt {
    Ln(f.paymentHash, f.sender.id, f.sender.currency, f.TotalAmounts(), f.RouteDetails().Some?,
      (fee: nat) => FeeRefundOf(f, fee), btcWallet)
  }

  /** Recording an intraledger payment moves the payment amounts. */
  function IntraledgerAttempt(f: Flow, hash: string, recipient: Wallet): Attempt {
    Intra(hash, f.sender.id, f.sender.currency, f.PaymentAmounts(), recipient)
  }

  /** Flows that the builder makes give attempts within the protocol's bounds, at every
      price. */
  lemma FlowsGiveBoundedAttempts(f: Flow, btcWallet: Option<string>, hash: string, recipient: Wallet)
    requires f.Sound()
    ensures Bounded(LnAttempt(f, btcWallet)) && Bounded(IntraledgerAttempt(f, hash, recipient))
  {
    var a := LnAttempt(f, btcWallet);
    forall fee | a.feeRefund(fee).Some?
      ensures 0 <= a.feeRefund(fee).value.btc <= a.total.btc && 0 <= a.feeRefund(fee).value.usd <= a.total.usd
    {
      ReimbursementWithinTotal(f, fee);
    }
  }

  /** The protocol's test on the balance is the flow's. */
  lemma BalanceTestAgrees(f: Flow, btcWallet: Option<string>, hash: string, recipient: Wallet, balance: int)
    ensures f.CheckBalanceForSend(balance, f.sender.currency).Ok? <==> balance >= LnAttempt(f, btcWallet).Needed()
    ensures f.btcFee == 0 && f.usdFee == 0 ==>
              (f.CheckBalanceForSend(balance, f.sender.currency).Ok? <==>
               balance >= IntraledgerAttempt(f, hash, recipient).Needed())
  {
  }

  /** The account is none of the bank's own. */
  ghost predicate IsUsers(ids: Entries.StaticIds, id: string) {
    id !in {Entries.LND.id, ids.bankOwner, ids.dealerBtc, ids.dealerUsd}
  }

  /** The transactions of this protocol are what the ledger's entries do to a wallet: the
      send and its reversal ... */
  lemma SendsAreEntries(ids: Entries.StaticIds, a: Attempt, j: nat, pending: bool, actor: Actor)
    requires a.Ln? && IsUsers(ids, a.wallet)
    ensures var send := Entries.Send(Entries.Account(a.wallet, a.currency), a.total, Entries.NO_FEE);
            && Entries.NetOf(Entries.PostedLegs(ids, send), a.wallet, a.currency) == SendTxn(a, j, pending).effect
            && (actor == Sender || a.currency == Btc ==>
                  var t := RefundTxns(a, j, Failed, actor)[0];
                  && t.wallet == a.wallet
                  && Entries.NetOf(Entries.PostedLegs(ids, Entries.Void(send)), a.wallet, a.currency) == t.effect)
  {
    var wallet := Entries.Account(a.wallet, a.currency);
    Entries.EndsEffects(ids, wallet, Entries.LND, a.total, Entries.NO_FEE, a.wallet, a.currency);
    Entries.VoidNet(Entries.PostedLegs(ids, Entries.Send(wallet, a.total, Entries.NO_FEE)), a.wallet, a.currency);
  }

  lemma ReceiptEffect(ids: Entries.StaticIds, wallet: Entries.Account, amounts: Amounts)
    requires IsUsers(ids, wallet.id)
    ensures Entries.NetOf(
              Entries.PostedLegs(ids, Entries.Receive(wallet, amounts, Entries.NO_FEE)), wallet.id, wallet.currency)
         == InCurrency(amounts, wallet.currency)
  {
    var total := Entries.Plus(amounts, Entries.NO_FEE);
    Entries.EndsEffects(ids, Entries.LND, wallet, total, Entries.NO_FEE, wallet.id, wallet.currency);
  }

  /** ... the refund of a fee, and of a failed payment in cents, which are receipts, the
      latter in sats ... */
  lemma RefundsAreEntries(ids: Entries.StaticIds, a: Attempt, j: nat, answer: LnStatus, actor: Actor)
    requires a.Ln? && RefundTxns(a, j, answer, actor) != [] && IsUsers(ids, RefundTxns(a, j, answer, actor)[0].wallet)
    ensures var t := RefundTxns(a, j, answer, actor)[0];
            var currency := if t.kind == UsdRefund then Btc else a.currency;
            && (t.kind == UsdRefund ==> a.btcWallet == Some(t.wallet) && t.amounts == a.total)
            && (t.kind == FeeRefund ==>
                  t.wallet == a.wallet && answer.Paid? && a.feeRefund(answer.fee) == Some(t.amounts))
            && (t.kind != Revert ==>
                  var receive := Entries.Receive(Entries.Account(t.wallet, currency), t.amounts, Entries.NO_FEE);
                  Entries.NetOf(Entries.PostedLegs(ids, receive), t.wallet, currency)
                  == t.effect)
  {
    var t := RefundTxns(a, j, answer, actor)[0];
    ReceiptEffect(ids, Entries.Account(t.wallet, if t.kind == UsdRefund then Btc else a.currency), t.amounts);
  }

  /** ... and both sides of an intraledger payment. */
  lemma TransfersAreEntries(ids: Entries.StaticIds, a: Attempt, j: nat, w: string, c: Currency)
    requires a.Intra? && a.wallet != a.recipient.id && w in {a.wallet, a.recipient.id}
    requires w !in {ids.bankOwner, ids.dealerBtc, ids.dealerUsd}
    requires c == if w == a.wallet then a.currency else a.recipient.currency
    ensures var transfer := Entries.Intraledger(
              Entries.Account(a.wallet, a.currency), Entries.Account(a.recipient.id, a.recipient.currency), a.total);
            Entries.NetOf(Entries.PostedLegs(ids, transfer), w, c) == Balance(IntraledgerTxns(a, j), w)
  {
    var t := IntraledgerTxns(a, j);
    AppendTwo([], t[0], t[1]);
    assert [] + [t[0], t[1]] == t;
    Entries.EndsEffects(
      ids, Entries.Account(a.wallet, a.currency), Entries.Account(a.recipient.id, a.recipient.currency),
      a.total, Entries.NO_FEE, w, c);
  }

  // ----- at most one refund, by whoever settled

  /** In every state of every run, the ledger holds at most one send and at most one
      refund of an attempt, and the refund was made by the process whose settling
      cleared the pending mark. The other attempts may be anything, as long as none of
      them pays the same invoice. */
  lemma AtMostOneRefund(c: Attempts, run: seq<State>, i: nat, j: nat)
    requires IsRun(c, run) && i < |run| && j in c && c[j].Ln? && PrivateHash(c, j)
    ensures var s := run[i];
            var entries := Of(s.ledger, j);
            && |entries| <= 2
            && (entries != [] ==> entries[0].kind == LnSend && entries[0].effect == -c[j].Needed())
            && (|entries| == 2 ==> !entries[0].pending && entries[1].kind in {Revert, FeeRefund, UsdRefund})
            && (|entries| == 2 <==> j in s.refundedBy)
            && (j in s.refundedBy ==> j in s.settledBy && s.settledBy[j].actor == s.refundedBy[j])
            && (j in s.settledBy <==> entries != [] && !entries[0].pending)
  {
    RunKeepsAttempt(c, run, i, j);
    var l := LocalOf(run[i], j);
    assert Shape(c[j], j, l);
    if l.settledBy.Some? { RefundShape(c[j], j, l.settledBy.value.answer, l.settledBy.value.actor); }
  }

  // ----- conservation

  /** What an attempt has cost so far, in both currencies. */
  function NetTaken(entries: seq<Txn>): Amounts {
    if entries == [] then Amounts(0, 0)
    else
      var rest, t := NetTaken(entries[..|entries| - 1]), entries[|entries| - 1];
      if t.kind == LnSend then Amounts(rest.btc + t.amounts.btc, rest.usd + t.amounts.usd)
      else Amounts(rest.btc - t.amounts.btc, rest.usd - t.amounts.usd)
  }

  lemma NetOfSendAndRefund(a: Attempt, j: nat, pending: bool, refund: seq<Txn>)
    requires |refund| <= 1 && (refund != [] ==> refund[0].kind != LnSend)
    ensures NetTaken([SendTxn(a, j, pending)] + refund)
         == if refund == [] then a.total
            else Amounts(a.total.btc - refund[0].amounts.btc, a.total.usd - refund[0].amounts.usd)
  {
    var send := [SendTxn(a, j, pending)];
    assert send[..0] == [];
    if refund == [] {
      assert send + refund == send;
    } else {
      assert (send + refund)[..1] == send && (send + refund)[1] == refund[0];
      assert NetTaken(send) == a.total;
    }
  }

  /** The entries of an attempt are its send and the refund that was made, if any. */
  lemma EntriesOf(c: Attempts, s: State, j: nat) returns (refund: seq<Txn>)
    requires j in c && c[j].Ln? && Shape(c[j], j, LocalOf(s, j)) && Of(s.ledger, j) != []
    ensures refund == if j in s.refundedBy && j in s.settledBy
                      then RefundTxns(c[j], j, s.settledBy[j].answer, s.settledBy[j].actor) else []
    ensures |refund| <= 1 && (refund != [] ==> refund[0].kind != LnSend)
    ensures Of(s.ledger, j) == [SendTxn(c[j], j, j !in s.settledBy)] + refund
  {
    if j in s.refundedBy && j in s.settledBy {
      refund := RefundTxns(c[j], j, s.settledBy[j].answer, s.settledBy[j].actor);
      RefundShape(c[j], j, s.settledBy[j].answer, s.settledBy[j].actor);
    } else {
      refund := [];
    }
  }

  /** At every moment an attempt has taken between nothing and its recorded total. */
  lemma NetTakenWithinTotal(c: Attempts, run: seq<State>, i: nat, j: nat)
    requires IsRun(c, run) && i < |run| && j in c && c[j].Ln? && PrivateHash(c, j) && Bounded(c[j])
    ensures var net := NetTaken(Of(run[i].ledger, j));
            0 <= net.btc <= c[j].total.btc && 0 <= net.usd <= c[j].total.usd
  {
    RunKeepsAttempt(c, run, i, j);
    var s := run[i];
    if Of(s.ledger, j) != [] {
      var refund := EntriesOf(c, s, j);
      if refund != [] { RefundWithinSend(c[j], j, s.settledBy[j].answer, s.settledBy[j].actor); }
      NetOfSendAndRefund(c[j], j, j !in s.settledBy, refund);
    }
  }

  ghost predicate ActorDone(s: State, j: nat, actor: Actor) {
    match actor
    case Sender => s.Pc(j).Done?
    case Updater(u) => s.Up(u).Finished?
  }

  /** The process that settled the attempt is done, and did not stop at an error between
      settling and refunding. */
  ghost predicate Over(s: State, j: nat) {
    j in s.settledBy && j !in s.faults && ActorDone(s, j, s.settledBy[j].actor)
  }

  /** What a payment should cost that ended in a certain way. */
  function Owed(a: Attempt, end: LnStatus): Amounts
    requires a.Ln?
  {
    match end
    case InFlight => a.total
    case Failed => Amounts(0, 0)
    case Paid(fee) =>
      if a.feeKnown || a.feeRefund(fee).None? then a.total
      else Amounts(a.total.btc - a.feeRefund(fee).value.btc, a.total.usd - a.feeRefund(fee).value.usd)
  }

  /** What it does cost: an updater keeps all of a failed payment that it cannot refund. */
  function Kept(a: Attempt, settler: Settler): Amounts
    requires a.Ln?
  {
    if settler.answer == Failed && settler.actor.Updater? && !Refundable(a) then a.total else Owed(a, settler.answer)
  }

  /** A settled attempt whose refund was made, or had nothing to give or nowhere to give
      it, has cost what its settler keeps. */
  lemma SettledCosts(c: Attempts, s: State, j: nat)
    requires j in c && c[j].Ln? && Shape(c[j], j, LocalOf(s, j)) && j in s.settledBy
    requires j in s.refundedBy || RefundTxns(c[j], j, s.settledBy[j].answer, s.settledBy[j].actor) == []
    ensures NetTaken(Of(s.ledger, j)) == Kept(c[j], s.settledBy[j])
  {
    var refund := EntriesOf(c, s, j);
    NetOfSendAndRefund(c[j], j, false, refund);
  }

  /** Once an attempt is over, the sender has paid what is owed for the end that its
      settler was told, except for cents that could not be refunded. */
  lemma SettledCostsAsTold(c: Attempts, run: seq<State>, i: nat, j: nat)
    requires IsRun(c, run) && i < |run| && j in c && c[j].Ln? && PrivateHash(c, j) && Over(run[i], j)
    ensures NetTaken(Of(run[i].ledger, j)) == Kept(c[j], run[i].settledBy[j])
    ensures Told(run[i].settledBy[j], run[i].Status(j))
  {
    RunKeepsAttempt(c, run, i, j);
    assert LocalInv(c[j], j, LocalOf(run[i], j)) && KeepsPromise(c, run[i], j);
    SettledCosts(c, run[i], j);
  }

  /** A paid payment that is over costs what it should exactly when its settler was told
      that it is paid, and a failed one exactly when its sender settled it or there is a
      wallet to refund it to; unless there is nothing to lose. */
  lemma CostsWhatItShouldIff(c: Attempts, run: seq<State>, i: nat, j: nat)
    requires IsRun(c, run) && i < |run| && j in c && c[j].Ln? && PrivateHash(c, j)
    requires Over(run[i], j) && run[i].Status(j) != InFlight
    ensures var status, settler := run[i].Status(j), run[i].settledBy[j];
            NetTaken(Of(run[i].ledger, j)) == Owed(c[j], status)
            <==> if status == Failed then settler.actor == Sender || Refundable(c[j]) || c[j].total == Amounts(0, 0)
                 else settler.answer == status || Owed(c[j], status) == Amounts(0, 0)
    ensures run[i].Status(j).Paid? && run[i].settledBy[j].actor.Updater? ==>
              NetTaken(Of(run[i].ledger, j)) == Owed(c[j], run[i].Status(j))
  {
    SettledCostsAsTold(c, run, i, j);
  }

  /** No payment is forgotten but those that cannot be refunded: one that failed is
      pending, so that an updater finds it, or whoever settled it is still at work, or
      nothing of it has been kept, or it is in cents, an updater settled it and the
      account has no bitcoin wallet. */
  lemma FailedIsNeverForgotten(c: Attempts, run: seq<State>, i: nat, j: nat)
    requires IsRun(c, run) && i < |run| && j in c && c[j].Ln? && PrivateHash(c, j)
    requires run[i].Status(j) == Failed && j !in run[i].faults
    ensures var s := run[i];
            || SendTxn(c[j], j, true) in s.ledger
            || (j in s.settledBy && !ActorDone(s, j, s.settledBy[j].actor))
            || NetTaken(Of(s.ledger, j)) == Amounts(0, 0)
            || (!Refundable(c[j]) && j in s.settledBy && s.settledBy[j].actor.Updater?
                && NetTaken(Of(s.ledger, j)) == c[j].total)
  {
    var s := run[i];
    RunKeepsAttempt(c, run, i, j);
    assert Shape(c[j], j, LocalOf(s, j));
    if Over(s, j) {
      SettledCostsAsTold(c, run, i, j);
    } else if j !in s.settledBy {
      assert Of(s.ledger, j) == [SendTxn(c[j], j, true)];
      OfComesFrom(s.ledger, j, Of(s.ledger, j)[0]);
    }
  }

  /** For a payment flow that is paid and over: its sender has paid the payment and the
      prepaid fee if the route was known, and else the smaller of actual and prepaid fee,
      in sats, exactly when the settler was told so. */
  lemma PaidFlowCostsItsFeeIff(c: Attempts, run: seq<State>, i: nat, j: nat, f: Flow, btcWallet: Option<string>)
    requires IsRun(c, run) && i < |run| && j in c && PrivateHash(c, j) && c[j] == LnAttempt(f, btcWallet) && f.Sound()
    requires Over(run[i], j) && run[i].Status(j).Paid?
    ensures var net, fee := NetTaken(Of(run[i].ledger, j)), run[i].Status(j).fee;
            net.btc == f.btcAmount + (if f.RouteDetails().Some? || fee > f.btcFee then f.btcFee else fee)
            <==> run[i].settledBy[j].answer == run[i].Status(j)
  {
    SettledCostsAsTold(c, run, i, j);
    var fee := run[i].Status(j).fee;
    ReimbursementWithinTotal(f, fee);
    assert c[j].feeRefund(fee) == FeeRefundOf(f, fee);
  }

  /** In cents it has then cost at most the payment and its prepaid fee, and less than the
      payment exactly when a fee refund above the prepaid fee was due, which needs a price
      above a cent a sat. */
  lemma PaidFlowCostsInCents(c: Attempts, run: seq<State>, i: nat, j: nat, f: Flow, btcWallet: Option<string>)
    requires IsRun(c, run) && i < |run| && j in c && PrivateHash(c, j) && c[j] == LnAttempt(f, btcWallet) && f.Sound()
    requires Over(run[i], j) && run[i].Status(j).Paid? && run[i].settledBy[j].answer == run[i].Status(j)
    ensures var net, fee := NetTaken(Of(run[i].ledger, j)), run[i].Status(j).fee;
            && 0 <= net.usd <= f.usdAmount + f.usdFee
            && (net.usd < f.usdAmount <==>
                  && f.RouteDetails().None? && !f.FeesFromSats() && fee == 0 < f.btcFee
                  && 2 * (f.btcFee * f.usdAmount - f.usdFee * f.btcAmount) > f.btcAmount)
            && (f.WithinParity() ==> f.usdAmount <= net.usd)
  {
    SettledCostsAsTold(c, run, i, j);
    var fee := run[i].Status(j).fee;
    ReimbursementWithinTotal(f, fee);
    if fee <= f.btcFee { ReimbursementExceedsIff(f, fee); }
    if f.WithinParity() { ReimbursementWithinPrepaid(f, fee); }
    assert c[j].feeRefund(fee) == FeeRefundOf(f, fee);
  }

  // ----- whose money it is

  /** What an attempt has cost is what its wallet has paid, and no other wallet is touched.
      The exception is a failed payment in cents that an updater ended: the wallet has
      paid, and the bitcoin wallet of the account has got the sats. */
  lemma WalletPaysNet(c: Attempts, run: seq<State>, i: nat, j: nat, w: string)
    requires IsRun(c, run) && i < |run| && j in c && c[j].Ln? && PrivateHash(c, j)
    ensures var entries, a := Of(run[i].ledger, j), c[j];
            if |entries| == 2 && entries[1].kind == UsdRefund
            then && a.currency == Usd && a.btcWallet.Some? && run[i].Status(j) == Failed
                 && Balance(entries, w) == (if w == a.wallet then -a.total.usd else 0)
                                           + (if w == a.btcWallet.value then a.total.btc else 0)
            else Balance(entries, w) == if w == a.wallet then -InCurrency(NetTaken(entries), a.currency) else 0
  {
    RunKeepsAttempt(c, run, i, j);
    var s := run[i];
    if Of(s.ledger, j) != [] {
      var refund := EntriesOf(c, s, j);
      NetOfSendAndRefund(c[j], j, j !in s.settledBy, refund);
      BalanceOfSendAndRefund(c[j], j, j !in s.settledBy, refund, w);
    }
  }

  lemma BalanceOfSendAndRefund(a: Attempt, j: nat, pending: bool, refund: seq<Txn>, w: string)
    requires |refund| <= 1
    ensures Balance([SendTxn(a, j, pending)] + refund, w)
         == (if w == a.wallet then -a.Needed() else 0)
           + (if refund != [] && refund[0].wallet == w then refund[0].effect else 0)
  {
    var send := [SendTxn(a, j, pending)];
    assert send[..0] == [];
    assert Balance(send, w) == if w == a.wallet then -a.Needed() else 0;
    if refund == [] {
      assert send + refund == send;
    } else {
      assert (send + refund)[..1] == send && (send + refund)[1] == refund[0];
    }
  }

  // ----- intraledger payments

  /** Nothing is recorded for an intraledger attempt, or both of its sides. */
  ghost predicate BothSidesOrNone(c: Attempts, s: State, j: nat)
    requires j in c && c[j].Intra?
  {
    && (BeforeRecord(s.Pc(j)) || s.Pc(j).Done?)
    && (Of(s.ledger, j) == [] || (s.Pc(j).Done? && Of(s.ledger, j) == IntraledgerTxns(c[j], j)))
  }

  lemma SettleNothing(l: seq<Txn>, hash: string)
    requires forall t :: t in l ==> !t.pending
    ensures Settle(l, hash) == l
  {
  }

  lemma SettleLeavesIntra(l: seq<Txn>, hash: string, j: nat)
    requires forall t :: t in Of(l, j) ==> !t.pending
    ensures Of(Settle(l, hash), j) == Of(l, j)
  {
    SettleOf(l, hash, j);
    SettleNothing(Of(l, j), hash);
  }

  lemma SenderLeavesIntra(c: Attempts, s: State, s': State, k: nat, act: SenderAct, j: nat)
    requires SenderNext(c, s, s', k, act) && j != k && (forall t :: t in Of(s.ledger, j) ==> !t.pending)
    ensures Of(s'.ledger, j) == Of(s.ledger, j)
  {
    match act {
      case Record => RecordAppends(c[k], k, s.ledger, j);
      case SettlePending => SettleLeavesIntra(s.ledger, c[k].hash, j);
      case Refund => RefundLeavesOthers(c[k], k, s.Pc(k).answer, Sender, s.ledger, j);
      case _ =>
    }
  }

  lemma UpdaterLeavesIntra(c: Attempts, s: State, s': State, u: nat, act: UpdaterAct, j: nat)
    requires UpdaterNext(c, s, s', u, act) && j in c && c[j].Intra? && (forall t :: t in Of(s.ledger, j) ==> !t.pending)
    ensures Of(s'.ledger, j) == Of(s.ledger, j)
  {
    match act {
      case UpdaterSettle => SettleLeavesIntra(s.ledger, c[s.Up(u).j].hash, j);
      case UpdaterRefund => RefundLeavesOthers(c[s.Up(u).j], s.Up(u).j, s.Up(u).status, Updater(u), s.ledger, j);
      case _ =>
    }
  }

  lemma RecordsBothSides(c: Attempts, s: State, s': State, j: nat)
    requires SenderNext(c, s, s', j, Record) && c[j].Intra? && Of(s.ledger, j) == []
    ensures Of(s'.ledger, j) == [] || Of(s'.ledger, j) == IntraledgerTxns(c[j], j)
    ensures s'.Pc(j).Done?
  {
    BothSides(c[j], j, s.ledger);
  }

  lemma BothSides(a: Attempt, j: nat, l: seq<Txn>)
    requires a.Intra?
    ensures Of(l + IntraledgerTxns(a, j), j) == Of(l, j) + IntraledgerTxns(a, j)
  {
    var t := IntraledgerTxns(a, j);
    AppendOne(l, t[0]);
    AppendOne(l + [t[0]], t[1]);
    assert l + t == l + [t[0]] + [t[1]];
  }

  lemma SenderKeepsBothSides(c: Attempts, s: State, s': State, j: nat, act: SenderAct)
    requires SenderNext(c, s, s', j, act) && c[j].Intra? && BothSidesOrNone(c, s, j)
    ensures BothSidesOrNone(c, s', j)
  {
    SenderKeepsIntra(c, s, s', j, act);
    if act.Record? {
      RecordsBothSides(c, s, s', j);
    } else {
      assert !act.SettlePending? && !act.Refund?;
      ReaderFrame(c, s, s', j, act);
      OnlyRunningAct(c, s, s', j, act);
    }
  }

  lemma OnlyRunningAct(c: Attempts, s: State, s': State, j: nat, act: SenderAct)
    requires SenderNext(c, s, s', j, act)
    ensures !s.Pc(j).Done?
  {
  }

  lemma StepKeepsBothSides(c: Attempts, s: State, s': State, step: Step, j: nat)
    requires NextStep(c, s, s', step) && j in c && c[j].Intra? && BothSidesOrNone(c, s, j)
    ensures BothSidesOrNone(c, s', j)
  {
    match step {
      case BySender(k, act) =>
        if k == j {
          SenderKeepsBothSides(c, s, s', j, act);
        } else {
          SenderPcs(c, s, s', k, act, j);
          SenderLeavesIntra(c, s, s', k, act, j);
        }
      case ByUpdater(u, act) =>
        UpdaterLeavesSenders(c, s, s', u, act);
        UpdaterLeavesIntra(c, s, s', u, act, j);
      case Deposit(w, amount, k) => AppendOne(s.ledger, DepositTxn(w, amount, k));
      case _ =>
    }
  }

  /** Intraledger payments move money: the debit of the sender and the credit of the
      recipient, of the same payment, are on the ledger together and once, or not at all,
      whatever else is paid under the same hash. */
  lemma {:induction false} IntraledgerMovesMoney(c: Attempts, run: seq<State>, i: nat, j: nat, w: string)
    requires IsRun(c, run) && i < |run| && j in c && c[j].Intra?
    ensures BothSidesOrNone(c, run[i], j)
    ensures var entries, a := Of(run[i].ledger, j), c[j];
            || entries == []
            || Balance(entries, w) == (if w == a.wallet then -InCurrency(a.total, a.currency) else 0)
                                      + (if w == a.recipient.id then InCurrency(a.total, a.recipient.currency) else 0)
  {
    if i > 0 {
      IntraledgerMovesMoney(c, run, i - 1, j, w);
      assert StepsAt(c, run, i - 1);
      var step :| NextStep(c, run[i - 1], run[i], step);
      StepKeepsBothSides(c, run[i - 1], run[i], step, j);
    }
    var t := IntraledgerTxns(c[j], j);
    AppendTwo([], t[0], t[1]);
    assert [] + [t[0], t[1]] == t;
  }

  // ----- balances

  /** No wallet is ever overdrawn, whatever is sent concurrently, whatever senders are told,
      whenever locks are lost, and even when attempts share a payment hash. */
  lemma NoWalletOverdrawn(c: Attempts, run: seq<State>, i: nat, w: string)
    requires NoneDebits(c) && IsRun(c, run) && i < |run|
    ensures Balance(run[i].ledger, w) >= 0
  {
    RunKeepsWallets(c, run, i);
  }
}

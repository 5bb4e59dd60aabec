/** The sender and the updater of pending payments as the programs they are, each
    running alone. `Bank.ledger` is the ledger they write to; what other services
    answer is passed in. */
module SendLightning {
  import opened LedgerBook
  import opened PaymentFlows
  import opened SendProtocol
  import opened SendSafety

  datatype Answer = TimedOut | Succeeded(fee: nat) | Rejected | AnsweredAlreadyPaid

  /** What goes wrong, or does not, during one call. */
  datatype Faults = Faults(lockLost: bool, record: bool, settle: bool, refund: bool)

  datatype SendResult =
    | InTransit
    | Insufficient
    | LockExpired
    | ServiceFailure
    | Pending
    | Success
    | PaymentFailed
    | AlreadyPaid

  lemma SettleTail(l: seq<Txn>, t: Txn)
    requires !HasPending(l, t.hash)
    ensures Settle(l + [t], t.hash) == l + [t.(pending := false)]
  {
    assert (l + [t])[..|l|] == l;
    assert Settle(l, t.hash) == l;
  }

  lemma NothingPendingStays(l: seq<Txn>, t: Txn)
    requires t.pending
    ensures HasPending(l + [t], t.hash)
  {
    assert (l + [t])[|l|] == t;
  }

  /** What a call leaves in the ledger: the send and at most one refund of this
      attempt, depending on how far the call came. */
  ghost predicate SendEnds(l: seq<Txn>, l': seq<Txn>, a: Attempt, j: nat, answer: Answer, r: SendResult)
    requires a.Ln?
  {
    match r
    case InTransit => l' == l
    case Insufficient => l' == l
    case LockExpired => l' == l
    case Pending => answer.TimedOut? && l' == l + [SendTxn(a, j, true)]
    case Success => answer.Succeeded? && l' == l + [SendTxn(a, j, false)] + RefundTxns(a, j, Paid(answer.fee), Sender)
    case PaymentFailed => answer.Rejected? && l' == l + [SendTxn(a, j, false)] + RefundTxns(a, j, Failed, Sender)
    case AlreadyPaid =>
      answer.AnsweredAlreadyPaid? && l' == l + [SendTxn(a, j, false)] + RefundTxns(a, j, Failed, Sender)
    case ServiceFailure => l' == l || l' == l + [SendTxn(a, j, true)] || l' == l + [SendTxn(a, j, false)]
  }

  /** However a call ends, every wallet stays solvent, and a payment that failed has
      changed no balance at all. */
  lemma SendKeepsSolvent(l: seq<Txn>, l': seq<Txn>, a: Attempt, j: nat, answer: Answer, r: SendResult, w: string)
    requires a.Ln? && NeverDebits(a) && SendEnds(l, l', a, j, answer, r)
    requires Balance(l, w) >= 0 && (l' != l ==> Balance(l, a.wallet) >= a.Needed())
    ensures Balance(l', w) >= 0
    ensures r.PaymentFailed? || r.AlreadyPaid? ==> Balance(l', w) == Balance(l, w)
  {
    var settled := SendTxn(a, j, false);
    AppendOne(l, SendTxn(a, j, true));
    AppendOne(l, settled);
    if r.Success? {
      RefundShape(a, j, Paid(answer.fee), Sender);
      RefundCredits(a, j, Paid(answer.fee), Sender);
      AppendCredits(l + [settled], RefundTxns(a, j, Paid(answer.fee), Sender));
    } else if r.PaymentFailed? || r.AlreadyPaid? {
      AppendOne(l + [settled], RefundTxns(a, j, Failed, Sender)[0]);
    }
  }

  /** What a call has cost by its end: nothing if it did not get to the payment or the
      payment failed, the whole while that is pending, and after a success the whole less
      the refund that is due for the actual fee, unless the fee was known. */
  lemma SendCosts(l: seq<Txn>, l': seq<Txn>, a: Attempt, j: nat, answer: Answer, r: SendResult, w: string)
    requires a.Ln? && SendEnds(l, l', a, j, answer, r)
    ensures var gained := Balance(l', w) - Balance(l, w);
            if w != a.wallet || r.InTransit? || r.Insufficient? || r.LockExpired? || r.PaymentFailed? || r.AlreadyPaid?
            then gained == 0
            else if r.Pending? then gained == -a.Needed()
            else if r.ServiceFailure? then gained == 0 || gained == -a.Needed()
            else if a.feeKnown || a.feeRefund(answer.fee).None? then gained == -a.Needed()
            else gained == InCurrency(a.feeRefund(answer.fee).value, a.currency) - a.Needed()
  {
    var settled := SendTxn(a, j, false);
    AppendOne(l, SendTxn(a, j, true));
    AppendOne(l, settled);
    if r.Success? && RefundTxns(a, j, Paid(answer.fee), Sender) != [] {
      AppendOne(l + [settled], RefundTxns(a, j, Paid(answer.fee), Sender)[0]);
    } else if r.Success? {
      assert l + [settled] + [] == l + [settled];
    } else if r.PaymentFailed? || r.AlreadyPaid? {
      AppendOne(l + [settled], RefundTxns(a, j, Failed, Sender)[0]);
    }
  }

  ghost predicate IsPending(c: Attempts, l: seq<Txn>, j: nat)
    requires j in c && c[j].Ln?
  {
    Of(l, j) == [SendTxn(c[j], j, true)]
  }

  lemma UpdateOwned(c: Attempts, l: seq<Txn>, j: nat, status: LnStatus)
    requires LedgerOwned(c, l) && j in c && c[j].Ln?
    ensures LedgerOwned(c, Settle(l, c[j].hash) + RefundTxns(c[j], j, status, Updater(0)))
  {
    SettleKeepsOwnership(c, l, c[j].hash);
    RefundKeepsOwnership(c, Settle(l, c[j].hash), j, status, Updater(0));
  }

  /** Settling and refunding attempt j, as the updater does it, touches no other attempt. */
  lemma UpdateEffect(c: Attempts, l: seq<Txn>, j: nat, status: LnStatus, k: nat)
    requires LedgerOwned(c, l) && j in c && c[j].Ln? && SoleUser(c, j) && k in c && IsPending(c, l, j)
    ensures Of(Settle(l, c[j].hash) + RefundTxns(c[j], j, status, Updater(0)), k)
         == if k == j then Ended(c, j, status) else Of(l, k)
  {
    SettleEntries(c, l, c[j].hash, k);
    SettleOne(c[j], j);
    RefundShape(c[j], j, status, Updater(0));
    AppendMoves(Settle(l, c[j].hash), RefundTxns(c[j], j, status, Updater(0)), k);
    assert Ended(c, j, status) == [SendTxn(c[j], j, false)] + RefundTxns(c[j], j, status, Updater(0));
  }

  /** What an updater makes of a pending attempt that ended in some way. */
  ghost function Ended(c: Attempts, j: nat, status: LnStatus): seq<Txn>
    requires j in c && c[j].Ln?
  {
    [SendTxn(c[j], j, false)] + RefundTxns(c[j], j, status, Updater(0))
  }

  // ----- what updating does to the ledger

  /** One pending payment: nothing, if its fate is unknown, it is recorded, or nothing is
      pending any more; or else it is settled and refunded. */
  function UpdateOne(c: Attempts, l: seq<Txn>, j: nat, lookup: LnStatus): seq<Txn>
    requires j in c && c[j].Ln?
  {
    if lookup == InFlight || IsRecorded(l, c[j].hash) || !HasPending(l, c[j].hash) then l
    else Settle(l, c[j].hash) + Granted(Settle(l, c[j].hash), RefundTxns(c[j], j, lookup, Updater(0)))
  }

  ghost predicate Listable(c: Attempts, list: seq<nat>, lookups: map<nat, LnStatus>) {
    forall i :: 0 <= i < |list| ==> list[i] in c && c[list[i]].Ln? && list[i] in lookups
  }

  function UpdateAll(c: Attempts, l: seq<Txn>, list: seq<nat>, lookups: map<nat, LnStatus>): seq<Txn>
    requires Listable(c, list, lookups)
  {
    if list == [] then l
    else
      var j := list[|list| - 1];
      UpdateOne(c, UpdateAll(c, l, list[..|list| - 1], lookups), j, lookups[j])
  }

  /** A payment is pending, or it is settled, by whomever, refunded or not. */
  ghost predicate Updatable(c: Attempts, l: seq<Txn>, j: nat)
    requires j in c && c[j].Ln?
  {
    SoleUser(c, j) && (IsPending(c, l, j) || IsSettled(l, j))
  }

  lemma EndedIsSettled(c: Attempts, l: seq<Txn>, j: nat, lookup: LnStatus)
    requires j in c && c[j].Ln? && Of(l, j) == Ended(c, j, lookup)
    ensures IsSettled(l, j)
  {
    assert SendTxn(c[j], j, false) in Ended(c, j, lookup);
  }

  lemma PendingIsListed(c: Attempts, l: seq<Txn>, j: nat)
    requires LedgerOwned(c, l) && j in c && c[j].Ln? && IsPending(c, l, j)
    ensures HasPending(l, c[j].hash) && !IsSettled(l, j)
  {
    var t := Of(l, j)[0];
    OfComesFrom(l, j, t);
  }

  /** Updating a payment ends it if it is pending and its fate is known, and changes
      nothing else, at all or of the other attempts. */
  lemma UpdateOneEffect(c: Attempts, l: seq<Txn>, j: nat, lookup: LnStatus, k: nat)
    requires LedgerOwned(c, l) && j in c && c[j].Ln? && Updatable(c, l, j) && k in c
    ensures var now := UpdateOne(c, l, j, lookup);
            && LedgerOwned(c, now)
            && Of(now, k) == if k == j && lookup != InFlight && IsPending(c, l, j) then Ended(c, j, lookup)
                             else Of(l, k)
  {
    if IsPending(c, l, j) {
      PendingIsUpdated(c, l, j, lookup);
      if lookup != InFlight {
        UpdateEffect(c, l, j, lookup, k);
        UpdateOwned(c, l, j, lookup);
      }
    } else {
      RecordedIffSettled(c, l, j);
    }
  }

  lemma PendingIsUpdated(c: Attempts, l: seq<Txn>, j: nat, lookup: LnStatus)
    requires LedgerOwned(c, l) && j in c && c[j].Ln? && SoleUser(c, j) && IsPending(c, l, j)
    ensures UpdateOne(c, l, j, lookup)
         == if lookup == InFlight then l else Settle(l, c[j].hash) + RefundTxns(c[j], j, lookup, Updater(0))
  {
    RecordedIffSettled(c, l, j);
    PendingIsListed(c, l, j);
    SettleEntries(c, l, c[j].hash, j);
    SettleOne(c[j], j);
    UnvoidedIsGranted(c[j], j, lookup, Updater(0), Settle(l, c[j].hash));
  }

  /** Working through a list that was read earlier, on which some payments may have ended
      since, and which may name a payment more than once: what is still pending and has
      come to an end is settled and refunded once, and everything else is left alone. */
  lemma {:induction false} UpdateAllEffect(
    c: Attempts, l: seq<Txn>, list: seq<nat>, lookups: map<nat, LnStatus>, k: nat)
    requires LedgerOwned(c, l) && Listable(c, list, lookups) && k in c
    requires forall i :: 0 <= i < |list| ==> Updatable(c, l, list[i])
    ensures var now := UpdateAll(c, l, list, lookups);
            && LedgerOwned(c, now)
            && Of(now, k) == if k in list && lookups[k] != InFlight && IsPending(c, l, k) then Ended(c, k, lookups[k])
                             else Of(l, k)
  {
    if list != [] {
      var front, j := list[..|list| - 1], list[|list| - 1];
      var mid := UpdateAll(c, l, front, lookups);
      assert list == front + [j];
      UpdateAllEffect(c, l, front, lookups, j);
      assert Updatable(c, l, j);
      StaysUpdatable(c, l, mid, j, lookups[j]);
      if k != j { UpdateAllEffect(c, l, front, lookups, k); }
      UpdateOneEffect(c, mid, j, lookups[j], k);
    }
  }

  lemma StaysUpdatable(c: Attempts, l: seq<Txn>, now: seq<Txn>, j: nat, lookup: LnStatus)
    requires LedgerOwned(c, l) && j in c && c[j].Ln? && Updatable(c, l, j)
    requires Of(now, j) == Of(l, j) || Of(now, j) == Ended(c, j, lookup)
    ensures Updatable(c, now, j) && (Of(now, j) == Ended(c, j, lookup) ==> !IsPending(c, now, j))
  {
    if Of(now, j) == Ended(c, j, lookup) {
      EndedIsSettled(c, now, j, lookup);
      assert Ended(c, j, lookup)[0] == SendTxn(c[j], j, false);
    }
  }

  class Bank {
    var ledger: seq<Txn>

    constructor ()
      ensures ledger == []
    {
      ledger := [];
    }

    /** Pay an external invoice; j is the journal that recording the debit creates. */
    method ExecutePaymentViaLn(a: Attempt, j: nat, answer: Answer, faults: Faults) returns (r: SendResult)
      requires a.Ln?
      modifies this
      ensures SendEnds(old(ledger), ledger, a, j, answer, r)
      ensures r.InTransit? <==> HasPending(old(ledger), a.hash)
      ensures r.Insufficient? <==> !HasPending(old(ledger), a.hash) && Balance(old(ledger), a.wallet) < a.Needed()
      ensures r.ServiceFailure? ==> faults.record || faults.settle || faults.refund
      ensures ledger != old(ledger) ==> Balance(old(ledger), a.wallet) >= a.Needed() && !faults.lockLost
      ensures && !HasPending(old(ledger), a.hash) && Balance(old(ledger), a.wallet) >= a.Needed()
              && faults == Faults(false, false, false, false) ==>
                r == match answer
                     case TimedOut => Pending
                     case Succeeded(_) => Success
                     case Rejected => PaymentFailed
                     case AnsweredAlreadyPaid => AlreadyPaid
    {
      if HasPending(ledger, a.hash) { return InTransit; }
      if Balance(ledger, a.wallet) < a.Needed() { return Insufficient; }
      if faults.lockLost { return LockExpired; }
      if faults.record { return ServiceFailure; }
      r := PayAndSettle(a, j, answer, faults);
    }

    /** From the recorded debit to the end of the call. */
    method PayAndSettle(a: Attempt, j: nat, answer: Answer, faults: Faults) returns (r: SendResult)
      requires a.Ln? && !HasPending(ledger, a.hash)
      modifies this
      ensures SendEnds(old(ledger), ledger, a, j, answer, r)
      ensures r.Pending? || r.Success? || r.PaymentFailed? || r.AlreadyPaid?
              || (r.ServiceFailure? && (faults.settle || faults.refund))
      ensures !faults.settle && !faults.refund ==>
                r == match answer
                     case TimedOut => Pending
                     case Succeeded(_) => Success
                     case Rejected => PaymentFailed
                     case AnsweredAlreadyPaid => AlreadyPaid
    {
      ghost var before := ledger;
      ledger := ledger + [SendTxn(a, j, true)];
      if answer.TimedOut? { return Pending; }
      if faults.settle { return ServiceFailure; }
      NothingPendingStays(before, SendTxn(a, j, true));
      SettleTail(before, SendTxn(a, j, true));
      assert HasPending(ledger, a.hash);
      ledger := Settle(ledger, a.hash);
      assert ledger == before + [SendTxn(a, j, false)];
      if faults.refund { return ServiceFailure; }
      if answer.Succeeded? {
        ledger := ledger + RefundTxns(a, j, Paid(answer.fee), Sender);
        return Success;
      }
      ledger := ledger + RefundTxns(a, j, Failed, Sender);
      r := if answer.AnsweredAlreadyPaid? then AlreadyPaid else PaymentFailed;
    }

    /** End one pending payment, if the Lightning node knows its fate and nobody else
        ended it since it was listed. A failed payment in cents of an account without a
        bitcoin wallet is settled but cannot be refunded, and this is reported. */
    method UpdatePendingPayment(c: Attempts, j: nat, lookup: LnStatus) returns (ok: bool)
      requires j in c && c[j].Ln?
      modifies this
      ensures ledger == UpdateOne(c, old(ledger), j, lookup)
      ensures ok <==>
        || lookup == InFlight || IsRecorded(old(ledger), c[j].hash)
        || (&& HasPending(old(ledger), c[j].hash)
            && (lookup == Failed ==> if c[j].currency == Btc then !Voided(old(ledger), j) else c[j].btcWallet.Some?))
    {
      if lookup == InFlight { return true; }
      if IsRecorded(ledger, c[j].hash) { return true; }
      if !HasPending(ledger, c[j].hash) { return false; }
      SettleKeepsVoided(ledger, c[j].hash, j);
      ledger := Settle(ledger, c[j].hash);
      assert ledger + [] == ledger;
      if lookup == Failed && !Refundable(c[j]) { return false; }
      if lookup == Failed && c[j].currency == Btc && Voided(ledger, j) { return false; }
      ledger := ledger + RefundTxns(c[j], j, lookup, Updater(0));
      return true;
    }

    /** Work through a list of pending payments that was read earlier. */
    method UpdatePendingPayments(c: Attempts, list: seq<nat>, lookups: map<nat, LnStatus>)
      requires Listable(c, list, lookups)
      modifies this
      ensures ledger == UpdateAll(c, old(ledger), list, lookups)
    {
      for i := 0 to |list|
        invariant Listable(c, list[..i], lookups) && ledger == UpdateAll(c, old(ledger), list[..i], lookups)
      {
        var _ := UpdatePendingPayment(c, list[i], lookups[list[i]]);
        assert list[..i + 1][..i] == list[..i];
      }
      assert list[..|list|] == list;
    }
  }
}

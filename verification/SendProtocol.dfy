/** Concurrent payments out of wallets: senders that hold the lock of their wallet,
    and updaters that work through lists of pending payments they read earlier.
    Every access to the ledger, to a lock or to the Lightning node is one step, and
    the steps of all processes interleave freely.

    The answer a sender gets to its payment need not be the fate of the payment: any
    error but a timeout counts as a failure for the sender, and the payment may still
    be in flight then, or be paid. Updaters look the payment up and learn its fate.

    A wallet lock may be lost at any moment, of which its release at the end of a call is
    one case; a sender notices this, at the latest, when it records its debit. The
    payment-hash lock of the updaters is not part of the model, so the runs below include
    those in which it gives no protection. */
module SendProtocol {
  import opened LedgerBook
  import opened Outcomes
  import opened PaymentFlows
  import opened PriceRatios

  /** One call of a sender, reduced to what the protocol needs of its payment flow.
      `feeRefund` tells what is credited when the payment turns out to cost a given
      fee, and `btcWallet` where a failed payment in cents is refunded. */
  datatype Attempt =
    | Ln(hash: string, wallet: string, currency: Currency, total: Amounts, feeKnown: bool,
         feeRefund: nat -> Option<Amounts>, btcWallet: Option<string>)
    | Intra(hash: string, wallet: string, currency: Currency, total: Amounts, recipient: Wallet)
  {
    /** Amount and fee, in the currency of the wallet. */
    function Needed(): int {
      InCurrency(total, currency)
    }
  }

  type Attempts = map<nat, Attempt>

  /** What has become of the payment at the Lightning node, or what a process was told. */
  datatype LnStatus = InFlight | Paid(fee: nat) | Failed

  datatype SenderPc =
    | Idle
    | Locked
    | Cleared
    | Checked(balance: int)
    | Recorded
    | Answered(answer: LnStatus)
    | Settled(answer: LnStatus)
    | Done

  datatype UpdaterPc =
    | NotStarted
    | Listed(j: nat)
    | Looked(j: nat, status: LnStatus)
    | Unrecorded(j: nat, status: LnStatus)
    | UpdaterSettled(j: nat, status: LnStatus)
    | Finished
  {
    /** At work on attempt k. */
    predicate WorksOn(k: nat) {
      !NotStarted? && !Finished? && j == k
    }
  }

  datatype Actor = Sender | Updater(u: nat)

  /** Who cleared the pending mark of an attempt, and how the payment had ended for it. */
  datatype Settler = Settler(actor: Actor, answer: LnStatus)

  /** `settledBy`, `refundedBy` and `faults` only remember what happened: who cleared the
      pending mark of an attempt, who refunded it, and whether a process that had cleared
      the mark met an error before its refund. */
  datatype State = State(
    ledger: seq<Txn>,
    locks: map<string, nat>,
    senders: map<nat, SenderPc>,
    updaters: map<nat, UpdaterPc>,
    lnd: map<nat, LnStatus>,
    settledBy: map<nat, Settler>,
    refundedBy: map<nat, Actor>,
    faults: set<nat>)
  {
    function Pc(j: nat): SenderPc {
      if j in senders then senders[j] else Idle
    }
    function Up(u: nat): UpdaterPc {
      if u in updaters then updaters[u] else NotStarted
    }
    function Status(j: nat): LnStatus {
      if j in lnd then lnd[j] else InFlight
    }
    function Holds(w: string, j: nat): bool {
      w in locks && locks[w] == j
    }
    function Move(j: nat, pc: SenderPc): State {
      this.(senders := senders[j := pc])
    }
    function MoveUpdater(u: nat, pc: UpdaterPc): State {
      this.(updaters := updaters[u := pc])
    }
    function Append(txns: seq<Txn>): State {
      this.(ledger := ledger + txns)
    }
  }

  // ----- what is written to the ledger

  function SendTxn(a: Attempt, j: nat, pending: bool): Txn {
    Txn(j, LnSend, a.hash, a.wallet, -a.Needed(), a.total, pending)
  }

  function IntraledgerTxns(a: Attempt, j: nat): seq<Txn>
    requires a.Intra?
  {
    [ Txn(j, IntraledgerDebit, a.hash, a.wallet, -a.Needed(), a.total, false),
      Txn(j, IntraledgerCredit, a.hash, a.recipient.id, InCurrency(a.total, a.recipient.currency), a.total, false) ]
  }

  /** What is written after a payment came to an end: a fee refund unless the fee was
      known in advance, or all of it after a failure. A failed payment in cents that an
      updater ends is refunded in sats, to the account's bitcoin wallet. */
  function RefundTxns(a: Attempt, j: nat, status: LnStatus, actor: Actor): seq<Txn>
    requires a.Ln?
  {
    match status
    case InFlight => []
    case Paid(fee) =>
      if a.feeKnown || a.feeRefund(fee).None? then []
      else
        var refund := a.feeRefund(fee).value;
        [Txn(j, FeeRefund, a.hash, a.wallet, InCurrency(refund, a.currency), refund, false)]
    case Failed =>
      if actor == Sender || a.currency == Btc then [Txn(j, Revert, a.hash, a.wallet, a.Needed(), a.total, false)]
      else if a.btcWallet.Some? then [Txn(j, UsdRefund, a.hash, a.btcWallet.value, a.total.btc, a.total, false)]
      else []
  }

  /** An updater cannot refund cents to an account without a bitcoin wallet: it settles
      the payment and stops at an error. */
  predicate Refundable(a: Attempt)
    requires a.Ln?
  {
    a.currency == Btc || a.btcWallet.Some?
  }

  /** The pending marks of a hash are cleared, for attempt j. */
  function SettledState(s: State, hash: string, j: nat, settler: Settler): State {
    s.(ledger := Settle(s.ledger, hash), settledBy := s.settledBy[j := settler])
  }

  function RefundedState(s: State, refund: seq<Txn>, j: nat, actor: Actor): State {
    var granted := Granted(s.ledger, refund);
    s.(ledger := s.ledger + granted, refundedBy := if granted == [] then s.refundedBy else s.refundedBy[j := actor])
  }

  // ----- the steps

  datatype SenderAct =
    | Acquire
    | CheckHash
    | ReadBalance
    | Record
    | PayPending
    | PaySucceeds
    | PayErrs
    | SettlePending
    | Refund
    | CallFails

  datatype UpdaterAct =
    | ListPending(j: nat)
    | Lookup
    | CheckRecorded
    | UpdaterSettle
    | UpdaterRefund
    | UpdaterCallFails

  datatype Step =
    | Deposit(wallet: string, amount: nat, journal: nat)
    | LoseLock(wallet: string)
    | Resolve(j: nat, status: LnStatus)
    | BySender(j: nat, act: SenderAct)
    | ByUpdater(u: nat, up: UpdaterAct)

  const START := State([], map[], map[], map[], map[], map[], map[], {})

  function DepositTxn(wallet: string, amount: nat, journal: nat): Txn {
    Txn(journal, Receipt, "", wallet, amount, Amounts(amount, amount), false)
  }

  /** What a sender records: a pending debit, or both sides of an intraledger payment. */
  function RecordedTxns(a: Attempt, j: nat): seq<Txn> {
    if a.Ln? then [SendTxn(a, j, true)] else IntraledgerTxns(a, j)
  }

  predicate InUse(a: Attempt, l: seq<Txn>) {
    if a.Ln? then HasPending(l, a.hash) else IsRecorded(l, a.hash)
  }

  ghost predicate SenderNext(c: Attempts, s: State, s': State, j: nat, act: SenderAct) {
    j in c &&
    var a, pc := c[j], s.Pc(j);
    match act
    case Acquire =>
      pc == Idle && a.wallet !in s.locks && s' == s.Move(j, Locked).(locks := s.locks[a.wallet := j])
    case CheckHash =>
      pc == Locked && s' == s.Move(j, if InUse(a, s.ledger) then Done else Cleared)
    case ReadBalance =>
      pc == Cleared &&
      var b := Balance(s.ledger, a.wallet);
      s' == s.Move(j, if b < a.Needed() then Done else Checked(b))
    case Record =>
      pc.Checked? && s' == if !s.Holds(a.wallet, j) then s.Move(j, Done)
                           else s.Append(RecordedTxns(a, j)).Move(j, if a.Ln? then Recorded else Done)
    case PayPending =>
      pc == Recorded && s' == s.Move(j, Done)
    case PaySucceeds =>
      pc == Recorded && s.Status(j).Paid? && s' == s.Move(j, Answered(s.Status(j)))
    case PayErrs =>
      pc == Recorded && s' == s.Move(j, Answered(Failed))
    case SettlePending =>
      pc.Answered? && s' == if HasPending(s.ledger, a.hash)
                            then SettledState(s, a.hash, j, Settler(Sender, pc.answer)).Move(j, Settled(pc.answer))
                            else s.Move(j, Done)
    case Refund =>
      pc.Settled? && a.Ln? && s' == RefundedState(s, RefundTxns(a, j, pc.answer, Sender), j, Sender).Move(j, Done)
    case CallFails =>
      pc != Done && s' == s.Move(j, Done).(faults := if pc.Settled? then s.faults + {j} else s.faults)
  }

  ghost predicate UpdaterNext(c: Attempts, s: State, s': State, u: nat, act: UpdaterAct) {
    var up := s.Up(u);
    match act
    case ListPending(j) =>
      up == NotStarted && j in c && c[j].Ln? && SendTxn(c[j], j, true) in s.ledger && s' == s.MoveUpdater(u, Listed(j))
    case Lookup =>
      && up.Listed?
      && s' == s.MoveUpdater(u, if s.Status(up.j) == InFlight then Finished else Looked(up.j, s.Status(up.j)))
    case CheckRecorded =>
      up.Looked? && up.j in c
      && s' == s.MoveUpdater(u, if IsRecorded(s.ledger, c[up.j].hash) then Finished else Unrecorded(up.j, up.status))
    case UpdaterSettle =>
      up.Unrecorded? && up.j in c
      && s' == if HasPending(s.ledger, c[up.j].hash)
               then SettledState(s, c[up.j].hash, up.j, Settler(Updater(u), up.status))
                      .MoveUpdater(u, UpdaterSettled(up.j, up.status))
               else s.MoveUpdater(u, Finished)
    case UpdaterRefund =>
      up.UpdaterSettled? && up.j in c && c[up.j].Ln?
      && s' == RefundedState(s, RefundTxns(c[up.j], up.j, up.status, Updater(u)), up.j, Updater(u))
                 .MoveUpdater(u, Finished)
    case UpdaterCallFails =>
      !up.NotStarted? && !up.Finished?
      && s' == s.MoveUpdater(u, Finished).(faults := if up.UpdaterSettled? then s.faults + {up.j} else s.faults)
  }

  ghost predicate NextStep(c: Attempts, s: State, s': State, step: Step) {
    match step
    case Deposit(w, amount, j) => j !in c && s' == s.Append([DepositTxn(w, amount, j)])
    case LoseLock(w) => s' == s.(locks := s.locks - {w})
    case Resolve(j, status) =>
      j in c && c[j].Ln? && Of(s.ledger, j) != [] && s.Status(j) == InFlight && status != InFlight
      && s' == s.(lnd := s.lnd[j := status])
    case BySender(j, act) => SenderNext(c, s, s', j, act)
    case ByUpdater(u, act) => UpdaterNext(c, s, s', u, act)
  }

  ghost predicate Next(c: Attempts, s: State, s': State) {
    exists step :: NextStep(c, s, s', step)
  }

  ghost predicate IsRun(c: Attempts, run: seq<State>) {
    && run != []
    && run[0] == START
    && forall i :: 0 <= i < |run| - 1 ==> StepsAt(c, run, i)
  }

  ghost predicate StepsAt(c: Attempts, run: seq<State>, i: nat)
    requires i < |run| - 1
  {
    Next(c, run[i], run[i + 1])
  }

  // ----- what is assumed of the attempts

  /** Amounts and refunds are not negative. */
  ghost predicate NeverDebits(a: Attempt) {
    && a.total.btc >= 0 && a.total.usd >= 0
    && (a.Ln? ==> forall fee :: a.feeRefund(fee).Some? ==>
          a.feeRefund(fee).value.btc >= 0 && a.feeRefund(fee).value.usd >= 0)
  }

  /** A fee refund stays below what was debited. */
  ghost predicate Bounded(a: Attempt) {
    && NeverDebits(a)
    && (a.Ln? ==> forall fee :: a.feeRefund(fee).Some? ==>
          a.feeRefund(fee).value.btc <= a.total.btc && a.feeRefund(fee).value.usd <= a.total.usd)
  }

  /** The invoice is paid by one attempt only. Pending marks are cleared by hash, and not
      by attempt. */
  ghost predicate PrivateHash(c: Attempts, k: nat)
    requires k in c
  {
    forall j :: j in c && j != k && c[j].Ln? ==> c[j].hash != c[k].hash
  }

  // ----- the invariant

  /** What is known about one Lightning attempt. */
  datatype Local = Local(
    entries: seq<Txn>, pc: SenderPc, status: LnStatus, settledBy: Option<Settler>, refundedBy: Option<Actor>,
    faulty: bool)

  function LocalOf(s: State, j: nat): Local {
    Local(Of(s.ledger, j), s.Pc(j), s.Status(j),
          if j in s.settledBy then Some(s.settledBy[j]) else None,
          if j in s.refundedBy then Some(s.refundedBy[j]) else None,
          j in s.faults)
  }

  predicate BeforeRecord(pc: SenderPc) {
    pc.Idle? || pc.Locked? || pc.Cleared? || pc.Checked?
  }

  /** Success is told only of payments that are paid; of a failure, updaters are told
      the truth. */
  predicate Told(settler: Settler, status: LnStatus) {
    && settler.answer != InFlight
    && (settler.answer.Paid? || settler.actor.Updater? ==> settler.answer == status)
  }

  /** The ledger entries of an attempt go through four shapes: none, one pending send,
      one settled send, and a settled send with the one refund of whoever settled it. */
  ghost predicate Shape(a: Attempt, j: nat, l: Local)
    requires a.Ln?
  {
    if l.entries == [] then l.settledBy.None? && l.refundedBy.None? && l.status == InFlight
    else if l.settledBy.None? then l.entries == [SendTxn(a, j, true)] && l.refundedBy.None?
    else
      var settler := l.settledBy.value;
      && Told(settler, l.status)
      && (if l.refundedBy.None? then l.entries == [SendTxn(a, j, false)]
          else && l.refundedBy.value == settler.actor
               && |RefundTxns(a, j, settler.answer, settler.actor)| == 1
               && l.entries == [SendTxn(a, j, false)] + RefundTxns(a, j, settler.answer, settler.actor))
  }

  ghost predicate LocalInv(a: Attempt, j: nat, l: Local)
    requires a.Ln?
  {
    && Shape(a, j, l)
    && (BeforeRecord(l.pc) ==> l.entries == [])
    && (l.pc.Recorded? || l.pc.Answered? ==> l.entries != [])
    && (l.pc.Answered? ==> Told(Settler(Sender, l.pc.answer), l.status))
    && (l.pc.Settled? ==> l.settledBy == Some(Settler(Sender, l.pc.answer)) && l.refundedBy.None?)
    && (l.settledBy.Some? && l.settledBy.value.actor == Sender && l.refundedBy.None? && !l.faulty && !l.pc.Settled?
        ==> RefundTxns(a, j, l.settledBy.value.answer, Sender) == [])
  }

  /** What is known about an updater that works on attempt k. */
  ghost predicate UpdaterInv(s: State, u: nat, k: nat) {
    var up := s.Up(u);
    up.WorksOn(k) ==>
      && Of(s.ledger, k) != []
      && (!up.Listed? ==> up.status == s.Status(k) != InFlight)
      && (up.UpdaterSettled? ==>
            k in s.settledBy && s.settledBy[k] == Settler(Updater(u), up.status) && k !in s.refundedBy)
  }

  /** An updater that settled an attempt still has to refund it, or had nothing to give
      or nowhere to give it, or met an error. */
  ghost predicate KeepsPromise(c: Attempts, s: State, k: nat)
    requires k in c && c[k].Ln?
  {
    k in s.settledBy && s.settledBy[k].actor.Updater? && k !in s.refundedBy && k !in s.faults ==>
      var settler := s.settledBy[k];
      || s.Up(settler.actor.u) == UpdaterSettled(k, settler.answer)
      || RefundTxns(c[k], k, settler.answer, settler.actor) == []
  }

  /** Transactions of an attempt carry its hash; only Lightning sends are ever pending. */
  ghost predicate Owned(c: Attempts, t: Txn) {
    && t.hash == (if t.journal in c then c[t.journal].hash else "")
    && (t.pending ==> t.journal in c && c[t.journal].Ln?)
  }

  ghost predicate LedgerOwned(c: Attempts, l: seq<Txn>) {
    forall i :: 0 <= i < |l| ==> Owned(c, l[i])
  }

  /** An intraledger payment is over once it is recorded; updaters work on Lightning
      payments. */
  ghost predicate RolesInv(c: Attempts, s: State) {
    && (forall j :: j in c && c[j].Intra? ==> BeforeRecord(s.Pc(j)) || s.Pc(j).Done?)
    && (forall u, j :: s.Up(u).WorksOn(j) ==> j in c && c[j].Ln?)
  }

  /** What holds of all attempts together, and of one whose hash is its own. */
  ghost predicate CommonInv(c: Attempts, s: State) {
    LedgerOwned(c, s.ledger) && RolesInv(c, s)
  }

  ghost predicate AttemptInv(c: Attempts, s: State, k: nat)
    requires k in c && c[k].Ln?
  {
    && LocalInv(c[k], k, LocalOf(s, k))
    && (forall u :: UpdaterInv(s, u, k))
    && KeepsPromise(c, s, k)
  }

  /** Balances are not negative, and cover what was read under a lock still held. */
  ghost predicate WalletInv(c: Attempts, s: State) {
    && (forall w :: Balance(s.ledger, w) >= 0)
    && (forall w :: w in s.locks ==> s.locks[w] in c && c[s.locks[w]].wallet == w)
    && (forall j :: j in c && s.Pc(j).Checked? ==> c[j].Needed() <= s.Pc(j).balance)
    && (forall j :: j in c && s.Pc(j).Checked? && s.Holds(c[j].wallet, j) ==>
          s.Pc(j).balance <= Balance(s.ledger, c[j].wallet))
  }
}

/** One incoming hold invoice: any number of workers that settle, mark and credit it,
    decliners that cancel it, and intraledger payers that pay it without Lightning,
    all interleaved step by step. The payment-hash lock keeps other workers out until it
    is lost, which may happen at any moment and which no worker notices.

    Before they lock, workers return on a copy of the record that is already paid.
    After locking they read the record again. The source then tests the old copy once
    more, which is never paid at that point; `Guard` selects that test or the test of
    the record just read. */
module ReceiveProtocol {
  import opened Outcomes

  datatype Guard = OuterCopy | ReReadCopy

  datatype LndState = Open | Held | Settled | Canceled | Missing

  datatype Record = Absent | Unpaid | Paid

  datatype Pc =
    | Idle
    | Fetched(copyPaid: bool)
    | Seen(settled: bool)
    | InLock(settled: bool)
    | Passed(settled: bool)
    | LndSettled(settled: bool)
    | Marked(settled: bool)
    | Wrapping
    | DeclinerSeen
    | DeclinerCanceled
    | PayerCanceled
    | Done

  /** A credit remembers who made it, and whether that worker's lookup had already
      shown a settled invoice. */
  datatype Credit = Credit(w: nat, settled: bool)

  /** `lost` and `declined` only remember that the lock was lost while a worker held it,
      and that a decliner saw the invoice held. */
  datatype State = State(
    record: Record, lnd: LndState, lock: Option<nat>, procs: map<nat, Pc>, credits: seq<Credit>, lost: bool,
    declined: bool)
  {
    function At(w: nat): Pc {
      if w in procs then procs[w] else Idle
    }
    function Move(w: nat, pc: Pc): State {
      this.(procs := procs[w := pc])
    }
    /** Leave the locked section with a truthy result, which may be an error. */
    function Leave(w: nat): State {
      this.(procs := procs[w := Wrapping], lock := if lock == Some(w) then None else lock)
    }
    function MarkPaid(): State {
      this.(record := if record == Absent then Absent else Paid)
    }
    /** The Lightning node answers a cancellation of a settled invoice, or of one it does
        not have, with success. */
    function Cancel(): State {
      this.(lnd := if lnd == Settled || lnd == Missing then lnd else Canceled)
    }
  }

  predicate HoldsLock(pc: Pc) {
    pc.InLock? || pc.Passed? || pc.LndSettled? || pc.Marked?
  }

  predicate Declining(pc: Pc) {
    pc.DeclinerSeen? || pc.DeclinerCanceled?
  }

  datatype Step =
    | Arrive
    | CancelByNode
    | ForgetByNode
    | LoseLock
    | Fetch(w: nat)
    | Lookup(w: nat)
    | LookupMissing(w: nat)
    | Lock(w: nat)
    | ReRead(w: nat)
    | SettleAtLnd(w: nat)
    | MarkAsPaid(w: nat)
    | CreditWallet(w: nat)
    | WorkerFails(w: nat)
    | WrapUp(w: nat)
    | DeclinerLooks(w: nat)
    | DeclinerCancels(w: nat)
    | DeclinerDeletes(w: nat)
    | PayerCancels(w: nat)
    | PayerMarks(w: nat)

  predicate Enabled(s: State, step: Step) {
    match step
    case Arrive => s.lnd == Open
    case CancelByNode => s.lnd == Open || s.lnd == Held
    case ForgetByNode => s.lnd == Canceled
    case LoseLock => s.lock.Some?
    case Fetch(w) => s.At(w).Idle? && s.record != Absent
    case Lookup(w) => s.At(w).Fetched? && s.lnd != Missing
    case LookupMissing(w) => (s.At(w).Fetched? || s.At(w).Idle?) && s.lnd == Missing
    case Lock(w) => s.At(w).Seen? && s.lock.None?
    case ReRead(w) => s.At(w).InLock?
    case SettleAtLnd(w) => s.At(w).Passed?
    case MarkAsPaid(w) => s.At(w).LndSettled?
    case CreditWallet(w) => s.At(w).Marked?
    case WorkerFails(w) => s.At(w).Fetched? || s.At(w).Seen? || HoldsLock(s.At(w)) || Declining(s.At(w))
    case WrapUp(w) => s.At(w).Wrapping?
    case DeclinerLooks(w) => (s.At(w).Idle? || s.At(w).Fetched?) && s.lnd != Missing
    case DeclinerCancels(w) => s.At(w).DeclinerSeen?
    case DeclinerDeletes(w) => s.At(w).DeclinerCanceled?
    case PayerCancels(w) => s.At(w).Idle?
    case PayerMarks(w) => s.At(w).PayerCanceled?
  }

  function Apply(guard: Guard, s: State, step: Step): State
    requires Enabled(s, step)
  {
    match step
    case Arrive => s.(lnd := Held)
    case CancelByNode => s.(lnd := Canceled)
    case ForgetByNode => s.(lnd := Missing)
    case LoseLock => s.(lock := None, lost := true)
    case Fetch(w) => s.Move(w, Fetched(s.record == Paid))
    case Lookup(w) =>
      if s.At(w).copyPaid || s.lnd == Open || s.lnd == Canceled then s.Move(w, Done)
      else s.Move(w, Seen(s.lnd == Settled))
    case LookupMissing(w) => s.Move(w, Done).(record := Absent)
    case Lock(w) => s.Move(w, InLock(s.At(w).settled)).(lock := Some(w))
    case ReRead(w) =>
      if s.record == Absent then s.Leave(w).Move(w, Done)
      else if guard == ReReadCopy && s.record == Paid then s.Leave(w)
      else s.Move(w, Passed(s.At(w).settled))
    case SettleAtLnd(w) =>
      if s.At(w).settled then s.Move(w, LndSettled(true))
      else if s.lnd == Held then s.Move(w, LndSettled(false)).(lnd := Settled)
      else s.Leave(w)
    case MarkAsPaid(w) =>
      if s.record == Absent then s.Leave(w) else s.Move(w, Marked(s.At(w).settled)).MarkPaid()
    case CreditWallet(w) => s.Leave(w).(credits := s.credits + [Credit(w, s.At(w).settled)])
    case WorkerFails(w) => s.Leave(w)
    case WrapUp(w) => s.Move(w, Done).MarkPaid()
    case DeclinerLooks(w) => if s.lnd == Held then s.Move(w, DeclinerSeen).(declined := true) else s.Move(w, Done)
    case DeclinerCancels(w) => s.Move(w, DeclinerCanceled).Cancel()
    case DeclinerDeletes(w) => s.Move(w, Done).(record := Absent)
    case PayerCancels(w) => s.Move(w, PayerCanceled).Cancel()
    case PayerMarks(w) => s.Move(w, Done).MarkPaid()
  }

  const START := State(Unpaid, Open, None, map[], [], false, false)

  ghost predicate Next(guard: Guard, s: State, s': State) {
    exists step :: Enabled(s, step) && s' == Apply(guard, s, step)
  }

  /** The states of a path follow one another by steps; a run starts at the beginning. */
  ghost predicate IsPath(guard: Guard, path: seq<State>) {
    path != [] && forall i :: 0 <= i < |path| - 1 ==> StepsAt(guard, path, i)
  }

  ghost predicate StepsAt(guard: Guard, path: seq<State>, i: nat)
    requires i < |path| - 1
  {
    Next(guard, path[i], path[i + 1])
  }

  ghost predicate IsRun(guard: Guard, run: seq<State>) {
    IsPath(guard, run) && run[0] == START
  }

  // ----- what a step changes

  /** A step moves one process at most. */
  function Mover(step: Step): Option<nat> {
    if step.Arrive? || step.CancelByNode? || step.ForgetByNode? || step.LoseLock? then None else Some(step.w)
  }

  lemma OthersStay(guard: Guard, s: State, step: Step, x: nat)
    requires Enabled(s, step) && Mover(step) != Some(x)
    ensures Apply(guard, s, step).At(x) == s.At(x)
  {
  }

  /** A settled invoice stays settled, a marked or deleted record does not become unpaid
      again, and what is remembered is not forgotten. */
  lemma StepIsMonotone(guard: Guard, s: State, step: Step)
    requires Enabled(s, step)
    ensures var s' := Apply(guard, s, step);
            && (s.lnd == Settled ==> s'.lnd == Settled) && (s.record != Unpaid ==> s'.record != Unpaid)
            && (s.lost ==> s'.lost) && (s.declined ==> s'.declined)
  {
    NodeIsMonotone(guard, s, step);
    MemoryIsMonotone(guard, s, step);
  }

  lemma NodeIsMonotone(guard: Guard, s: State, step: Step)
    requires Enabled(s, step)
    ensures var s' := Apply(guard, s, step);
            (s.lnd == Settled ==> s'.lnd == Settled) && (s.record != Unpaid ==> s'.record != Unpaid)
  {
  }

  lemma MemoryIsMonotone(guard: Guard, s: State, step: Step)
    requires Enabled(s, step)
    ensures var s' := Apply(guard, s, step); (s.lost ==> s'.lost) && (s.declined ==> s'.declined)
  {
  }

  lemma CreditsGrow(guard: Guard, s: State, step: Step)
    requires Enabled(s, step)
    ensures Apply(guard, s, step).credits
         == if step.CreditWallet? then s.credits + [Credit(step.w, s.At(step.w).settled)] else s.credits
  {
  }

  // ----- the invariants

  /** What a worker has seen or done about the invoice is so. */
  predicate Informed(pc: Pc, record: Record, lnd: LndState) {
    && ((pc.Seen? || pc.InLock? || pc.Passed?) && pc.settled ==> lnd == Settled)
    && (pc.LndSettled? || pc.Marked? ==> lnd == Settled)
    && (pc.Marked? ==> record != Unpaid)
  }

  /** Holds under either test and without any lock. */
  ghost predicate NodeInv(s: State) {
    && (forall w: nat :: Informed(s.At(w), s.record, s.lnd))
    && (s.credits != [] ==> s.lnd == Settled && s.record != Unpaid)
    && (s.record == Absent && !s.declined ==> s.lnd == Missing)
    && (forall w: nat :: s.At(w).DeclinerSeen? || s.At(w).DeclinerCanceled? ==> s.declined)
  }

  /** The lock is with a worker in the locked section, and with each of them while it has
      not been lost. */
  ghost predicate LockInv(s: State) {
    && (s.lock.Some? ==> HoldsLock(s.At(s.lock.value)))
    && (!s.lost ==> forall w: nat :: HoldsLock(s.At(w)) ==> s.lock == Some(w))
  }

  /** The number of credits by workers that saw the invoice held. */
  function HeldCredits(credits: seq<Credit>): nat {
    if credits == [] then 0
    else HeldCredits(credits[..|credits| - 1]) + if credits[|credits| - 1].settled then 0 else 1
  }

  /** This worker has settled the invoice at the node. */
  predicate SettledIt(pc: Pc) {
    (pc.LndSettled? || pc.Marked?) && !pc.settled
  }

  /** One worker settles a held invoice, and it has not been preceded by another one. */
  ghost predicate HeldInv(s: State) {
    && (s.lnd != Settled ==> HeldCredits(s.credits) == 0)
    && HeldCredits(s.credits) <= 1
    && (forall w: nat :: SettledIt(s.At(w)) ==> HeldCredits(s.credits) == 0)
    && (forall w: nat, x: nat :: SettledIt(s.At(w)) && SettledIt(s.At(x)) ==> w == x)
  }

  /** This worker has passed the test of the record. */
  predicate Passing(pc: Pc) {
    pc.Passed? || pc.LndSettled? || pc.Marked?
  }

  /** Holds under the test of the record that was read under the lock, until it is lost. */
  ghost predicate OnceInv(s: State) {
    !s.lost ==> |s.credits| <= 1 && forall w: nat :: Passing(s.At(w)) ==> s.credits == []
  }

  // ----- every step keeps them

  lemma MoverInformed(guard: Guard, s: State, step: Step)
    requires Enabled(s, step) && Mover(step).Some? && Informed(s.At(step.w), s.record, s.lnd)
    ensures var s' := Apply(guard, s, step); Informed(s'.At(step.w), s'.record, s'.lnd)
  {
  }

  lemma StepKeepsInformed(guard: Guard, s: State, step: Step, x: nat)
    requires NodeInv(s) && Enabled(s, step)
    ensures var s' := Apply(guard, s, step); Informed(s'.At(x), s'.record, s'.lnd)
  {
    assert Informed(s.At(x), s.record, s.lnd);
    if Mover(step) == Some(x) {
      MoverInformed(guard, s, step);
    } else {
      OthersStay(guard, s, step, x);
      StepIsMonotone(guard, s, step);
    }
  }

  lemma StepKeepsRecord(guard: Guard, s: State, step: Step)
    requires NodeInv(s) && Enabled(s, step)
    ensures var s' := Apply(guard, s, step);
            && (s'.credits != [] ==> s'.lnd == Settled && s'.record != Unpaid)
            && (s'.record == Absent && !s'.declined ==> s'.lnd == Missing)
  {
    CreditsGrow(guard, s, step);
    StepIsMonotone(guard, s, step);
    if step.CreditWallet? { assert Informed(s.At(step.w), s.record, s.lnd); }
    AbsentOnlyWhenMissing(guard, s, step);
  }

  lemma AbsentOnlyWhenMissing(guard: Guard, s: State, step: Step)
    requires NodeInv(s) && Enabled(s, step)
    ensures var s' := Apply(guard, s, step); s'.record == Absent && !s'.declined ==> s'.lnd == Missing
  {
    if step.DeclinerDeletes? { assert s.At(step.w).DeclinerCanceled?; }
  }

  lemma StepKeepsDeclined(guard: Guard, s: State, step: Step, x: nat)
    requires NodeInv(s) && Enabled(s, step)
    ensures var s' := Apply(guard, s, step); s'.At(x).DeclinerSeen? || s'.At(x).DeclinerCanceled? ==> s'.declined
  {
    if Mover(step) != Some(x) {
      OthersStay(guard, s, step, x);
      StepIsMonotone(guard, s, step);
    }
  }

  lemma StepKeepsNodeInv(guard: Guard, s: State, step: Step)
    requires NodeInv(s) && Enabled(s, step)
    ensures NodeInv(Apply(guard, s, step))
  {
    var s' := Apply(guard, s, step);
    StepKeepsRecord(guard, s, step);
    forall x: nat ensures Informed(s'.At(x), s'.record, s'.lnd) { StepKeepsInformed(guard, s, step, x); }
    forall x: nat ensures s'.At(x).DeclinerSeen? || s'.At(x).DeclinerCanceled? ==> s'.declined {
      StepKeepsDeclined(guard, s, step, x);
    }
  }

  /** Who enters finds the lock free, and who leaves gives up its own. */
  lemma MoverAndLock(guard: Guard, s: State, step: Step)
    requires Enabled(s, step) && Mover(step).Some? && (s.lock == Some(step.w) ==> HoldsLock(s.At(step.w)))
    ensures var s' := Apply(guard, s, step);
            && s'.lost == s.lost
            && (if step.Lock? then
                  s.lock.None? && s'.lock == Some(step.w) && HoldsLock(s'.At(step.w)) && !HoldsLock(s.At(step.w))
                else if HoldsLock(s'.At(step.w)) then s'.lock == s.lock && HoldsLock(s.At(step.w))
                else s'.lock == if s.lock == Some(step.w) then None else s.lock)
  {
  }

  lemma StepKeepsLockInv(guard: Guard, s: State, step: Step)
    requires LockInv(s) && Enabled(s, step)
    ensures LockInv(Apply(guard, s, step))
  {
    var s' := Apply(guard, s, step);
    if Mover(step).Some? {
      MoverAndLock(guard, s, step);
      forall x: nat | !s'.lost && HoldsLock(s'.At(x)) ensures s'.lock == Some(x) {
        if x != step.w { OthersStay(guard, s, step, x); }
      }
      if s'.lock.Some? && s'.lock.value != step.w { OthersStay(guard, s, step, s'.lock.value); }
    } else {
      assert s'.procs == s.procs;
    }
  }

  lemma CreditAppends(credits: seq<Credit>, c: Credit)
    ensures HeldCredits(credits + [c]) == HeldCredits(credits) + if c.settled then 0 else 1
  {
    assert (credits + [c])[..|credits|] == credits;
  }

  /** Only a held invoice is settled, and who settled it goes on or leaves. */
  lemma MoverSettles(guard: Guard, s: State, step: Step)
    requires Enabled(s, step) && Mover(step).Some?
    ensures SettledIt(Apply(guard, s, step).At(step.w)) ==>
            SettledIt(s.At(step.w)) || (step.SettleAtLnd? && s.lnd == Held)
  {
  }

  lemma StepKeepsSettlers(guard: Guard, s: State, step: Step, x: nat)
    requires HeldInv(s) && Enabled(s, step) && SettledIt(Apply(guard, s, step).At(x))
    ensures SettledIt(s.At(x)) || (step == SettleAtLnd(x) && s.lnd == Held)
  {
    if Mover(step) == Some(x) { MoverSettles(guard, s, step); } else { OthersStay(guard, s, step, x); }
  }

  lemma CreditorLeaves(guard: Guard, s: State, step: Step, x: nat)
    requires HeldInv(s) && Enabled(s, step) && step.CreditWallet? && SettledIt(Apply(guard, s, step).At(x))
    ensures SettledIt(s.At(x)) && x != step.w
  {
    StepKeepsSettlers(guard, s, step, x);
  }

  /** A credit by the worker that settled the invoice is the first of its kind, and no
      other worker has settled it. */
  lemma CreditCounts(s: State, w: nat, x: nat)
    requires HeldInv(s) && s.At(w).Marked?
    ensures HeldCredits(s.credits + [Credit(w, s.At(w).settled)]) <= 1
    ensures SettledIt(s.At(x)) && x != w ==> HeldCredits(s.credits + [Credit(w, s.At(w).settled)]) == 0
  {
    CreditAppends(s.credits, Credit(w, s.At(w).settled));
    if !s.At(w).settled { assert SettledIt(s.At(w)); }
  }

  lemma CreditKeepsHeldInv(guard: Guard, s: State, step: Step)
    requires NodeInv(s) && HeldInv(s) && Enabled(s, step) && step.CreditWallet?
    ensures HeldInv(Apply(guard, s, step))
  {
    var s' := Apply(guard, s, step);
    assert Informed(s.At(step.w), s.record, s.lnd);
    CreditCounts(s, step.w, step.w);
    forall x: nat | SettledIt(s'.At(x)) ensures SettledIt(s.At(x)) && HeldCredits(s'.credits) == 0 {
      CreditorLeaves(guard, s, step, x);
      CreditCounts(s, step.w, x);
    }
  }

  lemma StepKeepsHeldInv(guard: Guard, s: State, step: Step)
    requires NodeInv(s) && HeldInv(s) && Enabled(s, step)
    ensures HeldInv(Apply(guard, s, step))
  {
    if step.CreditWallet? {
      CreditKeepsHeldInv(guard, s, step);
    } else {
      var s' := Apply(guard, s, step);
      CreditsGrow(guard, s, step);
      StepIsMonotone(guard, s, step);
      forall x: nat | SettledIt(s'.At(x)) ensures HeldCredits(s'.credits) == 0 { StepKeepsSettlers(guard, s, step, x); }
      forall x: nat, y: nat | SettledIt(s'.At(x)) && SettledIt(s'.At(y)) ensures x == y {
        StepKeepsSettlers(guard, s, step, x);
        StepKeepsSettlers(guard, s, step, y);
        assert Informed(s.At(x), s.record, s.lnd) && Informed(s.At(y), s.record, s.lnd);
      }
    }
  }

  lemma MoverPasses(s: State, step: Step)
    requires Enabled(s, step) && Mover(step).Some? && Passing(Apply(ReReadCopy, s, step).At(step.w))
    ensures Passing(s.At(step.w)) || s.record == Unpaid
  {
  }

  lemma CreditorAlone(s: State, step: Step, x: nat)
    requires LockInv(s) && !s.lost && Enabled(s, step) && step.CreditWallet? && x != step.w
    ensures !HoldsLock(s.At(x))
  {
    assert s.lock == Some(step.w);
  }

  lemma CreditKeepsOnceInv(s: State, step: Step)
    requires LockInv(s) && OnceInv(s) && Enabled(s, step) && step.CreditWallet?
    ensures OnceInv(Apply(ReReadCopy, s, step))
  {
    var s' := Apply(ReReadCopy, s, step);
    if !s.lost {
      assert Passing(s.At(step.w));
      forall x: nat ensures !Passing(s'.At(x)) {
        if x != step.w {
          CreditorAlone(s, step, x);
          OthersStay(ReReadCopy, s, step, x);
        }
      }
    }
  }

  lemma StepKeepsOnceInv(s: State, step: Step)
    requires NodeInv(s) && LockInv(s) && OnceInv(s) && Enabled(s, step)
    ensures OnceInv(Apply(ReReadCopy, s, step))
  {
    if step.CreditWallet? {
      CreditKeepsOnceInv(s, step);
    } else {
      var s' := Apply(ReReadCopy, s, step);
      StepIsMonotone(ReReadCopy, s, step);
      CreditsGrow(ReReadCopy, s, step);
      forall x: nat | !s'.lost && Passing(s'.At(x)) ensures s'.credits == [] {
        if Mover(step) == Some(x) { MoverPasses(s, step); } else { OthersStay(ReReadCopy, s, step, x); }
      }
    }
  }

  lemma {:induction false} RunKeepsInv(guard: Guard, run: seq<State>, i: nat)
    requires IsRun(guard, run) && i < |run|
    ensures NodeInv(run[i]) && LockInv(run[i]) && HeldInv(run[i]) && (guard == ReReadCopy ==> OnceInv(run[i]))
  {
    if i > 0 {
      RunKeepsInv(guard, run, i - 1);
      assert StepsAt(guard, run, i - 1);
      var step :| Enabled(run[i - 1], step) && run[i] == Apply(guard, run[i - 1], step);
      StepKeepsNodeInv(guard, run[i - 1], step);
      StepKeepsLockInv(guard, run[i - 1], step);
      StepKeepsHeldInv(guard, run[i - 1], step);
      if guard == ReReadCopy { StepKeepsOnceInv(run[i - 1], step); }
    }
  }

  // ----- what every run promises

  /** With the record tested under the lock, an invoice is credited at most once while the
      lock is not lost, whatever workers, decliners and payers do at the same time. */
  lemma CreditedAtMostOnce(run: seq<State>, i: nat)
    requires IsRun(ReReadCopy, run) && i < |run| && !run[i].lost
    ensures |run[i].credits| <= 1
  {
    RunKeepsInv(ReReadCopy, run, i);
  }

  lemma NextKeepsCredits(guard: Guard, s: State, s': State)
    requires Next(guard, s, s')
    ensures s.credits <= s'.credits
  {
    var step :| Enabled(s, step) && s' == Apply(guard, s, step);
    CreditsGrow(guard, s, step);
  }

  lemma {:induction false} CreditsStay(guard: Guard, path: seq<State>, i: nat, k: nat)
    requires IsPath(guard, path) && i <= k < |path|
    ensures path[i].credits <= path[k].credits
  {
    if i < k {
      CreditsStay(guard, path, i, k - 1);
      assert StepsAt(guard, path, k - 1);
      NextKeepsCredits(guard, path[k - 1], path[k]);
    }
  }

  /** A credited invoice is settled at the Lightning node from then on; and it is marked
      as paid, unless a decliner saw it held. */
  lemma CreditedIsSettledAndPaid(guard: Guard, run: seq<State>, i: nat, k: nat)
    requires IsRun(guard, run) && i <= k < |run| && run[i].credits != []
    ensures run[k].lnd == Settled && run[k].record != Unpaid && (!run[k].declined ==> run[k].record == Paid)
  {
    RunKeepsInv(guard, run, k);
    CreditsStay(guard, run, i, k);
  }

  /** A cancelled invoice stays cancelled, or is forgotten by the node. */
  lemma {:induction false} CanceledStays(guard: Guard, run: seq<State>, i: nat, k: nat)
    requires IsRun(guard, run) && i <= k < |run| && run[i].lnd in {Canceled, Missing}
    ensures run[k].lnd in {Canceled, Missing}
  {
    if i < k {
      CanceledStays(guard, run, i, k - 1);
      assert StepsAt(guard, run, k - 1);
      var step :| Enabled(run[k - 1], step) && run[k] == Apply(guard, run[k - 1], step);
      StepKeepsDown(guard, run[k - 1], step);
    }
  }

  lemma StepKeepsDown(guard: Guard, s: State, step: Step)
    requires Enabled(s, step) && s.lnd in {Canceled, Missing}
    ensures Apply(guard, s, step).lnd in {Canceled, Missing}
  {
  }

  lemma NeverCreditedAndCanceled(guard: Guard, run: seq<State>, i: nat, k: nat)
    requires IsRun(guard, run) && i < |run| && k < |run| && run[i].lnd in {Canceled, Missing}
    ensures run[k].credits == []
  {
    if run[k].credits != [] {
      if i <= k {
        CanceledStays(guard, run, i, k);
        RunKeepsInv(guard, run, k);
      } else {
        CreditsStay(guard, run, k, i);
        RunKeepsInv(guard, run, i);
      }
    }
  }

  /** Under either test and without any lock, all workers that saw the invoice held credit
      it once at most: a further credit comes from a worker whose lookup showed it settled
      already. */
  lemma HeldWorkersCreditOnce(guard: Guard, run: seq<State>, i: nat)
    requires IsRun(guard, run) && i < |run|
    ensures HeldCredits(run[i].credits) <= 1
    ensures (forall c :: c in run[i].credits ==> !c.settled) ==> |run[i].credits| <= 1
  {
    RunKeepsInv(guard, run, i);
    AllHeld(run[i].credits);
  }

  lemma {:induction false} AllHeld(credits: seq<Credit>)
    ensures (forall c :: c in credits ==> !c.settled) ==> HeldCredits(credits) == |credits|
  {
    if credits != [] { AllHeld(credits[..|credits| - 1]); }
  }

  // ----- when a worker credits

  /** What is left of the locked section for a worker, when nothing interferes or fails. */
  function Finish(guard: Guard, s: State, w: nat): State {
    var s1 := if s.At(w).InLock? then Apply(guard, s, ReRead(w)) else s;
    var s2 := if s1.At(w).Passed? then Apply(guard, s1, SettleAtLnd(w)) else s1;
    var s3 := if s2.At(w).LndSettled? then Apply(guard, s2, MarkAsPaid(w)) else s2;
    if s3.At(w).Marked? then Apply(guard, s3, CreditWallet(w)) else s3
  }

  lemma PastNodeCredits(guard: Guard, s: State, w: nat)
    requires s.At(w).LndSettled? || s.At(w).Marked?
    ensures |Finish(guard, s, w).credits| > |s.credits| <==> s.At(w).Marked? || s.record != Absent
  {
  }

  lemma PassedCredits(guard: Guard, s: State, w: nat)
    requires s.At(w).Passed?
    ensures |Finish(guard, s, w).credits| > |s.credits| <==> s.record != Absent && (s.At(w).settled || s.lnd == Held)
  {
    var s' := Apply(guard, s, SettleAtLnd(w));
    if s'.At(w).LndSettled? { PastNodeCredits(guard, s', w); }
  }

  /** Exactly when a worker in the locked section credits the wallet: it has marked the
      invoice, or the record exists and the worker is past the node; or the invoice is
      held or was seen settled, and the record passes the test that is still to come. */
  lemma CreditsIff(guard: Guard, s: State, w: nat)
    requires HoldsLock(s.At(w))
    ensures |Finish(guard, s, w).credits| > |s.credits|
       <==> var pc := s.At(w);
            || pc.Marked?
            || (s.record != Absent
                && (pc.LndSettled? || pc.settled || s.lnd == Held)
                && (pc.InLock? && guard == ReReadCopy ==> s.record == Unpaid))
  {
    if s.At(w).InLock? {
      var s' := Apply(guard, s, ReRead(w));
      if s'.At(w).Passed? { PassedCredits(guard, s', w); }
    } else if s.At(w).Passed? {
      PassedCredits(guard, s, w);
    } else {
      PastNodeCredits(guard, s, w);
    }
  }

  /** So a credited invoice is credited again exactly by a worker that has marked it, or
      that finds the record and is past the node, or saw the invoice settled and is past
      the test or faces the source's. */
  lemma CreditedAgainIff(guard: Guard, run: seq<State>, i: nat, w: nat)
    requires IsRun(guard, run) && i < |run| && run[i].credits != [] && HoldsLock(run[i].At(w))
    ensures |Finish(guard, run[i], w).credits| > |run[i].credits|
       <==> var pc := run[i].At(w);
            || pc.Marked?
            || (run[i].record != Absent && (pc.LndSettled? || (pc.settled && (pc.InLock? ==> guard == OuterCopy))))
  {
    RunKeepsInv(guard, run, i);
    CreditsIff(guard, run[i], w);
  }

  // ----- runs, built step by step

  ghost predicate Reachable(guard: Guard, s: State) {
    exists run :: IsRun(guard, run) && run[|run| - 1] == s
  }

  lemma StartIsReachable(guard: Guard)
    ensures Reachable(guard, START)
  {
    assert IsRun(guard, [START]) && [START][0] == START;
  }

  lemma PathExtends(guard: Guard, path: seq<State>, s': State)
    requires IsPath(guard, path) && Next(guard, path[|path| - 1], s')
    ensures IsPath(guard, path + [s'])
  {
    var longer := path + [s'];
    forall i | 0 <= i < |longer| - 1 ensures StepsAt(guard, longer, i) {
      if i < |path| - 1 { assert StepsAt(guard, path, i); }
    }
  }

  lemma Extend(guard: Guard, s: State, step: Step)
    requires Reachable(guard, s) && Enabled(s, step)
    ensures Reachable(guard, Apply(guard, s, step))
  {
    var run :| IsRun(guard, run) && run[|run| - 1] == s;
    var s' := Apply(guard, s, step);
    assert Next(guard, s, s');
    PathExtends(guard, run, s');
    assert IsRun(guard, run + [s']) && (run + [s'])[|run|] == s';
  }

  /** A worker reads the record of a held invoice and enters the locked section. */
  lemma FirstWorkerEnters(guard: Guard, s: State)
    requires Reachable(guard, s) && s.At(0).Idle? && s.record == Unpaid && s.lnd == Held && s.lock.None?
    ensures Reachable(guard, s.(procs := s.procs[0 := InLock(false)], lock := Some(0)))
  {
    Extend(guard, s, Fetch(0));
    var s1 := s.Move(0, Fetched(false));
    Extend(guard, s1, Lookup(0));
    var s2 := s.Move(0, Seen(false));
    Extend(guard, s2, Lock(0));
  }

  lemma FirstWorkerSettles(guard: Guard, s: State)
    requires Reachable(guard, s) && s.At(0) == InLock(false) && s.record == Unpaid && s.lnd == Held
    ensures Reachable(guard, s.(procs := s.procs[0 := LndSettled(false)], lnd := Settled))
  {
    Extend(guard, s, ReRead(0));
    Extend(guard, s.Move(0, Passed(false)), SettleAtLnd(0));
    assert s.procs[0 := Passed(false)][0 := LndSettled(false)] == s.procs[0 := LndSettled(false)];
  }

  lemma FirstWorkerReachesLnd(guard: Guard, s: State)
    requires Reachable(guard, s) && s.At(0).Idle? && s.record == Unpaid && s.lnd == Held && s.lock.None?
    ensures Reachable(guard, s.(procs := s.procs[0 := LndSettled(false)], lock := Some(0), lnd := Settled))
  {
    FirstWorkerEnters(guard, s);
    FirstWorkerSettles(guard, s.(procs := s.procs[0 := InLock(false)], lock := Some(0)));
    assert s.procs[0 := InLock(false)][0 := LndSettled(false)] == s.procs[0 := LndSettled(false)];
  }

  /** A worker that is past the node marks and credits. */
  lemma WorkerCredits(guard: Guard, s: State, w: nat)
    requires Reachable(guard, s) && s.At(w).LndSettled? && s.record != Absent
    ensures Reachable(guard,
              s.(record := Paid, procs := s.procs[w := Wrapping], lock := if s.lock == Some(w) then None else s.lock,
                 credits := s.credits + [Credit(w, s.At(w).settled)]))
  {
    var settled := s.At(w).settled;
    Extend(guard, s, MarkAsPaid(w));
    Extend(guard, s.Move(w, Marked(settled)).(record := Paid), CreditWallet(w));
    assert s.procs[w := Marked(settled)][w := Wrapping] == s.procs[w := Wrapping];
  }

  /** A worker that saw the invoice settled passes the test and the node. */
  lemma SecondWorkerPasses(guard: Guard, s: State)
    requires Reachable(guard, s) && s.At(1) == InLock(true) && s.record != Absent
    requires guard == ReReadCopy ==> s.record == Unpaid
    ensures Reachable(guard, s.(procs := s.procs[1 := LndSettled(true)]))
  {
    Extend(guard, s, ReRead(1));
    Extend(guard, s.Move(1, Passed(true)), SettleAtLnd(1));
    assert s.procs[1 := Passed(true)][1 := LndSettled(true)] == s.procs[1 := LndSettled(true)];
  }

  /** One worker has settled the invoice, and another one has seen that. */
  function SettledAndSeen(): State {
    State(Unpaid, Settled, Some(0), map[1 := Seen(true), 0 := LndSettled(false)], [], false, false)
  }

  lemma SettledAndSeenReachable(guard: Guard)
    ensures Reachable(guard, SettledAndSeen())
  {
    StartIsReachable(guard);
    Extend(guard, START, Arrive);
    Extend(guard, START.(lnd := Held), Fetch(1));
    FirstWorkerReachesLnd(guard, START.(lnd := Held, procs := map[1 := Fetched(false)]));
    var s := START.(lnd := Settled, procs := map[1 := Fetched(false)][0 := LndSettled(false)], lock := Some(0));
    Extend(guard, s, Lookup(1));
    assert Apply(guard, s, Lookup(1)) == SettledAndSeen();
  }

  /** The source's test lets two workers credit one payment, one after the other: the
      second one has read the record before, and the invoice after, the first settled it. */
  lemma TwoCreditsReachable()
    ensures exists s :: Reachable(OuterCopy, s) && !s.lost && |s.credits| == 2
  {
    SettledAndSeenReachable(OuterCopy);
    WorkerCredits(OuterCopy, SettledAndSeen(), 0);
    var s := State(Paid, Settled, None, SettledAndSeen().procs[0 := Wrapping], [Credit(0, false)], false, false);
    Extend(OuterCopy, s, Lock(1));
    var s1 := s.(procs := s.procs[1 := InLock(true)], lock := Some(1));
    SecondWorkerPasses(OuterCopy, s1);
    WorkerCredits(OuterCopy, s1.(procs := s1.procs[1 := LndSettled(true)]), 1);
  }

  /** Once the lock is lost, so does the test of the record: both workers pass it. */
  lemma LostLockTwoCreditsReachable(guard: Guard)
    ensures exists s :: Reachable(guard, s) && |s.credits| == 2
  {
    SettledAndSeenReachable(guard);
    Extend(guard, SettledAndSeen(), LoseLock);
    var s := SettledAndSeen().(lock := None, lost := true);
    Extend(guard, s, Lock(1));
    var s1 := s.(procs := s.procs[1 := InLock(true)], lock := Some(1));
    SecondWorkerPasses(guard, s1);
    var s2 := s1.(procs := s1.procs[1 := LndSettled(true)]);
    WorkerCredits(guard, s2, 0);
    WorkerCredits(guard, s2.(record := Paid, procs := s2.procs[0 := Wrapping], credits := [Credit(0, false)]), 1);
  }

  /** While no lock is lost, an invoice can be credited twice exactly with the source's
      test. */
  lemma TwoCreditsIff(guard: Guard)
    ensures (exists s :: Reachable(guard, s) && !s.lost && |s.credits| >= 2) <==> guard == OuterCopy
  {
    if guard == OuterCopy {
      TwoCreditsReachable();
    } else {
      forall s | Reachable(guard, s) && !s.lost ensures |s.credits| <= 1 {
        var run :| IsRun(guard, run) && run[|run| - 1] == s;
        CreditedAtMostOnce(run, |run| - 1);
      }
    }
  }

  // ----- when the record of a credited invoice is lost

  ghost predicate Leads(guard: Guard, s: State, s': State) {
    exists path :: IsPath(guard, path) && path[0] == s && path[|path| - 1] == s'
  }

  /** Credited and marked as paid, and no decliner is about to delete the record. */
  ghost predicate Safe(s: State) {
    s.lnd == Settled && s.record == Paid && forall w: nat :: !Declining(s.At(w))
  }

  lemma NobodyDeclines(s: State, step: Step)
    requires Safe(s) && Enabled(s, step)
    ensures !step.DeclinerDeletes? && !step.DeclinerCancels?
  {
    var w := if Mover(step).Some? then step.w else 0;
    assert !Declining(s.At(w));
  }

  lemma StepKeepsSafe(guard: Guard, s: State, step: Step)
    requires Safe(s) && Enabled(s, step)
    ensures Safe(Apply(guard, s, step))
  {
    var s' := Apply(guard, s, step);
    NobodyDeclines(s, step);
    forall x: nat ensures !Declining(s'.At(x)) {
      assert !Declining(s.At(x));
      if Mover(step) != Some(x) { OthersStay(guard, s, step, x); }
    }
  }

  lemma {:induction false} PathKeepsSafe(guard: Guard, path: seq<State>, i: nat)
    requires IsPath(guard, path) && Safe(path[0]) && i < |path|
    ensures Safe(path[i])
  {
    if i > 0 {
      PathKeepsSafe(guard, path, i - 1);
      assert StepsAt(guard, path, i - 1);
      var step :| Enabled(path[i - 1], step) && path[i] == Apply(guard, path[i - 1], step);
      StepKeepsSafe(guard, path[i - 1], step);
    }
  }

  lemma DeclinerDeletesIt(guard: Guard, s: State, w: nat)
    requires s.lnd == Settled && Declining(s.At(w))
    ensures exists s' :: Leads(guard, s, s') && s'.record == Absent && s'.credits == s.credits
  {
    var s1 := if s.At(w).DeclinerSeen? then Apply(guard, s, DeclinerCancels(w)) else s;
    var s2 := Apply(guard, s1, DeclinerDeletes(w));
    assert IsPath(guard, [s]);
    assert s1 != s ==> Next(guard, s, s1);
    assert Next(guard, s1, s2);
    if s.At(w).DeclinerSeen? {
      PathExtends(guard, [s], s1);
      PathExtends(guard, [s] + [s1], s2);
      assert ([s] + [s1] + [s2])[0] == s && ([s] + [s1] + [s2])[2] == s2;
    } else {
      PathExtends(guard, [s], s2);
      assert ([s] + [s2])[0] == s && ([s] + [s2])[1] == s2;
    }
  }

  /** The record of a credited invoice that is marked as paid can be lost exactly when a
      decliner is at work that saw the invoice held, because cancelling a settled invoice
      reports success. */
  lemma CreditedRecordLostIff(guard: Guard, s: State)
    requires Reachable(guard, s) && s.credits != [] && s.record == Paid
    ensures (exists s' :: Leads(guard, s, s') && s'.record != Paid) <==> exists w: nat :: Declining(s.At(w))
  {
    var run :| IsRun(guard, run) && run[|run| - 1] == s;
    RunKeepsInv(guard, run, |run| - 1);
    if w: nat :| Declining(s.At(w)) {
      DeclinerDeletesIt(guard, s, w);
    } else {
      forall s' | Leads(guard, s, s') ensures s'.record == Paid {
        var path :| IsPath(guard, path) && path[0] == s && path[|path| - 1] == s';
        PathKeepsSafe(guard, path, |path| - 1);
      }
    }
  }

  lemma DeclinerSeesCreditComing()
    ensures Reachable(ReReadCopy,
              State(Unpaid, Settled, Some(0), map[1 := DeclinerSeen, 0 := LndSettled(false)], [], false, true))
  {
    StartIsReachable(ReReadCopy);
    Extend(ReReadCopy, START, Arrive);
    Extend(ReReadCopy, START.(lnd := Held), DeclinerLooks(1));
    FirstWorkerReachesLnd(ReReadCopy, START.(lnd := Held, procs := map[1 := DeclinerSeen], declined := true));
  }

  /** Such a decliner can be there. */
  lemma CreditedRecordDeletedReachable()
    ensures exists s :: Reachable(ReReadCopy, s) && s.credits != [] && s.record == Absent
  {
    DeclinerSeesCreditComing();
    var s := State(Unpaid, Settled, Some(0), map[1 := DeclinerSeen, 0 := LndSettled(false)], [], false, true);
    WorkerCredits(ReReadCopy, s, 0);
    var s1 := s.(record := Paid, procs := s.procs[0 := Wrapping], lock := None, credits := [Credit(0, false)]);
    Extend(ReReadCopy, s1, DeclinerCancels(1));
    Extend(ReReadCopy, s1.Move(1, DeclinerCanceled), DeclinerDeletes(1));
  }

  // ----- one worker, running alone

  /** The call that fails, if any. */
  datatype Failing =
    | Nothing | NodeLookup | DeclineLookup | Canceling | Deleting
    | FindRecord | Pricing | Settling | Marking | Crediting

  const MAX_SATS := 10000000000000

  /** An invoice that is not paid has received nothing, which is not acceptable either. */
  predicate Acceptable(received: int) {
    0 < received <= MAX_SATS
  }

  /** What a worker does next up to its wrapping up: the step of the call it makes, or its
      failing if that call fails. Deleting a record that is not there fails, and so does
      declining a settled invoice. */
  function AloneStep(received: int, failing: Failing, s: State, w: nat): Option<Step> {
    match s.At(w)
    case Fetched(_) =>
      if failing == NodeLookup then Some(WorkerFails(w))
      else if s.lnd == Missing then
        Some(if failing == Deleting || s.record == Absent then WorkerFails(w) else LookupMissing(w))
      else if Acceptable(received) then Some(Lookup(w))
      else Some(if failing == DeclineLookup || s.lnd == Settled then WorkerFails(w) else DeclinerLooks(w))
    case Seen(_) => Some(Lock(w))
    case InLock(_) => Some(if failing == FindRecord then WorkerFails(w) else ReRead(w))
    case Passed(settled) =>
      Some(if failing == Pricing || (failing == Settling && !settled) then WorkerFails(w) else SettleAtLnd(w))
    case LndSettled(_) => Some(if failing == Marking then WorkerFails(w) else MarkAsPaid(w))
    case Marked(_) => Some(if failing == Crediting then WorkerFails(w) else CreditWallet(w))
    case DeclinerSeen => Some(if failing == Canceling then WorkerFails(w) else DeclinerCancels(w))
    case DeclinerCanceled => Some(if failing == Deleting then WorkerFails(w) else DeclinerDeletes(w))
    case _ => None
  }

  /** How far a worker still is from its end. */
  function Distance(pc: Pc): nat {
    match pc
    case Fetched(_) => 7
    case Seen(_) => 6
    case InLock(_) => 5
    case Passed(_) => 4
    case LndSettled(_) => 3
    case Marked(_) => 2
    case DeclinerSeen => 2
    case DeclinerCanceled => 1
    case _ => 0
  }

  function RunAlone(guard: Guard, received: int, failing: Failing, s: State, w: nat): State
    decreases Distance(s.At(w))
  {
    var step := AloneStep(received, failing, s, w);
    if step.None? || !Enabled(s, step.value) then s
    else RunAlone(guard, received, failing, Apply(guard, s, step.value), w)
  }

  /** A worker that has read a copy of the record, and nobody else. */
  function OneWorker(record: Record, lnd: LndState, copyPaid: bool): State {
    State(record, lnd, None, map[0 := Fetched(copyPaid)], [], false, false)
  }

  /** A worker that ended with a result or an error marks the record, unless its copy was
      marked. */
  function WrappedUp(guard: Guard, copyPaid: bool, s: State, w: nat): State {
    if s.At(w).Wrapping? && !copyPaid then Apply(guard, s, WrapUp(w)) else s
  }

  /** All of it are steps of the protocol. */
  lemma {:induction false} AloneLeads(guard: Guard, received: int, failing: Failing, s: State, w: nat)
    ensures Leads(guard, s, RunAlone(guard, received, failing, s, w))
    decreases Distance(s.At(w))
  {
    var step := AloneStep(received, failing, s, w);
    if step.None? || !Enabled(s, step.value) {
      assert IsPath(guard, [s]) && [s][0] == s;
    } else {
      var s' := AloneGoes(guard, received, failing, s, w, step.value);
      AloneDecreases(guard, received, failing, s, w);
      AloneLeads(guard, received, failing, s', w);
      assert Next(guard, s, s');
      LeadsBefore(guard, s, s', RunAlone(guard, received, failing, s', w));
    }
  }

  lemma AloneDecreases(guard: Guard, received: int, failing: Failing, s: State, w: nat)
    requires var step := AloneStep(received, failing, s, w); step.Some? && Enabled(s, step.value)
    ensures Distance(Apply(guard, s, AloneStep(received, failing, s, w).value).At(w)) < Distance(s.At(w))
  {
    var step := AloneStep(received, failing, s, w).value;
    if step.WorkerFails? {
      assert Apply(guard, s, step).At(w) == Wrapping;
    } else {
      StepDecreases(guard, s, step);
    }
  }

  lemma StepDecreases(guard: Guard, s: State, step: Step)
    requires Mover(step).Some? && Enabled(s, step) && Distance(s.At(step.w)) > 0
    ensures Distance(Apply(guard, s, step).At(step.w)) < Distance(s.At(step.w))
  {
  }

  lemma LeadsBefore(guard: Guard, s: State, s': State, s'': State)
    requires Next(guard, s, s') && Leads(guard, s', s'')
    ensures Leads(guard, s, s'')
  {
    var path :| IsPath(guard, path) && path[0] == s' && path[|path| - 1] == s'';
    var longer := [s] + path;
    forall i | 0 <= i < |longer| - 1 ensures StepsAt(guard, longer, i) {
      if i > 0 { assert StepsAt(guard, path, i - 1); }
    }
    assert IsPath(guard, longer) && longer[0] == s && longer[|longer| - 1] == s'';
  }

  lemma AloneGoes(guard: Guard, received: int, failing: Failing, s: State, w: nat, step: Step) returns (s': State)
    requires AloneStep(received, failing, s, w) == Some(step) && Enabled(s, step)
    ensures s' == Apply(guard, s, step)
    ensures RunAlone(guard, received, failing, s, w) == RunAlone(guard, received, failing, s', w)
  {
    s' := Apply(guard, s, step);
  }

  lemma AloneRests(guard: Guard, received: int, failing: Failing, s: State, w: nat)
    requires s.At(w).Wrapping? || s.At(w).Done?
    ensures RunAlone(guard, received, failing, s, w) == s
  {
  }

  lemma AloneFails(guard: Guard, received: int, failing: Failing, s: State, w: nat)
    requires AloneStep(received, failing, s, w) == Some(WorkerFails(w)) && Enabled(s, WorkerFails(w))
    ensures RunAlone(guard, received, failing, s, w) == s.Leave(w)
  {
    var s' := AloneGoes(guard, received, failing, s, w, WorkerFails(w));
    AloneRests(guard, received, failing, s', w);
  }

  lemma AloneMarked(guard: Guard, received: int, failing: Failing, s: State, w: nat)
    requires s.At(w).Marked?
    ensures var g := RunAlone(guard, received, failing, s, w);
            && g.lnd == s.lnd && g.record == s.record && g.At(w).Wrapping?
            && |g.credits| == |s.credits| + (if failing == Crediting then 0 else 1)
  {
    if failing == Crediting {
      AloneFails(guard, received, failing, s, w);
    } else {
      var s' := AloneGoes(guard, received, failing, s, w, CreditWallet(w));
      AloneRests(guard, received, failing, s', w);
    }
  }

  /** From the node on: the record is marked and the wallet credited. */
  lemma AloneCredits(guard: Guard, received: int, failing: Failing, s: State, w: nat)
    requires s.At(w).LndSettled? && s.record != Absent
    ensures var g := RunAlone(guard, received, failing, s, w);
            && g.lnd == s.lnd && g.record == (if failing == Marking then s.record else Paid)
            && |g.credits| == |s.credits| + (if failing in {Marking, Crediting} then 0 else 1)
            && g.At(w).Wrapping?
  {
    if failing == Marking {
      AloneFails(guard, received, failing, s, w);
    } else {
      var s' := AloneGoes(guard, received, failing, s, w, MarkAsPaid(w));
      AloneMarked(guard, received, failing, s', w);
    }
  }

  lemma AlonePassed(guard: Guard, received: int, failing: Failing, s: State, w: nat)
    requires s.At(w).Passed? && s.record != Absent && (if s.At(w).settled then s.lnd == Settled else s.lnd == Held)
    ensures var g := RunAlone(guard, received, failing, s, w);
            var settles := failing != Pricing && (s.lnd == Settled || failing != Settling);
            && g.lnd == (if settles then Settled else s.lnd)
            && g.record == (if settles && failing != Marking then Paid else s.record)
            && |g.credits| == |s.credits| + (if settles && failing !in {Marking, Crediting} then 1 else 0)
            && g.At(w).Wrapping?
  {
    if failing == Pricing || (failing == Settling && !s.At(w).settled) {
      AloneFails(guard, received, failing, s, w);
    } else {
      var s' := AloneGoes(guard, received, failing, s, w, SettleAtLnd(w));
      AloneCredits(guard, received, failing, s', w);
    }
  }

  /** Under the lock: the tests and the node. */
  lemma AloneLocked(guard: Guard, received: int, failing: Failing, s: State, w: nat)
    requires s.At(w).InLock? && (if s.At(w).settled then s.lnd == Settled else s.lnd == Held)
    ensures var g := RunAlone(guard, received, failing, s, w);
            var passes := && failing !in {FindRecord, Pricing} && s.record != Absent
                          && (guard == ReReadCopy ==> s.record == Unpaid);
            var settles := passes && (s.lnd == Settled || failing != Settling);
            && g.lnd == (if settles then Settled else s.lnd)
            && g.record == (if settles && failing != Marking then Paid else s.record)
            && |g.credits| == |s.credits| + (if settles && failing !in {Marking, Crediting} then 1 else 0)
            && (g.At(w).Wrapping? <==> s.record != Absent || failing == FindRecord)
  {
    if failing == FindRecord {
      AloneFails(guard, received, failing, s, w);
    } else {
      var s' := AloneGoes(guard, received, failing, s, w, ReRead(w));
      if s'.At(w).Passed? {
        AlonePassed(guard, received, failing, s', w);
      } else {
        AloneRests(guard, received, failing, s', w);
      }
    }
  }

  lemma AloneCanceled(guard: Guard, received: int, failing: Failing, s: State, w: nat)
    requires s.At(w).DeclinerCanceled?
    ensures var g := RunAlone(guard, received, failing, s, w);
            && g.lnd == s.lnd && g.record == (if failing == Deleting then s.record else Absent)
            && g.credits == s.credits && (g.At(w).Wrapping? <==> failing == Deleting)
  {
    if failing == Deleting {
      AloneFails(guard, received, failing, s, w);
    } else {
      var s' := AloneGoes(guard, received, failing, s, w, DeclinerDeletes(w));
      AloneRests(guard, received, failing, s', w);
    }
  }

  /** What becomes of an amount that is not acceptable. */
  lemma AloneDeclines(guard: Guard, received: int, failing: Failing, s: State, w: nat)
    requires s.At(w).DeclinerSeen? && s.lnd == Held
    ensures var g := RunAlone(guard, received, failing, s, w);
            && g.lnd == (if failing == Canceling then Held else Canceled)
            && g.record == (if failing in {Canceling, Deleting} then s.record else Absent)
            && g.credits == s.credits && (g.At(w).Wrapping? <==> failing in {Canceling, Deleting})
  {
    if failing == Canceling {
      AloneFails(guard, received, failing, s, w);
    } else {
      var s' := AloneGoes(guard, received, failing, s, w, DeclinerCancels(w));
      AloneCanceled(guard, received, failing, s', w);
    }
  }

  /** One worker alone with an amount that is acceptable, for whatever it finds and
      whichever call fails: exactly when it settles, credits, marks and deletes. */
  lemma AloneEnds(guard: Guard, received: int, failing: Failing, record: Record, lnd: LndState, copyPaid: bool)
    requires 0 < received <= MAX_SATS
    ensures var g := RunAlone(guard, received, failing, OneWorker(record, lnd, copyPaid), 0);
            var works := failing != NodeLookup && !copyPaid && lnd in {Held, Settled};
            var passes := && works && failing !in {FindRecord, Pricing} && record != Absent
                          && (guard == ReReadCopy ==> record == Unpaid);
            var settles := passes && (lnd == Settled || failing != Settling);
            var deletes := failing !in {NodeLookup, Deleting} && lnd == Missing;
            && g.lnd == (if settles then Settled else lnd)
            && g.record == (if deletes then Absent else if settles && failing != Marking then Paid else record)
            && |g.credits| == (if settles && failing !in {Marking, Crediting} then 1 else 0)
            && (g.At(0).Wrapping? <==>
                  || failing == NodeLookup
                  || (works && (record != Absent || failing == FindRecord))
                  || (lnd == Missing && (failing == Deleting || record == Absent)))
  {
    var s := OneWorker(record, lnd, copyPaid);
    if failing == NodeLookup || lnd == Missing {
      AloneStopsAtNode(guard, received, failing, s);
    } else {
      AloneLooks(guard, received, failing, record, lnd, copyPaid);
    }
  }

  lemma AloneLooks(guard: Guard, received: int, failing: Failing, record: Record, lnd: LndState, copyPaid: bool)
    requires 0 < received <= MAX_SATS && failing != NodeLookup && lnd != Missing
    ensures var g := RunAlone(guard, received, failing, OneWorker(record, lnd, copyPaid), 0);
            var works := !copyPaid && lnd in {Held, Settled};
            var passes := && works && failing !in {FindRecord, Pricing} && record != Absent
                          && (guard == ReReadCopy ==> record == Unpaid);
            var settles := passes && (lnd == Settled || failing != Settling);
            && g.lnd == (if settles then Settled else lnd)
            && g.record == (if settles && failing != Marking then Paid else record)
            && |g.credits| == (if settles && failing !in {Marking, Crediting} then 1 else 0)
            && (g.At(0).Wrapping? <==> works && (record != Absent || failing == FindRecord))
  {
    var s := OneWorker(record, lnd, copyPaid);
    var s1 := AloneGoes(guard, received, failing, s, 0, Lookup(0));
    if copyPaid || lnd in {Open, Canceled} {
      AloneRests(guard, received, failing, s1, 0);
    } else {
      AloneEnters(guard, received, failing, s1);
    }
  }

  lemma AloneEnters(guard: Guard, received: int, failing: Failing, s: State)
    requires s.At(0).Seen? && s.lock.None? && (if s.At(0).settled then s.lnd == Settled else s.lnd == Held)
    ensures var g := RunAlone(guard, received, failing, s, 0);
            var passes := && failing !in {FindRecord, Pricing} && s.record != Absent
                          && (guard == ReReadCopy ==> s.record == Unpaid);
            var settles := passes && (s.lnd == Settled || failing != Settling);
            && g.lnd == (if settles then Settled else s.lnd)
            && g.record == (if settles && failing != Marking then Paid else s.record)
            && |g.credits| == |s.credits| + (if settles && failing !in {Marking, Crediting} then 1 else 0)
            && (g.At(0).Wrapping? <==> s.record != Absent || failing == FindRecord)
  {
    var s1 := AloneGoes(guard, received, failing, s, 0, Lock(0));
    AloneLocked(guard, received, failing, s1, 0);
  }

  lemma AloneStopsAtNode(guard: Guard, received: int, failing: Failing, s: State)
    requires s.At(0).Fetched? && (failing == NodeLookup || s.lnd == Missing)
    ensures var g := RunAlone(guard, received, failing, s, 0);
            && g.lnd == s.lnd && g.credits == s.credits
            && g.record == (if failing !in {NodeLookup, Deleting} then Absent else s.record)
            && (g.At(0).Wrapping? <==> failing in {NodeLookup, Deleting} || s.record == Absent)
  {
    if failing in {NodeLookup, Deleting} || s.record == Absent {
      AloneFails(guard, received, failing, s, 0);
    } else {
      var s1 := AloneGoes(guard, received, failing, s, 0, LookupMissing(0));
      AloneRests(guard, received, failing, s1, 0);
    }
  }

  /** And with one that is not: a held invoice is cancelled and its record deleted. */
  lemma AloneEndsDeclining(guard: Guard, received: int, failing: Failing, record: Record, lnd: LndState, copyPaid: bool)
    requires !(0 < received <= MAX_SATS)
    ensures var g := RunAlone(guard, received, failing, OneWorker(record, lnd, copyPaid), 0);
            var declines := failing !in {NodeLookup, DeclineLookup, Canceling} && lnd == Held;
            var deletes := failing !in {NodeLookup, Deleting} && (declines || lnd == Missing);
            && g.lnd == (if declines then Canceled else lnd)
            && g.record == (if deletes then Absent else record) && g.credits == []
            && (g.At(0).Wrapping? <==>
                  || failing == NodeLookup
                  || (lnd == Missing && (failing == Deleting || record == Absent))
                  || (lnd != Missing
                      && (failing == DeclineLookup || lnd == Settled
                          || (lnd == Held && failing in {Canceling, Deleting}))))
  {
    var s := OneWorker(record, lnd, copyPaid);
    if failing == NodeLookup || lnd == Missing {
      AloneStopsAtNode(guard, received, failing, s);
    } else if failing == DeclineLookup || lnd == Settled {
      AloneFails(guard, received, failing, s, 0);
    } else {
      AloneLooksDeclining(guard, received, failing, s);
    }
  }

  lemma AloneLooksDeclining(guard: Guard, received: int, failing: Failing, s: State)
    requires s.At(0).Fetched? && !Acceptable(received) && failing !in {NodeLookup, DeclineLookup}
    requires s.lnd != Missing && s.lnd != Settled
    ensures var g := RunAlone(guard, received, failing, s, 0);
            var declines := failing != Canceling && s.lnd == Held;
            && g.lnd == (if declines then Canceled else s.lnd)
            && g.record == (if declines && failing != Deleting then Absent else s.record) && g.credits == s.credits
            && (g.At(0).Wrapping? <==> s.lnd == Held && failing in {Canceling, Deleting})
  {
    var s1 := AloneGoes(guard, received, failing, s, 0, DeclinerLooks(0));
    if s.lnd == Held {
      AloneDeclines(guard, received, failing, s1, 0);
    } else {
      AloneRests(guard, received, failing, s1, 0);
    }
  }

  /** Wrapping up marks the record that is there, unless the copy was paid, exactly when the
      worker found something to do. */
  lemma AloneWrapsUp(guard: Guard, received: int, failing: Failing, record: Record, lnd: LndState, copyPaid: bool)
    ensures var alone := RunAlone(guard, received, failing, OneWorker(record, lnd, copyPaid), 0);
            var g := WrappedUp(guard, copyPaid, alone, 0);
            var idle := && failing != NodeLookup
                        && (if lnd == Missing then record != Absent && failing != Deleting
                            else if !(0 < received <= MAX_SATS) then lnd in {Open, Canceled} && failing != DeclineLookup
                            else !copyPaid && (lnd in {Open, Canceled} || (record == Absent && failing != FindRecord)));
            && g.lnd == alone.lnd && g.credits == alone.credits
            && g.record == (if !idle && !copyPaid && alone.record != Absent then Paid else alone.record)
  {
    if Acceptable(received) {
      AloneEnds(guard, received, failing, record, lnd, copyPaid);
    } else {
      AloneEndsDeclining(guard, received, failing, record, lnd, copyPaid);
    }
  }

  /** The stores that a worker reads and writes. */
  class InvoiceDesk {
    var record: Record
    var lnd: LndState
    var credits: nat

    /** Process a pending invoice from a copy of its record. The result is whether it
        has been processed; an error counts as that, too, and marks the record as paid in
        the end, also when marking it failed before. The stores end up as a worker of the
        protocol leaves them, alone. */
    method UpdatePendingInvoice(guard: Guard, copyPaid: bool, received: int, failing: Failing)
      returns (processed: bool)
      modifies this
      ensures !processed <==>
                && failing != NodeLookup
                && (if old(lnd) == Missing then old(record) != Absent && failing != Deleting
                    else if !(0 < received <= MAX_SATS) then old(lnd) in {Open, Canceled} && failing != DeclineLookup
                    else && !copyPaid
                         && (old(lnd) in {Open, Canceled} || (old(record) == Absent && failing != FindRecord)))
      ensures && 0 < received <= MAX_SATS && !copyPaid && old(record) == Unpaid && old(lnd) in {Held, Settled}
              && failing == Nothing ==>
                credits == old(credits) + 1 && record == Paid && lnd == Settled
      ensures var alone := RunAlone(guard, received, failing, OneWorker(old(record), old(lnd), copyPaid), 0);
              var g := WrappedUp(guard, copyPaid, alone, 0);
              record == g.record && lnd == g.lnd && credits == old(credits) + |g.credits|
    {
      processed := UpdateBeforeFinally(guard, copyPaid, received, failing);
      AloneWrapsUp(guard, received, failing, old(record), old(lnd), copyPaid);
      if 0 < received <= MAX_SATS && failing == Nothing {
        AloneEnds(guard, received, failing, old(record), old(lnd), copyPaid);
      }
      if processed && !copyPaid && record != Absent { record := Paid; }
    }

    method UpdateBeforeFinally(guard: Guard, copyPaid: bool, received: int, failing: Failing)
      returns (processed: bool)
      modifies this
      ensures !processed <==>
                && failing != NodeLookup
                && (if old(lnd) == Missing then old(record) != Absent && failing != Deleting
                    else if !(0 < received <= MAX_SATS) then old(lnd) in {Open, Canceled} && failing != DeclineLookup
                    else && !copyPaid
                         && (old(lnd) in {Open, Canceled} || (old(record) == Absent && failing != FindRecord)))
      ensures var g := RunAlone(guard, received, failing, OneWorker(old(record), old(lnd), copyPaid), 0);
              record == g.record && lnd == g.lnd && credits == old(credits) + |g.credits|
    {
      if Acceptable(received) {
        AloneEnds(guard, received, failing, record, lnd, copyPaid);
      } else {
        AloneEndsDeclining(guard, received, failing, record, lnd, copyPaid);
      }
      if failing == NodeLookup { return true; }
      if lnd == Missing {
        var deleted := DeleteRecord(failing);
        return !deleted;
      }
      if !Acceptable(received) {
        processed := DeclineHeldInvoice(failing);
        return;
      }
      if copyPaid { return true; }
      if lnd != Held && lnd != Settled { return false; }
      var sawSettled := lnd == Settled;
      if failing == FindRecord { return true; }
      if record == Absent { return false; }
      if guard == ReReadCopy && record == Paid { return true; }
      if failing == Pricing { return true; }
      if !sawSettled {
        if failing == Settling { return true; }
        lnd := Settled;
      }
      if failing == Marking { return true; }
      record := Paid;
      if failing == Crediting { return true; }
      credits := credits + 1;
      return true;
    }

    /** Deleting a record that is not there is an error. */
    method DeleteRecord(failing: Failing) returns (deleted: bool)
      modifies `record
      ensures deleted <==> failing != Deleting && old(record) != Absent
      ensures record == if deleted then Absent else old(record)
    {
      if failing == Deleting || record == Absent { return false; }
      record := Absent;
      return true;
    }

    /** Cancel a held invoice and forget it. A settled one cannot be declined, which is an
        error. */
    method DeclineHeldInvoice(failing: Failing) returns (processed: bool)
      modifies `record, `lnd
      ensures processed <==> failing == DeclineLookup || lnd == Settled || old(lnd) == Held
                             || (lnd == Missing && (failing == Deleting || old(record) == Absent))
      ensures lnd == if old(lnd) == Held && failing !in {DeclineLookup, Canceling} then Canceled else old(lnd)
      ensures record == if failing !in {DeclineLookup, Deleting}
                           && (old(lnd) == Missing || (old(lnd) == Held && failing != Canceling))
                        then Absent else old(record)
    {
      if failing == DeclineLookup { return true; }
      var deleted;
      if lnd == Missing {
        deleted := DeleteRecord(failing);
        return !deleted;
      }
      if lnd == Settled { return true; }
      if lnd != Held { return false; }
      if failing == Canceling { return true; }
      lnd := Canceled;
      deleted := DeleteRecord(failing);
      return true;
    }
  }
}

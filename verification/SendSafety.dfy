/** What every run of the send protocol keeps. The proof looks at one attempt at a
    time: a step of the whole system moves each attempt by one of a few local moves. */
module SendSafety {
  import opened LedgerBook
  import opened Outcomes
  import opened SendProtocol

  // ----- refunds

  /** A refund is at most one transaction, of its attempt. */
  lemma RefundShape(a: Attempt, j: nat, answer: LnStatus, actor: Actor)
    requires a.Ln?
    ensures var r := RefundTxns(a, j, answer, actor);
            && |r| <= 1
            && (r != [] ==>
                  && r[0].journal == j && r[0].hash == a.hash && !r[0].pending
                  && r[0].kind in {Revert, FeeRefund, UsdRefund})
  {
  }

  /** It never debits ... */
  lemma RefundCredits(a: Attempt, j: nat, answer: LnStatus, actor: Actor)
    requires a.Ln? && NeverDebits(a)
    ensures var r := RefundTxns(a, j, answer, actor);
            r != [] ==> r[0].effect >= 0 && r[0].amounts.btc >= 0 && r[0].amounts.usd >= 0
  {
  }

  /** ... and never gives back more than was sent. */
  lemma RefundWithinSend(a: Attempt, j: nat, answer: LnStatus, actor: Actor)
    requires a.Ln? && Bounded(a)
    ensures var r := RefundTxns(a, j, answer, actor);
            r != [] ==> 0 <= r[0].amounts.btc <= a.total.btc && 0 <= r[0].amounts.usd <= a.total.usd
  {
  }

  // ----- one attempt at a time

  datatype Move =
    | Stay
    | Go(pc: SenderPc)
    | Enter
    | Resolved(status: LnStatus)
    | SettledBy(settler: Settler)
    | RefundedBy(actor: Actor)
    | Faulted(pc: SenderPc)

  ghost predicate Allowed(l: Local, m: Move) {
    match m
    case Stay => true
    case Go(pc) =>
      || (BeforeRecord(l.pc) && (BeforeRecord(pc) || pc.Done?))
      || (l.pc.Recorded? && (pc.Done? || (pc.Answered? && Told(Settler(Sender, pc.answer), l.status))))
      || (l.pc.Answered? && pc.Done?)
    case Enter => BeforeRecord(l.pc)
    case Resolved(status) => l.entries != [] && l.status == InFlight && status != InFlight
    case SettledBy(settler) =>
      && (exists t :: t in l.entries && t.pending)
      && Told(settler, l.status) && (settler.actor == Sender ==> l.pc == Answered(settler.answer))
    case RefundedBy(actor) =>
      l.settledBy.Some? && l.settledBy.value.actor == actor && l.refundedBy.None? && (actor == Sender ==> l.pc.Settled?)
    case Faulted(pc) => pc == l.pc || pc.Done?
  }

  ghost function Moved(a: Attempt, j: nat, l: Local, m: Move): Local
    requires a.Ln? && Allowed(l, m)
  {
    match m
    case Stay => l
    case Go(pc) => l.(pc := pc)
    case Enter => l.(pc := Recorded, entries := l.entries + [SendTxn(a, j, true)])
    case Resolved(status) => l.(status := status)
    case SettledBy(settler) =>
      l.(entries := Settle(l.entries, a.hash), settledBy := Some(settler),
         pc := if settler.actor == Sender then Settled(settler.answer) else l.pc)
    case RefundedBy(actor) =>
      var refund := RefundTxns(a, j, l.settledBy.value.answer, actor);
      l.(entries := l.entries + refund, refundedBy := if refund == [] then None else Some(actor),
         pc := if actor == Sender then Done else l.pc)
    case Faulted(pc) => l.(faulty := true, pc := pc)
  }

  lemma SettleOne(a: Attempt, j: nat)
    ensures Settle([SendTxn(a, j, true)], a.hash) == [SendTxn(a, j, false)]
  {
  }

  lemma PendingIsUnsettled(a: Attempt, j: nat, l: Local)
    requires a.Ln? && Shape(a, j, l) && exists t :: t in l.entries && t.pending
    ensures l.settledBy.None? && l.entries == [SendTxn(a, j, true)]
  {
    if l.settledBy.Some? { RefundShape(a, j, l.settledBy.value.answer, l.settledBy.value.actor); }
  }

  lemma SettledKeeps(a: Attempt, j: nat, l: Local, settler: Settler)
    requires a.Ln? && LocalInv(a, j, l) && Allowed(l, SettledBy(settler))
    ensures LocalInv(a, j, Moved(a, j, l, SettledBy(settler)))
  {
    PendingIsUnsettled(a, j, l);
    SettleOne(a, j);
  }

  lemma RefundedKeeps(a: Attempt, j: nat, l: Local, actor: Actor)
    requires a.Ln? && LocalInv(a, j, l) && Allowed(l, RefundedBy(actor))
    ensures LocalInv(a, j, Moved(a, j, l, RefundedBy(actor)))
  {
    var refund := RefundTxns(a, j, l.settledBy.value.answer, actor);
    RefundShape(a, j, l.settledBy.value.answer, actor);
    if refund == [] { assert l.entries + refund == l.entries; }
  }

  lemma EnterKeeps(a: Attempt, j: nat, l: Local)
    requires a.Ln? && LocalInv(a, j, l) && BeforeRecord(l.pc)
    ensures LocalInv(a, j, Moved(a, j, l, Enter))
  {
    assert l.entries + [SendTxn(a, j, true)] == [SendTxn(a, j, true)];
  }

  lemma MoveKeeps(a: Attempt, j: nat, l: Local, m: Move)
    requires a.Ln? && LocalInv(a, j, l) && Allowed(l, m)
    ensures LocalInv(a, j, Moved(a, j, l, m))
  {
    match m {
      case Enter => EnterKeeps(a, j, l);
      case SettledBy(settler) => SettledKeeps(a, j, l, settler);
      case RefundedBy(actor) => RefundedKeeps(a, j, l, actor);
      case _ =>
    }
  }

  /** Entries stay, a settled attempt stays settled by the same process, and the Lightning
      node does not change its mind. */
  lemma MoveMonotone(a: Attempt, j: nat, l: Local, m: Move)
    requires a.Ln? && LocalInv(a, j, l) && Allowed(l, m)
    ensures var l' := Moved(a, j, l, m);
            && (l.entries != [] ==> l'.entries != [])
            && (l.status != InFlight ==> l'.status == l.status)
            && (l.settledBy.Some? ==> l'.settledBy == l.settledBy)
  {
    match m {
      case SettledBy(_) => PendingIsUnsettled(a, j, l);
      case _ =>
    }
  }

  // ----- what a step does to the ledger

  lemma AppendMoves(l: seq<Txn>, more: seq<Txn>, k: nat)
    requires |more| <= 1
    ensures Of(l + more, k) == Of(l, k) + if more != [] && more[0].journal == k then more else []
  {
    if more == [] { assert l + more == l; } else { assert more == [more[0]]; AppendOne(l, more[0]); }
  }

  lemma AppendTwo(l: seq<Txn>, t: Txn, t': Txn)
    ensures forall w :: Balance(l + [t, t'], w) == Balance(l, w) + (if t.wallet == w then t.effect else 0)
                                                   + if t'.wallet == w then t'.effect else 0
    ensures forall j :: t.journal != j && t'.journal != j ==> Of(l + [t, t'], j) == Of(l, j)
  {
    AppendOne(l, t);
    AppendOne(l + [t], t');
    assert l + [t, t'] == l + [t] + [t'];
  }

  lemma RecordAppends(a: Attempt, j: nat, l: seq<Txn>, k: nat)
    ensures k != j ==> Of(l + RecordedTxns(a, j), k) == Of(l, k)
    ensures a.Ln? ==> Of(l + RecordedTxns(a, j), j) == Of(l, j) + [SendTxn(a, j, true)]
  {
    if a.Ln? {
      AppendOne(l, SendTxn(a, j, true));
    } else {
      var t := IntraledgerTxns(a, j);
      AppendTwo(l, t[0], t[1]);
      assert t == [t[0], t[1]];
    }
  }

  lemma SettleIdle(l: seq<Txn>, hash: string)
    requires forall t :: t in l ==> t.hash != hash
    ensures Settle(l, hash) == l
  {
  }

  lemma EntriesOwned(c: Attempts, l: seq<Txn>, k: nat)
    requires LedgerOwned(c, l) && k in c
    ensures forall t :: t in Of(l, k) ==> t.hash == c[k].hash
  {
    forall t | t in Of(l, k) ensures t.hash == c[k].hash { OfComesFrom(l, k, t); }
  }

  /** Clearing marks by the hash of attempt j reaches k only if the hash is the same. */
  lemma SettleEntries(c: Attempts, l: seq<Txn>, hash: string, k: nat)
    requires LedgerOwned(c, l) && k in c
    ensures Of(Settle(l, hash), k) == if hash == c[k].hash then Settle(Of(l, k), hash) else Of(l, k)
  {
    SettleOf(l, hash, k);
    if hash != c[k].hash {
      EntriesOwned(c, l, k);
      SettleIdle(Of(l, k), hash);
    }
  }

  /** With a hash of its own, what is pending under it is the attempt itself. */
  lemma PendingEntry(c: Attempts, l: seq<Txn>, k: nat)
    requires LedgerOwned(c, l) && k in c && PrivateHash(c, k) && HasPending(l, c[k].hash)
    ensures exists t :: t in Of(l, k) && t.pending
  {
    var i :| 0 <= i < |l| && l[i].hash == c[k].hash && l[i].pending;
    assert Owned(c, l[i]);
    OfMember(l, k, i);
  }

  /** Nothing else is paid under the hash of the attempt. */
  ghost predicate SoleUser(c: Attempts, j: nat)
    requires j in c
  {
    c[j].hash != "" && forall k :: k in c && k != j ==> c[k].hash != c[j].hash
  }

  /** Settled by whomever, refunded or not. */
  ghost predicate IsSettled(l: seq<Txn>, j: nat) {
    exists t :: t in Of(l, j) && !t.pending
  }

  /** The hash of a sole user is recorded exactly when its attempt is settled. */
  lemma RecordedIffSettled(c: Attempts, l: seq<Txn>, j: nat)
    requires LedgerOwned(c, l) && j in c && SoleUser(c, j)
    ensures IsRecorded(l, c[j].hash) <==> IsSettled(l, j)
  {
    if IsRecorded(l, c[j].hash) {
      var i :| 0 <= i < |l| && l[i].hash == c[j].hash && !l[i].pending;
      assert Owned(c, l[i]);
      OfMember(l, j, i);
    }
    if IsSettled(l, j) {
      var t :| t in Of(l, j) && !t.pending;
      OfComesFrom(l, j, t);
      EntriesOwned(c, l, j);
    }
  }

  lemma RefundLeavesOthers(a: Attempt, j: nat, answer: LnStatus, actor: Actor, l: seq<Txn>, k: nat)
    requires a.Ln? && k != j
    ensures Of(l + Granted(l, RefundTxns(a, j, answer, actor)), k) == Of(l, k)
  {
    RefundShape(a, j, answer, actor);
    AppendMoves(l, Granted(l, RefundTxns(a, j, answer, actor)), k);
  }

  /** A journal that holds nothing but its send can be voided. */
  lemma UnvoidedIsGranted(a: Attempt, j: nat, answer: LnStatus, actor: Actor, l: seq<Txn>)
    requires a.Ln? && Of(l, j) == [SendTxn(a, j, false)]
    ensures Granted(l, RefundTxns(a, j, answer, actor)) == RefundTxns(a, j, answer, actor)
  {
    RefundShape(a, j, answer, actor);
    if Voided(l, j) {
      var i :| 0 <= i < |l| && l[i].journal == j && l[i].kind == Revert;
      OfMember(l, j, i);
    }
  }

  // ----- what a step of one process does to the attempts of others

  /** Nothing but the ledger may have changed for attempt k. */
  predicate SameButEntries(s: State, s': State, k: nat) {
    LocalOf(s', k).(entries := []) == LocalOf(s, k).(entries := [])
  }

  lemma SameFields(s: State, s': State, k: nat)
    requires s'.Pc(k) == s.Pc(k) && s'.lnd == s.lnd && (k in s'.faults <==> k in s.faults)
    requires SameHistory(s, s', k)
    ensures SameButEntries(s, s', k)
  {
  }

  predicate SameHistory(s: State, s': State, k: nat) {
    && (k in s'.settledBy <==> k in s.settledBy) && (k in s.settledBy ==> s'.settledBy[k] == s.settledBy[k])
    && (k in s'.refundedBy <==> k in s.refundedBy) && (k in s.refundedBy ==> s'.refundedBy[k] == s.refundedBy[k])
  }

  /** The acts that write to the ledger, and those that only read or ask. */
  predicate Writes(act: SenderAct) {
    act.Record? || act.SettlePending? || act.Refund?
  }

  lemma ReaderFrame(c: Attempts, s: State, s': State, j: nat, act: SenderAct)
    requires SenderNext(c, s, s', j, act) && !Writes(act)
    ensures s'.ledger == s.ledger && s'.settledBy == s.settledBy && s'.refundedBy == s.refundedBy
    ensures s'.senders == s.senders[j := s'.Pc(j)]
  {
  }

  lemma RecordFrame(c: Attempts, s: State, s': State, j: nat)
    requires SenderNext(c, s, s', j, Record)
    ensures s.Pc(j).Checked? && !s'.Pc(j).Checked? && s'.senders == s.senders[j := s'.Pc(j)]
    ensures s'.locks == s.locks && s'.settledBy == s.settledBy && s'.refundedBy == s.refundedBy && s'.faults == s.faults
    ensures s'.ledger == if s.Holds(c[j].wallet, j) then s.ledger + RecordedTxns(c[j], j) else s.ledger
  {
  }

  lemma SettleFrame(c: Attempts, s: State, s': State, j: nat)
    requires SenderNext(c, s, s', j, SettlePending)
    ensures s'.senders == s.senders[j := s'.Pc(j)]
    ensures s'.locks == s.locks && s'.refundedBy == s.refundedBy && s'.faults == s.faults
    ensures s'.settledBy == s.settledBy || s'.settledBy == s.settledBy[j := Settler(Sender, s.Pc(j).answer)]
    ensures s'.ledger == s.ledger || s'.ledger == Settle(s.ledger, c[j].hash)
    ensures s.Pc(j).Answered? && (s'.Pc(j).Settled? || s'.Pc(j).Done?)
  {
  }

  lemma RefundFrame(c: Attempts, s: State, s': State, j: nat)
    requires SenderNext(c, s, s', j, Refund)
    ensures s'.senders == s.senders[j := s'.Pc(j)]
    ensures s'.locks == s.locks && s'.settledBy == s.settledBy && s'.faults == s.faults
    ensures s'.refundedBy == s.refundedBy || s'.refundedBy == s.refundedBy[j := Sender]
  {
  }

  lemma WriterFrame(c: Attempts, s: State, s': State, j: nat, act: SenderAct)
    requires SenderNext(c, s, s', j, act) && Writes(act)
    ensures s'.faults == s.faults && s'.senders == s.senders[j := s'.Pc(j)]
    ensures forall k :: k != j ==> SameHistory(s, s', k)
  {
    match act {
      case Record => RecordFrame(c, s, s', j);
      case SettlePending => SettleFrame(c, s, s', j);
      case Refund => RefundFrame(c, s, s', j);
      case _ =>
    }
  }

  lemma SenderPcs(c: Attempts, s: State, s': State, j: nat, act: SenderAct, k: nat)
    requires SenderNext(c, s, s', j, act) && k != j
    ensures s'.Pc(k) == s.Pc(k)
  {
    if Writes(act) { WriterFrame(c, s, s', j, act); } else { ReaderFrame(c, s, s', j, act); }
  }

  lemma SenderHistory(c: Attempts, s: State, s': State, j: nat, act: SenderAct, k: nat)
    requires SenderNext(c, s, s', j, act) && k != j
    ensures SameHistory(s, s', k)
  {
    if Writes(act) { WriterFrame(c, s, s', j, act); } else { ReaderFrame(c, s, s', j, act); }
  }

  lemma SenderFaults(c: Attempts, s: State, s': State, j: nat, act: SenderAct, k: nat)
    requires SenderNext(c, s, s', j, act) && k != j
    ensures k in s'.faults <==> k in s.faults
  {
    if Writes(act) { WriterFrame(c, s, s', j, act); }
  }

  lemma SenderLeavesOthers(c: Attempts, s: State, s': State, j: nat, act: SenderAct, k: nat)
    requires SenderNext(c, s, s', j, act) && k != j
    ensures SameButEntries(s, s', k)
  {
    SenderPcs(c, s, s', j, act, k);
    SenderHistory(c, s, s', j, act, k);
    SenderFaults(c, s, s', j, act, k);
    SenderLeavesUpdaters(c, s, s', j, act);
    SameFields(s, s', k);
  }

  lemma SenderLeavesUpdaters(c: Attempts, s: State, s': State, j: nat, act: SenderAct)
    requires SenderNext(c, s, s', j, act)
    ensures s'.updaters == s.updaters && s'.lnd == s.lnd
  {
  }

  lemma UpdaterReaderFrame(c: Attempts, s: State, s': State, u: nat, act: UpdaterAct)
    requires UpdaterNext(c, s, s', u, act) && !act.UpdaterSettle? && !act.UpdaterRefund?
    ensures s'.ledger == s.ledger && s'.settledBy == s.settledBy && s'.refundedBy == s.refundedBy
    ensures s'.faults == if act.UpdaterCallFails? && s.Up(u).UpdaterSettled? then s.faults + {s.Up(u).j} else s.faults
  {
  }

  lemma UpdaterWriterFrame(c: Attempts, s: State, s': State, u: nat, act: UpdaterAct)
    requires UpdaterNext(c, s, s', u, act) && (act.UpdaterSettle? || act.UpdaterRefund?)
    ensures s'.faults == s.faults
    ensures s'.settledBy == s.settledBy
            || (act.UpdaterSettle? && s'.settledBy == s.settledBy[s.Up(u).j := Settler(Updater(u), s.Up(u).status)])
    ensures s'.refundedBy == s.refundedBy
            || (act.UpdaterRefund? && s'.refundedBy == s.refundedBy[s.Up(u).j := Updater(u)])
  {
  }

  lemma UpdaterHistory(c: Attempts, s: State, s': State, u: nat, act: UpdaterAct, k: nat)
    requires UpdaterNext(c, s, s', u, act) && !s.Up(u).WorksOn(k)
    ensures SameHistory(s, s', k) && (k in s'.faults <==> k in s.faults)
  {
    if act.UpdaterSettle? || act.UpdaterRefund? {
      UpdaterWriterFrame(c, s, s', u, act);
    } else {
      UpdaterReaderFrame(c, s, s', u, act);
    }
  }

  lemma UpdaterLeavesOthers(c: Attempts, s: State, s': State, u: nat, act: UpdaterAct, k: nat)
    requires UpdaterNext(c, s, s', u, act) && !s.Up(u).WorksOn(k)
    ensures SameButEntries(s, s', k)
  {
    UpdaterHistory(c, s, s', u, act, k);
    UpdaterLeavesSenders(c, s, s', u, act);
    SameFields(s, s', k);
  }

  lemma UpdaterLeavesSenders(c: Attempts, s: State, s': State, u: nat, act: UpdaterAct)
    requires UpdaterNext(c, s, s', u, act)
    ensures s'.senders == s.senders && s'.locks == s.locks && s'.lnd == s.lnd
  {
  }

  lemma OtherUpdatersWait(c: Attempts, s: State, s': State, u: nat, act: UpdaterAct, u': nat)
    requires UpdaterNext(c, s, s', u, act) && u' != u
    ensures s'.Up(u') == s.Up(u')
  {
    assert s'.updaters == s.updaters[u := s'.Up(u)];
  }

  /** A sender settles Lightning payments only. */
  lemma AnsweredIsLn(c: Attempts, s: State, j: nat)
    requires RolesInv(c, s) && j in c && s.Pc(j).Answered?
    ensures c[j].Ln?
  {
    assert c[j].Intra? ==> BeforeRecord(s.Pc(j)) || s.Pc(j).Done?;
  }

  lemma SenderKeepsEntries(c: Attempts, s: State, s': State, j: nat, act: SenderAct, k: nat)
    requires CommonInv(c, s) && SenderNext(c, s, s', j, act) && k in c && k != j && PrivateHash(c, k)
    ensures Of(s'.ledger, k) == Of(s.ledger, k)
  {
    match act {
      case Record => RecordAppends(c[j], j, s.ledger, k);
      case SettlePending =>
        AnsweredIsLn(c, s, j);
        SettleEntries(c, s.ledger, c[j].hash, k);
      case Refund => RefundLeavesOthers(c[j], j, s.Pc(j).answer, Sender, s.ledger, k);
      case _ =>
    }
  }

  lemma UpdaterKeepsEntries(c: Attempts, s: State, s': State, u: nat, act: UpdaterAct, k: nat)
    requires CommonInv(c, s) && UpdaterNext(c, s, s', u, act) && !s.Up(u).WorksOn(k) && k in c && PrivateHash(c, k)
    ensures Of(s'.ledger, k) == Of(s.ledger, k)
  {
    match act {
      case UpdaterSettle =>
        assert s.Up(u).WorksOn(s.Up(u).j);
        SettleEntries(c, s.ledger, c[s.Up(u).j].hash, k);
      case UpdaterRefund => RefundLeavesOthers(c[s.Up(u).j], s.Up(u).j, s.Up(u).status, Updater(u), s.ledger, k);
      case _ =>
    }
  }

  // ----- what a process does to its own attempt

  ghost predicate Moves(c: Attempts, s: State, s': State, k: nat, m: Move)
    requires k in c && c[k].Ln?
  {
    && Allowed(LocalOf(s, k), m)
    && LocalOf(s', k) == Moved(c[k], k, LocalOf(s, k), m)
  }

  lemma RecordMoves(c: Attempts, s: State, s': State, k: nat) returns (m: Move)
    requires SenderNext(c, s, s', k, Record) && c[k].Ln?
    ensures Moves(c, s, s', k, m)
  {
    if s.Holds(c[k].wallet, k) {
      EnterMoves(c[k], s, k);
      m := Enter;
    } else {
      m := Go(Done);
    }
  }

  lemma EnterMoves(a: Attempt, s: State, k: nat)
    requires a.Ln? && BeforeRecord(s.Pc(k))
    ensures LocalOf(s.Append(RecordedTxns(a, k)).Move(k, Recorded), k) == Moved(a, k, LocalOf(s, k), Enter)
  {
    RecordAppends(a, k, s.ledger, k);
  }

  /** Settling, as seen from the attempt. */
  lemma SettledMoves(c: Attempts, s: State, k: nat, settler: Settler)
    requires LedgerOwned(c, s.ledger) && k in c && c[k].Ln? && PrivateHash(c, k) && HasPending(s.ledger, c[k].hash)
    requires Told(settler, s.Status(k)) && (settler.actor == Sender ==> s.Pc(k) == Answered(settler.answer))
    ensures Allowed(LocalOf(s, k), SettledBy(settler))
    ensures LocalOf(SettledState(s, c[k].hash, k, settler), k).(pc := Done)
         == Moved(c[k], k, LocalOf(s, k), SettledBy(settler)).(pc := Done)
  {
    SettleEntries(c, s.ledger, c[k].hash, k);
    PendingEntry(c, s.ledger, k);
  }

  lemma SenderSettleMoves(c: Attempts, s: State, s': State, k: nat) returns (m: Move)
    requires LedgerOwned(c, s.ledger) && SenderNext(c, s, s', k, SettlePending) && c[k].Ln? && PrivateHash(c, k)
    requires Told(Settler(Sender, s.Pc(k).answer), s.Status(k))
    ensures Moves(c, s, s', k, m)
  {
    if HasPending(s.ledger, c[k].hash) {
      var settler := Settler(Sender, s.Pc(k).answer);
      SettledMoves(c, s, k, settler);
      MovedPc(SettledState(s, c[k].hash, k, settler), k, Settled(settler.answer));
      m := SettledBy(settler);
    } else {
      MovedPc(s, k, Done);
      m := Go(Done);
    }
  }

  lemma MovedPc(s: State, k: nat, pc: SenderPc)
    ensures LocalOf(s.Move(k, pc), k) == LocalOf(s, k).(pc := pc)
  {
  }

  lemma SenderRefundMoves(c: Attempts, s: State, s': State, k: nat)
    requires SenderNext(c, s, s', k, Refund) && LocalInv(c[k], k, LocalOf(s, k))
    ensures Moves(c, s, s', k, RefundedBy(Sender))
  {
    RefundShape(c[k], k, s.Pc(k).answer, Sender);
    UnvoidedIsGranted(c[k], k, s.Pc(k).answer, Sender, s.ledger);
    AppendMoves(s.ledger, RefundTxns(c[k], k, s.Pc(k).answer, Sender), k);
  }

  /** Reading and asking ... */
  lemma SenderQuietMoves(c: Attempts, s: State, s': State, k: nat, act: SenderAct)
    requires SenderNext(c, s, s', k, act) && c[k].Ln? && !Writes(act) && !act.CallFails?
    ensures Moves(c, s, s', k, Go(s'.Pc(k)))
  {
  }

  /** ... and stopping. */
  lemma SenderStopMoves(c: Attempts, s: State, s': State, k: nat)
    requires SenderNext(c, s, s', k, CallFails) && c[k].Ln?
    ensures Moves(c, s, s', k, if s.Pc(k).Settled? then Faulted(Done) else Go(Done))
  {
  }

  lemma SenderMoves(c: Attempts, s: State, s': State, k: nat, act: SenderAct) returns (m: Move)
    requires CommonInv(c, s) && SenderNext(c, s, s', k, act) && c[k].Ln?
    requires PrivateHash(c, k) && LocalInv(c[k], k, LocalOf(s, k))
    ensures Moves(c, s, s', k, m)
  {
    match act {
      case Record => m := RecordMoves(c, s, s', k);
      case SettlePending => m := SenderSettleMoves(c, s, s', k);
      case Refund =>
        SenderRefundMoves(c, s, s', k);
        m := RefundedBy(Sender);
      case CallFails =>
        SenderStopMoves(c, s, s', k);
        m := if s.Pc(k).Settled? then Faulted(Done) else Go(Done);
      case _ =>
        SenderQuietMoves(c, s, s', k, act);
        m := Go(s'.Pc(k));
    }
  }

  lemma UpdaterSettleMoves(c: Attempts, s: State, s': State, u: nat, k: nat) returns (m: Move)
    requires LedgerOwned(c, s.ledger) && UpdaterNext(c, s, s', u, UpdaterSettle)
    requires s.Up(u).j == k && c[k].Ln? && PrivateHash(c, k)
    requires s.Up(u).status == s.Status(k) != InFlight
    ensures Moves(c, s, s', k, m)
  {
    if HasPending(s.ledger, c[k].hash) {
      var settler := Settler(Updater(u), s.Up(u).status);
      SettledMoves(c, s, k, settler);
      UpdaterMovedPc(SettledState(s, c[k].hash, k, settler), u, UpdaterSettled(k, s.Up(u).status), k);
      m := SettledBy(settler);
    } else {
      UpdaterMovedPc(s, u, Finished, k);
      m := Stay;
    }
  }

  lemma UpdaterMovedPc(s: State, u: nat, pc: UpdaterPc, k: nat)
    ensures LocalOf(s.MoveUpdater(u, pc), k) == LocalOf(s, k)
  {
  }

  lemma UpdaterRefundMoves(c: Attempts, s: State, s': State, u: nat, k: nat)
    requires UpdaterNext(c, s, s', u, UpdaterRefund) && s.Up(u).j == k
    requires UpdaterInv(s, u, k) && Shape(c[k], k, LocalOf(s, k))
    ensures Moves(c, s, s', k, RefundedBy(Updater(u)))
  {
    RefundShape(c[k], k, s.Up(u).status, Updater(u));
    UnvoidedIsGranted(c[k], k, s.Up(u).status, Updater(u), s.ledger);
    AppendMoves(s.ledger, RefundTxns(c[k], k, s.Up(u).status, Updater(u)), k);
  }

  lemma UpdaterMoves(c: Attempts, s: State, s': State, u: nat, act: UpdaterAct, k: nat) returns (m: Move)
    requires LedgerOwned(c, s.ledger) && UpdaterNext(c, s, s', u, act) && s.Up(u).WorksOn(k) && k in c && c[k].Ln?
    requires PrivateHash(c, k) && UpdaterInv(s, u, k) && Shape(c[k], k, LocalOf(s, k))
    ensures Moves(c, s, s', k, m)
  {
    match act {
      case UpdaterSettle => m := UpdaterSettleMoves(c, s, s', u, k);
      case UpdaterRefund =>
        UpdaterRefundMoves(c, s, s', u, k);
        m := RefundedBy(Updater(u));
      case UpdaterCallFails => m := if s.Up(u).UpdaterSettled? then Faulted(s.Pc(k)) else Stay;
      case _ => m := Stay;
    }
  }

  lemma OthersStepStays(s: State, s': State, k: nat)
    requires SameButEntries(s, s', k) && Of(s'.ledger, k) == Of(s.ledger, k)
    ensures LocalOf(s', k) == LocalOf(s, k)
  {
  }

  lemma EnvironmentMoves(c: Attempts, s: State, s': State, step: Step, k: nat) returns (m: Move)
    requires NextStep(c, s, s', step) && !step.BySender? && !step.ByUpdater? && k in c && c[k].Ln?
    ensures Moves(c, s, s', k, m)
  {
    if step.Deposit? { AppendOne(s.ledger, DepositTxn(step.wallet, step.amount, step.journal)); }
    m := if step.Resolve? && step.j == k then Resolved(step.status) else Stay;
  }

  /** Every step of the system is one allowed move of an attempt with a hash of its own. */
  lemma StepMoves(c: Attempts, s: State, s': State, step: Step, k: nat) returns (m: Move)
    requires CommonInv(c, s) && k in c && c[k].Ln? && PrivateHash(c, k)
    requires AttemptInv(c, s, k) && NextStep(c, s, s', step)
    ensures Moves(c, s, s', k, m)
  {
    match step {
      case BySender(j, act) =>
        if j == k {
          m := SenderMoves(c, s, s', k, act);
        } else {
          SenderLeavesOthers(c, s, s', j, act, k);
          SenderKeepsEntries(c, s, s', j, act, k);
          OthersStepStays(s, s', k);
          m := Stay;
        }
      case ByUpdater(u, act) =>
        if s.Up(u).WorksOn(k) {
          assert UpdaterInv(s, u, k);
          m := UpdaterMoves(c, s, s', u, act, k);
        } else {
          UpdaterLeavesOthers(c, s, s', u, act, k);
          UpdaterKeepsEntries(c, s, s', u, act, k);
          OthersStepStays(s, s', k);
          m := Stay;
        }
      case _ => m := EnvironmentMoves(c, s, s', step, k);
    }
  }

  // ----- what holds of all attempts together

  lemma OwnershipAppends(c: Attempts, l: seq<Txn>, more: seq<Txn>)
    requires LedgerOwned(c, l) && LedgerOwned(c, more)
    ensures LedgerOwned(c, l + more)
  {
  }

  lemma SettleKeepsOwnership(c: Attempts, l: seq<Txn>, hash: string)
    requires LedgerOwned(c, l)
    ensures LedgerOwned(c, Settle(l, hash))
  {
  }

  lemma RefundKeepsOwnership(c: Attempts, l: seq<Txn>, j: nat, answer: LnStatus, actor: Actor)
    requires LedgerOwned(c, l) && j in c && c[j].Ln?
    ensures LedgerOwned(c, l + RefundTxns(c[j], j, answer, actor))
    ensures LedgerOwned(c, l + Granted(l, RefundTxns(c[j], j, answer, actor)))
  {
    RefundShape(c[j], j, answer, actor);
    OwnershipAppends(c, l, RefundTxns(c[j], j, answer, actor));
    OwnershipAppends(c, l, Granted(l, RefundTxns(c[j], j, answer, actor)));
  }

  lemma StepKeepsOwnership(c: Attempts, s: State, s': State, step: Step)
    requires LedgerOwned(c, s.ledger) && NextStep(c, s, s', step)
    ensures LedgerOwned(c, s'.ledger)
  {
    match step {
      case Deposit(w, amount, j) => OwnershipAppends(c, s.ledger, [DepositTxn(w, amount, j)]);
      case BySender(j, act) => SenderKeepsOwnership(c, s, s', j, act);
      case ByUpdater(u, act) => UpdaterKeepsOwnership(c, s, s', u, act);
      case _ =>
    }
  }

  lemma SenderKeepsOwnership(c: Attempts, s: State, s': State, j: nat, act: SenderAct)
    requires LedgerOwned(c, s.ledger) && SenderNext(c, s, s', j, act)
    ensures LedgerOwned(c, s'.ledger)
  {
    match act {
      case Record => OwnershipAppends(c, s.ledger, RecordedTxns(c[j], j));
      case SettlePending => SettleKeepsOwnership(c, s.ledger, c[j].hash);
      case Refund => RefundKeepsOwnership(c, s.ledger, j, s.Pc(j).answer, Sender);
      case _ =>
    }
  }

  lemma UpdaterKeepsOwnership(c: Attempts, s: State, s': State, u: nat, act: UpdaterAct)
    requires LedgerOwned(c, s.ledger) && UpdaterNext(c, s, s', u, act)
    ensures LedgerOwned(c, s'.ledger)
  {
    match act {
      case UpdaterSettle => SettleKeepsOwnership(c, s.ledger, c[s.Up(u).j].hash);
      case UpdaterRefund => RefundKeepsOwnership(c, s.ledger, s.Up(u).j, s.Up(u).status, Updater(u));
      case _ =>
    }
  }

  lemma SenderKeepsIntra(c: Attempts, s: State, s': State, j: nat, act: SenderAct)
    requires SenderNext(c, s, s', j, act) && c[j].Intra? && (BeforeRecord(s.Pc(j)) || s.Pc(j).Done?)
    ensures BeforeRecord(s'.Pc(j)) || s'.Pc(j).Done?
  {
  }

  lemma UpdaterKeepsRoles(c: Attempts, s: State, s': State, u: nat, act: UpdaterAct)
    requires RolesInv(c, s) && UpdaterNext(c, s, s', u, act)
    ensures RolesInv(c, s')
  {
    UpdaterLeavesSenders(c, s, s', u, act);
    forall u', j | s'.Up(u').WorksOn(j) ensures j in c && c[j].Ln? {
      if u' != u {
        OtherUpdatersWait(c, s, s', u, act, u');
        assert s.Up(u').WorksOn(j);
      } else if !act.ListPending? {
        assert s.Up(u).WorksOn(j);
      }
    }
    forall j | j in c && c[j].Intra? ensures BeforeRecord(s'.Pc(j)) || s'.Pc(j).Done? {
      assert BeforeRecord(s.Pc(j)) || s.Pc(j).Done?;
    }
  }

  lemma SenderKeepsRoles(c: Attempts, s: State, s': State, j: nat, act: SenderAct)
    requires RolesInv(c, s) && SenderNext(c, s, s', j, act)
    ensures RolesInv(c, s')
  {
    SenderLeavesUpdaters(c, s, s', j, act);
    forall k | k in c && c[k].Intra? ensures BeforeRecord(s'.Pc(k)) || s'.Pc(k).Done? {
      assert BeforeRecord(s.Pc(k)) || s.Pc(k).Done?;
      if k == j { SenderKeepsIntra(c, s, s', j, act); } else { SenderLeavesOthers(c, s, s', j, act, k); }
    }
    forall u, k | s'.Up(u).WorksOn(k) ensures k in c && c[k].Ln? { assert s.Up(u).WorksOn(k); }
  }

  lemma StepKeepsCommon(c: Attempts, s: State, s': State, step: Step)
    requires CommonInv(c, s) && NextStep(c, s, s', step)
    ensures CommonInv(c, s')
  {
    StepKeepsOwnership(c, s, s', step);
    match step {
      case BySender(j, act) => SenderKeepsRoles(c, s, s', j, act);
      case ByUpdater(u, act) => UpdaterKeepsRoles(c, s, s', u, act);
      case _ => RolesStay(c, s, s');
    }
  }

  lemma RolesStay(c: Attempts, s: State, s': State)
    requires RolesInv(c, s) && s'.senders == s.senders && s'.updaters == s.updaters
    ensures RolesInv(c, s')
  {
    forall j | j in c && c[j].Intra? ensures BeforeRecord(s'.Pc(j)) || s'.Pc(j).Done? {
      assert BeforeRecord(s.Pc(j)) || s.Pc(j).Done?;
    }
    forall u, j | s'.Up(u).WorksOn(j) ensures j in c && c[j].Ln? { assert s.Up(u).WorksOn(j); }
  }

  // ----- who refunds

  lemma SenderRefunds(c: Attempts, s: State, s': State, j: nat, act: SenderAct, k: nat)
    requires SenderNext(c, s, s', j, act) && k !in s.refundedBy && k in s'.refundedBy
    ensures act.Refund? && j == k && s'.refundedBy[k] == Sender
  {
  }

  lemma UpdaterRefunds(c: Attempts, s: State, s': State, u: nat, act: UpdaterAct, k: nat)
    requires UpdaterNext(c, s, s', u, act) && k !in s.refundedBy && k in s'.refundedBy
    ensures act.UpdaterRefund? && s.Up(u).WorksOn(k) && s'.refundedBy[k] == Updater(u) && s'.Up(u).Finished?
  {
  }

  /** Only who settled an attempt refunds it, and an updater is done with that. */
  lemma OnlySettlerRefunds(c: Attempts, s: State, s': State, step: Step, k: nat)
    requires CommonInv(c, s) && k in c && c[k].Ln? && PrivateHash(c, k)
    requires AttemptInv(c, s, k) && NextStep(c, s, s', step)
    requires k !in s.refundedBy && k in s'.refundedBy
    ensures k in s.settledBy && s'.refundedBy[k] == s.settledBy[k].actor
    ensures match s.settledBy[k].actor
            case Sender => step == BySender(k, Refund)
            case Updater(u) => step == ByUpdater(u, UpdaterRefund) && s'.Up(u).Finished?
  {
    match step {
      case BySender(j, act) => SenderRefunds(c, s, s', j, act, k);
      case ByUpdater(u, act) =>
        UpdaterRefunds(c, s, s', u, act, k);
        assert UpdaterInv(s, u, k);
      case _ =>
    }
  }

  // ----- updaters

  lemma UpdaterOwnStep(c: Attempts, s: State, s': State, u: nat, act: UpdaterAct, k: nat)
    requires UpdaterNext(c, s, s', u, act) && s'.Up(u).WorksOn(k) && (act.ListPending? || UpdaterInv(s, u, k))
    ensures act.ListPending? || (s.Up(u).WorksOn(k) && s'.Up(u).status == s.Status(k) == s'.Status(k) != InFlight)
    ensures act.ListPending? ==> s'.Up(u).Listed? && SendTxn(c[k], k, true) in s'.ledger
    ensures s'.Up(u).UpdaterSettled? ==>
      && k in c && HasPending(s.ledger, c[k].hash) && s'.refundedBy == s.refundedBy
      && k in s'.settledBy && s'.settledBy[k] == Settler(Updater(u), s'.Up(u).status)
  {
  }

  lemma UpdaterKeepsItsInv(c: Attempts, s: State, s': State, u: nat, act: UpdaterAct, k: nat)
    requires CommonInv(c, s) && k in c && c[k].Ln? && PrivateHash(c, k)
    requires AttemptInv(c, s, k) && UpdaterNext(c, s, s', u, act)
    requires s.Up(u).WorksOn(k) ==> Of(s'.ledger, k) != []
    ensures UpdaterInv(s', u, k)
  {
    assert UpdaterInv(s, u, k);
    if s'.Up(u).WorksOn(k) {
      UpdaterOwnStep(c, s, s', u, act, k);
      if act.ListPending? {
        var i :| 0 <= i < |s'.ledger| && s'.ledger[i] == SendTxn(c[k], k, true);
        OfMember(s'.ledger, k, i);
      } else if s'.Up(u).UpdaterSettled? {
        PendingIsUnrefunded(c, s, k);
      }
    }
  }

  lemma PendingIsUnrefunded(c: Attempts, s: State, k: nat)
    requires LedgerOwned(c, s.ledger) && k in c && c[k].Ln? && PrivateHash(c, k) && LocalInv(c[k], k, LocalOf(s, k))
    requires HasPending(s.ledger, c[k].hash)
    ensures k !in s.settledBy && k !in s.refundedBy
  {
    PendingEntry(c, s.ledger, k);
  }

  /** An updater that does nothing itself keeps what it knows. */
  lemma WaitingUpdaterKept(s: State, s': State, u: nat, k: nat)
    requires UpdaterInv(s, u, k) && s'.Up(u) == s.Up(u)
    requires Of(s.ledger, k) != [] ==> Of(s'.ledger, k) != []
    requires s.Status(k) != InFlight ==> s'.Status(k) == s.Status(k)
    requires k in s.settledBy ==> k in s'.settledBy && s'.settledBy[k] == s.settledBy[k]
    requires s.Up(u).UpdaterSettled? && s.Up(u).WorksOn(k) ==> k !in s'.refundedBy
    ensures UpdaterInv(s', u, k)
  {
  }

  lemma StepIsMonotone(c: Attempts, s: State, s': State, step: Step, k: nat)
    requires CommonInv(c, s) && k in c && c[k].Ln? && PrivateHash(c, k)
    requires AttemptInv(c, s, k) && NextStep(c, s, s', step)
    ensures Of(s.ledger, k) != [] ==> Of(s'.ledger, k) != []
    ensures s.Status(k) != InFlight ==> s'.Status(k) == s.Status(k)
    ensures k in s.settledBy ==> k in s'.settledBy && s'.settledBy[k] == s.settledBy[k]
    ensures LocalInv(c[k], k, LocalOf(s', k))
  {
    var m := StepMoves(c, s, s', step, k);
    MoveMonotone(c[k], k, LocalOf(s, k), m);
    MoveKeeps(c[k], k, LocalOf(s, k), m);
  }

  lemma UpdaterWaits(c: Attempts, s: State, s': State, step: Step, u: nat)
    requires NextStep(c, s, s', step) && !(step.ByUpdater? && step.u == u)
    ensures s'.Up(u) == s.Up(u)
  {
    match step {
      case BySender(j, act) => SenderLeavesUpdaters(c, s, s', j, act);
      case ByUpdater(u', act) => OtherUpdatersWait(c, s, s', u', act, u);
      case _ =>
    }
  }

  lemma StepKeepsUpdater(c: Attempts, s: State, s': State, step: Step, u: nat, k: nat)
    requires CommonInv(c, s) && k in c && c[k].Ln? && PrivateHash(c, k)
    requires AttemptInv(c, s, k) && NextStep(c, s, s', step)
    ensures UpdaterInv(s', u, k)
  {
    StepIsMonotone(c, s, s', step, k);
    assert UpdaterInv(s, u, k);
    if step.ByUpdater? && step.u == u {
      UpdaterKeepsItsInv(c, s, s', u, step.up, k);
    } else {
      UpdaterWaits(c, s, s', step, u);
      if s.Up(u).UpdaterSettled? && s.Up(u).WorksOn(k) && k in s'.refundedBy { OnlySettlerRefunds(c, s, s', step, k); }
      WaitingUpdaterKept(s, s', u, k);
    }
  }

  // ----- who settles will refund

  lemma SenderSettles(c: Attempts, s: State, s': State, j: nat, act: SenderAct, k: nat)
    requires SenderNext(c, s, s', j, act) && k !in s.settledBy && k in s'.settledBy
    ensures s'.settledBy[k].actor == Sender
  {
    if act.SettlePending? { SettleFrame(c, s, s', j); } else if Writes(act) { WriterFrame(c, s, s', j, act); }
  }

  lemma UpdaterSettles(c: Attempts, s: State, s': State, u: nat, act: UpdaterAct, k: nat)
    requires UpdaterNext(c, s, s', u, act) && k !in s.settledBy && k in s'.settledBy
    ensures s'.Up(u).UpdaterSettled? && s'.Up(u).j == k && s'.settledBy[k] == Settler(Updater(u), s'.Up(u).status)
  {
  }

  /** How an attempt comes to be settled by an updater. */
  lemma NewlySettled(c: Attempts, s: State, s': State, step: Step, k: nat)
    requires NextStep(c, s, s', step) && k !in s.settledBy && k in s'.settledBy && s'.settledBy[k].actor.Updater?
    ensures s'.Up(s'.settledBy[k].actor.u) == UpdaterSettled(k, s'.settledBy[k].answer)
  {
    match step {
      case BySender(j, act) => SenderSettles(c, s, s', j, act, k);
      case ByUpdater(u, act) => UpdaterSettles(c, s, s', u, act, k);
      case _ =>
    }
  }

  /** An updater that has settled leaves that state by refunding or by failing. */
  lemma SettledUpdaterActs(c: Attempts, s: State, s': State, u: nat, act: UpdaterAct)
    requires UpdaterNext(c, s, s', u, act) && s.Up(u).UpdaterSettled?
    ensures var k, answer := s.Up(u).j, s.Up(u).status;
            || k in s'.faults
            || (k in c && c[k].Ln?
                && (Granted(s.ledger, RefundTxns(c[k], k, answer, Updater(u))) != [] ==> k in s'.refundedBy))
  {
  }

  lemma HistoryGrows(c: Attempts, s: State, s': State, step: Step)
    requires NextStep(c, s, s', step)
    ensures s.faults <= s'.faults && s.refundedBy.Keys <= s'.refundedBy.Keys
  {
    match step {
      case BySender(j, act) => SenderHistoryGrows(c, s, s', j, act);
      case ByUpdater(u, act) => UpdaterHistoryGrows(c, s, s', u, act);
      case _ =>
    }
  }

  lemma SenderHistoryGrows(c: Attempts, s: State, s': State, j: nat, act: SenderAct)
    requires SenderNext(c, s, s', j, act)
    ensures s.faults <= s'.faults && s.refundedBy.Keys <= s'.refundedBy.Keys
  {
  }

  lemma UpdaterHistoryGrows(c: Attempts, s: State, s': State, u: nat, act: UpdaterAct)
    requires UpdaterNext(c, s, s', u, act)
    ensures s.faults <= s'.faults && s.refundedBy.Keys <= s'.refundedBy.Keys
  {
  }

  lemma StepKeepsPromise(c: Attempts, s: State, s': State, step: Step, k: nat)
    requires CommonInv(c, s) && k in c && c[k].Ln? && PrivateHash(c, k)
    requires AttemptInv(c, s, k) && NextStep(c, s, s', step)
    ensures KeepsPromise(c, s', k)
  {
    if k in s'.settledBy && s'.settledBy[k].actor.Updater? {
      if k !in s.settledBy {
        NewlySettled(c, s, s', step, k);
      } else {
        StepIsMonotone(c, s, s', step, k);
        HistoryGrows(c, s, s', step);
        var u := s.settledBy[k].actor.u;
        if s.Up(u) == UpdaterSettled(k, s.settledBy[k].answer) {
          if step.ByUpdater? && step.u == u {
            SettledUpdaterActs(c, s, s', u, step.up);
            assert UpdaterInv(s, u, k);
            if k !in s.refundedBy { UnvoidedIsGranted(c[k], k, s.Up(u).status, Updater(u), s.ledger); }
          } else {
            UpdaterWaits(c, s, s', step, u);
          }
        }
      }
    }
  }

  // ----- wallets

  ghost predicate NoneDebits(c: Attempts) {
    forall j :: j in c ==> NeverDebits(c[j])
  }

  /** Credits keep every wallet in order. */
  lemma CreditKeepsWallets(c: Attempts, s: State, s': State)
    requires WalletInv(c, s)
    requires forall w :: Balance(s'.ledger, w) >= Balance(s.ledger, w)
    requires s'.locks == s.locks
    requires forall j :: s'.Pc(j).Checked? ==> s'.Pc(j) == s.Pc(j)
    ensures WalletInv(c, s')
  {
  }

  lemma AppendCredits(l: seq<Txn>, more: seq<Txn>)
    requires |more| <= 1 && (more != [] ==> more[0].effect >= 0)
    ensures forall w :: Balance(l + more, w) >= Balance(l, w)
  {
    if more == [] { assert l + more == l; } else { assert more == [more[0]]; AppendOne(l, more[0]); }
  }

  lemma RecordEffects(a: Attempt, j: nat, l: seq<Txn>)
    requires NeverDebits(a)
    ensures var l' := l + RecordedTxns(a, j);
            && Balance(l', a.wallet) >= Balance(l, a.wallet) - a.Needed()
            && forall w :: w != a.wallet ==> Balance(l', w) >= Balance(l, w)
  {
    if a.Ln? {
      AppendOne(l, SendTxn(a, j, true));
    } else {
      var t := IntraledgerTxns(a, j);
      AppendTwo(l, t[0], t[1]);
      assert t == [t[0], t[1]];
    }
  }

  lemma DebitKeepsWallets(c: Attempts, s: State, s': State, j: nat)
    requires WalletInv(c, s) && j in c && s.Pc(j).Checked? && s.Holds(c[j].wallet, j)
    requires Balance(s'.ledger, c[j].wallet) >= Balance(s.ledger, c[j].wallet) - c[j].Needed()
    requires forall w :: w != c[j].wallet ==> Balance(s'.ledger, w) >= Balance(s.ledger, w)
    requires s'.locks == s.locks && !s'.Pc(j).Checked? && (forall k :: k != j ==> s'.Pc(k) == s.Pc(k))
    ensures WalletInv(c, s')
  {
    forall k | k in c && s'.Pc(k).Checked? && s'.Holds(c[k].wallet, k)
      ensures s'.Pc(k).balance <= Balance(s'.ledger, c[k].wallet)
    {
      assert c[k].wallet != c[j].wallet;
    }
  }

  /** A debit is covered by the balance that was read under the lock: only the holder
      of a wallet's lock debits it, and everyone else can but raise the balance. */
  lemma RecordKeepsWallets(c: Attempts, s: State, s': State, j: nat)
    requires j in c && NeverDebits(c[j]) && WalletInv(c, s) && SenderNext(c, s, s', j, Record)
    ensures WalletInv(c, s')
  {
    RecordFrame(c, s, s', j);
    if s.Holds(c[j].wallet, j) {
      RecordEffects(c[j], j, s.ledger);
      DebitKeepsWallets(c, s, s', j);
    } else {
      CreditKeepsWallets(c, s, s');
    }
  }

  lemma ReadKeepsWallets(c: Attempts, s: State, s': State, j: nat)
    requires WalletInv(c, s) && SenderNext(c, s, s', j, ReadBalance)
    ensures WalletInv(c, s')
  {
    assert forall k :: k != j ==> s'.Pc(k) == s.Pc(k);
  }

  lemma AcquireKeepsWallets(c: Attempts, s: State, s': State, j: nat)
    requires WalletInv(c, s) && SenderNext(c, s, s', j, Acquire)
    ensures WalletInv(c, s')
  {
    assert forall k :: s'.Pc(k).Checked? ==> s'.Pc(k) == s.Pc(k);
    assert forall k :: k in c && s'.Pc(k).Checked? && s'.Holds(c[k].wallet, k) ==> s.Holds(c[k].wallet, k);
  }

  lemma SenderFrame(c: Attempts, s: State, s': State, j: nat, act: SenderAct)
    requires SenderNext(c, s, s', j, act) && !act.Record? && !act.ReadBalance? && !act.Acquire?
    ensures s'.locks == s.locks && forall k :: s'.Pc(k).Checked? ==> s'.Pc(k) == s.Pc(k)
  {
    forall k | s'.Pc(k).Checked? ensures s'.Pc(k) == s.Pc(k) {
      if k != j { SenderPcs(c, s, s', j, act, k); }
    }
  }

  lemma SenderPays(c: Attempts, s: State, s': State, j: nat, act: SenderAct)
    requires NoneDebits(c) && SenderNext(c, s, s', j, act) && !act.Record?
    ensures forall w :: Balance(s'.ledger, w) >= Balance(s.ledger, w)
  {
    match act {
      case SettlePending => forall w { SettleKeepsBalance(s.ledger, c[j].hash, w); }
      case Refund =>
        RefundShape(c[j], j, s.Pc(j).answer, Sender);
        RefundCredits(c[j], j, s.Pc(j).answer, Sender);
        AppendCredits(s.ledger, Granted(s.ledger, RefundTxns(c[j], j, s.Pc(j).answer, Sender)));
      case _ =>
    }
  }

  lemma UpdaterPays(c: Attempts, s: State, s': State, u: nat, act: UpdaterAct)
    requires NoneDebits(c) && UpdaterNext(c, s, s', u, act)
    ensures forall w :: Balance(s'.ledger, w) >= Balance(s.ledger, w)
  {
    match act {
      case UpdaterSettle => forall w { SettleKeepsBalance(s.ledger, c[s.Up(u).j].hash, w); }
      case UpdaterRefund =>
        var j, answer := s.Up(u).j, s.Up(u).status;
        RefundShape(c[j], j, answer, Updater(u));
        RefundCredits(c[j], j, answer, Updater(u));
        AppendCredits(s.ledger, Granted(s.ledger, RefundTxns(c[j], j, answer, Updater(u))));
      case _ =>
    }
  }

  lemma SenderKeepsWallets(c: Attempts, s: State, s': State, j: nat, act: SenderAct)
    requires NoneDebits(c) && WalletInv(c, s) && SenderNext(c, s, s', j, act)
    ensures WalletInv(c, s')
  {
    match act {
      case Record => RecordKeepsWallets(c, s, s', j);
      case ReadBalance => ReadKeepsWallets(c, s, s', j);
      case Acquire => AcquireKeepsWallets(c, s, s', j);
      case _ =>
        SenderPays(c, s, s', j, act);
        SenderFrame(c, s, s', j, act);
        CreditKeepsWallets(c, s, s');
    }
  }

  lemma StepKeepsWallets(c: Attempts, s: State, s': State, step: Step)
    requires NoneDebits(c) && WalletInv(c, s) && NextStep(c, s, s', step)
    ensures WalletInv(c, s')
  {
    match step {
      case BySender(j, act) => SenderKeepsWallets(c, s, s', j, act);
      case ByUpdater(u, act) =>
        UpdaterPays(c, s, s', u, act);
        UpdaterLeavesSenders(c, s, s', u, act);
        CreditKeepsWallets(c, s, s');
      case Deposit(w, amount, j) =>
        AppendCredits(s.ledger, [DepositTxn(w, amount, j)]);
        CreditKeepsWallets(c, s, s');
      case Resolve(_, _) => CreditKeepsWallets(c, s, s');
      case LoseLock(w) =>
    }
  }

  // ----- every run

  lemma {:induction false} RunKeepsCommon(c: Attempts, run: seq<State>, i: nat)
    requires IsRun(c, run) && i < |run|
    ensures CommonInv(c, run[i])
  {
    if i > 0 {
      RunKeepsCommon(c, run, i - 1);
      assert StepsAt(c, run, i - 1);
      var step :| NextStep(c, run[i - 1], run[i], step);
      StepKeepsCommon(c, run[i - 1], run[i], step);
    }
  }

  lemma StepKeepsAttempt(c: Attempts, s: State, s': State, step: Step, k: nat)
    requires CommonInv(c, s) && k in c && c[k].Ln? && PrivateHash(c, k)
    requires AttemptInv(c, s, k) && NextStep(c, s, s', step)
    ensures AttemptInv(c, s', k)
  {
    StepIsMonotone(c, s, s', step, k);
    forall u ensures UpdaterInv(s', u, k) { StepKeepsUpdater(c, s, s', step, u, k); }
    StepKeepsPromise(c, s, s', step, k);
  }

  /** Whatever the other attempts are and do, one whose hash is its own stays in order. */
  lemma {:induction false} RunKeepsAttempt(c: Attempts, run: seq<State>, i: nat, k: nat)
    requires IsRun(c, run) && i < |run| && k in c && c[k].Ln? && PrivateHash(c, k)
    ensures AttemptInv(c, run[i], k)
  {
    if i > 0 {
      RunKeepsAttempt(c, run, i - 1, k);
      RunKeepsCommon(c, run, i - 1);
      assert StepsAt(c, run, i - 1);
      var step :| NextStep(c, run[i - 1], run[i], step);
      StepKeepsAttempt(c, run[i - 1], run[i], step, k);
    }
  }

  lemma {:induction false} RunKeepsWallets(c: Attempts, run: seq<State>, i: nat)
    requires NoneDebits(c) && IsRun(c, run) && i < |run|
    ensures WalletInv(c, run[i])
  {
    if i > 0 {
      RunKeepsWallets(c, run, i - 1);
      assert StepsAt(c, run, i - 1);
      var step :| NextStep(c, run[i - 1], run[i], step);
      StepKeepsWallets(c, run[i - 1], run[i], step);
    }
  }
}

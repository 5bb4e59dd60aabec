/** What can go wrong with a payment, and exactly when: runs that lose money, built for
    arbitrary attempts, and the proofs that there are no others. */
module SendRaces {
  import opened LedgerBook
  import opened PriceRatios
  import opened SendProtocol
  import opened SendSafety
  import opened SendTheorems

  // ----- runs, built step by step

  ghost predicate IsPath(c: Attempts, path: seq<State>) {
    path != [] && forall i :: 0 <= i < |path| - 1 ==> StepsAt(c, path, i)
  }

  /** Some steps lead from one state to the other. */
  ghost predicate Leads(c: Attempts, s: State, s': State) {
    exists path :: IsPath(c, path) && path[0] == s && path[|path| - 1] == s'
  }

  ghost predicate Reachable(c: Attempts, s: State) {
    Leads(c, START, s)
  }

  lemma RunOf(c: Attempts, s: State) returns (run: seq<State>)
    requires Reachable(c, s)
    ensures IsRun(c, run) && run[|run| - 1] == s
  {
    run :| IsPath(c, run) && run[0] == START && run[|run| - 1] == s;
  }

  lemma LeadsToItself(c: Attempts, s: State)
    ensures Leads(c, s, s)
  {
    assert IsPath(c, [s]) && [s][0] == s;
  }

  lemma PathExtends(c: Attempts, path: seq<State>, s': State)
    requires IsPath(c, path) && Next(c, path[|path| - 1], s')
    ensures IsPath(c, path + [s'])
  {
    var longer := path + [s'];
    forall i | 0 <= i < |longer| - 1 ensures StepsAt(c, longer, i) {
      if i < |path| - 1 { assert StepsAt(c, path, i); }
    }
  }

  lemma LeadsOn(c: Attempts, start: State, s: State, s': State, step: Step)
    requires Leads(c, start, s) && NextStep(c, s, s', step)
    ensures Leads(c, start, s')
  {
    var path :| IsPath(c, path) && path[0] == start && path[|path| - 1] == s;
    PathExtends(c, path, s');
    assert (path + [s'])[|path|] == s';
  }

  lemma Extend(c: Attempts, s: State, s': State, step: Step)
    requires Reachable(c, s) && NextStep(c, s, s', step)
    ensures Reachable(c, s')
  {
    LeadsOn(c, START, s, s', step);
  }

  lemma {:induction false} Above(keys: set<nat>) returns (n: nat)
    ensures forall k :: k in keys ==> k < n
    decreases |keys|
  {
    if keys == {} {
      n := 0;
    } else {
      var k :| k in keys;
      var m := Above(keys - {k});
      n := if m > k then m else k + 1;
      forall x | x in keys ensures x < n {
        if x != k { assert x in keys - {k}; }
      }
    }
  }

  /** Nothing but the ledger, the locks and the sender of attempt j has changed. */
  ghost predicate OnlySender(s: State, s': State, j: nat) {
    && s'.updaters == s.updaters && s'.lnd == s.lnd && s'.faults == s.faults
    && (forall k :: k != j ==> s'.Pc(k) == s.Pc(k))
  }

  /** The locks of all other wallets are where they were. */
  ghost predicate OnlyLock(s: State, s': State, w: string) {
    forall v, i :: v != w ==> s'.Holds(v, i) == s.Holds(v, i)
  }

  ghost predicate SameMarks(s: State, s': State) {
    s'.settledBy == s.settledBy && s'.refundedBy == s.refundedBy
  }

  lemma Deposits(c: Attempts, s: State, w: string, amount: nat, n: nat)
    requires Reachable(c, s) && n !in c
    ensures Reachable(c, s.Append([DepositTxn(w, amount, n)]))
  {
    Extend(c, s, s.Append([DepositTxn(w, amount, n)]), Deposit(w, amount, n));
  }

  /** A sender finds its wallet unlocked and its hash free. */
  lemma Enters(c: Attempts, s: State, j: nat) returns (s': State)
    requires Reachable(c, s) && j in c && s.Pc(j) == Idle && !InUse(c[j], s.ledger)
    ensures Reachable(c, s') && s'.Pc(j) == Cleared && s'.Holds(c[j].wallet, j) && s'.ledger == s.ledger
    ensures OnlySender(s, s', j) && SameMarks(s, s') && OnlyLock(s, s', c[j].wallet)
  {
    var w := c[j].wallet;
    var s1 := s.(locks := s.locks - {w});
    Extend(c, s, s1, LoseLock(w));
    var s2 := s1.Move(j, Locked).(locks := s1.locks[w := j]);
    Extend(c, s1, s2, BySender(j, Acquire));
    s' := s2.Move(j, Cleared);
    Extend(c, s2, s', BySender(j, CheckHash));
  }

  /** It reads a sufficient balance and records its payment. */
  lemma Debits(c: Attempts, s: State, j: nat) returns (s': State)
    requires Reachable(c, s) && j in c && s.Pc(j) == Cleared && s.Holds(c[j].wallet, j)
    requires Balance(s.ledger, c[j].wallet) >= c[j].Needed()
    ensures Reachable(c, s') && s'.Pc(j) == (if c[j].Ln? then Recorded else Done)
    ensures s'.ledger == s.ledger + RecordedTxns(c[j], j) && s'.locks == s.locks
    ensures OnlySender(s, s', j) && SameMarks(s, s')
  {
    var s1 := s.Move(j, Checked(Balance(s.ledger, c[j].wallet)));
    Extend(c, s, s1, BySender(j, ReadBalance));
    s' := s1.Append(RecordedTxns(c[j], j)).Move(j, if c[j].Ln? then Recorded else Done);
    Extend(c, s1, s', BySender(j, Record));
  }

  lemma Sends(c: Attempts, s: State, j: nat) returns (s': State)
    requires Reachable(c, s) && j in c && s.Pc(j) == Idle && !InUse(c[j], s.ledger)
    requires Balance(s.ledger, c[j].wallet) >= c[j].Needed()
    ensures Reachable(c, s') && s'.Pc(j) == (if c[j].Ln? then Recorded else Done)
    ensures s'.ledger == s.ledger + RecordedTxns(c[j], j)
    ensures OnlySender(s, s', j) && SameMarks(s, s')
  {
    var s1 := Enters(c, s, j);
    s' := Debits(c, s1, j);
  }

  function RevertTxn(a: Attempt, j: nat): Txn {
    Txn(j, Revert, a.hash, a.wallet, a.Needed(), a.total, false)
  }

  /** An error is answered and the sender clears the mark ... */
  lemma ErrsAndSettles(c: Attempts, s: State, j: nat) returns (s': State)
    requires Reachable(c, s) && j in c && c[j].Ln? && s.Pc(j) == Recorded && HasPending(s.ledger, c[j].hash)
    ensures Reachable(c, s') && s'.Pc(j) == Settled(Failed) && s'.ledger == Settle(s.ledger, c[j].hash)
    ensures OnlySender(s, s', j)
    ensures s'.settledBy == s.settledBy[j := Settler(Sender, Failed)] && s'.refundedBy == s.refundedBy
  {
    var s1 := s.Move(j, Answered(Failed));
    Extend(c, s, s1, BySender(j, PayErrs));
    s' := SettledState(s1, c[j].hash, j, Settler(Sender, Failed)).Move(j, Settled(Failed));
    Extend(c, s1, s', BySender(j, SettlePending));
  }

  lemma RevertsAfterSettling(c: Attempts, s: State, j: nat) returns (s': State)
    requires Reachable(c, s) && j in c && c[j].Ln? && s.Pc(j) == Settled(Failed) && !Voided(s.ledger, j)
    ensures Reachable(c, s') && s'.Pc(j) == Done && s'.ledger == s.ledger + [RevertTxn(c[j], j)]
    ensures OnlySender(s, s', j) && s'.settledBy == s.settledBy && s'.refundedBy == s.refundedBy[j := Sender]
  {
    assert RefundTxns(c[j], j, Failed, Sender) == [RevertTxn(c[j], j)];
    s' := RefundedState(s, [RevertTxn(c[j], j)], j, Sender).Move(j, Done);
    Extend(c, s, s', BySender(j, Refund));
  }

  /** ... and reverts, whatever has become of the payment. */
  lemma ErrsAndReverts(c: Attempts, s: State, j: nat) returns (s': State)
    requires Reachable(c, s) && j in c && c[j].Ln? && s.Pc(j) == Recorded
    requires HasPending(s.ledger, c[j].hash) && !Voided(s.ledger, j)
    ensures Reachable(c, s') && s'.Pc(j) == Done
    ensures s'.ledger == Settle(s.ledger, c[j].hash) + [RevertTxn(c[j], j)]
    ensures OnlySender(s, s', j)
    ensures s'.settledBy == s.settledBy[j := Settler(Sender, Failed)] && s'.refundedBy == s.refundedBy[j := Sender]
  {
    var s1 := ErrsAndSettles(c, s, j);
    SettleKeepsVoided(s.ledger, c[j].hash, j);
    s' := RevertsAfterSettling(c, s1, j);
  }

  lemma Resolves(c: Attempts, s: State, j: nat, status: LnStatus)
    requires Reachable(c, s) && j in c && c[j].Ln? && s.Status(j) == InFlight && status != InFlight
    requires exists t :: t in s.ledger && t.journal == j
    ensures Reachable(c, s.(lnd := s.lnd[j := status]))
  {
    var t :| t in s.ledger && t.journal == j;
    var i :| 0 <= i < |s.ledger| && s.ledger[i] == t;
    OfMember(s.ledger, j, i);
    Extend(c, s, s.(lnd := s.lnd[j := status]), Resolve(j, status));
  }

  /** An updater reads that attempt j is pending and how it ended, and that nothing is
      recorded for it. */
  lemma UpdaterReads(c: Attempts, start: State, s: State, j: nat, u: nat)
    requires Leads(c, start, s) && j in c && c[j].Ln? && s.Up(u) == NotStarted && s.Status(j) != InFlight
    requires SendTxn(c[j], j, true) in s.ledger && !IsRecorded(s.ledger, c[j].hash)
    ensures Leads(c, start, s.MoveUpdater(u, Unrecorded(j, s.Status(j))))
  {
    var s1 := s.MoveUpdater(u, Listed(j));
    LeadsOn(c, start, s, s1, ByUpdater(u, ListPending(j)));
    UpdaterLooks(c, start, s, s1, j, u);
  }

  lemma UpdaterLooks(c: Attempts, start: State, s: State, s1: State, j: nat, u: nat)
    requires Leads(c, start, s1) && j in c && s.Status(j) != InFlight && !IsRecorded(s.ledger, c[j].hash)
    requires s1 == s.MoveUpdater(u, Listed(j))
    ensures Leads(c, start, s.MoveUpdater(u, Unrecorded(j, s.Status(j))))
  {
    var s2, s3 := s.MoveUpdater(u, Looked(j, s.Status(j))), s.MoveUpdater(u, Unrecorded(j, s.Status(j)));
    MoveUpdaterTwice(s, u, Listed(j), Looked(j, s.Status(j)));
    MoveUpdaterTwice(s, u, Looked(j, s.Status(j)), Unrecorded(j, s.Status(j)));
    LeadsOn(c, start, s1, s2, ByUpdater(u, Lookup));
    LeadsOn(c, start, s2, s3, ByUpdater(u, CheckRecorded));
  }

  lemma MoveUpdaterTwice(s: State, u: nat, pc: UpdaterPc, pc': UpdaterPc)
    ensures s.MoveUpdater(u, pc).MoveUpdater(u, pc') == s.MoveUpdater(u, pc')
  {
    assert s.updaters[u := pc][u := pc'] == s.updaters[u := pc'];
  }

  // ----- a paid payment that costs nothing

  lemma OneDeposit(w: string, amount: nat, n: nat)
    ensures Balance([DepositTxn(w, amount, n)], w) == amount
  {
    var l := [DepositTxn(w, amount, n)];
    assert l[..0] == [];
  }

  /** What is on the ledger of an attempt that was sent and reverted costs nothing. */
  lemma RevertedCostsNothing(a: Attempt, j: nat, d: Txn)
    requires a.Ln? && d.journal != j
    ensures NetTaken(Of([d, SendTxn(a, j, false), RevertTxn(a, j)], j)) == Amounts(0, 0)
  {
    var l, sent, back := [d], SendTxn(a, j, false), RevertTxn(a, j);
    AppendOne([], d);
    assert [] + [d] == l;
    AppendOne(l, sent);
    AppendOne(l + [sent], back);
    assert l + [sent] + [back] == [d, sent, back];
    assert Of([d, sent, back], j) == [sent] + [back];
    NetOfSendAndRefund(a, j, false, [back]);
  }

  /** Any attempt can be sent once its wallet has what it needs. */
  lemma OneIsSent(c: Attempts, j: nat, n: nat) returns (s: State)
    requires j in c && c[j].Ln? && NeverDebits(c[j]) && n !in c
    ensures Reachable(c, s) && s.Pc(j) == Recorded
    ensures s.ledger == [DepositTxn(c[j].wallet, c[j].Needed(), n), SendTxn(c[j], j, true)]
    ensures s.updaters == map[] && s.lnd == map[] && s.faults == {} && s.settledBy == map[]
  {
    LeadsToItself(c, START);
    Deposits(c, START, c[j].wallet, c[j].Needed(), n);
    var s0 := START.Append([DepositTxn(c[j].wallet, c[j].Needed(), n)]);
    assert s0.ledger == [DepositTxn(c[j].wallet, c[j].Needed(), n)];
    OneDeposit(c[j].wallet, c[j].Needed(), n);
    s := Sends(c, s0, j);
  }

  /** Every attempt can be paid at the Lightning node and be given back in full: its
      sender gets an error, settles before any updater does, and reverts. */
  lemma PaidCanCostNothing(c: Attempts, j: nat, fee: nat)
    requires j in c && c[j].Ln? && NeverDebits(c[j])
    ensures exists s ::
              && Reachable(c, s) && s.Status(j) == Paid(fee) && Over(s, j)
              && NetTaken(Of(s.ledger, j)) == Amounts(0, 0)
  {
    var n := Above(c.Keys);
    var a, d := c[j], DepositTxn(c[j].wallet, c[j].Needed(), n);
    var s1 := OneIsSent(c, j, n);
    assert s1.ledger[1].pending;
    Resolves(c, s1, j, Paid(fee));
    var s2 := s1.(lnd := s1.lnd[j := Paid(fee)]);
    var s3 := ErrsAndReverts(c, s2, j);
    SettleDepositAndSend(a, j, d);
    assert s3.ledger == [d, SendTxn(a, j, false), RevertTxn(a, j)];
    RevertedCostsNothing(a, j, d);
    assert Over(s3, j);
  }

  lemma SettleDepositAndSend(a: Attempt, j: nat, d: Txn)
    requires !d.pending
    ensures Settle([d, SendTxn(a, j, true)], a.hash) == [d, SendTxn(a, j, false)]
  {
  }

  // ----- two attempts on one hash

  /** Sending and reverting leaves the balances that the deposits gave. */
  lemma BalancesInRace(a: Attempt, j: nat, b: Attempt, n: nat)
    requires a.Needed() >= 0 && b.Needed() >= 0
    ensures var d, e := DepositTxn(a.wallet, a.Needed(), n), DepositTxn(b.wallet, b.Needed(), n);
            && Balance([d, e], a.wallet) >= a.Needed()
            && Balance([d, e, SendTxn(a, j, false), RevertTxn(a, j)], b.wallet) >= b.Needed()
  {
    var d, e := DepositTxn(a.wallet, a.Needed(), n), DepositTxn(b.wallet, b.Needed(), n);
    AppendTwo([], d, e);
    assert [] + [d, e] == [d, e];
    AppendTwo([d, e], SendTxn(a, j, false), RevertTxn(a, j));
    assert [d, e] + [SendTxn(a, j, false), RevertTxn(a, j)] == [d, e, SendTxn(a, j, false), RevertTxn(a, j)];
  }

  ghost predicate Sharing(c: Attempts, j: nat, k: nat) {
    j in c && k in c && j != k && c[j].Ln? && c[k].Ln? && c[j].hash == c[k].hash != ""
  }

  /** The two deposits that pay for the attempts. */
  function Given(c: Attempts, j: nat, k: nat, n: nat): seq<Txn>
    requires j in c && k in c && NeverDebits(c[j]) && NeverDebits(c[k])
  {
    [DepositTxn(c[j].wallet, c[j].Needed(), n), DepositTxn(c[k].wallet, c[k].Needed(), n)]
  }

  /** The ledger in the race below: two deposits, an attempt that was sent and reverted,
      and a second one of the same hash. */
  function Twice(c: Attempts, j: nat, k: nat, n: nat, pending: bool): seq<Txn>
    requires j in c && k in c && NeverDebits(c[j]) && NeverDebits(c[k])
  {
    Given(c, j, k, n) + [SendTxn(c[j], j, false), RevertTxn(c[j], j), SendTxn(c[k], k, pending)]
  }

  lemma BothFunded(c: Attempts, j: nat, k: nat, n: nat)
    requires j in c && k in c && NeverDebits(c[j]) && NeverDebits(c[k]) && n !in c
    ensures Reachable(c, START.(ledger := Given(c, j, k, n)))
  {
    var d, e := DepositTxn(c[j].wallet, c[j].Needed(), n), DepositTxn(c[k].wallet, c[k].Needed(), n);
    LeadsToItself(c, START);
    Deposits(c, START, c[j].wallet, c[j].Needed(), n);
    Deposits(c, START.Append([d]), c[k].wallet, c[k].Needed(), n);
    assert START.Append([d]).Append([e]).ledger == Given(c, j, k, n);
  }

  lemma FirstIsSent(c: Attempts, j: nat, k: nat, n: nat) returns (s: State)
    requires Sharing(c, j, k) && NeverDebits(c[j]) && NeverDebits(c[k]) && n !in c
    ensures Reachable(c, s) && s.Pc(j) == Recorded && (forall i :: i != j ==> s.Pc(i) == Idle)
    ensures s.lnd == map[] && s.faults == {}
    ensures s.ledger == Given(c, j, k, n) + [SendTxn(c[j], j, true)]
    ensures s.updaters == map[] && s.settledBy == map[] && s.refundedBy == map[]
  {
    BothFunded(c, j, k, n);
    BalancesInRace(c[j], j, c[k], n);
    s := Sends(c, START.(ledger := Given(c, j, k, n)), j);
  }

  /** Attempt j is pending, and an updater has read that it ended in `status`. */
  lemma FirstIsListed(c: Attempts, j: nat, k: nat, status: LnStatus, n: nat) returns (s: State)
    requires Sharing(c, j, k) && NeverDebits(c[j]) && NeverDebits(c[k]) && status != InFlight && n !in c
    ensures Reachable(c, s) && s.Pc(j) == Recorded && s.Pc(k) == Idle && s.lnd == map[j := status] && s.faults == {}
    ensures s.ledger == Given(c, j, k, n) + [SendTxn(c[j], j, true)]
    ensures s.updaters == map[0 := Unrecorded(j, status)] && s.settledBy == map[] && s.refundedBy == map[]
  {
    var s1 := FirstIsSent(c, j, k, n);
    assert s1.ledger[2] == SendTxn(c[j], j, true) && s1.Pc(k) == Idle;
    Resolves(c, s1, j, status);
    var s2 := s1.(lnd := s1.lnd[j := status]);
    UpdaterReads(c, START, s2, j, 0);
    s := s2.MoveUpdater(0, Unrecorded(j, status));
  }

  /** The sender of j reverts it ... */
  lemma FirstIsReverted(c: Attempts, j: nat, k: nat, status: LnStatus, n: nat) returns (s: State)
    requires Sharing(c, j, k) && NeverDebits(c[j]) && NeverDebits(c[k]) && status != InFlight && n !in c
    ensures Reachable(c, s) && s.Pc(j) == Done && s.Pc(k) == Idle && s.lnd == map[j := status] && s.faults == {}
    ensures s.ledger == Given(c, j, k, n) + [SendTxn(c[j], j, false), RevertTxn(c[j], j)]
    ensures s.updaters == map[0 := Unrecorded(j, status)] && k !in s.settledBy
  {
    var s1 := FirstIsListed(c, j, k, status, n);
    assert s1.ledger[2].pending;
    s := ErrsAndReverts(c, s1, j);
    SettleGiven(c, j, k, n);
  }

  lemma SettleGiven(c: Attempts, j: nat, k: nat, n: nat)
    requires j in c && k in c && NeverDebits(c[j]) && NeverDebits(c[k])
    ensures Settle(Given(c, j, k, n) + [SendTxn(c[j], j, true)], c[j].hash) + [RevertTxn(c[j], j)]
         == Given(c, j, k, n) + [SendTxn(c[j], j, false), RevertTxn(c[j], j)]
  {
  }

  /** ... and k is sent; the updater has not moved. */
  lemma SecondIsSent(c: Attempts, j: nat, k: nat, status: LnStatus, n: nat) returns (s: State)
    requires Sharing(c, j, k) && NeverDebits(c[j]) && NeverDebits(c[k]) && status != InFlight && n !in c
    ensures Reachable(c, s) && s.Pc(j) == Done && s.Pc(k) == Recorded && s.lnd == map[j := status] && s.faults == {}
    ensures s.ledger == Twice(c, j, k, n, true)
    ensures s.updaters == map[0 := Unrecorded(j, status)] && k !in s.settledBy
  {
    var s1 := FirstIsReverted(c, j, k, status, n);
    BalancesInRace(c[j], j, c[k], n);
    assert s1.ledger == [s1.ledger[0], s1.ledger[1], SendTxn(c[j], j, false), RevertTxn(c[j], j)];
    s := Sends(c, s1, k);
    assert s1.ledger + [SendTxn(c[k], k, true)] == Twice(c, j, k, n, true);
  }

  lemma SecondIsLeft(c: Attempts, j: nat, k: nat, status: LnStatus, n: nat) returns (s: State)
    requires Sharing(c, j, k) && NeverDebits(c[j]) && NeverDebits(c[k]) && status != InFlight && n !in c
    ensures Reachable(c, s) && s.Pc(k) == Done && s.lnd == map[j := status] && s.faults == {}
    ensures s.ledger == Twice(c, j, k, n, true)
    ensures s.updaters == map[0 := Unrecorded(j, status)] && k !in s.settledBy
  {
    var s1 := SecondIsSent(c, j, k, status, n);
    s := s1.Move(k, Done);
    Extend(c, s1, s, BySender(k, PayPending));
  }

  /** The updater clears the mark of k, for j. */
  lemma SecondIsSettledForFirst(c: Attempts, j: nat, k: nat, status: LnStatus, n: nat) returns (s: State)
    requires Sharing(c, j, k) && NeverDebits(c[j]) && NeverDebits(c[k]) && status != InFlight && n !in c
    ensures Reachable(c, s) && s.Pc(k) == Done && s.lnd == map[j := status] && s.faults == {}
    ensures s.ledger == Twice(c, j, k, n, false)
    ensures s.updaters == map[0 := UpdaterSettled(j, status)] && k !in s.settledBy
  {
    var s1 := SecondIsLeft(c, j, k, status, n);
    SettleTwice(c, j, k, n);
    s := SettledState(s1, c[j].hash, j, Settler(Updater(0), status)).MoveUpdater(0, UpdaterSettled(j, status));
    Extend(c, s1, s, ByUpdater(0, UpdaterSettle));
  }

  lemma SettleTwice(c: Attempts, j: nat, k: nat, n: nat)
    requires Sharing(c, j, k) && NeverDebits(c[j]) && NeverDebits(c[k])
    ensures HasPending(Twice(c, j, k, n, true), c[j].hash)
    ensures Settle(Twice(c, j, k, n, true), c[j].hash) == Twice(c, j, k, n, false)
  {
    assert Twice(c, j, k, n, true)[4].pending;
  }

  lemma EntriesOfTwice(c: Attempts, j: nat, k: nat, n: nat)
    requires Sharing(c, j, k) && NeverDebits(c[j]) && NeverDebits(c[k]) && n !in c
    ensures Of(Twice(c, j, k, n, false), k) == [SendTxn(c[k], k, false)]
    ensures Of(Twice(c, j, k, n, false), j) == [SendTxn(c[j], j, false), RevertTxn(c[j], j)]
  {
    var l, sent, back := Given(c, j, k, n), SendTxn(c[j], j, false), RevertTxn(c[j], j);
    AppendTwo([], l[0], l[1]);
    assert [] + [l[0], l[1]] == l;
    AppendOne(l, sent);
    AppendOne(l + [sent], back);
    AppendOne(l + [sent] + [back], SendTxn(c[k], k, false));
    assert l + [sent] + [back] + [SendTxn(c[k], k, false)] == Twice(c, j, k, n, false);
  }

  // ----- a payment that nobody will refund

  /** The payment failed and no call for it did. It has cost something, nobody is at work
      on it, and since it is no longer pending no updater will ever find it. */
  ghost predicate Forgotten(c: Attempts, s: State, k: nat) {
    && k in c && c[k].Ln? && s.Status(k) == Failed && k !in s.faults
    && s.Pc(k).Done? && (forall u :: !s.Up(u).WorksOn(k)) && SendTxn(c[k], k, true) !in s.ledger
    && NetTaken(Of(s.ledger, k)) != Amounts(0, 0)
  }

  lemma SharedCanBeForgotten(c: Attempts, j: nat, k: nat)
    requires Sharing(c, j, k) && NeverDebits(c[j]) && NeverDebits(c[k]) && c[k].total != Amounts(0, 0)
    ensures exists s :: Reachable(c, s) && Forgotten(c, s, k)
  {
    var n := Above(c.Keys);
    var s := SecondIsSettledForFirst(c, j, k, Failed, n);
    assert s.ledger[4].journal == k;
    Resolves(c, s, k, Failed);
    var s' := s.(lnd := s.lnd[k := Failed]);
    EntriesOfTwice(c, j, k, n);
    NetOfSendAndRefund(c[k], k, false, []);
    assert [SendTxn(c[k], k, false)] + [] == [SendTxn(c[k], k, false)];
    assert Forgotten(c, s', k);
  }

  /** Nowhere to refund to: an updater settles the payment and stops. */
  lemma UnrefundableCanBeForgotten(c: Attempts, k: nat)
    requires k in c && c[k].Ln? && NeverDebits(c[k]) && !Refundable(c[k])
    requires c[k].hash != "" && c[k].total != Amounts(0, 0)
    ensures exists s :: Reachable(c, s) && Forgotten(c, s, k)
  {
    var n := Above(c.Keys);
    var a, d := c[k], DepositTxn(c[k].wallet, c[k].Needed(), n);
    var s := OneIsSettled(c, k, n);
    var s' := s.MoveUpdater(0, Finished);
    Extend(c, s, s', ByUpdater(0, UpdaterRefund));
    AppendOne([], d);
    assert [] + [d] == [d];
    AppendOne([d], SendTxn(a, k, false));
    assert [d] + [SendTxn(a, k, false)] == s'.ledger;
    NetOfSendAndRefund(a, k, false, []);
    assert [SendTxn(a, k, false)] + [] == [SendTxn(a, k, false)];
    assert Forgotten(c, s', k);
  }

  lemma OneHasFailed(c: Attempts, k: nat, n: nat) returns (s: State)
    requires k in c && c[k].Ln? && NeverDebits(c[k]) && n !in c
    ensures Reachable(c, s) && s.Pc(k) == Done && s.Status(k) == Failed && s.faults == {} && s.updaters == map[]
    ensures s.ledger == [DepositTxn(c[k].wallet, c[k].Needed(), n), SendTxn(c[k], k, true)]
  {
    var s1 := OneIsSent(c, k, n);
    assert s1.ledger[1] == SendTxn(c[k], k, true);
    Resolves(c, s1, k, Failed);
    var s2 := s1.(lnd := s1.lnd[k := Failed]);
    s := s2.Move(k, Done);
    Extend(c, s2, s, BySender(k, PayPending));
  }

  lemma OneIsSettled(c: Attempts, k: nat, n: nat) returns (s: State)
    requires k in c && c[k].Ln? && NeverDebits(c[k]) && c[k].hash != "" && n !in c
    ensures Reachable(c, s) && s.Pc(k) == Done && s.Status(k) == Failed && s.faults == {}
    ensures s.updaters == map[0 := UpdaterSettled(k, Failed)]
    ensures s.ledger == [DepositTxn(c[k].wallet, c[k].Needed(), n), SendTxn(c[k], k, false)]
  {
    var a, d := c[k], DepositTxn(c[k].wallet, c[k].Needed(), n);
    var s1 := OneHasFailed(c, k, n);
    assert s1.ledger[1] == SendTxn(a, k, true);
    UpdaterReads(c, START, s1, k, 0);
    var s2 := s1.MoveUpdater(0, Unrecorded(k, Failed));
    SettleDepositAndSend(a, k, d);
    s := SettledState(s2, a.hash, k, Settler(Updater(0), Failed)).MoveUpdater(0, UpdaterSettled(k, Failed));
    Extend(c, s2, s, ByUpdater(0, UpdaterSettle));
  }

  lemma PrivateIsNotForgotten(c: Attempts, s: State, k: nat)
    requires Reachable(c, s) && k in c && c[k].Ln? && PrivateHash(c, k) && Refundable(c[k])
    ensures !Forgotten(c, s, k)
  {
    var run := RunOf(c, s);
    RunKeepsAttempt(c, run, |run| - 1, k);
    if Forgotten(c, s, k) {
      assert LocalInv(c[k], k, LocalOf(s, k)) && KeepsPromise(c, s, k);
      if k in s.settledBy {
        if s.settledBy[k].actor.Updater? { assert !s.Up(s.settledBy[k].actor.u).WorksOn(k); }
        SettledCosts(c, s, k);
      } else {
        OfComesFrom(s.ledger, k, Of(s.ledger, k)[0]);
      }
    }
  }

  // ----- attempts without an amount

  /** What is recorded for an attempt stays within its total. */
  ghost predicate AmountsWithin(a: Attempt, l: seq<Txn>, k: nat) {
    forall t :: t in l && t.journal == k ==> 0 <= t.amounts.btc <= a.total.btc && 0 <= t.amounts.usd <= a.total.usd
  }

  lemma SettleKeepsAmounts(a: Attempt, l: seq<Txn>, hash: string, k: nat)
    requires AmountsWithin(a, l, k)
    ensures AmountsWithin(a, Settle(l, hash), k)
  {
    var l' := Settle(l, hash);
    forall t | t in l' && t.journal == k
      ensures 0 <= t.amounts.btc <= a.total.btc && 0 <= t.amounts.usd <= a.total.usd
    {
      var i :| 0 <= i < |l'| && l'[i] == t;
      assert l[i] in l;
    }
  }

  lemma AppendKeepsAmounts(a: Attempt, l: seq<Txn>, more: seq<Txn>, k: nat)
    requires AmountsWithin(a, l, k) && AmountsWithin(a, more, k)
    ensures AmountsWithin(a, l + more, k)
  {
  }

  lemma RefundKeepsAmounts(c: Attempts, l: seq<Txn>, j: nat, answer: LnStatus, actor: Actor, k: nat)
    requires j in c && c[j].Ln? && k in c && c[k].Ln? && Bounded(c[k])
    ensures AmountsWithin(c[k], Granted(l, RefundTxns(c[j], j, answer, actor)), k)
  {
    RefundShape(c[j], j, answer, actor);
    if j == k { RefundWithinSend(c[k], k, answer, actor); }
  }

  lemma SenderKeepsAmounts(c: Attempts, s: State, s': State, j: nat, act: SenderAct, k: nat)
    requires SenderNext(c, s, s', j, act) && k in c && c[k].Ln? && Bounded(c[k]) && AmountsWithin(c[k], s.ledger, k)
    ensures AmountsWithin(c[k], s'.ledger, k)
  {
    match act {
      case Record =>
        RecordFrame(c, s, s', j);
        AppendKeepsAmounts(c[k], s.ledger, RecordedTxns(c[j], j), k);
      case SettlePending =>
        SettleFrame(c, s, s', j);
        SettleKeepsAmounts(c[k], s.ledger, c[j].hash, k);
      case Refund =>
        var refund := Granted(s.ledger, RefundTxns(c[j], j, s.Pc(j).answer, Sender));
        RefundKeepsAmounts(c, s.ledger, j, s.Pc(j).answer, Sender, k);
        AppendKeepsAmounts(c[k], s.ledger, refund, k);
      case _ => ReaderFrame(c, s, s', j, act);
    }
  }

  lemma UpdaterKeepsAmounts(c: Attempts, s: State, s': State, u: nat, act: UpdaterAct, k: nat)
    requires UpdaterNext(c, s, s', u, act) && k in c && c[k].Ln? && Bounded(c[k]) && AmountsWithin(c[k], s.ledger, k)
    ensures AmountsWithin(c[k], s'.ledger, k)
  {
    match act {
      case UpdaterSettle => SettleKeepsAmounts(c[k], s.ledger, c[s.Up(u).j].hash, k);
      case UpdaterRefund =>
        var j, status := s.Up(u).j, s.Up(u).status;
        RefundKeepsAmounts(c, s.ledger, j, status, Updater(u), k);
        AppendKeepsAmounts(c[k], s.ledger, Granted(s.ledger, RefundTxns(c[j], j, status, Updater(u))), k);
      case _ =>
    }
  }

  lemma StepKeepsAmounts(c: Attempts, s: State, s': State, step: Step, k: nat)
    requires NextStep(c, s, s', step) && k in c && c[k].Ln? && Bounded(c[k]) && AmountsWithin(c[k], s.ledger, k)
    ensures AmountsWithin(c[k], s'.ledger, k)
  {
    match step {
      case BySender(j, act) => SenderKeepsAmounts(c, s, s', j, act, k);
      case ByUpdater(u, act) => UpdaterKeepsAmounts(c, s, s', u, act, k);
      case Deposit(w, amount, j) => AppendKeepsAmounts(c[k], s.ledger, [DepositTxn(w, amount, j)], k);
      case _ =>
    }
  }

  lemma {:induction false} RunKeepsAmounts(c: Attempts, run: seq<State>, i: nat, k: nat)
    requires IsRun(c, run) && i < |run| && k in c && c[k].Ln? && Bounded(c[k])
    ensures AmountsWithin(c[k], run[i].ledger, k)
  {
    if i > 0 {
      RunKeepsAmounts(c, run, i - 1, k);
      assert StepsAt(c, run, i - 1);
      var step :| NextStep(c, run[i - 1], run[i], step);
      StepKeepsAmounts(c, run[i - 1], run[i], step, k);
    }
  }

  lemma {:induction false} NothingTaken(entries: seq<Txn>)
    requires forall t :: t in entries ==> t.amounts == Amounts(0, 0)
    ensures NetTaken(entries) == Amounts(0, 0)
  {
    if entries != [] { NothingTaken(entries[..|entries| - 1]); }
  }

  lemma FreeIsNotForgotten(c: Attempts, s: State, k: nat)
    requires Reachable(c, s) && k in c && c[k].Ln? && Bounded(c[k]) && c[k].total == Amounts(0, 0)
    ensures !Forgotten(c, s, k)
  {
    var run := RunOf(c, s);
    RunKeepsAmounts(c, run, |run| - 1, k);
    forall t | t in Of(s.ledger, k) ensures t.amounts == Amounts(0, 0) { OfComesFrom(s.ledger, k, t); }
    NothingTaken(Of(s.ledger, k));
  }

  ghost predicate AllBounded(c: Attempts) {
    forall j :: j in c ==> Bounded(c[j])
  }

  /** Some run forgets attempt k exactly when k is for an amount and another attempt pays
      the same invoice, or there is nowhere to refund it to. */
  lemma ForgottenIff(c: Attempts, k: nat)
    requires AllBounded(c) && k in c && c[k].Ln? && c[k].hash != ""
    ensures (exists s :: Reachable(c, s) && Forgotten(c, s, k))
       <==> c[k].total != Amounts(0, 0) && (!PrivateHash(c, k) || !Refundable(c[k]))
  {
    if c[k].total == Amounts(0, 0) {
      forall s | Reachable(c, s) ensures !Forgotten(c, s, k) { FreeIsNotForgotten(c, s, k); }
    } else if !Refundable(c[k]) {
      UnrefundableCanBeForgotten(c, k);
    } else if !PrivateHash(c, k) {
      var j :| j in c && j != k && c[j].Ln? && c[j].hash == c[k].hash;
      SharedCanBeForgotten(c, j, k);
    } else {
      forall s | Reachable(c, s) ensures !Forgotten(c, s, k) { PrivateIsNotForgotten(c, s, k); }
    }
  }

  // ----- a payment that is refunded twice

  /** There is an end of the payment for which updaters refund by a receipt of its own: part
      of the fee, or cents in sats. All other refunds void the journal of the attempt. */
  ghost predicate RefundedByReceipt(a: Attempt, j: nat)
    requires a.Ln?
  {
    exists status :: IsReceipt(RefundTxns(a, j, status, Updater(0)))
  }

  predicate IsReceipt(refund: seq<Txn>) {
    refund != [] && refund[0].kind != Revert
  }

  lemma SharedCanBeRefundedTwice(c: Attempts, j: nat, k: nat)
    requires Sharing(c, j, k) && NeverDebits(c[j]) && NeverDebits(c[k]) && RefundedByReceipt(c[j], j)
    ensures exists s :: Reachable(c, s) && |Of(s.ledger, j)| == 3
  {
    var status :| IsReceipt(RefundTxns(c[j], j, status, Updater(0)));
    var n := Above(c.Keys);
    var s := SecondIsSettledForFirst(c, j, k, status, n);
    var refund := RefundTxns(c[j], j, status, Updater(0));
    var s' := RefundedState(s, refund, j, Updater(0)).MoveUpdater(0, Finished);
    Extend(c, s, s', ByUpdater(0, UpdaterRefund));
    EntriesOfTwice(c, j, k, n);
    RefundShape(c[j], j, status, Updater(0));
    AppendMoves(s.ledger, refund, j);
  }

  /** Before the debit is recorded there is nothing to refund, and nobody at work. */
  ghost predicate Unstarted(s: State, j: nat) {
    BeforeRecord(s.Pc(j)) ==> Of(s.ledger, j) == [] && forall u :: !s.Up(u).WorksOn(j)
  }

  /** The entries of an attempt that is not recorded by this step. */
  lemma SenderKeepsEmpty(c: Attempts, s: State, s': State, k: nat, act: SenderAct, j: nat)
    requires SenderNext(c, s, s', k, act) && Of(s.ledger, j) == [] && (k == j ==> !act.Record? && !act.Refund?)
    ensures Of(s'.ledger, j) == []
  {
    match act {
      case Record =>
        RecordFrame(c, s, s', k);
        RecordAppends(c[k], k, s.ledger, j);
      case SettlePending =>
        SettleFrame(c, s, s', k);
        SettleOf(s.ledger, c[k].hash, j);
      case Refund => RefundLeavesOthers(c[k], k, s.Pc(k).answer, Sender, s.ledger, j);
      case _ => ReaderFrame(c, s, s', k, act);
    }
  }

  lemma NeverBackBeforeRecord(c: Attempts, s: State, s': State, j: nat, act: SenderAct)
    requires SenderNext(c, s, s', j, act) && BeforeRecord(s'.Pc(j))
    ensures BeforeRecord(s.Pc(j)) && !act.Record? && !act.Refund?
  {
    match act {
      case Record => WrittenPc(c, s, s', j, act);
      case SettlePending => WrittenPc(c, s, s', j, act);
      case Refund => WrittenPc(c, s, s', j, act);
      case _ =>
    }
  }

  lemma WrittenPc(c: Attempts, s: State, s': State, j: nat, act: SenderAct)
    requires SenderNext(c, s, s', j, act) && Writes(act)
    ensures !BeforeRecord(s'.Pc(j))
  {
  }

  lemma SenderKeepsUnstarted(c: Attempts, s: State, s': State, k: nat, act: SenderAct, j: nat)
    requires SenderNext(c, s, s', k, act) && Unstarted(s, j)
    ensures Unstarted(s', j)
  {
    if BeforeRecord(s'.Pc(j)) {
      if k == j { NeverBackBeforeRecord(c, s, s', j, act); } else { SenderPcs(c, s, s', k, act, j); }
      SenderKeepsEmpty(c, s, s', k, act, j);
      SenderLeavesUpdaters(c, s, s', k, act);
      forall u ensures !s'.Up(u).WorksOn(j) { assert s'.Up(u) == s.Up(u); }
    }
  }

  /** Updaters work on what they found on the ledger. */
  lemma UpdaterKeepsEmpty(c: Attempts, s: State, s': State, u: nat, act: UpdaterAct, j: nat)
    requires UpdaterNext(c, s, s', u, act) && Of(s.ledger, j) == [] && !s.Up(u).WorksOn(j)
    ensures Of(s'.ledger, j) == [] && !s'.Up(u).WorksOn(j)
  {
    match act {
      case ListPending(k) =>
        if k == j {
          var i :| 0 <= i < |s.ledger| && s.ledger[i] == SendTxn(c[j], j, true);
          OfMember(s.ledger, j, i);
        }
      case UpdaterSettle => SettleOf(s.ledger, c[s.Up(u).j].hash, j);
      case UpdaterRefund => RefundLeavesOthers(c[s.Up(u).j], s.Up(u).j, s.Up(u).status, Updater(u), s.ledger, j);
      case _ => UpdaterReaderFrame(c, s, s', u, act);
    }
  }

  lemma UpdaterKeepsUnstarted(c: Attempts, s: State, s': State, u: nat, act: UpdaterAct, j: nat)
    requires UpdaterNext(c, s, s', u, act) && Unstarted(s, j)
    ensures Unstarted(s', j)
  {
    UpdaterLeavesSenders(c, s, s', u, act);
    if BeforeRecord(s'.Pc(j)) {
      UpdaterKeepsEmpty(c, s, s', u, act, j);
      forall v ensures !s'.Up(v).WorksOn(j) {
        if v != u { OtherUpdatersWait(c, s, s', u, act, v); }
      }
    }
  }

  /** Nothing, a send, or a send that was voided. */
  predicate VoidedAtMost(l: seq<Txn>, j: nat) {
    |Of(l, j)| <= 1 || (|Of(l, j)| == 2 && Voided(l, j))
  }

  ghost predicate VoidedOnce(s: State, j: nat) {
    VoidedAtMost(s.ledger, j) && Unstarted(s, j)
  }

  lemma OthersKeepVoided(l: seq<Txn>, more: seq<Txn>, j: nat)
    requires VoidedAtMost(l, j) && forall t :: t in more ==> t.journal != j
    ensures VoidedAtMost(l + more, j)
  {
    OfOthers(l, more, j);
    if Voided(l, j) {
      var i :| 0 <= i < |l| && l[i].journal == j && l[i].kind == Revert;
      assert (l + more)[i] == l[i];
    }
  }

  lemma SettleKeepsVoidedAtMost(l: seq<Txn>, hash: string, j: nat)
    requires VoidedAtMost(l, j)
    ensures VoidedAtMost(Settle(l, hash), j)
  {
    SettleOf(l, hash, j);
    SettleKeepsVoided(l, hash, j);
  }

  /** Without receipts, a refund voids the journal ... */
  lemma RefundVoids(a: Attempt, j: nat, status: LnStatus, actor: Actor)
    requires a.Ln? && !RefundedByReceipt(a, j)
    ensures var refund := RefundTxns(a, j, status, actor);
            refund == [] || (refund == [refund[0]] && refund[0].kind == Revert && refund[0].journal == j)
  {
    assert !IsReceipt(RefundTxns(a, j, status, Updater(0)));
  }

  /** ... unless that has been done. */
  lemma RefundKeepsVoided(a: Attempt, k: nat, status: LnStatus, actor: Actor, l: seq<Txn>, j: nat)
    requires a.Ln? && VoidedAtMost(l, j) && (k == j ==> !RefundedByReceipt(a, j))
    ensures VoidedAtMost(l + Granted(l, RefundTxns(a, k, status, actor)), j)
  {
    var refund := RefundTxns(a, k, status, actor);
    if k != j {
      RefundShape(a, k, status, actor);
      OthersKeepVoided(l, Granted(l, refund), j);
    } else {
      RefundVoids(a, j, status, actor);
      if Granted(l, refund) == [] {
        assert l + [] == l;
      } else {
        AppendOne(l, refund[0]);
        assert (l + refund)[|l|].kind == Revert;
      }
    }
  }

  lemma SenderKeepsVoided(c: Attempts, s: State, s': State, k: nat, act: SenderAct, j: nat)
    requires SenderNext(c, s, s', k, act) && j in c && c[j].Ln? && !RefundedByReceipt(c[j], j) && VoidedOnce(s, j)
    ensures VoidedAtMost(s'.ledger, j)
  {
    match act {
      case Record =>
        RecordFrame(c, s, s', k);
        if k == j {
          RecordAppends(c[k], k, s.ledger, j);
        } else {
          OthersKeepVoided(s.ledger, RecordedTxns(c[k], k), j);
        }
      case SettlePending =>
        SettleFrame(c, s, s', k);
        SettleKeepsVoidedAtMost(s.ledger, c[k].hash, j);
      case Refund => RefundKeepsVoided(c[k], k, s.Pc(k).answer, Sender, s.ledger, j);
      case _ => ReaderFrame(c, s, s', k, act);
    }
  }

  lemma UpdaterKeepsVoided(c: Attempts, s: State, s': State, u: nat, act: UpdaterAct, j: nat)
    requires UpdaterNext(c, s, s', u, act) && j in c && c[j].Ln? && !RefundedByReceipt(c[j], j) && VoidedOnce(s, j)
    ensures VoidedAtMost(s'.ledger, j)
  {
    match act {
      case UpdaterSettle => SettleKeepsVoidedAtMost(s.ledger, c[s.Up(u).j].hash, j);
      case UpdaterRefund =>
        RefundKeepsVoided(c[s.Up(u).j], s.Up(u).j, s.Up(u).status, Updater(u), s.ledger, j);
      case _ => UpdaterReaderFrame(c, s, s', u, act);
    }
  }

  lemma StepKeepsVoided(c: Attempts, s: State, s': State, step: Step, j: nat)
    requires NextStep(c, s, s', step) && j in c && c[j].Ln? && !RefundedByReceipt(c[j], j) && VoidedOnce(s, j)
    ensures VoidedOnce(s', j)
  {
    match step {
      case BySender(k, act) =>
        SenderKeepsVoided(c, s, s', k, act, j);
        SenderKeepsUnstarted(c, s, s', k, act, j);
      case ByUpdater(u, act) =>
        UpdaterKeepsVoided(c, s, s', u, act, j);
        UpdaterKeepsUnstarted(c, s, s', u, act, j);
      case Deposit(w, amount, k) => DepositKeepsVoided(s, DepositTxn(w, amount, k), j);
      case _ => forall u ensures s'.Up(u) == s.Up(u) {}
    }
  }

  lemma DepositKeepsVoided(s: State, t: Txn, j: nat)
    requires VoidedOnce(s, j) && t.journal != j
    ensures VoidedOnce(s.Append([t]), j)
  {
    OthersKeepVoided(s.ledger, [t], j);
    OfOthers(s.ledger, [t], j);
    forall u ensures s.Append([t]).Up(u) == s.Up(u) {}
  }

  lemma {:induction false} RunVoidsOnce(c: Attempts, run: seq<State>, i: nat, j: nat)
    requires IsRun(c, run) && i < |run| && j in c && c[j].Ln? && !RefundedByReceipt(c[j], j)
    ensures VoidedOnce(run[i], j)
  {
    if i > 0 {
      RunVoidsOnce(c, run, i - 1, j);
      assert StepsAt(c, run, i - 1);
      var step :| NextStep(c, run[i - 1], run[i], step);
      StepKeepsVoided(c, run[i - 1], run[i], step, j);
    }
  }

  lemma NotRefundedTwice(c: Attempts, s: State, j: nat)
    requires Reachable(c, s) && j in c && c[j].Ln? && (PrivateHash(c, j) || !RefundedByReceipt(c[j], j))
    ensures |Of(s.ledger, j)| <= 2
  {
    var run := RunOf(c, s);
    if PrivateHash(c, j) { AtMostOneRefund(c, run, |run| - 1, j); } else { RunVoidsOnce(c, run, |run| - 1, j); }
  }

  /** Some run refunds attempt j twice exactly when another attempt pays the same invoice
      and there is an end of the payment that updaters refund by a receipt. */
  lemma RefundedTwiceIff(c: Attempts, j: nat)
    requires AllBounded(c) && j in c && c[j].Ln? && c[j].hash != ""
    ensures (exists s :: Reachable(c, s) && |Of(s.ledger, j)| > 2)
       <==> !PrivateHash(c, j) && RefundedByReceipt(c[j], j)
  {
    if !PrivateHash(c, j) && RefundedByReceipt(c[j], j) {
      var k :| k in c && k != j && c[k].Ln? && c[k].hash == c[j].hash;
      SharedCanBeRefundedTwice(c, j, k);
    } else {
      forall s | Reachable(c, s) ensures |Of(s.ledger, j)| <= 2 { NotRefundedTwice(c, s, j); }
    }
  }

  /** Together: a payment can be forgotten exactly when one that is for an amount shares its
      invoice or has nowhere to be refunded to. */
  lemma SomethingForgottenIff(c: Attempts)
    requires AllBounded(c) && forall k :: k in c ==> c[k].hash != ""
    ensures (exists s, k :: Reachable(c, s) && Forgotten(c, s, k))
       <==> exists k :: k in c && c[k].Ln? && c[k].total != Amounts(0, 0) && (!PrivateHash(c, k) || !Refundable(c[k]))
  {
    forall k | k in c && c[k].Ln? { ForgottenIff(c, k); }
    if exists s, k :: Reachable(c, s) && Forgotten(c, s, k) {
      var s, k :| Reachable(c, s) && Forgotten(c, s, k);
      assert k in c && c[k].Ln?;
    }
  }

  // ----- a payment that is pending for ever

  /** Whatever happens from here on, the mark of attempt k is never cleared. */
  ghost predicate PendingForever(c: Attempts, s: State, k: nat)
    requires k in c
  {
    forall s' :: Leads(c, s, s') ==> SendTxn(c[k], k, true) in s'.ledger
  }

  /** A pending transaction of a hash that has been settled before. */
  predicate Held(l: seq<Txn>, t: Txn) {
    t in l && IsRecorded(l, t.hash)
  }

  /** No process is past the checks that a hash which is pending and recorded does not pass. */
  ghost predicate Stuck(c: Attempts, s: State, k: nat)
    requires k in c
  {
    && Held(s.ledger, SendTxn(c[k], k, true))
    && (forall j :: j in c && c[j].hash == c[k].hash ==> s.Pc(j) in {Idle, Locked, Done} || s.Pc(j).Settled?)
    && (forall u :: s.Up(u).Unrecorded? && s.Up(u).j in c ==> c[s.Up(u).j].hash != c[k].hash)
  }

  lemma HeldAppends(l: seq<Txn>, more: seq<Txn>, t: Txn)
    requires Held(l, t)
    ensures Held(l + more, t)
  {
    var i :| 0 <= i < |l| && l[i].hash == t.hash && !l[i].pending;
    assert (l + more)[i] == l[i];
  }

  lemma HeldSettles(l: seq<Txn>, hash: string, t: Txn)
    requires Held(l, t) && hash != t.hash
    ensures Held(Settle(l, hash), t)
  {
    var l' := Settle(l, hash);
    var i :| 0 <= i < |l| && l[i] == t;
    assert l'[i] == t;
    var r :| 0 <= r < |l| && l[r].hash == t.hash && !l[r].pending;
    assert l'[r] == l[r];
  }

  lemma HeldIsInUse(l: seq<Txn>, t: Txn, a: Attempt)
    requires Held(l, t) && t.pending && a.hash == t.hash
    ensures InUse(a, l)
  {
    var i :| 0 <= i < |l| && l[i] == t;
    assert l[i].pending;
  }

  lemma SenderKeepsHeld(c: Attempts, s: State, s': State, j: nat, act: SenderAct, k: nat)
    requires SenderNext(c, s, s', j, act) && k in c && Stuck(c, s, k)
    ensures Held(s'.ledger, SendTxn(c[k], k, true))
  {
    var t := SendTxn(c[k], k, true);
    match act {
      case Record =>
        RecordFrame(c, s, s', j);
        HeldAppends(s.ledger, RecordedTxns(c[j], j), t);
      case SettlePending =>
        SettleFrame(c, s, s', j);
        HeldSettles(s.ledger, c[j].hash, t);
      case Refund =>
        HeldAppends(s.ledger, Granted(s.ledger, RefundTxns(c[j], j, s.Pc(j).answer, Sender)), t);
      case _ => ReaderFrame(c, s, s', j, act);
    }
  }

  lemma SenderKeepsStuck(c: Attempts, s: State, s': State, j: nat, act: SenderAct, k: nat)
    requires SenderNext(c, s, s', j, act) && k in c && Stuck(c, s, k)
    ensures Stuck(c, s', k)
  {
    SenderKeepsHeld(c, s, s', j, act, k);
    SenderLeavesUpdaters(c, s, s', j, act);
    forall u ensures s'.Up(u) == s.Up(u) {}
    if c[j].hash == c[k].hash { HeldIsInUse(s.ledger, SendTxn(c[k], k, true), c[j]); }
    forall i | i in c && c[i].hash == c[k].hash ensures s'.Pc(i) in {Idle, Locked, Done} || s'.Pc(i).Settled? {
      if i != j { SenderPcs(c, s, s', j, act, i); }
    }
  }

  lemma UpdaterKeepsStuck(c: Attempts, s: State, s': State, u: nat, act: UpdaterAct, k: nat)
    requires UpdaterNext(c, s, s', u, act) && k in c && Stuck(c, s, k)
    ensures Stuck(c, s', k)
  {
    var t := SendTxn(c[k], k, true);
    UpdaterLeavesSenders(c, s, s', u, act);
    forall j ensures s'.Pc(j) == s.Pc(j) {}
    match act {
      case UpdaterSettle => HeldSettles(s.ledger, c[s.Up(u).j].hash, t);
      case UpdaterRefund =>
        HeldAppends(s.ledger, Granted(s.ledger, RefundTxns(c[s.Up(u).j], s.Up(u).j, s.Up(u).status, Updater(u))), t);
      case _ => UpdaterReaderFrame(c, s, s', u, act);
    }
    forall v | s'.Up(v).Unrecorded? && s'.Up(v).j in c ensures c[s'.Up(v).j].hash != c[k].hash {
      if v != u { OtherUpdatersWait(c, s, s', u, act, v); }
    }
  }

  lemma StepKeepsStuck(c: Attempts, s: State, s': State, step: Step, k: nat)
    requires NextStep(c, s, s', step) && k in c && Stuck(c, s, k)
    ensures Stuck(c, s', k)
  {
    match step {
      case BySender(j, act) => SenderKeepsStuck(c, s, s', j, act, k);
      case ByUpdater(u, act) => UpdaterKeepsStuck(c, s, s', u, act, k);
      case Deposit(w, amount, n) =>
        HeldAppends(s.ledger, [DepositTxn(w, amount, n)], SendTxn(c[k], k, true));
        StuckStays(c, s, s', k);
      case _ => StuckStays(c, s, s', k);
    }
  }

  lemma StuckStays(c: Attempts, s: State, s': State, k: nat)
    requires k in c && Stuck(c, s, k) && Held(s'.ledger, SendTxn(c[k], k, true))
    requires s'.senders == s.senders && s'.updaters == s.updaters
    ensures Stuck(c, s', k)
  {
    forall j ensures s'.Pc(j) == s.Pc(j) {}
    forall u ensures s'.Up(u) == s.Up(u) {}
  }

  lemma {:induction false} PathKeepsStuck(c: Attempts, path: seq<State>, i: nat, k: nat)
    requires IsPath(c, path) && i < |path| && k in c && Stuck(c, path[0], k)
    ensures Stuck(c, path[i], k)
  {
    if i > 0 {
      PathKeepsStuck(c, path, i - 1, k);
      assert StepsAt(c, path, i - 1);
      var step :| NextStep(c, path[i - 1], path[i], step);
      StepKeepsStuck(c, path[i - 1], path[i], step, k);
    }
  }

  lemma StuckIsForever(c: Attempts, s: State, k: nat)
    requires k in c && Stuck(c, s, k)
    ensures PendingForever(c, s, k)
  {
    forall s' | Leads(c, s, s') ensures SendTxn(c[k], k, true) in s'.ledger {
      var path :| IsPath(c, path) && path[0] == s && path[|path| - 1] == s';
      PathKeepsStuck(c, path, |path| - 1, k);
    }
  }

  /** The payment is not answered in time, and fails later. */
  lemma EndsStuck(c: Attempts, s: State, k: nat)
    requires Reachable(c, s) && k in c && c[k].Ln? && s.Pc(k) == Recorded && Held(s.ledger, SendTxn(c[k], k, true))
    requires s.updaters == map[] && s.lnd == map[] && forall j :: j != k ==> s.Pc(j) in {Idle, Done}
    ensures exists s' :: Reachable(c, s') && s'.Status(k) != InFlight && PendingForever(c, s', k)
  {
    var s1 := s.Move(k, Done);
    Extend(c, s, s1, BySender(k, PayPending));
    Resolves(c, s1, k, Failed);
    var s2 := s1.(lnd := s1.lnd[k := Failed]);
    forall j | j in c && c[j].hash == c[k].hash ensures s2.Pc(j) in {Idle, Locked, Done} {
      assert j != k ==> s2.Pc(j) == s.Pc(j);
    }
    assert Stuck(c, s2, k);
    StuckIsForever(c, s2, k);
  }

  lemma FirstIsDone(c: Attempts, j: nat, k: nat, n: nat) returns (s: State)
    requires Sharing(c, j, k) && NeverDebits(c[j]) && NeverDebits(c[k]) && n !in c
    ensures Reachable(c, s) && s.Pc(j) == Done && (forall i :: i != j ==> s.Pc(i) == Idle)
    ensures s.ledger == Given(c, j, k, n) + [SendTxn(c[j], j, false), RevertTxn(c[j], j)]
    ensures s.updaters == map[] && s.lnd == map[]
  {
    var s1 := FirstIsSent(c, j, k, n);
    assert s1.ledger[2].pending;
    s := ErrsAndReverts(c, s1, j);
    SettleGiven(c, j, k, n);
    forall i | i != j ensures s.Pc(i) == Idle { assert s1.Pc(i) == Idle; }
  }

  lemma RetryIsSent(c: Attempts, j: nat, k: nat, n: nat) returns (s: State)
    requires Sharing(c, j, k) && NeverDebits(c[j]) && NeverDebits(c[k]) && n !in c
    ensures Reachable(c, s) && s.Pc(k) == Recorded && s.updaters == map[] && s.lnd == map[]
    ensures s.ledger == Twice(c, j, k, n, true) && forall i :: i != k ==> s.Pc(i) in {Idle, Done}
  {
    var s1 := FirstIsDone(c, j, k, n);
    assert s1.Pc(k) == Idle;
    BalancesInRace(c[j], j, c[k], n);
    assert s1.ledger == [s1.ledger[0], s1.ledger[1], SendTxn(c[j], j, false), RevertTxn(c[j], j)];
    s := Sends(c, s1, k);
    assert s1.ledger + [SendTxn(c[k], k, true)] == Twice(c, j, k, n, true);
    forall i | i != k ensures s.Pc(i) in {Idle, Done} { assert i != j ==> s1.Pc(i) == Idle; }
  }

  /** A second attempt at an invoice whose first was sent and reverted ... */
  lemma RetryIsForever(c: Attempts, j: nat, k: nat)
    requires Sharing(c, j, k) && NeverDebits(c[j]) && NeverDebits(c[k])
    ensures exists s :: Reachable(c, s) && s.Status(k) != InFlight && PendingForever(c, s, k)
  {
    var n := Above(c.Keys);
    var s := RetryIsSent(c, j, k, n);
    assert s.ledger[2] == SendTxn(c[j], j, false) && s.ledger[4] == SendTxn(c[k], k, true);
    EndsStuck(c, s, k);
  }

  /** ... or that was paid within the bank before. */
  lemma PaidBeforeIsForever(c: Attempts, j: nat, k: nat)
    requires j in c && k in c && c[j].Intra? && c[k].Ln? && c[j].hash == c[k].hash != ""
    requires NeverDebits(c[j]) && NeverDebits(c[k])
    ensures exists s :: Reachable(c, s) && s.Status(k) != InFlight && PendingForever(c, s, k)
  {
    var n := Above(c.Keys);
    BothFunded(c, j, k, n);
    BalancesInRace(c[j], j, c[k], n);
    var s0 := START.(ledger := Given(c, j, k, n));
    var s1 := Sends(c, s0, j);
    BalanceAfterIntraledger(c, j, k, n);
    var s2 := Sends(c, s1, k);
    assert s2.ledger[2] == IntraledgerTxns(c[j], j)[0] && s2.ledger[4] == SendTxn(c[k], k, true);
    EndsStuck(c, s2, k);
  }

  lemma BalanceAfterIntraledger(c: Attempts, j: nat, k: nat, n: nat)
    requires j in c && k in c && c[j].Intra? && NeverDebits(c[j]) && NeverDebits(c[k])
    ensures Balance(Given(c, j, k, n) + IntraledgerTxns(c[j], j), c[k].wallet) >= c[k].Needed()
  {
    var given, moved := Given(c, j, k, n), IntraledgerTxns(c[j], j);
    AppendTwo([], given[0], given[1]);
    assert [] + [given[0], given[1]] == given;
    AppendTwo(given, moved[0], moved[1]);
    assert moved == [moved[0], moved[1]];
  }

  /** An updater can always end a payment that is over and alone on its hash. */
  lemma SoleCanBeSettled(c: Attempts, s: State, k: nat)
    requires Reachable(c, s) && k in c && c[k].Ln? && SoleUser(c, k) && s.Status(k) != InFlight
    ensures !PendingForever(c, s, k)
  {
    var t := SendTxn(c[k], k, true);
    LeadsToItself(c, s);
    if t in s.ledger {
      SoleIsUnrecorded(c, s, k);
      var u := Above(s.updaters.Keys);
      UpdaterReads(c, s, s, k, u);
      var s1 := s.MoveUpdater(u, Unrecorded(k, s.Status(k)));
      var s2 := SettledState(s1, c[k].hash, k, Settler(Updater(u), s.Status(k)))
                  .MoveUpdater(u, UpdaterSettled(k, s.Status(k)));
      LeadsOn(c, s, s1, s2, ByUpdater(u, UpdaterSettle));
      assert t !in s2.ledger;
    }
  }

  lemma ReachableShape(c: Attempts, s: State, k: nat)
    requires Reachable(c, s) && k in c && c[k].Ln? && PrivateHash(c, k)
    ensures LedgerOwned(c, s.ledger) && Shape(c[k], k, LocalOf(s, k))
  {
    var run := RunOf(c, s);
    RunKeepsCommon(c, run, |run| - 1);
    RunKeepsAttempt(c, run, |run| - 1, k);
  }

  lemma PendingStandsAlone(c: Attempts, s: State, k: nat, i: nat)
    requires Reachable(c, s) && k in c && c[k].Ln? && PrivateHash(c, k)
    requires i < |s.ledger| && s.ledger[i] == SendTxn(c[k], k, true)
    ensures LedgerOwned(c, s.ledger) && Of(s.ledger, k) == [SendTxn(c[k], k, true)]
  {
    ReachableShape(c, s, k);
    OfMember(s.ledger, k, i);
    PendingIsUnsettled(c[k], k, LocalOf(s, k));
  }

  lemma SoleIsUnrecorded(c: Attempts, s: State, k: nat)
    requires Reachable(c, s) && k in c && c[k].Ln? && SoleUser(c, k) && SendTxn(c[k], k, true) in s.ledger
    ensures HasPending(s.ledger, c[k].hash) && !IsRecorded(s.ledger, c[k].hash)
  {
    var i :| 0 <= i < |s.ledger| && s.ledger[i] == SendTxn(c[k], k, true);
    assert s.ledger[i].pending;
    PendingStandsAlone(c, s, k, i);
    RecordedIffSettled(c, s.ledger, k);
  }

  /** Some run leaves attempt k pending for ever, although its payment is over, exactly when
      another attempt of either kind is made under its hash. */
  lemma PendingForeverIff(c: Attempts, k: nat)
    requires AllBounded(c) && k in c && c[k].Ln? && c[k].hash != ""
    ensures (exists s :: Reachable(c, s) && s.Status(k) != InFlight && PendingForever(c, s, k))
       <==> exists j :: j in c && j != k && c[j].hash == c[k].hash
  {
    if SoleUser(c, k) {
      forall s | Reachable(c, s) && s.Status(k) != InFlight ensures !PendingForever(c, s, k) {
        SoleCanBeSettled(c, s, k);
      }
    } else {
      var j :| j in c && j != k && c[j].hash == c[k].hash;
      if c[j].Ln? { RetryIsForever(c, j, k); } else { PaidBeforeIsForever(c, j, k); }
    }
  }
}

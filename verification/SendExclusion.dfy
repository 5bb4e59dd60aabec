/** What the lock of a wallet is for: within one wallet, an invoice is not paid twice. */
module SendExclusion {
  import opened LedgerBook
  import opened PriceRatios
  import opened SendProtocol
  import opened SendRaces
  import opened SendSafety
  import opened SendTheorems

  /** Two attempts of the same kind under one hash. */
  ghost predicate Rivals(c: Attempts, j: nat, k: nat) {
    j in c && k in c && j != k && (c[j].Ln? <==> c[k].Ln?) && c[j].hash == c[k].hash
  }

  /** The debit by which an attempt is known: pending over Lightning, final within the bank. */
  function DebitTxn(a: Attempt, j: nat): Txn {
    RecordedTxns(a, j)[0]
  }

  ghost predicate Stands(c: Attempts, s: State, j: nat)
    requires j in c
  {
    DebitTxn(c[j], j) in s.ledger
  }

  /** Past the check of its hash, and still in possession of the lock. */
  ghost predicate Entering(c: Attempts, s: State, j: nat)
    requires j in c
  {
    (s.Pc(j).Cleared? || s.Pc(j).Checked?) && s.Holds(c[j].wallet, j)
  }

  /** While the debit of j stands, k has none and will not get one. */
  ghost predicate KeepsOut(c: Attempts, s: State, j: nat, k: nat)
    requires j in c && k in c
  {
    Stands(c, s, j) ==> !Stands(c, s, k) && !Entering(c, s, k)
  }

  // ----- where a debit comes from

  lemma RecordAddsDebit(a: Attempt, j: nat, b: Attempt, k: nat, l: seq<Txn>)
    requires k != j && DebitTxn(a, j) in l + RecordedTxns(b, k)
    ensures DebitTxn(a, j) in l
  {
    assert forall t :: t in RecordedTxns(b, k) ==> t.journal == k;
  }

  lemma RefundAddsNoDebit(a: Attempt, j: nat, b: Attempt, k: nat, answer: LnStatus, actor: Actor, l: seq<Txn>)
    requires b.Ln? && DebitTxn(a, j) in l + Granted(l, RefundTxns(b, k, answer, actor))
    ensures DebitTxn(a, j) in l
  {
    RefundShape(b, k, answer, actor);
  }

  lemma SettleAddsNoDebit(c: Attempts, j: nat, l: seq<Txn>, hash: string)
    requires LedgerOwned(c, l) && j in c && DebitTxn(c[j], j) in Settle(l, hash)
    ensures DebitTxn(c[j], j) in l
  {
    var i :| 0 <= i < |l| && Settle(l, hash)[i] == DebitTxn(c[j], j);
    assert Owned(c, l[i]);
  }

  lemma SenderAddsDebit(c: Attempts, s: State, s': State, k: nat, act: SenderAct, j: nat)
    requires SenderNext(c, s, s', k, act) && LedgerOwned(c, s.ledger) && j in c && Stands(c, s', j)
    ensures Stands(c, s, j) || (k == j && act.Record? && Entering(c, s, j))
  {
    match act {
      case Record =>
        RecordFrame(c, s, s', k);
        if k != j && s.Holds(c[k].wallet, k) { RecordAddsDebit(c[j], j, c[k], k, s.ledger); }
      case SettlePending =>
        SettleFrame(c, s, s', k);
        if s'.ledger != s.ledger { SettleAddsNoDebit(c, j, s.ledger, c[k].hash); }
      case Refund => RefundAddsNoDebit(c[j], j, c[k], k, s.Pc(k).answer, Sender, s.ledger);
      case _ => ReaderFrame(c, s, s', k, act);
    }
  }

  lemma UpdaterAddsNoDebit(c: Attempts, s: State, s': State, u: nat, act: UpdaterAct, j: nat)
    requires UpdaterNext(c, s, s', u, act) && LedgerOwned(c, s.ledger) && j in c && Stands(c, s', j)
    ensures Stands(c, s, j)
  {
    match act {
      case UpdaterSettle =>
        if s'.ledger != s.ledger { SettleAddsNoDebit(c, j, s.ledger, c[s.Up(u).j].hash); }
      case UpdaterRefund =>
        RefundAddsNoDebit(c[j], j, c[s.Up(u).j], s.Up(u).j, s.Up(u).status, Updater(u), s.ledger);
      case _ => UpdaterReaderFrame(c, s, s', u, act);
    }
  }

  /** Only its own sender records the debit of an attempt, and holds the lock when it does. */
  lemma DebitIsEntered(c: Attempts, s: State, s': State, step: Step, j: nat)
    requires NextStep(c, s, s', step) && LedgerOwned(c, s.ledger) && j in c && Stands(c, s', j)
    ensures Stands(c, s, j) || (step == BySender(j, Record) && Entering(c, s, j))
  {
    match step {
      case BySender(k, act) => SenderAddsDebit(c, s, s', k, act, j);
      case ByUpdater(u, act) => UpdaterAddsNoDebit(c, s, s', u, act, j);
      case _ =>
    }
  }

  // ----- how an attempt gets past the check

  lemma SenderEnters(c: Attempts, s: State, s': State, k: nat, act: SenderAct)
    requires SenderNext(c, s, s', k, act) && Entering(c, s', k)
    ensures Entering(c, s, k) || (act.CheckHash? && !InUse(c[k], s.ledger))
  {
  }

  lemma OthersDoNotEnter(c: Attempts, s: State, s': State, j: nat, act: SenderAct, k: nat)
    requires SenderNext(c, s, s', j, act) && k in c && k != j && Entering(c, s', k)
    ensures Entering(c, s, k)
  {
    SenderPcs(c, s, s', j, act, k);
    LocksMove(c, s, s', j, act, c[k].wallet, k);
  }

  lemma LocksMove(c: Attempts, s: State, s': State, j: nat, act: SenderAct, w: string, k: nat)
    requires SenderNext(c, s, s', j, act) && k != j && s'.Holds(w, k)
    ensures s.Holds(w, k)
  {
  }

  /** An attempt enters by finding its hash free. */
  lemma EnteredByCheck(c: Attempts, s: State, s': State, step: Step, k: nat)
    requires NextStep(c, s, s', step) && k in c && Entering(c, s', k)
    ensures Entering(c, s, k) || !InUse(c[k], s.ledger)
  {
    match step {
      case BySender(j, act) =>
        if j == k { SenderEnters(c, s, s', k, act); } else { OthersDoNotEnter(c, s, s', j, act, k); }
      case ByUpdater(u, act) => UpdaterLeavesSenders(c, s, s', u, act);
      case _ =>
    }
  }

  lemma StandingIsInUse(c: Attempts, s: State, j: nat, k: nat)
    requires Rivals(c, j, k) && Stands(c, s, j)
    ensures InUse(c[k], s.ledger)
  {
    var i :| 0 <= i < |s.ledger| && s.ledger[i] == DebitTxn(c[j], j);
  }

  // ----- one debit at a time

  lemma StepKeepsOut(c: Attempts, s: State, s': State, step: Step, j: nat, k: nat)
    requires NextStep(c, s, s', step) && LedgerOwned(c, s.ledger)
    requires Rivals(c, j, k) && c[j].wallet == c[k].wallet && KeepsOut(c, s, j, k) && KeepsOut(c, s, k, j)
    ensures KeepsOut(c, s', j, k)
  {
    if Stands(c, s', j) {
      DebitIsEntered(c, s, s', step, j);
      if Stands(c, s', k) { DebitIsEntered(c, s, s', step, k); }
      if Entering(c, s', k) {
        if Stands(c, s, j) {
          EnteredByCheck(c, s, s', step, k);
          StandingIsInUse(c, s, j, k);
        } else {
          RecordFrame(c, s, s', j);
        }
      }
    }
  }

  lemma {:induction false} RunKeepsOut(c: Attempts, run: seq<State>, i: nat, j: nat, k: nat)
    requires IsRun(c, run) && i < |run| && Rivals(c, j, k) && c[j].wallet == c[k].wallet
    ensures KeepsOut(c, run[i], j, k) && KeepsOut(c, run[i], k, j)
  {
    if i > 0 {
      RunKeepsOut(c, run, i - 1, j, k);
      RunKeepsCommon(c, run, i - 1);
      assert StepsAt(c, run, i - 1);
      var step :| NextStep(c, run[i - 1], run[i], step);
      StepKeepsOut(c, run[i - 1], run[i], step, j, k);
      StepKeepsOut(c, run[i - 1], run[i], step, k, j);
    }
  }

  // ----- and two in different wallets

  lemma BothEnter(c: Attempts, j: nat, k: nat, n: nat) returns (s: State)
    requires Rivals(c, j, k) && c[j].wallet != c[k].wallet && c[j].hash != "" && n !in c
    requires NeverDebits(c[j]) && NeverDebits(c[k])
    ensures Reachable(c, s) && s.ledger == Given(c, j, k, n) && s.Pc(j) == Cleared && s.Pc(k) == Cleared
    ensures s.Holds(c[j].wallet, j) && s.Holds(c[k].wallet, k)
  {
    BothFunded(c, j, k, n);
    var s1 := Enters(c, START.(ledger := Given(c, j, k, n)), j);
    s := Enters(c, s1, k);
  }

  lemma FundsOfSecond(c: Attempts, j: nat, k: nat, n: nat)
    requires j in c && k in c && c[j].wallet != c[k].wallet && NeverDebits(c[j]) && NeverDebits(c[k])
    ensures Balance(Given(c, j, k, n), c[j].wallet) >= c[j].Needed()
    ensures Balance(Given(c, j, k, n) + RecordedTxns(c[j], j), c[k].wallet) >= c[k].Needed()
  {
    var given, moved := Given(c, j, k, n), RecordedTxns(c[j], j);
    AppendTwo([], given[0], given[1]);
    assert [] + [given[0], given[1]] == given;
    if c[j].Ln? {
      AppendOne(given, moved[0]);
      assert moved == [moved[0]];
    } else {
      AppendTwo(given, moved[0], moved[1]);
      assert moved == [moved[0], moved[1]];
    }
  }

  lemma BothCanStand(c: Attempts, j: nat, k: nat)
    requires Rivals(c, j, k) && c[j].wallet != c[k].wallet && c[j].hash != ""
    requires NeverDebits(c[j]) && NeverDebits(c[k])
    ensures exists s :: Reachable(c, s) && Stands(c, s, j) && Stands(c, s, k)
  {
    var n := Above(c.Keys);
    var s1 := BothEnter(c, j, k, n);
    FundsOfSecond(c, j, k, n);
    var s2 := Debits(c, s1, j);
    assert s2.Pc(k) == s1.Pc(k);
    var s3 := Debits(c, s2, k);
    assert s3.ledger[|s1.ledger|] == DebitTxn(c[j], j) && s3.ledger[|s2.ledger|] == DebitTxn(c[k], k);
  }

  lemma BothStandIff(c: Attempts, j: nat, k: nat)
    requires Rivals(c, j, k) && c[j].hash != "" && NeverDebits(c[j]) && NeverDebits(c[k])
    ensures (exists s :: Reachable(c, s) && Stands(c, s, j) && Stands(c, s, k)) <==> c[j].wallet != c[k].wallet
  {
    if c[j].wallet != c[k].wallet {
      BothCanStand(c, j, k);
    } else {
      forall s | Reachable(c, s) ensures !(Stands(c, s, j) && Stands(c, s, k)) {
        var run := RunOf(c, s);
        RunKeepsOut(c, run, |run| - 1, j, k);
      }
    }
  }

  // ----- the two kinds

  /** Two intraledger payments of one invoice can both be on the ledger exactly when they
      are made from different wallets. Losing locks does not help. */
  lemma PaidTwiceIff(c: Attempts, j: nat, k: nat)
    requires j in c && k in c && j != k && c[j].Intra? && c[k].Intra? && c[j].hash == c[k].hash != ""
    requires NeverDebits(c[j]) && NeverDebits(c[k])
    ensures (exists s :: Reachable(c, s) && Of(s.ledger, j) != [] && Of(s.ledger, k) != [])
       <==> c[j].wallet != c[k].wallet
  {
    BothStandIff(c, j, k);
    forall s | Reachable(c, s)
      ensures (Stands(c, s, j) <==> Of(s.ledger, j) != []) && (Stands(c, s, k) <==> Of(s.ledger, k) != [])
    {
      StandsIffRecorded(c, s, j);
      StandsIffRecorded(c, s, k);
    }
  }

  lemma StandsIffRecorded(c: Attempts, s: State, j: nat)
    requires Reachable(c, s) && j in c && c[j].Intra?
    ensures Stands(c, s, j) <==> Of(s.ledger, j) != []
  {
    var run := RunOf(c, s);
    IntraledgerMovesMoney(c, run, |run| - 1, j, "");
    assert BothSidesOrNone(c, s, j);
    if Stands(c, s, j) {
      var i :| 0 <= i < |s.ledger| && s.ledger[i] == DebitTxn(c[j], j);
      OfMember(s.ledger, j, i);
    } else if Of(s.ledger, j) != [] {
      OfComesFrom(s.ledger, j, Of(s.ledger, j)[0]);
    }
  }

  /** Two Lightning payments of one invoice can be pending at the same time exactly when
      they are made from different wallets. */
  lemma PendingTwiceIff(c: Attempts, j: nat, k: nat)
    requires j in c && k in c && j != k && c[j].Ln? && c[k].Ln? && c[j].hash == c[k].hash != ""
    requires NeverDebits(c[j]) && NeverDebits(c[k])
    ensures (exists s :: Reachable(c, s) && SendTxn(c[j], j, true) in s.ledger && SendTxn(c[k], k, true) in s.ledger)
       <==> c[j].wallet != c[k].wallet
  {
    BothStandIff(c, j, k);
    assert forall s :: Stands(c, s, j) <==> SendTxn(c[j], j, true) in s.ledger;
  }
}

/** Crediting incoming on-chain transactions. Scans overlap: several passes may look at
    the same wallet and transaction at the same time, each stopping at any error. The
    lock on the transaction may be lost at any moment, which no pass notices. */
module OnChainReceipts {
  import opened Outcomes

  datatype Output = Output(sats: nat, address: Option<string>)

  datatype OwnedWallet = OwnedWallet(id: string, addresses: set<string>)

  datatype Tx = Tx(hash: string, outs: seq<Output>, confirmations: nat)

  datatype Receipt = Receipt(wallet: string, txHash: string, sats: nat, pass: nat)

  predicate Pays(o: Output, addresses: set<string>) {
    o.address.Some? && o.address.value in addresses
  }

  /** The outputs that pay one of the addresses, in order. */
  function Matching(outs: seq<Output>, addresses: set<string>): seq<nat> {
    if outs == [] then []
    else
      var o := outs[|outs| - 1];
      Matching(outs[..|outs| - 1], addresses) + if Pays(o, addresses) then [o.sats] else []
  }

  function Sum(amounts: seq<nat>): nat {
    if amounts == [] then 0 else Sum(amounts[..|amounts| - 1]) + amounts[|amounts| - 1]
  }

  /** What a wallet was credited for a transaction, entry by entry. */
  function Entries(receipts: seq<Receipt>, wallet: string, txHash: string): seq<nat> {
    if receipts == [] then []
    else
      var r := receipts[|receipts| - 1];
      Entries(receipts[..|receipts| - 1], wallet, txHash)
      + if r.wallet == wallet && r.txHash == txHash then [r.sats] else []
  }

  /** What one pass credited. */
  function ByPass(receipts: seq<Receipt>, pass: nat): seq<nat> {
    if receipts == [] then []
    else
      var r := receipts[|receipts| - 1];
      ByPass(receipts[..|receipts| - 1], pass) + if r.pass == pass then [r.sats] else []
  }

  predicate IsRecorded(receipts: seq<Receipt>, wallet: string, txHash: string) {
    exists i :: 0 <= i < |receipts| && receipts[i].wallet == wallet && receipts[i].txHash == txHash
  }

  lemma ByPassAppends(receipts: seq<Receipt>, more: seq<Receipt>, p: nat)
    requires |more| <= 1
    ensures ByPass(receipts + more, p)
         == ByPass(receipts, p) + if more != [] && more[0].pass == p then [more[0].sats] else []
  {
    if more == [] {
      assert receipts + more == receipts;
    } else {
      assert (receipts + more)[..|receipts|] == receipts && (receipts + more)[|receipts|] == more[0];
    }
  }

  lemma {:induction false} EntriesConcat(a: seq<Receipt>, b: seq<Receipt>, w: string, h: string)
    ensures Entries(a + b, w, h) == Entries(a, w, h) + Entries(b, w, h)
  {
    if b == [] {
      assert a + b == a;
    } else {
      EntriesConcat(a, b[..|b| - 1], w, h);
      assert (a + b)[..|a + b| - 1] == a + b[..|b| - 1] && (a + b)[|a + b| - 1] == b[|b| - 1];
    }
  }

  lemma {:induction false} RecordedIffEntries(receipts: seq<Receipt>, w: string, h: string)
    ensures IsRecorded(receipts, w, h) <==> Entries(receipts, w, h) != []
  {
    if receipts != [] {
      var front := receipts[..|receipts| - 1];
      RecordedIffEntries(front, w, h);
      assert forall i :: 0 <= i < |front| ==> receipts[i] == front[i];
    }
  }

  lemma MatchingGrows(outs: seq<Output>, addresses: set<string>, i: nat)
    requires i < |outs|
    ensures Matching(outs[..i + 1], addresses)
         == Matching(outs[..i], addresses) + if Pays(outs[i], addresses) then [outs[i].sats] else []
  {
    assert outs[..i + 1][..i] == outs[..i];
  }

  lemma {:induction false} SumConcat(a: seq<nat>, b: seq<nat>)
    ensures Sum(a + b) == Sum(a) + Sum(b)
  {
    if b == [] {
      assert a + b == a;
    } else {
      SumConcat(a, b[..|b| - 1]);
      assert (a + b)[..|a + b| - 1] == a + b[..|b| - 1];
    }
  }

  lemma PrefixMatchesLess(outs: seq<Output>, addresses: set<string>, i: nat)
    requires i <= |outs|
    ensures Sum(Matching(outs[..i], addresses)) <= Sum(Matching(outs, addresses))
  {
    assert outs == outs[..i] + outs[i..];
    MatchingConcat(outs[..i], outs[i..], addresses);
    SumConcat(Matching(outs[..i], addresses), Matching(outs[i..], addresses));
  }

  // ----- which outputs those are

  /** One output matches exactly when its address is one of the wallet's. */
  lemma MatchingOne(o: Output, addresses: set<string>)
    ensures o.address.Some? && o.address.value in addresses ==> Matching([o], addresses) == [o.sats]
    ensures o.address.None? || o.address.value !in addresses ==> Matching([o], addresses) == []
  {
    assert [o][..0] == [];
  }

  /** The positions of the outputs whose address is one of the wallet's, in order. */
  ghost predicate IsPick(outs: seq<Output>, addresses: set<string>, positions: seq<nat>) {
    && (forall m :: 0 <= m < |positions| ==> positions[m] < |outs|)
    && (forall m, n :: 0 <= m < n < |positions| ==> positions[m] < positions[n])
    && (forall i: nat :: i in positions <==>
          i < |outs| && outs[i].address.Some? && outs[i].address.value in addresses)
  }

  /** A list of amounts is what these outputs pay, one by one. */
  ghost predicate PaidAt(outs: seq<Output>, addresses: set<string>, amounts: seq<nat>) {
    exists positions ::
      && IsPick(outs, addresses, positions) && |amounts| == |positions|
      && forall m :: 0 <= m < |positions| ==> amounts[m] == outs[positions[m]].sats
  }

  lemma PickGrows(outs: seq<Output>, addresses: set<string>, before: seq<nat>) returns (positions: seq<nat>)
    requires outs != [] && IsPick(outs[..|outs| - 1], addresses, before)
    ensures IsPick(outs, addresses, positions)
    ensures var o := outs[|outs| - 1];
            positions == before + if o.address.Some? && o.address.value in addresses then [|outs| - 1] else []
  {
    var front, o := outs[..|outs| - 1], outs[|outs| - 1];
    positions := before + if o.address.Some? && o.address.value in addresses then [|front|] else [];
    forall i: nat ensures i in positions <==>
      i < |outs| && outs[i].address.Some? && outs[i].address.value in addresses
    {
      assert i in before <==> i < |front| && front[i].address.Some? && front[i].address.value in addresses;
    }
  }

  lemma {:induction false} Picks(outs: seq<Output>, addresses: set<string>) returns (positions: seq<nat>)
    ensures IsPick(outs, addresses, positions) && |Matching(outs, addresses)| == |positions|
    ensures forall m :: 0 <= m < |positions| ==> Matching(outs, addresses)[m] == outs[positions[m]].sats
  {
    if outs == [] {
      positions := [];
    } else {
      var front, o := outs[..|outs| - 1], outs[|outs| - 1];
      var before := Picks(front, addresses);
      positions := PickGrows(outs, addresses, before);
      MatchingOne(o, addresses);
      MatchingConcat(front, [o], addresses);
      assert outs == front + [o];
    }
  }

  /** The matching amounts are those at the positions whose address the wallet owns. */
  lemma MatchingIsPaidAt(outs: seq<Output>, addresses: set<string>)
    ensures PaidAt(outs, addresses, Matching(outs, addresses))
  {
    var positions := Picks(outs, addresses);
    assert IsPick(outs, addresses, positions);
  }

  /** There is only one such list. */
  lemma {:induction false} PickUnique(outs: seq<Output>, addresses: set<string>, p: seq<nat>, q: seq<nat>)
    requires IsPick(outs, addresses, p) && IsPick(outs, addresses, q)
    ensures p == q
  {
    if outs == [] {
      assert p == [] && q == [];
    } else {
      var n := |outs| - 1;
      PickFront(outs, addresses, p);
      PickFront(outs, addresses, q);
      PickUnique(outs[..n], addresses, WithoutLast(p, n), WithoutLast(q, n));
      assert n in p <==> n in q;
    }
  }

  ghost function WithoutLast(p: seq<nat>, n: nat): seq<nat> {
    if n in p then p[..|p| - 1] else p
  }

  lemma PickFront(outs: seq<Output>, addresses: set<string>, p: seq<nat>)
    requires outs != [] && IsPick(outs, addresses, p)
    ensures var n := |outs| - 1;
            && IsPick(outs[..n], addresses, WithoutLast(p, n))
            && (n in p ==> p != [] && p[|p| - 1] == n)
  {
    var n, front := |outs| - 1, WithoutLast(p, |outs| - 1);
    if n in p {
      var m :| 0 <= m < |p| && p[m] == n;
      assert p[m] <= p[|p| - 1] <= n;
    }
    forall i: nat ensures i in front <==>
      i < n && outs[..n][i].address.Some? && outs[..n][i].address.value in addresses
    {
      assert i in p <==> i < |outs| && outs[i].address.Some? && outs[i].address.value in addresses;
      if i in front { assert i in p; }
      if i in p && i != n {
        var m :| 0 <= m < |p| && p[m] == i;
        assert m < |front| && front[m] == i;
      }
      if n in p { assert n !in front; }
    }
  }

  // ----- interleaved passes

  /** One pass looks at one wallet and transaction, with the wallet's addresses as it
      read them. */
  datatype Job = Job(wallet: string, txHash: string, addresses: set<string>)

  datatype PassPc = Waiting | Locked | Recording(next: nat) | Done

  datatype Config = Config(outs: map<string, seq<Output>>, jobs: map<nat, Job>) {
    ghost predicate Valid() {
      forall p :: p in jobs ==> jobs[p].txHash in outs
    }
    function Outs(p: nat): seq<Output>
      requires p in jobs && jobs[p].txHash in outs
    {
      outs[jobs[p].txHash]
    }
    predicate SameTarget(p: nat, q: nat)
      requires p in jobs && q in jobs
    {
      jobs[p].wallet == jobs[q].wallet && jobs[p].txHash == jobs[q].txHash
    }
  }

  /** `reached` remembers how many outputs a pass went through, `failed` which passes met
      an error, and `lost` the transactions whose lock was lost while a pass held it. */
  datatype State = State(
    receipts: seq<Receipt>, locks: map<string, nat>, passes: map<nat, PassPc>, reached: map<nat, nat>,
    failed: set<nat>, lost: set<string>)
  {
    function At(p: nat): PassPc {
      if p in passes then passes[p] else Waiting
    }
    function Reached(p: nat): nat {
      if p in reached then reached[p] else 0
    }
    predicate Holds(p: nat, txHash: string) {
      txHash in locks && locks[txHash] == p
    }
    function Take(p: nat, i: nat, more: seq<Receipt>): State {
      this.(passes := passes[p := Recording(i + 1)], reached := reached[p := i + 1], receipts := receipts + more)
    }
    function Stop(p: nat, txHash: string): State {
      this.(passes := passes[p := Done], locks := if Holds(p, txHash) then locks - {txHash} else locks)
    }
  }

  datatype Step =
    | Lock(p: nat) | CheckRecorded(p: nat) | TakeOutput(p: nat) | Finish(p: nat) | Fail(p: nat)
    | LoseLock(txHash: string)

  const START := State([], map[], map[], map[], {}, {})

  /** What a pass records for an output. */
  function Taken(job: Job, o: Output, p: nat): seq<Receipt> {
    if Pays(o, job.addresses) then [Receipt(job.wallet, job.txHash, o.sats, p)] else []
  }

  ghost predicate NextStep(c: Config, s: State, s': State, step: Step) {
    if step.LoseLock? then
      step.txHash in s.locks && s' == s.(locks := s.locks - {step.txHash}, lost := s.lost + {step.txHash})
    else PassStep(c, s, s', step)
  }

  ghost predicate PassStep(c: Config, s: State, s': State, step: Step)
    requires !step.LoseLock?
  {
    var p := step.p;
    p in c.jobs && c.jobs[p].txHash in c.outs &&
    var job, outs := c.jobs[p], c.Outs(p);
    match step
    case Lock(_) =>
      && s.At(p) == Waiting && job.txHash !in s.locks
      && s' == s.(passes := s.passes[p := Locked], locks := s.locks[job.txHash := p])
    case CheckRecorded(_) =>
      && s.At(p) == Locked
      && s' == if IsRecorded(s.receipts, job.wallet, job.txHash) then s.Stop(p, job.txHash)
               else s.(passes := s.passes[p := Recording(0)])
    case TakeOutput(_) =>
      && s.At(p).Recording? && s.At(p).next < |outs|
      && s' == s.Take(p, s.At(p).next, Taken(job, outs[s.At(p).next], p))
    case Finish(_) =>
      && s.At(p).Recording? && s.At(p).next == |outs|
      && s' == s.Stop(p, job.txHash)
    case Fail(_) =>
      && (s.At(p).Locked? || s.At(p).Recording?)
      && s' == s.Stop(p, job.txHash).(failed := s.failed + {p})
  }

  ghost predicate Next(c: Config, s: State, s': State) {
    exists step :: NextStep(c, s, s', step)
  }

  ghost predicate IsRun(c: Config, run: seq<State>) {
    && run != []
    && run[0] == START
    && forall i :: 0 <= i < |run| - 1 ==> StepsAt(c, run, i)
  }

  ghost predicate StepsAt(c: Config, run: seq<State>, i: nat)
    requires i < |run| - 1
  {
    Next(c, run[i], run[i + 1])
  }

  // ----- the invariant

  ghost predicate Owned(c: Config, receipts: seq<Receipt>) {
    forall i :: 0 <= i < |receipts| ==>
      && receipts[i].pass in c.jobs
      && c.jobs[receipts[i].pass].wallet == receipts[i].wallet
      && c.jobs[receipts[i].pass].txHash == receipts[i].txHash
  }

  /** A pass has credited exactly the matching outputs it went through. */
  ghost predicate PassInv(c: Config, s: State, p: nat)
    requires c.Valid() && p in c.jobs
  {
    && s.Reached(p) <= |c.Outs(p)|
    && ByPass(s.receipts, p) == Matching(c.Outs(p)[..s.Reached(p)], c.jobs[p].addresses)
    && (s.At(p).Waiting? || s.At(p).Locked? ==> s.Reached(p) == 0)
    && (s.At(p).Recording? ==> s.Reached(p) == s.At(p).next)
    && (s.At(p).Done? && p !in s.failed ==>
          || s.Reached(p) == |c.Outs(p)|
          || (s.Reached(p) == 0 && IsRecorded(s.receipts, c.jobs[p].wallet, c.jobs[p].txHash)))
  }

  /** While the lock is not lost, a pass at work holds it. */
  ghost predicate LockInv(c: Config, s: State, p: nat)
    requires p in c.jobs
  {
    (s.At(p).Locked? || s.At(p).Recording?) && c.jobs[p].txHash !in s.lost ==> s.Holds(p, c.jobs[p].txHash)
  }

  /** No two passes have credited the same wallet for the same transaction, and none has
      while another one is at it, as long as the lock is not lost. */
  ghost predicate PairInv(c: Config, s: State, p: nat, q: nat)
    requires c.Valid() && p in c.jobs && q in c.jobs
  {
    p != q && c.SameTarget(p, q) && c.jobs[p].txHash !in s.lost ==>
      && (ByPass(s.receipts, p) == [] || ByPass(s.receipts, q) == [])
      && (s.At(p).Recording? ==> ByPass(s.receipts, q) == [])
  }

  ghost predicate Inv(c: Config, s: State)
    requires c.Valid()
  {
    && Owned(c, s.receipts)
    && (forall p :: p in c.jobs ==> PassInv(c, s, p) && LockInv(c, s, p))
    && (forall p, q :: p in c.jobs && q in c.jobs ==> PairInv(c, s, p, q))
  }

  lemma {:induction false} ByPassIsRecorded(c: Config, receipts: seq<Receipt>, p: nat)
    requires Owned(c, receipts) && p in c.jobs && ByPass(receipts, p) != []
    ensures IsRecorded(receipts, c.jobs[p].wallet, c.jobs[p].txHash)
  {
    var front, r := receipts[..|receipts| - 1], receipts[|receipts| - 1];
    if r.pass == p {
      assert receipts[|receipts| - 1].wallet == c.jobs[p].wallet;
    } else {
      ByPassIsRecorded(c, front, p);
      var i :| 0 <= i < |front| && front[i].wallet == c.jobs[p].wallet && front[i].txHash == c.jobs[p].txHash;
      assert receipts[i] == front[i];
    }
  }

  lemma RecordedStays(receipts: seq<Receipt>, new_: seq<Receipt>, w: string, h: string)
    requires IsRecorded(receipts, w, h)
    ensures IsRecorded(receipts + new_, w, h)
  {
    var i :| 0 <= i < |receipts| && receipts[i].wallet == w && receipts[i].txHash == h;
    assert (receipts + new_)[i] == receipts[i];
  }

  lemma TakeMoves(c: Config, s: State, s': State, p: nat)
    requires c.Valid() && NextStep(c, s, s', TakeOutput(p)) && PassInv(c, s, p)
    ensures PassInv(c, s', p)
  {
    var i, job := s.At(p).next, c.jobs[p];
    ByPassAppends(s.receipts, Taken(job, c.Outs(p)[i], p), p);
    MatchingGrows(c.Outs(p), job.addresses, i);
  }

  lemma TakeLeavesOthers(c: Config, s: State, s': State, p: nat, q: nat)
    requires c.Valid() && NextStep(c, s, s', TakeOutput(p)) && q in c.jobs && q != p && PassInv(c, s, q)
    ensures PassInv(c, s', q)
  {
    var more := Taken(c.jobs[p], c.Outs(p)[s.At(p).next], p);
    ByPassAppends(s.receipts, more, q);
    assert s'.At(q) == s.At(q) && s'.Reached(q) == s.Reached(q);
    if IsRecorded(s.receipts, c.jobs[q].wallet, c.jobs[q].txHash) {
      RecordedStays(s.receipts, more, c.jobs[q].wallet, c.jobs[q].txHash);
    }
  }

  lemma TakeKeepsPair(c: Config, s: State, s': State, p: nat, q: nat, q': nat)
    requires c.Valid() && NextStep(c, s, s', TakeOutput(p)) && q in c.jobs && q' in c.jobs
    requires PairInv(c, s, q, q') && PairInv(c, s, q', q) && LockInv(c, s, p) && LockInv(c, s, q)
    ensures PairInv(c, s', q, q')
  {
    var more := Taken(c.jobs[p], c.Outs(p)[s.At(p).next], p);
    ByPassAppends(s.receipts, more, q);
    ByPassAppends(s.receipts, more, q');
  }

  lemma CheckKeepsPair(c: Config, s: State, s': State, p: nat, q: nat, q': nat)
    requires c.Valid() && Owned(c, s.receipts) && NextStep(c, s, s', CheckRecorded(p)) && q in c.jobs && q' in c.jobs
    requires PairInv(c, s, q, q')
    ensures PairInv(c, s', q, q')
  {
    if p == q && c.SameTarget(p, q') && ByPass(s.receipts, q') != [] {
      ByPassIsRecorded(c, s.receipts, q');
    }
  }

  lemma StepKeepsOwned(c: Config, s: State, s': State, step: Step)
    requires Owned(c, s.receipts) && NextStep(c, s, s', step)
    ensures Owned(c, s'.receipts)
  {
  }

  lemma OtherStepKeepsPass(c: Config, s: State, s': State, step: Step, q: nat)
    requires c.Valid() && NextStep(c, s, s', step) && !step.TakeOutput? && q in c.jobs && PassInv(c, s, q)
    ensures PassInv(c, s', q)
  {
    assert s'.receipts == s.receipts;
  }

  lemma OtherStepKeepsPair(c: Config, s: State, s': State, step: Step, q: nat, q': nat)
    requires c.Valid() && NextStep(c, s, s', step) && !step.TakeOutput? && !step.CheckRecorded?
    requires q in c.jobs && q' in c.jobs && PairInv(c, s, q, q')
    ensures PairInv(c, s', q, q')
  {
    assert s'.receipts == s.receipts;
  }

  lemma StepKeepsLock(c: Config, s: State, s': State, step: Step, q: nat)
    requires NextStep(c, s, s', step) && q in c.jobs && LockInv(c, s, q)
    ensures LockInv(c, s', q)
  {
  }

  lemma StepKeepsPass(c: Config, s: State, s': State, step: Step, q: nat)
    requires c.Valid() && Inv(c, s) && NextStep(c, s, s', step) && q in c.jobs
    ensures PassInv(c, s', q) && LockInv(c, s', q)
  {
    assert PassInv(c, s, q) && LockInv(c, s, q);
    if step.TakeOutput? {
      if q == step.p { TakeMoves(c, s, s', q); } else { TakeLeavesOthers(c, s, s', step.p, q); }
    } else {
      OtherStepKeepsPass(c, s, s', step, q);
    }
    StepKeepsLock(c, s, s', step, q);
  }

  lemma StepKeepsPair(c: Config, s: State, s': State, step: Step, q: nat, q': nat)
    requires c.Valid() && Inv(c, s) && NextStep(c, s, s', step) && q in c.jobs && q' in c.jobs
    ensures PairInv(c, s', q, q')
  {
    assert PairInv(c, s, q, q') && PairInv(c, s, q', q);
    if step.TakeOutput? {
      assert LockInv(c, s, step.p) && LockInv(c, s, q);
      TakeKeepsPair(c, s, s', step.p, q, q');
    } else if step.CheckRecorded? {
      CheckKeepsPair(c, s, s', step.p, q, q');
    } else {
      OtherStepKeepsPair(c, s, s', step, q, q');
    }
  }

  lemma StepKeepsInv(c: Config, s: State, s': State, step: Step)
    requires c.Valid() && Inv(c, s) && NextStep(c, s, s', step)
    ensures Inv(c, s')
  {
    StepKeepsOwned(c, s, s', step);
    forall q | q in c.jobs ensures PassInv(c, s', q) && LockInv(c, s', q) { StepKeepsPass(c, s, s', step, q); }
    forall q, q' | q in c.jobs && q' in c.jobs ensures PairInv(c, s', q, q') { StepKeepsPair(c, s, s', step, q, q'); }
  }

  lemma {:induction false} RunKeepsInv(c: Config, run: seq<State>, i: nat)
    requires c.Valid() && IsRun(c, run) && i < |run|
    ensures Inv(c, run[i])
  {
    if i > 0 {
      RunKeepsInv(c, run, i - 1);
      assert StepsAt(c, run, i - 1);
      var step :| NextStep(c, run[i - 1], run[i], step);
      StepKeepsInv(c, run[i - 1], run[i], step);
    }
  }

  // ----- what every run promises

  /** Entries for a wallet and transaction are those of the only pass that made any. */
  lemma {:induction false} EntriesOfOnePass(c: Config, receipts: seq<Receipt>, p: nat)
    requires c.Valid() && Owned(c, receipts) && p in c.jobs
    requires forall q :: q in c.jobs && q != p && c.SameTarget(p, q) ==> ByPass(receipts, q) == []
    ensures Entries(receipts, c.jobs[p].wallet, c.jobs[p].txHash) == ByPass(receipts, p)
  {
    if receipts != [] {
      var front, r := receipts[..|receipts| - 1], receipts[|receipts| - 1];
      EntriesOfOnePass(c, front, p);
    }
  }

  lemma OthersMadeNone(c: Config, s: State, p: nat)
    requires c.Valid() && Inv(c, s) && p in c.jobs && c.jobs[p].txHash !in s.lost && ByPass(s.receipts, p) != []
    ensures forall q :: q in c.jobs && q != p && c.SameTarget(p, q) ==> ByPass(s.receipts, q) == []
  {
    forall q | q in c.jobs && q != p && c.SameTarget(p, q) ensures ByPass(s.receipts, q) == [] {
      assert PairInv(c, s, p, q);
    }
  }

  /** With or without the lock, a pass credits the matching outputs, in order, up to where
      it came: never more than the transaction pays, and all of it once the pass came to
      its end without an error and had not found the transaction on record. */
  lemma PassCreditsOutputs(c: Config, run: seq<State>, i: nat, p: nat)
    requires c.Valid() && IsRun(c, run) && i < |run| && p in c.jobs
    ensures var s, job, credited := run[i], c.jobs[p], ByPass(run[i].receipts, p);
            && s.Reached(p) <= |c.Outs(p)|
            && credited == Matching(c.Outs(p)[..s.Reached(p)], job.addresses)
            && Sum(credited) <= Sum(Matching(c.Outs(p), job.addresses))
            && (s.At(p).Done? && p !in s.failed && credited != [] ==> credited == Matching(c.Outs(p), job.addresses))
  {
    RunKeepsInv(c, run, i);
    assert PassInv(c, run[i], p);
    PrefixMatchesLess(c.Outs(p), c.jobs[p].addresses, run[i].Reached(p));
    assert c.Outs(p)[..|c.Outs(p)|] == c.Outs(p);
  }

  /** While the lock on a transaction is not lost, at most one pass credits a wallet for
      it, so that the wallet gets what that pass credits and nothing more. */
  lemma CreditedByOnePass(c: Config, run: seq<State>, i: nat, p: nat)
    requires c.Valid() && IsRun(c, run) && i < |run| && p in c.jobs && ByPass(run[i].receipts, p) != []
    requires c.jobs[p].txHash !in run[i].lost
    ensures var s, job := run[i], c.jobs[p];
            var credited := Entries(s.receipts, job.wallet, job.txHash);
            && (forall q :: q in c.jobs && q != p && c.SameTarget(p, q) ==> ByPass(s.receipts, q) == [])
            && s.Reached(p) <= |c.Outs(p)|
            && credited == Matching(c.Outs(p)[..s.Reached(p)], job.addresses)
            && Sum(credited) <= Sum(Matching(c.Outs(p), job.addresses))
            && (s.At(p).Done? && p !in s.failed ==> credited == Matching(c.Outs(p), job.addresses))
  {
    RunKeepsInv(c, run, i);
    OthersMadeNone(c, run[i], p);
    EntriesOfOnePass(c, run[i].receipts, p);
    PassCreditsOutputs(c, run, i, p);
  }

  /** A pass that ended without an error leaves nothing uncredited: the transaction is
      on record for the wallet, unless it does not pay it. */
  lemma EndedPassLeavesCredit(c: Config, run: seq<State>, i: nat, p: nat)
    requires c.Valid() && IsRun(c, run) && i < |run| && p in c.jobs && run[i].At(p).Done? && p !in run[i].failed
    ensures Entries(run[i].receipts, c.jobs[p].wallet, c.jobs[p].txHash) != []
            || Matching(c.Outs(p), c.jobs[p].addresses) == []
  {
    RunKeepsInv(c, run, i);
    var s := run[i];
    assert PassInv(c, s, p);
    assert c.Outs(p)[..|c.Outs(p)|] == c.Outs(p);
    if ByPass(s.receipts, p) != [] { ByPassIsRecorded(c, s.receipts, p); }
    RecordedIffEntries(s.receipts, c.jobs[p].wallet, c.jobs[p].txHash);
  }

  // ----- when two passes credit

  ghost predicate Reachable(c: Config, s: State) {
    exists run :: IsRun(c, run) && run[|run| - 1] == s
  }

  lemma RunExtends(c: Config, run: seq<State>, s': State)
    requires IsRun(c, run) && Next(c, run[|run| - 1], s')
    ensures IsRun(c, run + [s'])
  {
    var longer := run + [s'];
    forall i | 0 <= i < |longer| - 1 ensures StepsAt(c, longer, i) {
      if i < |run| - 1 { assert StepsAt(c, run, i); }
    }
  }

  lemma Extend(c: Config, s: State, s': State, step: Step)
    requires Reachable(c, s) && NextStep(c, s, s', step)
    ensures Reachable(c, s')
  {
    var run :| IsRun(c, run) && run[|run| - 1] == s;
    RunExtends(c, run, s');
    assert (run + [s'])[|run|] == s';
  }

  /** A pass finds the transaction unlocked and not on record. */
  lemma PassStarts(c: Config, s: State, p: nat) returns (s': State)
    requires c.Valid() && Reachable(c, s) && p in c.jobs && s.At(p) == Waiting && s.receipts == []
    requires c.jobs[p].txHash !in s.locks
    ensures Reachable(c, s') && s'.At(p) == Recording(0) && s'.receipts == [] && s'.lost == s.lost
    ensures c.jobs[p].txHash in s'.locks && forall q :: q != p ==> s'.At(q) == s.At(q)
  {
    var h := c.jobs[p].txHash;
    var s1 := s.(passes := s.passes[p := Locked], locks := s.locks[h := p]);
    Extend(c, s, s1, Lock(p));
    s' := s1.(passes := s1.passes[p := Recording(0)]);
    Extend(c, s1, s', CheckRecorded(p));
  }

  /** It does, and loses the lock. */
  lemma PassEnters(c: Config, s: State, p: nat) returns (s': State)
    requires c.Valid() && Reachable(c, s) && p in c.jobs && s.At(p) == Waiting && s.receipts == []
    requires c.jobs[p].txHash !in s.locks
    ensures Reachable(c, s') && s'.At(p) == Recording(0) && s'.receipts == [] && c.jobs[p].txHash !in s'.locks
    ensures forall q :: q != p ==> s'.At(q) == s.At(q)
  {
    var s1 := PassStarts(c, s, p);
    var h := c.jobs[p].txHash;
    s' := s1.(locks := s1.locks - {h}, lost := s1.lost + {h});
    Extend(c, s1, s', LoseLock(h));
  }

  /** A pass goes through outputs, up to number n. */
  lemma {:induction false} PassTakes(c: Config, s: State, p: nat, n: nat) returns (s': State)
    requires c.Valid() && Reachable(c, s) && p in c.jobs && s.At(p).Recording? && s.At(p).next <= n <= |c.Outs(p)|
    ensures Reachable(c, s') && s'.At(p) == Recording(n) && s'.lost == s.lost
    ensures forall q :: q != p ==> s'.At(q) == s.At(q)
    decreases n - s.At(p).next
  {
    var i, job := s.At(p).next, c.jobs[p];
    if i == n {
      s' := s;
    } else {
      var s1 := s.Take(p, i, Taken(job, c.Outs(p)[i], p));
      Extend(c, s, s1, TakeOutput(p));
      s' := PassTakes(c, s1, p, n);
    }
  }

  lemma RunOf(c: Config, s: State) returns (run: seq<State>)
    requires Reachable(c, s)
    ensures IsRun(c, run) && run[|run| - 1] == s
  {
    run :| IsRun(c, run) && run[|run| - 1] == s;
  }

  lemma ReachedAll(c: Config, s: State, p: nat)
    requires c.Valid() && Reachable(c, s) && p in c.jobs && s.At(p) == Recording(|c.Outs(p)|)
    ensures ByPass(s.receipts, p) == Matching(c.Outs(p), c.jobs[p].addresses)
  {
    ReachedSome(c, s, p, |c.Outs(p)|);
    assert c.Outs(p)[..|c.Outs(p)|] == c.Outs(p);
  }

  lemma ReachedSome(c: Config, s: State, p: nat, n: nat)
    requires c.Valid() && Reachable(c, s) && p in c.jobs && s.At(p) == Recording(n)
    ensures n <= |c.Outs(p)| && ByPass(s.receipts, p) == Matching(c.Outs(p)[..n], c.jobs[p].addresses)
    ensures s.Reached(p) == n
  {
    var run := RunOf(c, s);
    RunKeepsInv(c, run, |run| - 1);
    assert PassInv(c, s, p);
  }

  lemma BothCredit(c: Config, p: nat, q: nat)
    requires c.Valid() && p in c.jobs && q in c.jobs && p != q && c.SameTarget(p, q)
    ensures exists s :: && Reachable(c, s) && ByPass(s.receipts, p) == Matching(c.Outs(p), c.jobs[p].addresses)
                        && ByPass(s.receipts, q) == Matching(c.Outs(q), c.jobs[q].addresses)
  {
    assert IsRun(c, [START]) && [START][0] == START;
    var s1 := PassEnters(c, START, p);
    var s2 := PassEnters(c, s1, q);
    var s3 := PassTakes(c, s2, p, |c.Outs(p)|);
    var s4 := PassTakes(c, s3, q, |c.Outs(q)|);
    ReachedAll(c, s4, p);
    ReachedAll(c, s4, q);
  }

  lemma {:induction false} PrefixMatchesNone(outs: seq<Output>, addresses: set<string>, i: nat)
    requires i <= |outs| && Matching(outs, addresses) == []
    ensures Matching(outs[..i], addresses) == []
    decreases |outs| - i
  {
    if i == |outs| {
      assert outs[..i] == outs;
    } else {
      PrefixMatchesNone(outs, addresses, i + 1);
      MatchingGrows(outs, addresses, i);
    }
  }

  /** Two passes can both credit a wallet for a transaction exactly when each has outputs
      to credit, and every such run has lost the lock. */
  lemma CreditedTwiceIff(c: Config, p: nat, q: nat)
    requires c.Valid() && p in c.jobs && q in c.jobs && p != q && c.SameTarget(p, q)
    ensures (exists s :: Reachable(c, s) && ByPass(s.receipts, p) != [] && ByPass(s.receipts, q) != [])
       <==> Matching(c.Outs(p), c.jobs[p].addresses) != [] && Matching(c.Outs(q), c.jobs[q].addresses) != []
    ensures forall s :: Reachable(c, s) && ByPass(s.receipts, p) != [] && ByPass(s.receipts, q) != [] ==>
              c.jobs[p].txHash in s.lost
  {
    BothCredit(c, p, q);
    forall s | Reachable(c, s) && ByPass(s.receipts, p) != [] && ByPass(s.receipts, q) != []
      ensures c.jobs[p].txHash in s.lost
      ensures Matching(c.Outs(p), c.jobs[p].addresses) != [] && Matching(c.Outs(q), c.jobs[q].addresses) != []
    {
      CreditsNeedOutputs(c, s, p);
      CreditsNeedOutputs(c, s, q);
      var run :| IsRun(c, run) && run[|run| - 1] == s;
      RunKeepsInv(c, run, |run| - 1);
      assert PairInv(c, s, p, q);
    }
  }

  lemma CreditsNeedOutputs(c: Config, s: State, p: nat)
    requires c.Valid() && Reachable(c, s) && p in c.jobs && ByPass(s.receipts, p) != []
    ensures Matching(c.Outs(p), c.jobs[p].addresses) != []
  {
    var run := RunOf(c, s);
    var outs, addresses := c.Outs(p), c.jobs[p].addresses;
    PassCreditsOutputs(c, run, |run| - 1, p);
    assert run[|run| - 1] == s && s.Reached(p) <= |outs|;
    assert ByPass(s.receipts, p) == Matching(outs[..s.Reached(p)], addresses);
    if Matching(outs, addresses) == [] { PrefixMatchesNone(outs, addresses, s.Reached(p)); }
  }

  // ----- when a transaction stays credited in part

  lemma DoneStepStays(c: Config, s: State, s': State, step: Step, p: nat)
    requires NextStep(c, s, s', step) && s.At(p).Done?
    ensures s'.At(p).Done? && s'.Reached(p) == s.Reached(p) && ByPass(s'.receipts, p) == ByPass(s.receipts, p)
  {
    if step.TakeOutput? {
      ByPassAppends(s.receipts, Taken(c.jobs[step.p], c.Outs(step.p)[s.At(step.p).next], step.p), p);
    }
  }

  lemma {:induction false} DonePassStays(c: Config, run: seq<State>, i: nat, k: nat, p: nat)
    requires IsRun(c, run) && i <= k < |run| && run[i].At(p).Done?
    ensures run[k].At(p).Done? && run[k].Reached(p) == run[i].Reached(p)
    ensures ByPass(run[k].receipts, p) == ByPass(run[i].receipts, p)
  {
    if i < k {
      DonePassStays(c, run, i, k - 1, p);
      assert StepsAt(c, run, k - 1);
      var step :| NextStep(c, run[k - 1], run[k], step);
      DoneStepStays(c, run[k - 1], run[k], step, p);
    }
  }

  lemma {:induction false} MatchingConcat(a: seq<Output>, b: seq<Output>, addresses: set<string>)
    ensures Matching(a + b, addresses) == Matching(a, addresses) + Matching(b, addresses)
  {
    if b == [] {
      assert a + b == a;
    } else {
      MatchingConcat(a, b[..|b| - 1], addresses);
      assert (a + b)[..|a + b| - 1] == a + b[..|b| - 1];
    }
  }

  /** While the lock is not lost, a pass that credited anything decides, when it ends, what
      the wallet is ever credited for the transaction: what it had recorded by then. That
      is all there is to credit exactly when no output after its last one pays. */
  lemma EndedPassDecides(c: Config, run: seq<State>, i: nat, k: nat, p: nat)
    requires c.Valid() && IsRun(c, run) && i <= k < |run| && p in c.jobs
    requires run[i].At(p).Done? && ByPass(run[i].receipts, p) != [] && c.jobs[p].txHash !in run[k].lost
    ensures var job, outs, n := c.jobs[p], c.Outs(p), run[i].Reached(p);
            var credited := Entries(run[k].receipts, job.wallet, job.txHash);
            && n <= |outs| && credited == Matching(outs[..n], job.addresses)
            && (credited == Matching(outs, job.addresses) <==> Matching(outs[n..], job.addresses) == [])
  {
    DonePassStays(c, run, i, k, p);
    CreditedByOnePass(c, run, k, p);
    var outs, n := c.Outs(p), run[i].Reached(p);
    MatchingConcat(outs[..n], outs[n..], c.jobs[p].addresses);
    assert outs[..n] + outs[n..] == outs;
  }

  /** What the wallet of pass p is credited is not what p would credit it. */
  ghost predicate Short(c: Config, s: State, p: nat)
    requires c.Valid() && p in c.jobs
  {
    Entries(s.receipts, c.jobs[p].wallet, c.jobs[p].txHash) != Matching(c.Outs(p), c.jobs[p].addresses)
  }

  /** Something is credited, and whatever happens short of a lost lock, it is never right. */
  ghost predicate ShortForever(c: Config, s: State, p: nat)
    requires c.Valid() && p in c.jobs
  {
    && c.jobs[p].txHash !in s.lost && IsRecorded(s.receipts, c.jobs[p].wallet, c.jobs[p].txHash)
    && forall run: seq<State>, i, k ::
         IsRun(c, run) && 0 <= i <= k < |run| && run[i] == s && c.jobs[p].txHash !in run[k].lost ==> Short(c, run[k], p)
  }

  /** Pass q, had it come to output n, would have credited something, but not what p would. */
  ghost predicate CreditsLess(c: Config, p: nat, q: nat, n: nat)
    requires c.Valid() && p in c.jobs
  {
    && q in c.jobs && c.SameTarget(p, q) && n <= |c.Outs(q)|
    && var part := Matching(c.Outs(q)[..n], c.jobs[q].addresses);
       part != [] && part != Matching(c.Outs(p), c.jobs[p].addresses)
  }

  lemma FailsAfter(c: Config, q: nat, n: nat) returns (s: State)
    requires c.Valid() && q in c.jobs && n <= |c.Outs(q)|
    ensures Reachable(c, s) && s.At(q).Done? && s.lost == {} && s.Reached(q) == n
    ensures ByPass(s.receipts, q) == Matching(c.Outs(q)[..n], c.jobs[q].addresses)
  {
    assert IsRun(c, [START]) && [START][0] == START;
    var s1 := PassStarts(c, START, q);
    var s2 := PassTakes(c, s1, q, n);
    ReachedSome(c, s2, q, n);
    s := s2.Stop(q, c.jobs[q].txHash).(failed := s2.failed + {q});
    Extend(c, s2, s, Fail(q));
  }

  lemma LessIsShortForever(c: Config, p: nat, q: nat, n: nat)
    requires c.Valid() && p in c.jobs && CreditsLess(c, p, q, n)
    ensures exists s :: Reachable(c, s) && ShortForever(c, s, p)
  {
    var s := FailsAfter(c, q, n);
    var run := RunOf(c, s);
    RunKeepsInv(c, run, |run| - 1);
    ByPassIsRecorded(c, s.receipts, q);
    forall r: seq<State>, i, k | IsRun(c, r) && 0 <= i <= k < |r| && r[i] == s && c.jobs[p].txHash !in r[k].lost
      ensures Short(c, r[k], p)
    {
      EndedPassDecides(c, r, i, k, q);
    }
    assert ShortForever(c, s, p);
  }

  lemma {:induction false} RecordedByPass(c: Config, receipts: seq<Receipt>, i: nat)
    requires Owned(c, receipts) && i < |receipts|
    ensures ByPass(receipts, receipts[i].pass) != []
  {
    var front := receipts[..|receipts| - 1];
    if i < |front| {
      assert front[i] == receipts[i];
      RecordedByPass(c, front, i);
    }
  }

  /** What is credited while the lock is not lost was credited by some pass. */
  lemma ShortComesFromLess(c: Config, s: State, p: nat)
    requires c.Valid() && Reachable(c, s) && p in c.jobs && ShortForever(c, s, p)
    ensures exists q, n :: CreditsLess(c, p, q, n)
  {
    var run := RunOf(c, s);
    RunKeepsInv(c, run, |run| - 1);
    var i :| 0 <= i < |s.receipts| && s.receipts[i].wallet == c.jobs[p].wallet
      && s.receipts[i].txHash == c.jobs[p].txHash;
    var q := s.receipts[i].pass;
    RecordedByPass(c, s.receipts, i);
    CreditedByOnePass(c, run, |run| - 1, q);
    assert Short(c, run[|run| - 1], p);
    RecordedIffEntries(s.receipts, c.jobs[p].wallet, c.jobs[p].txHash);
    assert CreditsLess(c, p, q, s.Reached(q));
  }

  /** A transaction can stay credited in part, or with what is not to be credited, without
      any lost lock, exactly when some pass has a point to stop at after a credit that is
      not all there is. */
  lemma ShortForeverIff(c: Config, p: nat)
    requires c.Valid() && p in c.jobs
    ensures (exists s :: Reachable(c, s) && ShortForever(c, s, p)) <==> exists q, n :: CreditsLess(c, p, q, n)
  {
    if q: nat, n: nat :| CreditsLess(c, p, q, n) {
      LessIsShortForever(c, p, q, n);
    }
    forall s | Reachable(c, s) && ShortForever(c, s, p) ensures exists q, n :: CreditsLess(c, p, q, n) {
      ShortComesFromLess(c, s, p);
    }
  }

  lemma {:induction false} FirstMatch(outs: seq<Output>, addresses: set<string>) returns (n: nat)
    requires Matching(outs, addresses) != []
    ensures n <= |outs| && |Matching(outs[..n], addresses)| == 1
  {
    var front := outs[..|outs| - 1];
    if Matching(front, addresses) == [] {
      n := |outs|;
      assert outs[..n] == outs;
    } else {
      n := FirstMatch(front, addresses);
      assert front[..n] == outs[..n];
    }
  }

  /** A pass that reads the same addresses and credits less stops between two outputs. */
  lemma LessNeedsTwo(c: Config, p: nat, q: nat, n: nat)
    requires c.Valid() && p in c.jobs && CreditsLess(c, p, q, n) && c.jobs[q].addresses == c.jobs[p].addresses
    ensures |Matching(c.Outs(p), c.jobs[p].addresses)| >= 2
  {
    var outs, addresses := c.Outs(p), c.jobs[p].addresses;
    MatchingConcat(outs[..n], outs[n..], addresses);
    assert outs[..n] + outs[n..] == outs;
  }

  /** When all passes have read the same addresses: exactly when two outputs pay them. */
  lemma ShortForeverIffTwoPay(c: Config, p: nat)
    requires c.Valid() && p in c.jobs
    requires forall q :: q in c.jobs && c.SameTarget(p, q) ==> c.jobs[q].addresses == c.jobs[p].addresses
    ensures (exists s :: Reachable(c, s) && ShortForever(c, s, p))
       <==> |Matching(c.Outs(p), c.jobs[p].addresses)| >= 2
  {
    ShortForeverIff(c, p);
    if |Matching(c.Outs(p), c.jobs[p].addresses)| >= 2 {
      var n := FirstMatch(c.Outs(p), c.jobs[p].addresses);
      assert CreditsLess(c, p, p, n);
    }
    forall q: nat, n: nat | CreditsLess(c, p, q, n) ensures |Matching(c.Outs(p), c.jobs[p].addresses)| >= 2 {
      LessNeedsTwo(c, p, q, n);
    }
  }

  // ----- one scan, running alone

  /** The outputs that are recorded when recording output number `failsAt` fails, if there
      is such an output and it pays the wallet. */
  function Stops(tx: Tx, w: OwnedWallet, failsAt: nat): nat {
    if failsAt < |tx.outs| && Pays(tx.outs[failsAt], w.addresses) then failsAt else |tx.outs|
  }

  function Credits(tx: Tx, w: OwnedWallet, pass: nat, n: nat): seq<Receipt>
    requires n <= |tx.outs|
  {
    if n == 0 then []
    else
      Credits(tx, w, pass, n - 1) + Taken(Job(w.id, tx.hash, w.addresses), tx.outs[n - 1], pass)
  }

  function ProcessPair(receipts: seq<Receipt>, w: OwnedWallet, tx: Tx, pass: nat, failsAt: nat): seq<Receipt> {
    if IsRecorded(receipts, w.id, tx.hash) then receipts else receipts + Credits(tx, w, pass, Stops(tx, w, failsAt))
  }

  /** One wallet of a transaction, with the output whose recording fails. */
  datatype Item = Item(w: OwnedWallet, failsAt: nat)

  function ProcessTx(receipts: seq<Receipt>, tx: Tx, items: seq<Item>, pass: nat): seq<Receipt> {
    if items == [] then receipts
    else
      var last := items[|items| - 1];
      ProcessPair(ProcessTx(receipts, tx, items[..|items| - 1], pass), last.w, tx, pass, last.failsAt)
  }

  datatype Incoming = Incoming(tx: Tx, items: seq<Item>)

  function Scan(receipts: seq<Receipt>, incoming: seq<Incoming>, minConfirmations: nat, pass: nat): seq<Receipt> {
    if incoming == [] then receipts
    else
      var last := incoming[|incoming| - 1];
      var before := Scan(receipts, incoming[..|incoming| - 1], minConfirmations, pass);
      if last.tx.confirmations < minConfirmations then before else ProcessTx(before, last.tx, last.items, pass)
  }

  // ----- what a scan does for one wallet and transaction

  /** From the entries e to e': those on record stay, and otherwise matching outputs are
      recorded up to some point; nothing unless the pair was hit, and everything if it was
      and no call failed. */
  ghost predicate Advanced(
    e: seq<nat>, e': seq<nat>, outs: seq<Output>, addresses: set<string>, hit: bool, clean: bool)
  {
    if e != [] then e' == e
    else
      && (exists n :: 0 <= n <= |outs| && e' == Matching(outs[..n], addresses))
      && (!hit ==> e' == [])
      && (hit && clean ==> e' == Matching(outs, addresses))
  }

  lemma NotAdvanced(e: seq<nat>, outs: seq<Output>, addresses: set<string>)
    ensures Advanced(e, e, outs, addresses, false, true)
  {
    if e == [] { assert e == Matching(outs[..0], addresses); }
  }

  lemma AdvancesCompose(
    e: seq<nat>, e': seq<nat>, e'': seq<nat>, outs: seq<Output>, addresses: set<string>, hit: bool, clean: bool,
    hit': bool, clean': bool)
    requires Advanced(e, e', outs, addresses, hit, clean) && Advanced(e', e'', outs, addresses, hit', clean')
    ensures Advanced(e, e'', outs, addresses, hit || hit', clean && clean')
  {
  }

  lemma {:induction false} CreditsAreMatching(tx: Tx, w: OwnedWallet, pass: nat, n: nat)
    requires n <= |tx.outs|
    ensures Entries(Credits(tx, w, pass, n), w.id, tx.hash) == Matching(tx.outs[..n], w.addresses)
  {
    if n > 0 {
      CreditsAreMatching(tx, w, pass, n - 1);
      MatchingGrows(tx.outs, w.addresses, n - 1);
      var last := Taken(Job(w.id, tx.hash, w.addresses), tx.outs[n - 1], pass);
      EntriesConcat(Credits(tx, w, pass, n - 1), last, w.id, tx.hash);
      EntriesOfTaken(Job(w.id, tx.hash, w.addresses), tx.outs[n - 1], pass);
    }
  }

  lemma EntriesOfTaken(job: Job, o: Output, pass: nat)
    ensures Entries(Taken(job, o, pass), job.wallet, job.txHash) == if Pays(o, job.addresses) then [o.sats] else []
  {
    var more := Taken(job, o, pass);
    if more != [] { assert more[..0] == []; }
  }

  lemma {:induction false} CreditsMissOthers(tx: Tx, w: OwnedWallet, pass: nat, n: nat, v: string, h: string)
    requires n <= |tx.outs| && (v != w.id || h != tx.hash)
    ensures Entries(Credits(tx, w, pass, n), v, h) == []
  {
    if n > 0 {
      CreditsMissOthers(tx, w, pass, n - 1, v, h);
      var last := Taken(Job(w.id, tx.hash, w.addresses), tx.outs[n - 1], pass);
      EntriesConcat(Credits(tx, w, pass, n - 1), last, v, h);
    }
  }

  /** A wallet and transaction, named by their ids, with what those stand for. */
  datatype Target = Target(wallet: string, txHash: string, outs: seq<Output>, addresses: set<string>)

  predicate Hits(tx: Tx, w: OwnedWallet, t: Target) {
    w.id == t.wallet && tx.hash == t.txHash
  }

  /** Transactions are determined by their hash, wallets by their id. */
  predicate Means(tx: Tx, w: OwnedWallet, t: Target) {
    Hits(tx, w, t) ==> tx.outs == t.outs && w.addresses == t.addresses
  }

  predicate Fails(tx: Tx, item: Item) {
    Stops(tx, item.w, item.failsAt) < |tx.outs|
  }

  lemma PairAdvances(receipts: seq<Receipt>, item: Item, tx: Tx, pass: nat, t: Target)
    requires Means(tx, item.w, t)
    ensures Advanced(
              Entries(receipts, t.wallet, t.txHash),
              Entries(ProcessPair(receipts, item.w, tx, pass, item.failsAt), t.wallet, t.txHash),
              t.outs, t.addresses, Hits(tx, item.w, t), Hits(tx, item.w, t) ==> !Fails(tx, item))
  {
    var e, n := Entries(receipts, t.wallet, t.txHash), Stops(tx, item.w, item.failsAt);
    NotAdvanced(e, t.outs, t.addresses);
    EntriesConcat(receipts, Credits(tx, item.w, pass, n), t.wallet, t.txHash);
    if Hits(tx, item.w, t) {
      RecordedIffEntries(receipts, t.wallet, t.txHash);
      CreditsAreMatching(tx, item.w, pass, n);
      assert tx.outs[..|tx.outs|] == tx.outs;
    } else {
      CreditsMissOthers(tx, item.w, pass, n, t.wallet, t.txHash);
    }
  }

  /** Recording stops at the output that fails, if the wallet owns its address, and what comes
      before it is credited. */
  lemma StopsAtFailure(receipts: seq<Receipt>, w: OwnedWallet, tx: Tx, pass: nat, failsAt: nat)
    requires Entries(receipts, w.id, tx.hash) == []
    ensures var stopped := && failsAt < |tx.outs| && tx.outs[failsAt].address.Some?
                           && tx.outs[failsAt].address.value in w.addresses;
            Entries(ProcessPair(receipts, w, tx, pass, failsAt), w.id, tx.hash)
            == Matching(if stopped then tx.outs[..failsAt] else tx.outs, w.addresses)
  {
    var n := Stops(tx, w, failsAt);
    RecordedIffEntries(receipts, w.id, tx.hash);
    EntriesConcat(receipts, Credits(tx, w, pass, n), w.id, tx.hash);
    CreditsAreMatching(tx, w, pass, n);
    assert tx.outs[..|tx.outs|] == tx.outs;
  }

  predicate HitIn(tx: Tx, items: seq<Item>, t: Target) {
    exists k :: 0 <= k < |items| && Hits(tx, items[k].w, t)
  }

  predicate CleanIn(tx: Tx, items: seq<Item>, t: Target) {
    forall k :: 0 <= k < |items| && Hits(tx, items[k].w, t) ==> !Fails(tx, items[k])
  }

  predicate MeansIn(tx: Tx, items: seq<Item>, t: Target) {
    forall k :: 0 <= k < |items| ==> Means(tx, items[k].w, t)
  }

  lemma {:induction false} TxAdvances(receipts: seq<Receipt>, tx: Tx, items: seq<Item>, pass: nat, t: Target)
    requires MeansIn(tx, items, t)
    ensures Advanced(
              Entries(receipts, t.wallet, t.txHash), Entries(ProcessTx(receipts, tx, items, pass), t.wallet, t.txHash),
              t.outs, t.addresses, HitIn(tx, items, t), CleanIn(tx, items, t))
  {
    if items == [] {
      NotAdvanced(Entries(receipts, t.wallet, t.txHash), t.outs, t.addresses);
    } else {
      var front, last := items[..|items| - 1], items[|items| - 1];
      var mid := ProcessTx(receipts, tx, front, pass);
      TxAdvances(receipts, tx, front, pass, t);
      PairAdvances(mid, last, tx, pass, t);
      AdvancesCompose(
        Entries(receipts, t.wallet, t.txHash), Entries(mid, t.wallet, t.txHash),
        Entries(ProcessTx(receipts, tx, items, pass), t.wallet, t.txHash), t.outs, t.addresses,
        HitIn(tx, front, t), CleanIn(tx, front, t), Hits(tx, last.w, t), Hits(tx, last.w, t) ==> !Fails(tx, last));
      HitAndCleanSplit(tx, items, t);
    }
  }

  lemma HitAndCleanSplit(tx: Tx, items: seq<Item>, t: Target)
    requires items != []
    ensures var front, last := items[..|items| - 1], items[|items| - 1];
            && (HitIn(tx, items, t) <==> HitIn(tx, front, t) || Hits(tx, last.w, t))
            && (CleanIn(tx, items, t) <==> CleanIn(tx, front, t) && (Hits(tx, last.w, t) ==> !Fails(tx, last)))
  {
    var front := items[..|items| - 1];
    assert forall k :: 0 <= k < |front| ==> front[k] == items[k];
    if HitIn(tx, front, t) {
      var k :| 0 <= k < |front| && Hits(tx, front[k].w, t);
      assert Hits(tx, items[k].w, t);
    }
    if HitIn(tx, items, t) {
      var k :| 0 <= k < |items| && Hits(tx, items[k].w, t);
      if k < |front| { assert Hits(tx, front[k].w, t); }
    }
  }

  predicate Counts(x: Incoming, minConfirmations: nat) {
    x.tx.confirmations >= minConfirmations
  }

  /** Some confirmed listing hits the target; none that does has a failing call. */
  predicate HitBy(incoming: seq<Incoming>, minConfirmations: nat, t: Target) {
    exists i ::
      0 <= i < |incoming| && Counts(incoming[i], minConfirmations) && HitIn(incoming[i].tx, incoming[i].items, t)
  }

  predicate CleanBy(incoming: seq<Incoming>, minConfirmations: nat, t: Target) {
    forall i :: 0 <= i < |incoming| && Counts(incoming[i], minConfirmations) ==>
      CleanIn(incoming[i].tx, incoming[i].items, t)
  }

  predicate MeansBy(incoming: seq<Incoming>, t: Target) {
    forall i :: 0 <= i < |incoming| ==> MeansIn(incoming[i].tx, incoming[i].items, t)
  }

  lemma HitAndCleanBySplit(incoming: seq<Incoming>, minConfirmations: nat, t: Target)
    requires incoming != []
    ensures var front, last := incoming[..|incoming| - 1], incoming[|incoming| - 1];
            var counts := Counts(last, minConfirmations);
            && (HitBy(incoming, minConfirmations, t)
                <==> HitBy(front, minConfirmations, t) || (counts && HitIn(last.tx, last.items, t)))
            && (CleanBy(incoming, minConfirmations, t)
                <==> CleanBy(front, minConfirmations, t) && (counts ==> CleanIn(last.tx, last.items, t)))
  {
    var front := incoming[..|incoming| - 1];
    assert forall k :: 0 <= k < |front| ==> front[k] == incoming[k];
    if HitBy(front, minConfirmations, t) {
      var k :| 0 <= k < |front| && Counts(front[k], minConfirmations) && HitIn(front[k].tx, front[k].items, t);
      assert Counts(incoming[k], minConfirmations);
    }
    if HitBy(incoming, minConfirmations, t) {
      var k :| 0 <= k < |incoming| && Counts(incoming[k], minConfirmations)
        && HitIn(incoming[k].tx, incoming[k].items, t);
      if k < |front| { assert Counts(front[k], minConfirmations); }
    }
  }

  /** A scan, for any wallet and transaction: what was on record stays; otherwise, if no
      confirmed transaction with this hash lists the wallet nothing is credited; and if one
      does the wallet gets the matching outputs in order, all of them unless recording one
      failed, and each of them once however often the pair is listed. */
  lemma {:induction false} ScanAdvances(
    receipts: seq<Receipt>, incoming: seq<Incoming>, minConfirmations: nat, pass: nat, t: Target)
    requires MeansBy(incoming, t)
    ensures Advanced(
              Entries(receipts, t.wallet, t.txHash),
              Entries(Scan(receipts, incoming, minConfirmations, pass), t.wallet, t.txHash),
              t.outs, t.addresses, HitBy(incoming, minConfirmations, t), CleanBy(incoming, minConfirmations, t))
  {
    var e := Entries(receipts, t.wallet, t.txHash);
    if incoming == [] {
      NotAdvanced(e, t.outs, t.addresses);
    } else {
      var front, last := incoming[..|incoming| - 1], incoming[|incoming| - 1];
      var mid := Scan(receipts, front, minConfirmations, pass);
      ScanAdvances(receipts, front, minConfirmations, pass, t);
      HitAndCleanBySplit(incoming, minConfirmations, t);
      if Counts(last, minConfirmations) {
        TxAdvances(mid, last.tx, last.items, pass, t);
        AdvancesCompose(
          e, Entries(mid, t.wallet, t.txHash),
          Entries(Scan(receipts, incoming, minConfirmations, pass), t.wallet, t.txHash),
          t.outs, t.addresses, HitBy(front, minConfirmations, t), CleanBy(front, minConfirmations, t),
          HitIn(last.tx, last.items, t), CleanIn(last.tx, last.items, t));
      }
    }
  }

  /** In particular: a wallet that a confirmed transaction lists, that was not credited for
      it before and for which no call fails, is credited exactly for the outputs whose
      address it owns. */
  lemma ScanCreditsOwnedOutputs(
    receipts: seq<Receipt>, incoming: seq<Incoming>, minConfirmations: nat, pass: nat, t: Target, i: nat, k: nat)
    requires MeansBy(incoming, t) && CleanBy(incoming, minConfirmations, t)
    requires Entries(receipts, t.wallet, t.txHash) == []
    requires i < |incoming| && incoming[i].tx.confirmations >= minConfirmations && incoming[i].tx.hash == t.txHash
    requires k < |incoming[i].items| && incoming[i].items[k].w.id == t.wallet
    ensures PaidAt(
              t.outs, t.addresses, Entries(Scan(receipts, incoming, minConfirmations, pass), t.wallet, t.txHash))
  {
    ScanAdvances(receipts, incoming, minConfirmations, pass, t);
    assert Hits(incoming[i].tx, incoming[i].items[k].w, t);
    assert HitIn(incoming[i].tx, incoming[i].items, t);
    assert Counts(incoming[i], minConfirmations);
    assert HitBy(incoming, minConfirmations, t);
    MatchingIsPaidAt(t.outs, t.addresses);
  }

  class ReceiptBook {
    var receipts: seq<Receipt>

    constructor ()
      ensures receipts == []
    {
      receipts := [];
    }

    /** Credit a wallet with the outputs of a transaction that pay it, unless some are on
        record. */
    method ProcessTxForWallet(w: OwnedWallet, tx: Tx, pass: nat, failsAt: nat) returns (ok: bool)
      modifies this
      ensures receipts == ProcessPair(old(receipts), w, tx, pass, failsAt)
      ensures ok <==> IsRecorded(old(receipts), w.id, tx.hash) || Stops(tx, w, failsAt) == |tx.outs|
    {
      if IsRecorded(receipts, w.id, tx.hash) { return true; }
      for i := 0 to |tx.outs|
        invariant i <= Stops(tx, w, failsAt) && receipts == old(receipts) + Credits(tx, w, pass, i)
      {
        if Pays(tx.outs[i], w.addresses) {
          if i == failsAt { return false; }
          receipts := receipts + [Receipt(w.id, tx.hash, tx.outs[i].sats, pass)];
        }
      }
      return true;
    }

    /** One scan over the incoming transactions, each with the wallets its addresses
        belong to. Errors are logged and the scan goes on. */
    method UpdateOnChainReceipt(incoming: seq<Incoming>, minConfirmations: nat, pass: nat)
      modifies this
      ensures receipts == Scan(old(receipts), incoming, minConfirmations, pass)
    {
      for i := 0 to |incoming|
        invariant receipts == Scan(old(receipts), incoming[..i], minConfirmations, pass)
      {
        assert incoming[..i + 1][..i] == incoming[..i];
        var tx, items := incoming[i].tx, incoming[i].items;
        if tx.confirmations < minConfirmations { continue; }
        ghost var before := receipts;
        for k := 0 to |items|
          invariant receipts == ProcessTx(before, tx, items[..k], pass)
        {
          assert items[..k + 1][..k] == items[..k];
          var _ := ProcessTxForWallet(items[k].w, tx, pass, items[k].failsAt);
        }
        assert items[..|items|] == items;
      }
      assert incoming[..|incoming|] == incoming;
    }
  }
}

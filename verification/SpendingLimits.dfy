/** The daily limit on payments out of a cent wallet: before a payment is made, what
    the wallet was debited during the last 24 hours is held against the limit. */
module SpendingLimits {

  const DAY := 24 * 60 * 60 * 1000

  /** A payment that passed its check at one time and was recorded at a later one. The
      check is made on the amount; the debit includes the fee. */
  datatype Send = Send(checkedAt: int, recordedAt: int, amount: nat, fee: nat) {
    function Debit(): nat {
      amount + fee
    }
  }

  /** Debits recorded at or after a time. */
  function VolumeSince(sends: seq<Send>, since: int): nat {
    if sends == [] then 0
    else
      var s := sends[|sends| - 1];
      VolumeSince(sends[..|sends| - 1], since) + if s.recordedAt >= since then s.Debit() else 0
  }

  predicate WithinLimit(limit: int, volume: int, amount: int) {
    var remaining := limit - volume;
    !(remaining < amount)
  }

  /** Checks and records alternate, and every check passed. */
  ghost predicate Alternating(limit: int, sends: seq<Send>) {
    InOrder(sends) && forall k :: 0 <= k < |sends| ==> Passed(limit, sends, k)
  }

  ghost predicate InOrder(sends: seq<Send>) {
    && (forall k :: 0 <= k < |sends| ==> sends[k].checkedAt <= sends[k].recordedAt)
    && (forall k :: 0 <= k < |sends| - 1 ==> sends[k].recordedAt <= sends[k + 1].checkedAt)
  }

  ghost predicate Passed(limit: int, sends: seq<Send>, k: nat)
    requires k < |sends|
  {
    WithinLimit(limit, VolumeSince(sends[..k], sends[k].checkedAt - DAY), sends[k].amount)
  }

  /** What was recorded at or after a time counts with its fee, and nothing else does. */
  lemma VolumeOfOne(s: Send, since: int)
    ensures VolumeSince([s], since) == if s.recordedAt >= since then s.amount + s.fee else 0
  {
    assert [s][..0] == [];
  }

  lemma {:induction false} VolumeConcat(a: seq<Send>, b: seq<Send>, since: int)
    ensures VolumeSince(a + b, since) == VolumeSince(a, since) + VolumeSince(b, since)
  {
    if b == [] {
      assert a + b == a;
    } else {
      VolumeConcat(a, b[..|b| - 1], since);
      assert (a + b)[..|a + b| - 1] == a + b[..|b| - 1];
    }
  }

  /** A payment passes the check exactly when it fits: with the debits of the 24 hours before
      it stays within the limit. */
  lemma PassesIffItFits(limit: int, sends: seq<Send>, now: int, amount: nat)
    requires forall k :: 0 <= k < |sends| ==> sends[k].recordedAt <= now
    ensures WithinLimit(limit, VolumeSince(sends, now - DAY), amount) <==> DebitedAt(sends, now) + amount <= limit
  {
    VolumeIsWindow(sends, now);
  }

  lemma {:induction false} VolumeIsWindow(sends: seq<Send>, now: int)
    requires forall k :: 0 <= k < |sends| ==> sends[k].recordedAt <= now
    ensures VolumeSince(sends, now - DAY) == DebitedAt(sends, now)
  {
    if sends != [] { VolumeIsWindow(sends[..|sends| - 1], now); }
  }

  /** Debits, and amounts without fees, of the 24 hours before a moment. */
  function DebitedAt(sends: seq<Send>, now: int): nat {
    if sends == [] then 0
    else
      var s := sends[|sends| - 1];
      DebitedAt(sends[..|sends| - 1], now) + if now - DAY <= s.recordedAt <= now then s.Debit() else 0
  }

  function SentAt(sends: seq<Send>, now: int): nat {
    if sends == [] then 0
    else
      var s := sends[|sends| - 1];
      SentAt(sends[..|sends| - 1], now) + if now - DAY <= s.recordedAt <= now then s.amount else 0
  }

  lemma {:induction false} FreePaymentsSendTheirDebits(sends: seq<Send>, now: int)
    requires forall k :: 0 <= k < |sends| ==> sends[k].fee == 0
    ensures SentAt(sends, now) == DebitedAt(sends, now)
  {
    if sends != [] { FreePaymentsSendTheirDebits(sends[..|sends| - 1], now); }
  }

  /** The fee of the latest payment made by a moment. */
  function LastFee(sends: seq<Send>, now: int): nat {
    if sends == [] then 0
    else if sends[|sends| - 1].recordedAt <= now then sends[|sends| - 1].fee
    else LastFee(sends[..|sends| - 1], now)
  }

  lemma {:induction false} WindowWithinVolume(sends: seq<Send>, now: int, since: int)
    requires since <= now - DAY
    ensures SentAt(sends, now) <= DebitedAt(sends, now) <= VolumeSince(sends, since)
  {
    if sends != [] { WindowWithinVolume(sends[..|sends| - 1], now, since); }
  }

  lemma AlternatingFront(limit: int, sends: seq<Send>)
    requires sends != [] && Alternating(limit, sends)
    ensures Alternating(limit, sends[..|sends| - 1])
  {
    var front := sends[..|sends| - 1];
    forall k | 0 <= k < |front| ensures Passed(limit, front, k) {
      assert Passed(limit, sends, k);
      assert front[..k] == sends[..k];
    }
  }

  lemma {:induction false} AllRecordedBy(limit: int, sends: seq<Send>, k: nat)
    requires Alternating(limit, sends) && k < |sends|
    ensures sends[k].recordedAt <= sends[|sends| - 1].recordedAt
    decreases |sends| - k
  {
    if k < |sends| - 1 {
      AllRecordedBy(limit, sends, k + 1);
    }
  }

  lemma {:induction false} NothingInWindow(sends: seq<Send>, now: int)
    requires forall k :: 0 <= k < |sends| ==> sends[k].recordedAt < now - DAY
    ensures DebitedAt(sends, now) == 0 && SentAt(sends, now) == 0
  {
    if sends != [] { NothingInWindow(sends[..|sends| - 1], now); }
  }

  /** At every moment, not only when a payment is made, the amounts sent during the 24
      hours before sum to at most the limit, and the debits exceed it by no more than
      the fee of the latest payment. */
  lemma {:induction false} WithinLimitAtEveryMoment(limit: nat, sends: seq<Send>, now: int)
    requires Alternating(limit, sends)
    ensures SentAt(sends, now) <= limit
    ensures DebitedAt(sends, now) <= limit + LastFee(sends, now)
  {
    if sends != [] {
      var front, last := sends[..|sends| - 1], sends[|sends| - 1];
      AlternatingFront(limit, sends);
      WithinLimitAtEveryMoment(limit, front, now);
      if last.recordedAt <= now {
        if last.recordedAt < now - DAY {
          forall k | 0 <= k < |sends| ensures sends[k].recordedAt < now - DAY { AllRecordedBy(limit, sends, k); }
          NothingInWindow(sends, now);
        } else {
          WindowWithinVolume(front, now, last.checkedAt - DAY);
          assert Passed(limit, sends, |sends| - 1);
        }
      }
    }
  }

  /** Without fees, the debits themselves stay within the limit. */
  lemma {:induction false} FreePaymentsDebitWithinLimit(limit: nat, sends: seq<Send>, now: int)
    requires Alternating(limit, sends) && forall k :: 0 <= k < |sends| ==> sends[k].fee == 0
    ensures DebitedAt(sends, now) <= limit
  {
    WithinLimitAtEveryMoment(limit, sends, now);
    LastFeeComesFrom(sends, now);
  }

  lemma {:induction false} LastFeeComesFrom(sends: seq<Send>, now: int)
    ensures LastFee(sends, now) == 0 || exists k :: 0 <= k < |sends| && sends[k].fee == LastFee(sends, now)
  {
    if sends != [] && sends[|sends| - 1].recordedAt > now {
      LastFeeComesFrom(sends[..|sends| - 1], now);
      assert forall k :: 0 <= k < |sends| - 1 ==> sends[..|sends| - 1][k] == sends[k];
    }
  }

  // ----- payments that overlap

  /** Several lanes of payments: within a lane checks and records alternate, and the lanes
      run at the same time. Any run in which at most n payments are between their check and
      their record at a time has n lanes. */
  type Lanes = seq<seq<Send>>

  function VolumeBetween(sends: seq<Send>, since: int, until: int): nat {
    if sends == [] then 0
    else
      var s := sends[|sends| - 1];
      VolumeBetween(sends[..|sends| - 1], since, until) + if since <= s.recordedAt < until then s.Debit() else 0
  }

  lemma {:induction false} VolumeBetweenIsDifference(sends: seq<Send>, since: int, until: int)
    requires since <= until
    ensures VolumeBetween(sends, since, until) == VolumeSince(sends, since) - VolumeSince(sends, until)
  {
    if sends != [] { VolumeBetweenIsDifference(sends[..|sends| - 1], since, until); }
  }

  /** What the lanes other than p were debited. */
  function OthersVolume(lanes: Lanes, p: nat, since: int, until: int): nat {
    if lanes == [] then 0
    else
      var last := |lanes| - 1;
      OthersVolume(lanes[..last], p, since, until) + if last == p then 0 else VolumeBetween(lanes[last], since, until)
  }

  /** The check passed against all that was recorded before it, in every lane. */
  ghost predicate PassedAmong(limit: int, lanes: Lanes, p: nat, k: nat)
    requires p < |lanes| && k < |lanes[p]|
  {
    var s := lanes[p][k];
    var volume := VolumeSince(lanes[p][..k], s.checkedAt - DAY)
      + OthersVolume(lanes, p, s.checkedAt - DAY, s.checkedAt);
    WithinLimit(limit, volume, s.amount)
  }

  ghost predicate Overlapping(limit: int, lanes: Lanes) {
    && (forall p :: 0 <= p < |lanes| ==> InOrder(lanes[p]))
    && (forall p, k :: 0 <= p < |lanes| && 0 <= k < |lanes[p]| ==> PassedAmong(limit, lanes, p, k))
  }

  function SentInAll(lanes: Lanes, now: int): nat {
    if lanes == [] then 0 else SentInAll(lanes[..|lanes| - 1], now) + SentAt(lanes[|lanes| - 1], now)
  }

  function DebitedInAll(lanes: Lanes, now: int): nat {
    if lanes == [] then 0 else DebitedInAll(lanes[..|lanes| - 1], now) + DebitedAt(lanes[|lanes| - 1], now)
  }

  function LastFees(lanes: Lanes, now: int): nat {
    if lanes == [] then 0 else LastFees(lanes[..|lanes| - 1], now) + LastFee(lanes[|lanes| - 1], now)
  }

  /** One lane is the case of before. */
  lemma OneLaneAlternates(limit: int, sends: seq<Send>)
    ensures Overlapping(limit, [sends]) <==> Alternating(limit, sends)
  {
    var lanes := [sends];
    forall k | 0 <= k < |sends| ensures PassedAmong(limit, lanes, 0, k) <==> Passed(limit, sends, k) {
      var s := sends[k];
      assert lanes[..0] == [];
      assert OthersVolume(lanes, 0, s.checkedAt - DAY, s.checkedAt) == 0;
    }
    if Overlapping(limit, lanes) {
      assert InOrder(lanes[0]);
      forall k | 0 <= k < |sends| ensures Passed(limit, sends, k) { assert PassedAmong(limit, lanes, 0, k); }
    }
  }

  lemma LaneAlternates(limit: int, lanes: Lanes, p: nat)
    requires Overlapping(limit, lanes) && p < |lanes|
    ensures Alternating(limit, lanes[p])
  {
    assert InOrder(lanes[p]);
    forall k | 0 <= k < |lanes[p]| ensures Passed(limit, lanes[p], k) { assert PassedAmong(limit, lanes, p, k); }
  }

  lemma OneMore(n: nat, limit: nat)
    ensures (n + 1) * limit == n * limit + limit
  {
  }

  lemma {:induction false} SumOfLanes(limit: nat, lanes: Lanes, now: int)
    requires forall p :: 0 <= p < |lanes| ==> Alternating(limit, lanes[p])
    ensures SentInAll(lanes, now) <= |lanes| * limit
    ensures DebitedInAll(lanes, now) <= |lanes| * limit + LastFees(lanes, now)
  {
    if lanes != [] {
      var n := |lanes| - 1;
      assert Alternating(limit, lanes[n]);
      WithinLimitAtEveryMoment(limit, lanes[n], now);
      SumOfLanes(limit, lanes[..n], now);
      OneMore(n, limit);
    }
  }

  /** With n payments at a time, the amounts of any 24 hours sum to at most n times the
      limit, and the debits exceed that by no more than one fee per lane. */
  lemma OverlappingWithinLimits(limit: nat, lanes: Lanes, now: int)
    requires Overlapping(limit, lanes)
    ensures SentInAll(lanes, now) <= |lanes| * limit
    ensures DebitedInAll(lanes, now) <= |lanes| * limit + LastFees(lanes, now)
  {
    forall p | 0 <= p < |lanes| ensures Alternating(limit, lanes[p]) { LaneAlternates(limit, lanes, p); }
    SumOfLanes(limit, lanes, now);
  }

  /** n payments of one amount, all checked before any is recorded. */
  function CheckedTogether(amount: nat, n: nat): Lanes {
    seq(n, _ => [Send(0, 1, amount, 0)])
  }

  lemma {:induction false} TogetherSend(amount: nat, n: nat)
    ensures SentInAll(CheckedTogether(amount, n), 1) == n * amount
  {
    if n > 0 {
      var lanes := CheckedTogether(amount, n);
      TogetherSend(amount, n - 1);
      assert lanes[..n - 1] == CheckedTogether(amount, n - 1);
      OneSend(Send(0, 1, amount, 0));
      OneMore(n - 1, amount);
    }
  }

  lemma OneSend(s: Send)
    ensures SentAt([s], s.recordedAt) == s.amount
    ensures forall since, until ::
              VolumeBetween([s], since, until) == if since <= s.recordedAt < until then s.Debit() else 0
  {
    assert [s][..0] == [];
  }

  lemma {:induction false} TogetherSeeNothing(amount: nat, n: nat, p: nat, since: int)
    ensures OthersVolume(CheckedTogether(amount, n), p, since, 0) == 0
  {
    if n > 0 {
      var lanes := CheckedTogether(amount, n);
      TogetherSeeNothing(amount, n - 1, p, since);
      assert lanes[..n - 1] == CheckedTogether(amount, n - 1);
      OneSend(Send(0, 1, amount, 0));
    }
  }

  /** The bound is reached for every n, so that two payments at a time already exceed the
      limit. */
  lemma OverlappingReachesLimits(limit: nat, n: nat)
    ensures var lanes := CheckedTogether(limit, n);
            |lanes| == n && Overlapping(limit, lanes) && SentInAll(lanes, 1) == n * limit
  {
    var lanes := CheckedTogether(limit, n);
    TogetherSend(limit, n);
    forall p, k | 0 <= p < |lanes| && 0 <= k < |lanes[p]| ensures PassedAmong(limit, lanes, p, k) {
      TogetherSeeNothing(limit, n, p, -DAY);
    }
  }
}

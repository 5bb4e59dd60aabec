/** The ledger as the payment protocols see it: a list of transactions on wallets,
    only ever appended to, whose pending marks are cleared by payment hash. */
module LedgerBook {
  import opened PriceRatios

  datatype Kind = Receipt | LnSend | Revert | FeeRefund | UsdRefund | IntraledgerDebit | IntraledgerCredit

  /** `effect` is what the wallet gains, in its own currency; `journal` names the
      payment attempt the transaction belongs to. */
  datatype Txn = Txn(
    journal: nat, kind: Kind, hash: string, wallet: string, effect: int, amounts: Amounts, pending: bool)

  function Balance(l: seq<Txn>, wallet: string): int {
    if l == [] then 0
    else Balance(l[..|l| - 1], wallet) + (if l[|l| - 1].wallet == wallet then l[|l| - 1].effect else 0)
  }

  /** The pending marks of all transactions of a hash are cleared, all at once. */
  function Settle(l: seq<Txn>, hash: string): (r: seq<Txn>)
    ensures |r| == |l|
    ensures forall i :: 0 <= i < |l| ==> r[i] == if l[i].hash == hash then l[i].(pending := false) else l[i]
  {
    if l == [] then []
    else
      var t := l[|l| - 1];
      Settle(l[..|l| - 1], hash) + [if t.hash == hash then t.(pending := false) else t]
  }

  /** Settling succeeds exactly when it modifies something. */
  predicate HasPending(l: seq<Txn>, hash: string) {
    exists i :: 0 <= i < |l| && l[i].hash == hash && l[i].pending
  }

  predicate IsRecorded(l: seq<Txn>, hash: string) {
    exists i :: 0 <= i < |l| && l[i].hash == hash && !l[i].pending
  }

  /** The journal of an attempt has been voided. */
  predicate Voided(l: seq<Txn>, journal: nat) {
    exists i :: 0 <= i < |l| && l[i].journal == journal && l[i].kind == Revert
  }

  /** What the ledger records of a refund: it does not void a journal again. */
  function Granted(l: seq<Txn>, refund: seq<Txn>): seq<Txn> {
    if refund != [] && refund[0].kind == Revert && Voided(l, refund[0].journal) then [] else refund
  }

  /** The transactions of one payment attempt, in order. */
  function Of(l: seq<Txn>, journal: nat): seq<Txn> {
    if l == [] then []
    else Of(l[..|l| - 1], journal) + (if l[|l| - 1].journal == journal then [l[|l| - 1]] else [])
  }

  lemma AppendOne(l: seq<Txn>, t: Txn)
    ensures forall w :: Balance(l + [t], w) == Balance(l, w) + if t.wallet == w then t.effect else 0
    ensures forall j :: Of(l + [t], j) == Of(l, j) + if t.journal == j then [t] else []
  {
    assert (l + [t])[..|l|] == l;
  }

  lemma {:induction false} OfMember(l: seq<Txn>, j: nat, i: nat)
    requires i < |l| && l[i].journal == j
    ensures l[i] in Of(l, j)
  {
    if i < |l| - 1 { OfMember(l[..|l| - 1], j, i); }
  }

  lemma {:induction false} OfComesFrom(l: seq<Txn>, j: nat, t: Txn)
    requires t in Of(l, j)
    ensures t in l && t.journal == j
  {
    if l != [] && t in Of(l[..|l| - 1], j) { OfComesFrom(l[..|l| - 1], j, t); }
  }

  lemma {:induction false} SettleKeepsBalance(l: seq<Txn>, hash: string, wallet: string)
    ensures Balance(Settle(l, hash), wallet) == Balance(l, wallet)
  {
    if l != [] {
      SettleKeepsBalance(l[..|l| - 1], hash, wallet);
      assert Settle(l, hash)[..|l| - 1] == Settle(l[..|l| - 1], hash);
    }
  }

  /** Settling and selecting one attempt commute. */
  lemma {:induction false} SettleOf(l: seq<Txn>, hash: string, j: nat)
    ensures Of(Settle(l, hash), j) == Settle(Of(l, j), hash)
  {
    if l != [] {
      var front, t := l[..|l| - 1], l[|l| - 1];
      SettleOf(front, hash, j);
      assert Settle(l, hash)[..|l| - 1] == Settle(front, hash);
    }
  }

  lemma SettleKeepsVoided(l: seq<Txn>, hash: string, j: nat)
    ensures Voided(Settle(l, hash), j) <==> Voided(l, j)
  {
    var l' := Settle(l, hash);
    if Voided(l, j) {
      var i :| 0 <= i < |l| && l[i].journal == j && l[i].kind == Revert;
      assert l'[i].kind == Revert;
    }
    if Voided(l', j) {
      var i :| 0 <= i < |l'| && l'[i].journal == j && l'[i].kind == Revert;
      assert l[i].kind == Revert;
    }
  }

  lemma {:induction false} OfOthers(l: seq<Txn>, more: seq<Txn>, j: nat)
    requires forall t :: t in more ==> t.journal != j
    ensures Of(l + more, j) == Of(l, j)
  {
    if more == [] {
      assert l + more == l;
    } else {
      OfOthers(l, more[..|more| - 1], j);
      assert (l + more)[..|l + more| - 1] == l + more[..|more| - 1];
      assert more[|more| - 1] in more;
    }
  }
}

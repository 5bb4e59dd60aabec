/** The legs of one ledger entry, and the books they make up. */
module LedgerEntries {
  import opened PriceRatios
  import opened PaymentFlows

  /** One line of an entry: an account gives (debit) or gets (credit) an amount. */
  datatype Leg = Leg(account: string, currency: Currency, debit: int, credit: int)

  datatype Account = Account(id: string, currency: Currency)

  /** The accounts that every entry may touch besides its two ends. */
  datatype StaticIds = StaticIds(bankOwner: string, dealerBtc: string, dealerUsd: string)

  const LND := Account("Assets:Reserve:Lightning", Btc)

  const NO_FEE := Amounts(0, 0)

  function Plus(a: Amounts, b: Amounts): Amounts {
    Amounts(a.btc + b.btc, a.usd + b.usd)
  }

  function Minus(a: Amounts, b: Amounts): Amounts {
    Amounts(a.btc - b.btc, a.usd - b.usd)
  }

  // ----- what a list of legs adds up to

  /** What the accounts of one currency get, less what they give. */
  function Net(legs: seq<Leg>, c: Currency): int {
    if legs == [] then 0
    else
      var last := legs[|legs| - 1];
      Net(legs[..|legs| - 1], c) + (if last.currency == c then last.credit - last.debit else 0)
  }

  /** The same for a single account. */
  function NetOf(legs: seq<Leg>, account: string, c: Currency): int {
    if legs == [] then 0
    else
      var last := legs[|legs| - 1];
      NetOf(legs[..|legs| - 1], account, c)
      + (if last.currency == c && last.account == account then last.credit - last.debit else 0)
  }

  /** And for all accounts but one. */
  function NetOthers(legs: seq<Leg>, account: string, c: Currency): int {
    if legs == [] then 0
    else
      var last := legs[|legs| - 1];
      NetOthers(legs[..|legs| - 1], account, c)
      + (if last.currency == c && last.account != account then last.credit - last.debit else 0)
  }

  ghost predicate Balanced(legs: seq<Leg>) {
    Net(legs, Btc) == 0 && Net(legs, Usd) == 0
  }

  function WithoutZeros(legs: seq<Leg>): seq<Leg> {
    if legs == [] then []
    else
      var last := legs[|legs| - 1];
      WithoutZeros(legs[..|legs| - 1]) + (if last.debit == 0 && last.credit == 0 then [] else [last])
  }

  /** The legs of a void: each line the other way round. */
  function VoidLegs(legs: seq<Leg>): seq<Leg> {
    if legs == [] then []
    else
      var last := legs[|legs| - 1];
      VoidLegs(legs[..|legs| - 1]) + [last.(debit := last.credit, credit := last.debit)]
  }

  // ----- the legs of an entry

  function FeeLegs(ids: StaticIds, fee: Amounts): seq<Leg> {
    if fee.btc > 0 then [Leg(ids.bankOwner, Btc, 0, fee.btc)] else []
  }

  function DebitLegs(account: Account, total: Amounts): seq<Leg> {
    [Leg(account.id, account.currency, InCurrency(total, account.currency), 0)]
  }

  function UsdToBtc(ids: StaticIds, amounts: Amounts): seq<Leg> {
    [Leg(ids.dealerBtc, Btc, amounts.btc, 0), Leg(ids.dealerUsd, Usd, 0, amounts.usd)]
  }

  function BtcToUsd(ids: StaticIds, amounts: Amounts): seq<Leg> {
    [Leg(ids.dealerBtc, Btc, 0, amounts.btc), Leg(ids.dealerUsd, Usd, amounts.usd, 0)]
  }

  /** What the dealer exchanges so that each currency stays with its own accounts. */
  function ConversionLegs(ids: StaticIds, from: Currency, to: Currency, total: Amounts, fee: Amounts): seq<Leg> {
    match (from, to)
    case (Usd, Usd) => if fee.usd > 0 then UsdToBtc(ids, fee) else []
    case (Usd, Btc) => UsdToBtc(ids, total)
    case (Btc, Usd) => BtcToUsd(ids, Minus(total, fee))
    case (Btc, Btc) => []
  }

  function CreditLegs(account: Account, total: Amounts, fee: Amounts): seq<Leg> {
    [Leg(account.id, account.currency, 0, InCurrency(Minus(total, fee), account.currency))]
  }

  function AllLegs(ids: StaticIds, from: Account, to: Account, total: Amounts, fee: Amounts): seq<Leg> {
    FeeLegs(ids, fee) + DebitLegs(from, total)
    + ConversionLegs(ids, from.currency, to.currency, total, fee) + CreditLegs(to, total, fee)
  }

  /** The legs of an entry as it is committed. */
  function EntryLegs(ids: StaticIds, from: Account, to: Account, total: Amounts, fee: Amounts): seq<Leg> {
    WithoutZeros(AllLegs(ids, from, to, total, fee))
  }

  /** The journal entry under construction. */
  class Entry {
    var transactions: seq<Leg>

    constructor ()
      ensures transactions == []
    {
      transactions := [];
    }

    method Debit(account: string, amount: int, currency: Currency)
      modifies this
      ensures transactions == old(transactions) + [Leg(account, currency, amount, 0)]
    {
      transactions := transactions + [Leg(account, currency, amount, 0)];
    }

    method Credit(account: string, amount: int, currency: Currency)
      modifies this
      ensures transactions == old(transactions) + [Leg(account, currency, 0, amount)]
    {
      transactions := transactions + [Leg(account, currency, 0, amount)];
    }

    method WithBankFee(ids: StaticIds, fee: Amounts)
      modifies this
      ensures transactions == old(transactions) + FeeLegs(ids, fee)
    {
      if fee.btc > 0 { Credit(ids.bankOwner, fee.btc, Btc); }
    }

    method DebitAccount(account: Account, total: Amounts)
      modifies this
      ensures transactions == old(transactions) + DebitLegs(account, total)
    {
      if account.currency == Btc {
        Debit(account.id, total.btc, Btc);
      } else {
        Debit(account.id, total.usd, Usd);
      }
    }

    method AddUsdToBtcConversion(ids: StaticIds, amounts: Amounts)
      modifies this
      ensures transactions == old(transactions) + UsdToBtc(ids, amounts)
    {
      Debit(ids.dealerBtc, amounts.btc, Btc);
      Credit(ids.dealerUsd, amounts.usd, Usd);
    }

    method AddBtcToUsdConversion(ids: StaticIds, amounts: Amounts)
      modifies this
      ensures transactions == old(transactions) + BtcToUsd(ids, amounts)
    {
      Credit(ids.dealerBtc, amounts.btc, Btc);
      Debit(ids.dealerUsd, amounts.usd, Usd);
    }

    method Convert(ids: StaticIds, from: Currency, to: Currency, total: Amounts, fee: Amounts)
      modifies this
      ensures transactions == old(transactions) + ConversionLegs(ids, from, to, total, fee)
    {
      if from == Usd && to == Usd && fee.usd > 0 { AddUsdToBtcConversion(ids, fee); }
      if from == Usd && to == Btc { AddUsdToBtcConversion(ids, total); }
      if from == Btc && to == Usd { AddBtcToUsdConversion(ids, Minus(total, fee)); }
    }

    method CreditAccount(ids: StaticIds, from: Currency, account: Account, total: Amounts, fee: Amounts)
      modifies this
      ensures transactions
           == WithoutZeros(
                old(transactions) + ConversionLegs(ids, from, account.currency, total, fee)
                + CreditLegs(account, total, fee))
    {
      Convert(ids, from, account.currency, total, fee);
      Credit(account.id, InCurrency(Minus(total, fee), account.currency), account.currency);
      RemoveZeroAmountEntries();
    }

    method RemoveZeroAmountEntries()
      modifies this
      ensures transactions == WithoutZeros(old(transactions))
    {
      var kept := [];
      for i := 0 to |transactions|
        invariant kept == WithoutZeros(transactions[..i])
        invariant transactions == old(transactions)
      {
        assert transactions[..i + 1][..i] == transactions[..i];
        if !(transactions[i].debit == 0 && transactions[i].credit == 0) { kept := kept + [transactions[i]]; }
      }
      assert transactions[..|transactions|] == transactions;
      transactions := kept;
    }
  }

  /** The main book: all committed legs, in order. */
  class MainBook {
    var legs: seq<Leg>

    constructor ()
      ensures legs == []
    {
      legs := [];
    }

    method Record(ids: StaticIds, from: Account, to: Account, total: Amounts, fee: Amounts)
      modifies this
      ensures legs == old(legs) + EntryLegs(ids, from, to, total, fee)
    {
      var entry := new Entry();
      entry.WithBankFee(ids, fee);
      entry.DebitAccount(from, total);
      assert entry.transactions == FeeLegs(ids, fee) + DebitLegs(from, total);
      entry.CreditAccount(ids, from.currency, to, total, fee);
      legs := legs + entry.transactions;
    }

    method RecordSend(ids: StaticIds, sender: Account, total: Amounts, fee: Amounts)
      modifies this
      ensures legs == old(legs) + PostedLegs(ids, Send(sender, total, fee))
    {
      Record(ids, sender, LND, total, fee);
    }

    method RecordReceive(ids: StaticIds, recipient: Account, amount: Amounts, fee: Amounts)
      modifies this
      ensures legs == old(legs) + PostedLegs(ids, Receive(recipient, amount, fee))
    {
      Record(ids, LND, recipient, Plus(amount, fee), fee);
    }

    method RecordIntraledger(ids: StaticIds, sender: Account, recipient: Account, amount: Amounts)
      modifies this
      ensures legs == old(legs) + PostedLegs(ids, Intraledger(sender, recipient, amount))
    {
      Record(ids, sender, recipient, amount, NO_FEE);
    }
  }

  // ----- sums of legs

  lemma NetPush(legs: seq<Leg>, l: Leg, c: Currency)
    ensures Net(legs + [l], c) == Net(legs, c) + (if l.currency == c then l.credit - l.debit else 0)
  {
    assert (legs + [l])[..|legs|] == legs;
  }

  lemma NetOfPush(legs: seq<Leg>, l: Leg, account: string, c: Currency)
    ensures NetOf(legs + [l], account, c)
         == NetOf(legs, account, c) + (if l.currency == c && l.account == account then l.credit - l.debit else 0)
  {
    assert (legs + [l])[..|legs|] == legs;
  }

  lemma {:induction false} NetConcat(a: seq<Leg>, b: seq<Leg>, c: Currency)
    ensures Net(a + b, c) == Net(a, c) + Net(b, c)
  {
    if b == [] {
      assert a + b == a;
    } else {
      assert (a + b)[..|a + b| - 1] == a + b[..|b| - 1];
      NetConcat(a, b[..|b| - 1], c);
    }
  }

  lemma {:induction false} NetOfConcat(a: seq<Leg>, b: seq<Leg>, account: string, c: Currency)
    ensures NetOf(a + b, account, c) == NetOf(a, account, c) + NetOf(b, account, c)
  {
    if b == [] {
      assert a + b == a;
    } else {
      assert (a + b)[..|a + b| - 1] == a + b[..|b| - 1];
      NetOfConcat(a, b[..|b| - 1], account, c);
    }
  }

  lemma {:induction false} NetSplits(legs: seq<Leg>, account: string, c: Currency)
    ensures Net(legs, c) == NetOf(legs, account, c) + NetOthers(legs, account, c)
  {
    if legs != [] { NetSplits(legs[..|legs| - 1], account, c); }
  }

  /** Dropping the empty lines changes no sum. */
  lemma {:induction false} WithoutZerosKeepsNet(legs: seq<Leg>, c: Currency)
    ensures Net(WithoutZeros(legs), c) == Net(legs, c)
  {
    if legs != [] {
      var front, last := legs[..|legs| - 1], legs[|legs| - 1];
      WithoutZerosKeepsNet(front, c);
      if last.debit == 0 && last.credit == 0 {
        assert WithoutZeros(legs) == WithoutZeros(front);
      } else {
        NetPush(WithoutZeros(front), last, c);
      }
    }
  }

  lemma {:induction false} WithoutZerosKeepsNetOf(legs: seq<Leg>, account: string, c: Currency)
    ensures NetOf(WithoutZeros(legs), account, c) == NetOf(legs, account, c)
  {
    if legs != [] {
      var front, last := legs[..|legs| - 1], legs[|legs| - 1];
      WithoutZerosKeepsNetOf(front, account, c);
      if last.debit == 0 && last.credit == 0 {
        assert WithoutZeros(legs) == WithoutZeros(front);
      } else {
        NetOfPush(WithoutZeros(front), last, account, c);
      }
    }
  }

  /** The lines that are kept are exactly those with an amount. */
  lemma {:induction false} WithoutZerosKeepsLegs(legs: seq<Leg>, l: Leg)
    ensures l in WithoutZeros(legs) <==> l in legs && !(l.debit == 0 && l.credit == 0)
  {
    if legs != [] {
      WithoutZerosKeepsLegs(legs[..|legs| - 1], l);
      assert legs == legs[..|legs| - 1] + [legs[|legs| - 1]];
    }
  }

  /** A void undoes an entry for every account. */
  lemma VoidUndoes(legs: seq<Leg>, account: string, c: Currency)
    ensures Net(legs + VoidLegs(legs), c) == 0
    ensures NetOf(legs + VoidLegs(legs), account, c) == 0
  {
    VoidNet(legs, account, c);
    NetConcat(legs, VoidLegs(legs), c);
    NetOfConcat(legs, VoidLegs(legs), account, c);
  }

  lemma {:induction false} VoidNet(legs: seq<Leg>, account: string, c: Currency)
    ensures Net(VoidLegs(legs), c) == -Net(legs, c)
    ensures NetOf(VoidLegs(legs), account, c) == -NetOf(legs, account, c)
  {
    if legs != [] {
      var front, last := legs[..|legs| - 1], legs[|legs| - 1];
      VoidNet(front, account, c);
      NetPush(VoidLegs(front), last.(debit := last.credit, credit := last.debit), c);
      NetOfPush(VoidLegs(front), last.(debit := last.credit, credit := last.debit), account, c);
    }
  }

  // ----- one entry

  /** The fee goes to the bank owner in sats although nothing was taken in sats. */
  ghost predicate FeeFromNowhere(from: Currency, to: Currency, fee: Amounts) {
    from == Usd && to == Usd && fee.usd == 0 && fee.btc > 0
  }

  lemma AllLegsNet(ids: StaticIds, from: Account, to: Account, total: Amounts, fee: Amounts, c: Currency)
    ensures Net(AllLegs(ids, from, to, total, fee), c)
         == Net(FeeLegs(ids, fee), c) + Net(DebitLegs(from, total), c)
            + Net(ConversionLegs(ids, from.currency, to.currency, total, fee), c) + Net(CreditLegs(to, total, fee), c)
  {
    var f, d := FeeLegs(ids, fee), DebitLegs(from, total);
    var v := ConversionLegs(ids, from.currency, to.currency, total, fee);
    NetConcat(f, d, c);
    NetConcat(f + d, v, c);
    NetConcat(f + d + v, CreditLegs(to, total, fee), c);
  }

  lemma NetOfOne(l: Leg, c: Currency)
    ensures Net([l], c) == if l.currency == c then l.credit - l.debit else 0
  {
    NetPush([], l, c);
  }

  lemma NetOfTwo(a: Leg, b: Leg, c: Currency)
    ensures Net([a, b], c)
         == (if a.currency == c then a.credit - a.debit else 0) + (if b.currency == c then b.credit - b.debit else 0)
  {
    NetPush([a], b, c);
    NetOfOne(a, c);
  }

  /** What the dealer gets in a currency. */
  lemma ConversionNet(ids: StaticIds, from: Currency, to: Currency, total: Amounts, fee: Amounts, c: Currency)
    ensures Net(ConversionLegs(ids, from, to, total, fee), c)
         == match (from, to)
            case (Usd, Usd) => if fee.usd <= 0 then 0 else if c == Btc then -fee.btc else fee.usd
            case (Usd, Btc) => if c == Btc then -total.btc else total.usd
            case (Btc, Usd) => if c == Btc then total.btc - fee.btc else fee.usd - total.usd
            case (Btc, Btc) => 0
  {
    var v := ConversionLegs(ids, from, to, total, fee);
    if v != [] {
      assert v == [v[0], v[1]];
      NetOfTwo(v[0], v[1], c);
    }
  }

  /** An entry balances in each currency, except for a dollar payment between two dollar
      accounts whose fee is rounded to no cents but to some sats. */
  lemma EntryBalancedIff(ids: StaticIds, from: Account, to: Account, total: Amounts, fee: Amounts)
    requires fee.btc >= 0 && fee.usd >= 0
    ensures Net(EntryLegs(ids, from, to, total, fee), Usd) == 0
    ensures Net(EntryLegs(ids, from, to, total, fee), Btc)
         == if FeeFromNowhere(from.currency, to.currency, fee) then fee.btc else 0
    ensures Balanced(EntryLegs(ids, from, to, total, fee)) <==> !FeeFromNowhere(from.currency, to.currency, fee)
  {
    EntryNet(ids, from, to, total, fee, Btc);
    EntryNet(ids, from, to, total, fee, Usd);
  }

  lemma EntryNet(ids: StaticIds, from: Account, to: Account, total: Amounts, fee: Amounts, c: Currency)
    requires fee.btc >= 0 && fee.usd >= 0
    ensures Net(EntryLegs(ids, from, to, total, fee), c)
         == if c == Btc && FeeFromNowhere(from.currency, to.currency, fee) then fee.btc else 0
  {
    WithoutZerosKeepsNet(AllLegs(ids, from, to, total, fee), c);
    AllLegsNet(ids, from, to, total, fee, c);
    NetOfOne(Leg(ids.bankOwner, Btc, 0, fee.btc), c);
    NetOfOne(DebitLegs(from, total)[0], c);
    NetOfOne(CreditLegs(to, total, fee)[0], c);
    ConversionNet(ids, from.currency, to.currency, total, fee, c);
  }

  // ----- a single account in an entry

  ghost predicate Apart(ids: StaticIds, from: Account, to: Account) {
    && from.id != to.id && ids.bankOwner != ids.dealerBtc && ids.bankOwner != ids.dealerUsd
    && ids.dealerBtc != ids.dealerUsd
    && from.id !in {ids.bankOwner, ids.dealerBtc, ids.dealerUsd}
    && to.id !in {ids.bankOwner, ids.dealerBtc, ids.dealerUsd}
  }

  lemma NetOfTwoLegs(a: Leg, b: Leg, account: string, c: Currency)
    ensures NetOf([a], account, c) == if a.currency == c && a.account == account then a.credit - a.debit else 0
    ensures NetOf([a, b], account, c)
         == NetOf([a], account, c) + (if b.currency == c && b.account == account then b.credit - b.debit else 0)
  {
    NetOfPush([], a, account, c);
    NetOfPush([a], b, account, c);
  }

  lemma AllLegsNetOf(
    ids: StaticIds, from: Account, to: Account, total: Amounts, fee: Amounts, account: string, c: Currency)
    ensures NetOf(EntryLegs(ids, from, to, total, fee), account, c)
         == NetOf(FeeLegs(ids, fee), account, c) + NetOf(DebitLegs(from, total), account, c)
            + NetOf(ConversionLegs(ids, from.currency, to.currency, total, fee), account, c)
            + NetOf(CreditLegs(to, total, fee), account, c)
  {
    var f, d := FeeLegs(ids, fee), DebitLegs(from, total);
    var v := ConversionLegs(ids, from.currency, to.currency, total, fee);
    NetOfConcat(f, d, account, c);
    NetOfConcat(f + d, v, account, c);
    NetOfConcat(f + d + v, CreditLegs(to, total, fee), account, c);
    WithoutZerosKeepsNetOf(AllLegs(ids, from, to, total, fee), account, c);
  }

  lemma ConversionNetOf(
    ids: StaticIds, from: Currency, to: Currency, total: Amounts, fee: Amounts, account: string, c: Currency)
    requires ids.dealerBtc != ids.dealerUsd
    ensures NetOf(ConversionLegs(ids, from, to, total, fee), account, c)
         == if account == ids.dealerBtc && c == Btc then Net(ConversionLegs(ids, from, to, total, fee), Btc)
            else if account == ids.dealerUsd && c == Usd then Net(ConversionLegs(ids, from, to, total, fee), Usd)
            else 0
  {
    var v := ConversionLegs(ids, from, to, total, fee);
    if v != [] {
      assert v == [v[0], v[1]];
      NetOfTwo(v[0], v[1], Btc);
      NetOfTwo(v[0], v[1], Usd);
      NetOfTwoLegs(v[0], v[1], account, c);
    }
  }

  /** Who pays and who gets what: the sender the whole amount, the recipient the amount
      without the fee, the bank owner the fee, each in its own currency, and the dealer the
      difference; no other account moves. */
  lemma EntryEffects(
    ids: StaticIds, from: Account, to: Account, total: Amounts, fee: Amounts, account: string, c: Currency)
    requires Apart(ids, from, to) && fee.btc >= 0
    ensures NetOf(EntryLegs(ids, from, to, total, fee), account, c)
         == if account == from.id && c == from.currency then -InCurrency(total, c)
            else if account == to.id && c == to.currency then InCurrency(total, c) - InCurrency(fee, c)
            else if account == ids.bankOwner && c == Btc then fee.btc
            else if (account == ids.dealerBtc && c == Btc) || (account == ids.dealerUsd && c == Usd)
            then Net(ConversionLegs(ids, from.currency, to.currency, total, fee), c)
            else 0
  {
    AllLegsNetOf(ids, from, to, total, fee, account, c);
    ConversionNetOf(ids, from.currency, to.currency, total, fee, account, c);
    var b, d, r := Leg(ids.bankOwner, Btc, 0, fee.btc), DebitLegs(from, total)[0], CreditLegs(to, total, fee)[0];
    NetOfTwoLegs(b, d, account, c);
    NetOfTwoLegs(d, r, account, c);
    NetOfTwoLegs(r, d, account, c);
  }

  /** An account that is not the bank's moves only as an end of the entry, be it both ends. */
  lemma EndsEffects(
    ids: StaticIds, from: Account, to: Account, total: Amounts, fee: Amounts, account: string, c: Currency)
    requires account !in {ids.bankOwner, ids.dealerBtc, ids.dealerUsd}
    ensures NetOf(EntryLegs(ids, from, to, total, fee), account, c)
         == (if account == from.id && c == from.currency then -InCurrency(total, c) else 0)
            + (if account == to.id && c == to.currency then InCurrency(total, c) - InCurrency(fee, c) else 0)
  {
    AllLegsNetOf(ids, from, to, total, fee, account, c);
    var b, d, r := Leg(ids.bankOwner, Btc, 0, fee.btc), DebitLegs(from, total)[0], CreditLegs(to, total, fee)[0];
    NetOfTwoLegs(b, d, account, c);
    NetOfTwoLegs(d, r, account, c);
    NetOfTwoLegs(r, d, account, c);
    var v := ConversionLegs(ids, from.currency, to.currency, total, fee);
    if v != [] {
      assert v == [v[0], v[1]];
      NetOfTwoLegs(v[0], v[1], account, c);
    }
  }

  // ----- the whole book

  /** What the application asks the ledger to record. A void reverses an earlier posting. */
  datatype Posting =
    | Send(sender: Account, total: Amounts, fee: Amounts)
    | Receive(recipient: Account, amount: Amounts, fee: Amounts)
    | Intraledger(sender: Account, recipient: Account, amount: Amounts)
    | Void(voided: Posting)

  function PostedLegs(ids: StaticIds, p: Posting): seq<Leg> {
    match p
    case Send(sender, total, fee) => EntryLegs(ids, sender, LND, total, fee)
    case Receive(recipient, amount, fee) => EntryLegs(ids, LND, recipient, Plus(amount, fee), fee)
    case Intraledger(sender, recipient, amount) => EntryLegs(ids, sender, recipient, amount, NO_FEE)
    case Void(voided) => VoidLegs(PostedLegs(ids, voided))
  }

  /** A send takes the whole from the sender, fee included. What is not the bank's fee
      leaves by Lightning. */
  lemma SendEffects(ids: StaticIds, sender: Account, total: Amounts, fee: Amounts)
    requires Apart(ids, sender, LND) && fee.btc >= 0
    ensures var legs := PostedLegs(ids, Send(sender, total, fee));
            && NetOf(legs, sender.id, sender.currency) == -InCurrency(total, sender.currency)
            && NetOf(legs, ids.bankOwner, Btc) == fee.btc
            && NetOf(legs, LND.id, Btc) == total.btc - fee.btc
  {
    EntryEffects(ids, sender, LND, total, fee, sender.id, sender.currency);
    EntryEffects(ids, sender, LND, total, fee, ids.bankOwner, Btc);
    EntryEffects(ids, sender, LND, total, fee, LND.id, Btc);
  }

  /** A receipt gives the recipient the amount and the bank owner the fee. Both came in by
      Lightning. */
  lemma ReceiptEffects(ids: StaticIds, recipient: Account, amount: Amounts, fee: Amounts)
    requires Apart(ids, LND, recipient) && fee.btc >= 0
    ensures var legs := PostedLegs(ids, Receive(recipient, amount, fee));
            && NetOf(legs, recipient.id, recipient.currency) == InCurrency(amount, recipient.currency)
            && NetOf(legs, ids.bankOwner, Btc) == fee.btc
            && NetOf(legs, LND.id, Btc) == -(amount.btc + fee.btc)
  {
    EntryEffects(ids, LND, recipient, Plus(amount, fee), fee, recipient.id, recipient.currency);
    EntryEffects(ids, LND, recipient, Plus(amount, fee), fee, ids.bankOwner, Btc);
    EntryEffects(ids, LND, recipient, Plus(amount, fee), fee, LND.id, Btc);
  }

  /** A transfer moves the amount, each end in its own currency, and costs nothing. */
  lemma TransferEffects(ids: StaticIds, sender: Account, recipient: Account, amount: Amounts)
    requires Apart(ids, sender, recipient)
    ensures var legs := PostedLegs(ids, Intraledger(sender, recipient, amount));
            && NetOf(legs, sender.id, sender.currency) == -InCurrency(amount, sender.currency)
            && NetOf(legs, recipient.id, recipient.currency) == InCurrency(amount, recipient.currency)
            && NetOf(legs, ids.bankOwner, Btc) == 0
  {
    EntryEffects(ids, sender, recipient, amount, NO_FEE, sender.id, sender.currency);
    EntryEffects(ids, sender, recipient, amount, NO_FEE, recipient.id, recipient.currency);
    EntryEffects(ids, sender, recipient, amount, NO_FEE, ids.bankOwner, Btc);
  }

  function Book(ids: StaticIds, postings: seq<Posting>): seq<Leg> {
    if postings == [] then []
    else Book(ids, postings[..|postings| - 1]) + PostedLegs(ids, postings[|postings| - 1])
  }

  ghost predicate FeesNonNegative(p: Posting) {
    match p
    case Send(_, _, fee) => fee.btc >= 0 && fee.usd >= 0
    case Receive(_, _, fee) => fee.btc >= 0 && fee.usd >= 0
    case Intraledger(_, _, _) => true
    case Void(voided) => FeesNonNegative(voided)
  }

  /** Sats that leave the bank by Lightning with a posting. */
  function SatsOut(p: Posting): int {
    match p
    case Send(_, total, fee) => total.btc - fee.btc
    case Receive(_, amount, fee) => -(amount.btc + fee.btc)
    case Intraledger(_, _, _) => 0
    case Void(voided) => -SatsOut(voided)
  }

  function AllSatsOut(postings: seq<Posting>): int {
    if postings == [] then 0 else AllSatsOut(postings[..|postings| - 1]) + SatsOut(postings[|postings| - 1])
  }

  lemma {:induction false} PostingBalanced(ids: StaticIds, p: Posting)
    requires FeesNonNegative(p)
    ensures Balanced(PostedLegs(ids, p))
    decreases p
  {
    match p
    case Send(sender, total, fee) => EntryBalancedIff(ids, sender, LND, total, fee);
    case Receive(recipient, amount, fee) => EntryBalancedIff(ids, LND, recipient, Plus(amount, fee), fee);
    case Intraledger(sender, recipient, amount) => EntryBalancedIff(ids, sender, recipient, amount, NO_FEE);
    case Void(voided) =>
      PostingBalanced(ids, voided);
      VoidNet(PostedLegs(ids, voided), "", Btc);
      VoidNet(PostedLegs(ids, voided), "", Usd);
  }

  /** After any postings whatsoever the book balances in sats and in cents. */
  lemma {:induction false} BookBalanced(ids: StaticIds, postings: seq<Posting>)
    requires forall p :: p in postings ==> FeesNonNegative(p)
    ensures Balanced(Book(ids, postings))
  {
    if postings != [] {
      var front, last := postings[..|postings| - 1], postings[|postings| - 1];
      BookBalanced(ids, front);
      PostingBalanced(ids, last);
      NetConcat(Book(ids, front), PostedLegs(ids, last), Btc);
      NetConcat(Book(ids, front), PostedLegs(ids, last), Usd);
    }
  }

  /** The Lightning account is none of the others. */
  ghost predicate LndApart(ids: StaticIds, p: Posting) {
    && LND.id !in {ids.bankOwner, ids.dealerBtc, ids.dealerUsd}
    && match p
       case Send(sender, _, _) => sender.id != LND.id
       case Receive(recipient, _, _) => recipient.id != LND.id
       case Intraledger(sender, recipient, _) => LND.id !in {sender.id, recipient.id}
       case Void(voided) => LndApart(ids, voided)
  }

  lemma {:induction false} PostingThroughLnd(ids: StaticIds, p: Posting)
    requires LndApart(ids, p)
    ensures NetOf(PostedLegs(ids, p), LND.id, Btc) == SatsOut(p)
    decreases p
  {
    match p
    case Send(sender, total, fee) => EndsEffects(ids, sender, LND, total, fee, LND.id, Btc);
    case Receive(recipient, amount, fee) => EndsEffects(ids, LND, recipient, Plus(amount, fee), fee, LND.id, Btc);
    case Intraledger(sender, recipient, amount) => EndsEffects(ids, sender, recipient, amount, NO_FEE, LND.id, Btc);
    case Void(voided) =>
      PostingThroughLnd(ids, voided);
      VoidNet(PostedLegs(ids, voided), LND.id, Btc);
  }

  lemma {:induction false} LndMirrorsTraffic(ids: StaticIds, postings: seq<Posting>)
    requires forall p :: p in postings ==> LndApart(ids, p)
    ensures NetOf(Book(ids, postings), LND.id, Btc) == AllSatsOut(postings)
  {
    if postings != [] {
      var front, last := postings[..|postings| - 1], postings[|postings| - 1];
      LndMirrorsTraffic(ids, front);
      PostingThroughLnd(ids, last);
      NetOfConcat(Book(ids, front), PostedLegs(ids, last), LND.id, Btc);
    }
  }

  /** The bank owes its users, owner and dealer exactly the sats that came in by Lightning
      and did not go out again, and the dealer owes exactly the cents that all other
      accounts hold. */
  lemma LiabilitiesBacked(ids: StaticIds, postings: seq<Posting>)
    requires forall p :: p in postings ==> FeesNonNegative(p) && LndApart(ids, p)
    ensures NetOthers(Book(ids, postings), LND.id, Btc) == -AllSatsOut(postings)
    ensures NetOthers(Book(ids, postings), ids.dealerUsd, Usd) == -NetOf(Book(ids, postings), ids.dealerUsd, Usd)
  {
    BookBalanced(ids, postings);
    LndMirrorsTraffic(ids, postings);
    NetSplits(Book(ids, postings), LND.id, Btc);
    NetSplits(Book(ids, postings), ids.dealerUsd, Usd);
  }
}

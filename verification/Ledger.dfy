/** The double-entry ledger and the sequential Settlement rule.

    `SettleAll` is the reference: one Settlement after another, each one reading the
    Balance left by those before it. The concurrent protocol (Protocol.dfy) and the demo
    plan (DemoPlan.dfy) are both proved against it. */
module Ledger {
  type AccountId = nat
  type PaymentId = nat
  type LedgerTxId = nat

  datatype Kind = Wallet | Clearing
  datatype Direction = Debit | Credit
  datatype Entry = Entry(ledgerTx: LedgerTxId, account: AccountId, direction: Direction, amount: int)

  type Kinds = map<AccountId, Kind>

  predicate IsWallet(kinds: Kinds, a: AccountId) {
    a in kinds && kinds[a] == Wallet
  }

  function Signed(e: Entry): int {
    if e.direction.Credit? then e.amount else -e.amount
  }

  /** The Balance statement: credits minus debits of one Account. */
  function Balance(entries: seq<Entry>, a: AccountId): int {
    if entries == [] then 0
    else
      var last := entries[|entries| - 1];
      Balance(entries[..|entries| - 1], a) + if last.account == a then Signed(last) else 0
  }

  /** Signed sum of all entries, whatever their Account. */
  function Net(entries: seq<Entry>): int {
    if entries == [] then 0
    else Net(entries[..|entries| - 1]) + Signed(entries[|entries| - 1])
  }

  /** How often an Account was debited. */
  function DebitCount(entries: seq<Entry>, a: AccountId): nat {
    if entries == [] then 0
    else
      var last := entries[|entries| - 1];
      DebitCount(entries[..|entries| - 1], a) + if last.account == a && last.direction.Debit? then 1 else 0
  }

  /** A Payment as the sequential rule sees it; `ledgerTx` names the Ledger Transaction it
      would post. */
  datatype Request = Request(payment: PaymentId, source: AccountId, destination: AccountId,
                             amount: int, ledgerTx: LedgerTxId)

  function Posting(r: Request): seq<Entry> {
    [Entry(r.ledgerTx, r.source, Debit, r.amount), Entry(r.ledgerTx, r.destination, Credit, r.amount)]
  }

  datatype Verdict = Succeeds | Fails

  /** Entries posted so far and the verdict on each Payment settled so far. */
  datatype Books = Books(entries: seq<Entry>, verdicts: map<PaymentId, Verdict>)

  /** Only a Wallet has to prove funds. */
  predicate Affords(kinds: Kinds, entries: seq<Entry>, r: Request) {
    IsWallet(kinds, r.source) ==> Balance(entries, r.source) >= r.amount
  }

  function SettleOne(kinds: Kinds, b: Books, r: Request): Books {
    if Affords(kinds, b.entries, r)
    then Books(b.entries + Posting(r), b.verdicts[r.payment := Succeeds])
    else Books(b.entries, b.verdicts[r.payment := Fails])
  }

  function SettleAll(kinds: Kinds, rs: seq<Request>): Books {
    if rs == [] then Books([], map[])
    else SettleOne(kinds, SettleAll(kinds, rs[..|rs| - 1]), rs[|rs| - 1])
  }

  lemma {:induction false} PostingEffect(entries: seq<Entry>, r: Request, a: AccountId)
    ensures Net(entries + Posting(r)) == Net(entries)
    ensures Balance(entries + Posting(r), a)
         == Balance(entries, a) - (if r.source == a then r.amount else 0) + (if r.destination == a then r.amount else 0)
    ensures DebitCount(entries + Posting(r), a) == DebitCount(entries, a) + if r.source == a then 1 else 0
  {
    var whole, debit, credit := entries + Posting(r), Posting(r)[0], Posting(r)[1];
    assert whole[..|whole| - 1] == entries + [debit] && whole[|whole| - 1] == credit;
    assert (entries + [debit])[..|entries|] == entries;
  }

  /** No Settlement sequence overdraws a Wallet or creates money. */
  lemma {:induction false} SequentialSafety(kinds: Kinds, rs: seq<Request>, a: AccountId)
    requires forall r | r in rs :: r.amount > 0
    ensures IsWallet(kinds, a) ==> Balance(SettleAll(kinds, rs).entries, a) >= 0
    ensures Net(SettleAll(kinds, rs).entries) == 0
  {
    if rs == [] {
    } else {
      var before, last := rs[..|rs| - 1], rs[|rs| - 1];
      SequentialSafety(kinds, before, a);
      PostingEffect(SettleAll(kinds, before).entries, last, a);
    }
  }

  /** What the ledger holds under one Ledger Transaction id. */
  function EntriesOf(entries: seq<Entry>, id: LedgerTxId): seq<Entry> {
    if entries == [] then []
    else
      var last := entries[|entries| - 1];
      EntriesOf(entries[..|entries| - 1], id) + if last.ledgerTx == id then [last] else []
  }

  lemma {:induction false} EntriesOfPosting(entries: seq<Entry>, r: Request, id: LedgerTxId)
    ensures EntriesOf(entries + Posting(r), id) == EntriesOf(entries, id) + if r.ledgerTx == id then Posting(r) else []
  {
    var whole, debit, credit := entries + Posting(r), Posting(r)[0], Posting(r)[1];
    assert whole[..|whole| - 1] == entries + [debit] && whole[|whole| - 1] == credit;
    assert (entries + [debit])[..|entries|] == entries;
  }
}

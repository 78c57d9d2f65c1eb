/** Writing the demo plan into a database that may already hold other data. */
module DemoSeed {
  import opened Ledger
  import opened DemoPlan

  datatype Outcome = Seeded | AlreadySeeded | ClearingMissing

  /** `number` is the running sequence that makes the Idempotency Key unique. */
  datatype PaymentRow = PaymentRow(source: AccountId, destination: AccountId, amount: int, succeeded: bool,
                                   ledgerTx: int, number: nat, funding: bool, at: int)

  datatype Violation = NetNotZero(net: int) | NegativeBalance(account: AccountId, balance: int)

  /** Plan keys to the ids the database gave the Wallets. */
  type Ids = map<AccountId, AccountId>

  ghost predicate Injective(ids: Ids) {
    forall a, b :: a in ids && b in ids && ids[a] == ids[b] ==> a == b
  }

  function IdOf(ids: Ids, a: AccountId): AccountId { if a in ids then ids[a] else a }

  /** The rows one event writes, given the next Ledger Transaction id. */
  function EntriesFor(e: Event, ids: Ids, clearing: AccountId, id: LedgerTxId): seq<Entry> {
    if !Posts(e) then []
    else match e
      case Funding(w, amount, _) => [Entry(id, clearing, Debit, amount), Entry(id, IdOf(ids, w), Credit, amount)]
      case Transfer(s, d, amount, _, _) =>
        [Entry(id, IdOf(ids, s), Debit, amount), Entry(id, IdOf(ids, d), Credit, amount)]
  }

  function RowFor(e: Event, ids: Ids, clearing: AccountId, id: LedgerTxId, number: nat): PaymentRow {
    match e
    case Funding(w, amount, at) => PaymentRow(clearing, IdOf(ids, w), amount, true, id, number, true, at)
    case Transfer(s, d, amount, succeeded, at) =>
      PaymentRow(IdOf(ids, s), IdOf(ids, d), amount, succeeded, if succeeded then id else -1, number, false, at)
  }

  function Written(events: seq<Event>, ids: Ids, clearing: AccountId, l: LedgerTxId): seq<Entry> {
    if events == [] then []
    else
      var before := events[..|events| - 1];
      Written(before, ids, clearing, l) + EntriesFor(events[|events| - 1], ids, clearing, l + PostCount(before))
  }

  function Rows(events: seq<Event>, ids: Ids, clearing: AccountId, l: LedgerTxId): seq<PaymentRow> {
    if events == [] then []
    else
      var before := events[..|events| - 1];
      Rows(before, ids, clearing, l) + [RowFor(events[|events| - 1], ids, clearing, l + PostCount(before), |events|)]
  }

  lemma OneMoreEvent(events: seq<Event>, e: Event, ids: Ids, clearing: AccountId, l: LedgerTxId)
    ensures Written(events + [e], ids, clearing, l)
         == Written(events, ids, clearing, l) + EntriesFor(e, ids, clearing, l + PostCount(events))
    ensures Rows(events + [e], ids, clearing, l)
         == Rows(events, ids, clearing, l) + [RowFor(e, ids, clearing, l + PostCount(events), |events| + 1)]
    ensures PostCount(events + [e]) == PostCount(events) + if Posts(e) then 1 else 0
  {
    hide EntriesFor, RowFor;
    assert (events + [e])[..|events|] == events;
  }

  lemma NothingWritten(ids: Ids, clearing: AccountId, l: LedgerTxId)
    ensures Written([], ids, clearing, l) == [] && Rows([], ids, clearing, l) == [] && PostCount([]) == 0
  {
  }

  lemma EventWallets(wallets: seq<PlannedWallet>, events: seq<Event>, n: nat, ids: Ids)
    requires |wallets| == 8 && LegalPlan(wallets, events) && n < |events| && ids.Keys == WalletKeys(8)
    ensures var e := events[n]; if e.Funding? then e.wallet in ids else e.source in ids && e.destination in ids
  {
    LegalAt(wallets, events, n);
  }

  /** The names of the Merchants stand for the Merchants themselves. */
  class DemoDatabase {
    var accounts: map<AccountId, Kind>
    var entries: seq<Entry>
    var payments: seq<PaymentRow>
    var nextLedgerTx: LedgerTxId
    var seeded: bool
    var nextAccount: AccountId
    const clearing: int  // -1 when the migration that creates it was not applied

    ghost predicate Valid()
      reads this
    {
      && (clearing >= 0 ==> clearing in accounts && accounts[clearing] == Clearing)
      && (forall e :: e in entries ==> e.account in accounts)
      && (forall a :: a in accounts ==> a < nextAccount)
    }

    /** Runs BEGIN, `write`, COMMIT; the checks before write nothing. */
    method ApplyDemoSeed(wallets: seq<PlannedWallet>, events: seq<Event>) returns (outcome: Outcome, ids: Ids)
      requires Valid() && |wallets| == 8 && LegalPlan(wallets, events)
      modifies this
      ensures Valid()
      ensures outcome == (if old(seeded) then AlreadySeeded else if clearing < 0 then ClearingMissing else Seeded)
      ensures outcome != Seeded ==> entries == old(entries) && payments == old(payments) && accounts == old(accounts)
                                    && seeded == old(seeded) && nextLedgerTx == old(nextLedgerTx)
      ensures outcome == Seeded ==>
                && seeded && clearing >= 0
                && ids.Keys == WalletKeys(8) && Injective(ids)
                && (forall w :: w in ids ==>
                    ids[w] !in old(accounts) && ids[w] in accounts && accounts[ids[w]] == Wallet)
                && (forall a :: a in old(accounts) ==> a in accounts && accounts[a] == old(accounts)[a])
                && (forall a :: a in accounts ==> a in old(accounts) || a in ids.Values)
                && entries == old(entries) + Written(events, ids, clearing, old(nextLedgerTx))
                && payments == old(payments) + Rows(events, ids, clearing, old(nextLedgerTx))
                && nextLedgerTx == old(nextLedgerTx) + PostCount(events)
      ensures outcome == Seeded && old(Sound()) ==>
                Sound() && forall w :: 1 <= w <= 8 ==> Balance(entries, ids[w]) == BalanceAfter(wallets, events, w)
    {
      hide LegalPlan, Written, Rows, PostCount, Balance, Net, BalanceAfter, Injective;
      ids := map[];
      if seeded {
        return AlreadySeeded, ids;
      }
      if clearing < 0 {
        return ClearingMissing, ids;
      }
      ids := InsertWallets(8);
      var ledgerEntries, sequence := WriteEvents(wallets, events, ids);
      seeded := true;
      outcome := Seeded;
      if old(Sound()) {
        assert clearing !in ids.Values;
        SoundAfterSeeding(wallets, events, ids, clearing, old(nextLedgerTx), old(entries), old(accounts), accounts);
      }
    }

    /** Wallets get fresh ids. */
    method InsertWallets(n: nat) returns (ids: Ids)
      requires Valid()
      modifies this`accounts, this`nextAccount
      ensures Valid() && ids.Keys == WalletKeys(n) && Injective(ids)
      ensures forall w :: w in ids ==> ids[w] !in old(accounts) && ids[w] in accounts && accounts[ids[w]] == Wallet
      ensures forall a :: a in old(accounts) ==> a in accounts && accounts[a] == old(accounts)[a]
      ensures forall a :: a in accounts ==> a in old(accounts) || a in ids.Values
    {
      ids := map[];
      for k := 0 to n
        invariant Valid() && ids.Keys == WalletKeys(k) && nextAccount == old(nextAccount) + k
        invariant forall w :: w in ids ==>
                    ids[w] == old(nextAccount) + w - 1 && ids[w] in accounts && accounts[ids[w]] == Wallet
        invariant forall a :: a in old(accounts) ==> a in accounts && accounts[a] == old(accounts)[a]
        invariant forall a :: a in accounts ==> a in old(accounts) || old(nextAccount) <= a < nextAccount
      {
        ids := ids[k + 1 := nextAccount];
        accounts, nextAccount := accounts[nextAccount := Wallet], nextAccount + 1;
      }
      forall a | a in accounts ensures a in old(accounts) || a in ids.Values {
        if a !in old(accounts) { assert ids[a - old(nextAccount) + 1] == a; }
      }
    }

    /** One balanced Ledger Transaction. */
    method Settle(from: AccountId, to: AccountId, amount: int) returns (id: LedgerTxId)
      requires Valid() && from in accounts && to in accounts
      modifies this`entries, this`nextLedgerTx
      ensures Valid() && id == old(nextLedgerTx) && nextLedgerTx == id + 1
      ensures entries == old(entries) + [Entry(id, from, Debit, amount), Entry(id, to, Credit, amount)]
    {
      id := nextLedgerTx;
      nextLedgerTx := nextLedgerTx + 1;
      entries := entries + [Entry(id, from, Debit, amount), Entry(id, to, Credit, amount)];
    }

    method WriteEvents(wallets: seq<PlannedWallet>, events: seq<Event>, ids: Ids)
      returns (ledgerEntries: nat, sequence: nat)
      requires Valid() && clearing >= 0 && |wallets| == 8 && LegalPlan(wallets, events)
      requires ids.Keys == WalletKeys(8) && forall w :: w in ids ==> ids[w] in accounts
      modifies this`entries, this`nextLedgerTx, this`payments
      ensures Valid()
      ensures entries == old(entries) + Written(events, ids, clearing, old(nextLedgerTx))
      ensures payments == old(payments) + Rows(events, ids, clearing, old(nextLedgerTx))
      ensures nextLedgerTx == old(nextLedgerTx) + PostCount(events)
      ensures ledgerEntries == |entries| - |old(entries)| && sequence == |events|
    {
      hide LegalPlan, LegalNext, Written, Rows, PostCount, EntriesFor, RowFor;
      ledgerEntries, sequence := 0, 0;
      ghost var done: seq<Event> := [];
      NothingWritten(ids, clearing, nextLedgerTx);
      for n := 0 to |events|
        invariant Valid() && done == events[..n] && sequence == n && ledgerEntries == |entries| - |old(entries)|
        invariant entries == old(entries) + Written(done, ids, clearing, old(nextLedgerTx))
        invariant payments == old(payments) + Rows(done, ids, clearing, old(nextLedgerTx))
        invariant nextLedgerTx == old(nextLedgerTx) + PostCount(done)
      {
        EventWallets(wallets, events, n, ids);
        OneMoreEvent(done, events[n], ids, clearing, old(nextLedgerTx));
        ledgerEntries, sequence := WriteEvent(events[n], ids, ledgerEntries, sequence);
        done := done + [events[n]];
      }
      assert done == events;
    }

    method WriteEvent(e: Event, ids: Ids, ledgerEntries: nat, sequence: nat)
      returns (ledgerEntries': nat, sequence': nat)
      requires Valid() && clearing >= 0
      requires ids.Keys == WalletKeys(8) && forall w :: w in ids ==> ids[w] in accounts
      requires if e.Funding? then e.wallet in ids else e.source in ids && e.destination in ids
      modifies this`entries, this`nextLedgerTx, this`payments
      ensures Valid()
      ensures entries == old(entries) + EntriesFor(e, ids, clearing, old(nextLedgerTx))
      ensures payments == old(payments) + [RowFor(e, ids, clearing, old(nextLedgerTx), sequence + 1)]
      ensures nextLedgerTx == old(nextLedgerTx) + if Posts(e) then 1 else 0
      ensures ledgerEntries' == ledgerEntries + |entries| - |old(entries)| && sequence' == sequence + 1
    {
      ledgerEntries', sequence' := ledgerEntries, sequence + 1;
      match e {
        case Funding(w, amount, at) =>
          var id := Settle(clearing, ids[w], amount);
          ledgerEntries' := ledgerEntries' + 2;
          payments := payments + [PaymentRow(clearing, ids[w], amount, true, id, sequence', true, at)];
        case Transfer(s, d, amount, succeeded, at) =>
          var ledgerTx: int := -1;
          if succeeded {
            var id := Settle(ids[s], ids[d], amount);
            ledgerTx, ledgerEntries' := id, ledgerEntries' + 2;
          }
          payments := payments + [PaymentRow(ids[s], ids[d], amount, succeeded, ledgerTx, sequence', false, at)];
      }
    }

    /** All entries sum to zero, and no Wallet is negative. */
    ghost predicate Sound()
      reads this
    {
      Net(entries) == 0 && forall a :: IsWallet(accounts, a) ==> Balance(entries, a) >= 0
    }

    method FindInvariantViolations() returns (violations: seq<Violation>)
      ensures violations == [] <==> Sound()
      ensures forall v :: v in violations ==>
                match v
                case NetNotZero(net) => net == -Net(entries) && net != 0
                case NegativeBalance(a, balance) => IsWallet(accounts, a) && balance == Balance(entries, a) < 0
    {
      violations := [];
      var net := -Net(entries);
      if net != 0 {
        violations := violations + [NetNotZero(net)];
      }
      var rest := accounts.Keys;
      while rest != {}
        invariant rest <= accounts.Keys
        invariant violations == [] <==>
                  Net(entries) == 0 && forall a :: IsWallet(accounts, a) && a !in rest ==> Balance(entries, a) >= 0
        invariant forall v :: v in violations ==>
                    match v
                    case NetNotZero(net) => net == -Net(entries) && net != 0
                    case NegativeBalance(a, balance) => IsWallet(accounts, a) && balance == Balance(entries, a) < 0
        decreases rest
      {
        var a :| a in rest;
        rest := rest - {a};
        if accounts[a] == Wallet && Balance(entries, a) < 0 {
          violations := violations + [NegativeBalance(a, Balance(entries, a))];
        }
      }
    }
  }

  function WalletKeys(n: nat): (keys: set<AccountId>)
    ensures forall w: AccountId :: w in keys <==> 1 <= w <= n
  {
    if n == 0 then {} else WalletKeys(n - 1) + {n}
  }

  // ---------------------------------------------------------------- what was written

  lemma {:induction false} BalanceOfTwo(entries: seq<Entry>, x: Entry, y: Entry, a: AccountId)
    ensures Balance(entries + [x, y], a)
         == Balance(entries, a) + (if x.account == a then Signed(x) else 0) + (if y.account == a then Signed(y) else 0)
    ensures Net(entries + [x, y]) == Net(entries) + Signed(x) + Signed(y)
  {
    var whole := entries + [x, y];
    assert whole[..|whole| - 1] == entries + [x];
    assert (entries + [x])[..|entries|] == entries;
  }

  /** The rows written for an event move each Balance as the plan's own event does. */
  lemma WrittenEffect(entries: seq<Entry>, e: Event, ids: Ids, clearing: AccountId, id: LedgerTxId, a: AccountId)
    ensures Net(entries + EntriesFor(e, ids, clearing, id)) == Net(entries)
    ensures Balance(entries + EntriesFor(e, ids, clearing, id), a) == Balance(entries, a)
              + (if !Posts(e) then 0
                 else match e
                   case Funding(w, amount, _) =>
                     (if IdOf(ids, w) == a then amount else 0) - (if clearing == a then amount else 0)
                   case Transfer(s, d, amount, _, _) =>
                     (if IdOf(ids, d) == a then amount else 0) - (if IdOf(ids, s) == a then amount else 0))
  {
    var rows := EntriesFor(e, ids, clearing, id);
    if rows == [] {
      assert entries + rows == entries;
    } else {
      BalanceOfTwo(entries, rows[0], rows[1], a);
      assert rows == [rows[0], rows[1]];
    }
  }

  ghost predicate GoodIds(ids: Ids, clearing: AccountId) {
    ids.Keys == WalletKeys(8) && Injective(ids) && clearing !in ids.Values
  }

  /** The ledger-derived Balances of the new Wallets are the Balances of the plan; no other
      Account but clearing moves, and nothing is created. */
  lemma {:induction false} WrittenBalances(wallets: seq<PlannedWallet>, events: seq<Event>, ids: Ids,
                                           clearing: AccountId, l: LedgerTxId, prior: seq<Entry>, w: AccountId,
                                           other: AccountId)
    requires |wallets| == 8 && LegalPlan(wallets, events) && GoodIds(ids, clearing)
    requires 1 <= w <= 8 && other != clearing && other !in ids.Values
    ensures var entries := prior + Written(events, ids, clearing, l);
            && Balance(entries, ids[w]) == Balance(prior, ids[w]) + BalanceAfter(wallets, events, w)
            && Balance(entries, other) == Balance(prior, other)
            && Net(entries) == Net(prior)
  {
    hide LegalPlan, LegalNext, Balance, Net, BalanceAfter, Written;
    if events == [] {
      NothingWritten(ids, clearing, l);
      assert prior + [] == prior;
      EmptyPlan(wallets, w);
    } else {
      var before, e := events[..|events| - 1], events[|events| - 1];
      LastLegal(wallets, events);
      WrittenBalances(wallets, before, ids, clearing, l, prior, w, other);
      WrittenBalancesStep(wallets, before, e, ids, clearing, l, prior, w, other);
      assert before + [e] == events;
    }
  }

  lemma WrittenBalancesStep(wallets: seq<PlannedWallet>, before: seq<Event>, e: Event, ids: Ids, clearing: AccountId,
                            l: LedgerTxId, prior: seq<Entry>, w: AccountId, other: AccountId)
    requires |wallets| == 8 && LegalNext(wallets, before, e) && GoodIds(ids, clearing)
    requires 1 <= w <= 8 && other != clearing && other !in ids.Values
    ensures var soFar := prior + Written(before, ids, clearing, l);
            var entries := prior + Written(before + [e], ids, clearing, l);
            && Balance(entries, ids[w]) - BalanceAfter(wallets, before + [e], w)
               == Balance(soFar, ids[w]) - BalanceAfter(wallets, before, w)
            && Balance(entries, other) == Balance(soFar, other)
            && Net(entries) == Net(soFar)
  {
    hide Balance, Net, BalanceAfter, Written, EntriesFor, PostCount;
    var soFar, id := prior + Written(before, ids, clearing, l), l + PostCount(before);
    OneMoreEvent(before, e, ids, clearing, l);
    assert prior + (Written(before, ids, clearing, l) + EntriesFor(e, ids, clearing, id))
        == soFar + EntriesFor(e, ids, clearing, id);
    WrittenEffect(soFar, e, ids, clearing, id, ids[w]);
    WrittenEffect(soFar, e, ids, clearing, id, other);
    EventEffect(wallets, before, e, w);
    SameMove(wallets, e, ids, clearing, w, other);
  }

  lemma EmptyPlan(wallets: seq<PlannedWallet>, w: AccountId)
    ensures BalanceAfter(wallets, [], w) == 0
  {
  }

  lemma LastLegal(wallets: seq<PlannedWallet>, events: seq<Event>)
    requires LegalPlan(wallets, events) && events != []
    ensures LegalPlan(wallets, events[..|events| - 1])
    ensures LegalNext(wallets, events[..|events| - 1], events[|events| - 1])
    ensures WellFormed(wallets, events[|events| - 1])
  {
  }

  /** Under the ids, an event touches the Wallets it touches in the plan. */
  lemma SameMove(wallets: seq<PlannedWallet>, e: Event, ids: Ids, clearing: AccountId, w: AccountId, other: AccountId)
    requires |wallets| == 8 && WellFormed(wallets, e) && GoodIds(ids, clearing)
    requires 1 <= w <= 8 && other !in ids.Values
    ensures clearing != ids[w]
    ensures match e
            case Funding(v, _, _) => IdOf(ids, v) != other && (IdOf(ids, v) == ids[w] <==> v == w)
            case Transfer(s, d, _, _, _) =>
              && IdOf(ids, s) != other && (IdOf(ids, s) == ids[w] <==> s == w)
              && IdOf(ids, d) != other && (IdOf(ids, d) == ids[w] <==> d == w)
  {
    assert ids[w] in ids.Values;
    match e
    case Funding(v, _, _) => assert ids[v] in ids.Values;
    case Transfer(s, d, _, _, _) => assert ids[s] in ids.Values && ids[d] in ids.Values;
  }

  lemma {:induction false} NoRowsNoBalance(entries: seq<Entry>, a: AccountId)
    requires forall e :: e in entries ==> e.account != a
    ensures Balance(entries, a) == 0
  {
    if entries != [] { NoRowsNoBalance(entries[..|entries| - 1], a); }
  }

  /** Seeding a sound database leaves it sound, so the violation report stays empty; and every new
      Wallet holds exactly what the plan says. */
  lemma SeedingIsSound(wallets: seq<PlannedWallet>, events: seq<Event>, ids: Ids, clearing: AccountId, l: LedgerTxId,
                       prior: seq<Entry>, before: Kinds, after: Kinds, a: AccountId)
    requires |wallets| == 8 && LegalPlan(wallets, events) && GoodIds(ids, clearing)
    requires clearing in before && before[clearing] == Clearing
    requires forall e :: e in prior ==> e.account in before
    requires forall b :: b in before ==> b in after && after[b] == before[b] && b !in ids.Values
    requires forall b :: b in after ==> b in before || b in ids.Values
    requires Net(prior) == 0 && forall b :: IsWallet(before, b) ==> Balance(prior, b) >= 0
    ensures var entries := prior + Written(events, ids, clearing, l);
            && Net(entries) == 0
            && (IsWallet(after, a) ==> Balance(entries, a) >= 0)
            && (forall w :: 1 <= w <= 8 && ids[w] == a ==> Balance(entries, a) == BalanceAfter(wallets, events, w))
  {
    var entries := prior + Written(events, ids, clearing, l);
    if a in ids.Values {
      var w :| w in ids && ids[w] == a;
      WrittenBalances(wallets, events, ids, clearing, l, prior, w, Elsewhere(ids, clearing));
      NoRowsNoBalance(prior, a);
      LegalPlanSafe(wallets, events, |events|, w);
      assert events[..|events|] == events;
    } else if a != clearing {
      WrittenBalances(wallets, events, ids, clearing, l, prior, 1, a);
    } else {
      WrittenBalances(wallets, events, ids, clearing, l, prior, 1, Elsewhere(ids, clearing));
    }
  }

  lemma SoundAfterSeeding(wallets: seq<PlannedWallet>, events: seq<Event>, ids: Ids, clearing: AccountId, l: LedgerTxId,
                          prior: seq<Entry>, before: Kinds, after: Kinds)
    requires |wallets| == 8 && LegalPlan(wallets, events) && GoodIds(ids, clearing)
    requires clearing in before && before[clearing] == Clearing
    requires forall e :: e in prior ==> e.account in before
    requires forall b :: b in before ==> b in after && after[b] == before[b] && b !in ids.Values
    requires forall b :: b in after ==> b in before || b in ids.Values
    requires Net(prior) == 0 && forall b :: IsWallet(before, b) ==> Balance(prior, b) >= 0
    ensures var entries := prior + Written(events, ids, clearing, l);
            && Net(entries) == 0
            && (forall a :: IsWallet(after, a) ==> Balance(entries, a) >= 0)
            && (forall w :: 1 <= w <= 8 ==> Balance(entries, ids[w]) == BalanceAfter(wallets, events, w))
  {
    hide LegalPlan, Written, Balance, Net, BalanceAfter;
    var entries := prior + Written(events, ids, clearing, l);
    SeedingIsSound(wallets, events, ids, clearing, l, prior, before, after, 0);
    forall a | IsWallet(after, a) ensures Balance(entries, a) >= 0 {
      SeedingIsSound(wallets, events, ids, clearing, l, prior, before, after, a);
    }
    forall w | 1 <= w <= 8 ensures Balance(entries, ids[w]) == BalanceAfter(wallets, events, w) {
      SeedingIsSound(wallets, events, ids, clearing, l, prior, before, after, ids[w]);
    }
  }

  /** Some Account id that is neither clearing nor a new Wallet. */
  ghost function Elsewhere(ids: Ids, clearing: AccountId): (a: AccountId)
    ensures a != clearing && a !in ids.Values
  {
    AlwaysAnother(ids.Values + {clearing});
    var a: AccountId :| a !in ids.Values + {clearing};
    a
  }

  lemma AlwaysAnother(used: set<AccountId>)
    ensures exists a: AccountId :: a !in used
  {
    if forall a: AccountId :: a in used {
      Pigeons(used, |used| + 1);
      assert false;
    }
  }

  lemma {:induction false} Pigeons(used: set<AccountId>, n: nat)
    requires forall a: AccountId :: a < n ==> a in used
    ensures |used| >= n
  {
    if n > 0 {
      Pigeons(used - {n - 1}, n - 1);
    }
  }
}

/** The lock mode is not a performance detail: with FOR UPDATE two crossed transfers deadlock. */
module CrossedTransfers {
  import opened Options
  import opened Ledger
  import opened Protocol
  import opened ProtocolInvariant
  import opened Deadlock

  /** Some run of the strategy, on some accounts, reaches a deadlock. */
  ghost predicate CanDeadlock(strategy: Strategy) {
    exists cfg: Config, actions: seq<Action> :: cfg.strategy == strategy && ReachesDeadlock(cfg, actions)
  }

  ghost predicate ReachesDeadlock(cfg: Config, actions: seq<Action>) {
    Deadlocked(cfg, Run(cfg, actions))
  }

  function Crossing(): Config {
    Config(map[0 := Clearing, 1 := Wallet, 2 := Wallet], ForUpdate, a => a)
  }

  lemma NotBlocked(cfg: Config, s: State, i: TxId)
    requires i in s.txs
    requires forall j :: j in s.txs && j != i ==> Clear(Wanted(cfg, s.db, s.txs[i]), s.txs[j].held)
    ensures !Blocked(cfg, s, i)
  {
  }

  predicate Clear(wanted: set<Lock>, held: set<Lock>) {
    forall l, k :: l in wanted && k in held ==> l.resource != k.resource
  }

  /** One more statement of `i`, which nobody blocks. */
  lemma NextRuns(cfg: Config, actions: seq<Action>, i: TxId) returns (more: seq<Action>)
    requires var s := Run(cfg, actions);
             i in s.txs && Open(s.txs[i])
             && forall j :: j in s.txs && j != i ==> Clear(Wanted(cfg, s.db, s.txs[i]), s.txs[j].held)
    ensures more == actions + [Next(i)]
    ensures Run(cfg, more) == Execute(cfg, Run(cfg, actions), i, Run(cfg, actions).txs[i])
  {
    more := actions + [Next(i)];
    RunExtends(cfg, actions, Next(i));
    NotBlocked(cfg, Run(cfg, actions), i);
  }

  /** A CREATED Payment and a Settlement of it about to claim. */
  lemma Submitted(actions: seq<Action>, p: PaymentId, source: AccountId, destination: AccountId, amount: int)
    returns (more: seq<Action>)
    requires var s := Run(Crossing(), actions);
             p !in s.db.payments && p !in s.txs && !KeyTaken(s.db.payments, 0, p)
    requires source in Crossing().kinds && destination in Crossing().kinds && amount > 0
    ensures var s, s' := Run(Crossing(), actions), Run(Crossing(), more);
            && s'.db == s.db.(payments := s.db.payments[p := Row(p, source, destination, amount)])
            && s'.txs == s.txs[p := NewTx(p)] && s'.nextLedgerTx == s.nextLedgerTx
  {
    var cfg, a := Crossing(), Insert(p, 0, p, 0, source, destination, amount);
    RunExtends(cfg, actions, a);
    RunExtends(cfg, actions + [a], Begin(p, p));
    more := actions + [a] + [Begin(p, p)];
  }

  /** `actions` brought `base` to a state in which only the transaction of `p` has moved. */
  ghost predicate Moved(base: State, actions: seq<Action>, p: PaymentId, t: Tx) {
    var s := Run(Crossing(), actions);
    s.db == base.db && s.txs == base.txs[p := t]
  }

  lemma ExecuteMovesOne(cfg: Config, s: State, i: TxId, t: Tx)
    requires i in s.txs && Open(t) && !t.pc.Committing? && (Past(t) <==> t.row.Some?)
             && (t.ledgerTx.Some? <==> Numbered(t))
    ensures var s' := Execute(cfg, s, i, t);
            i in s'.txs && s'.db == s.db && s'.txs == s.txs[i := s'.txs[i]]
  {
  }

  lemma Moves(base: State, actions: seq<Action>, p: PaymentId, t: Tx) returns (more: seq<Action>, t': Tx)
    requires Moved(base, actions, p, t) && Open(t) && !t.pc.Committing?
    requires forall j :: j in base.txs && j != p ==> Clear(Wanted(Crossing(), base.db, t), base.txs[j].held)
    requires (Past(t) <==> t.row.Some?) && (t.ledgerTx.Some? <==> Numbered(t))
    ensures Moved(base, more, p, t')
    ensures t' == Execute(Crossing(), Run(Crossing(), actions), p, t).txs[p]
  {
    hide Execute, Clear, Blocked;
    more := NextRuns(Crossing(), actions, p);
    ExecuteMovesOne(Crossing(), Run(Crossing(), actions), p, t);
    t' := Run(Crossing(), more).txs[p];
  }

  function Row(p: PaymentId, source: AccountId, destination: AccountId, amount: int): Payment {
    Payment(0, p, 0, source, destination, amount, Created, None, None)
  }

  /** A transaction between the funds check and the ledger writes. */
  predicate AtNumbering(t: Tx, row: Payment) {
    t.pc == Numbering && t.row == Some(row.(status := Processing)) && t.ledgerTx == None && t.entries == [] && !t.bumped
  }

  lemma FundingNumbered(base: State, actions: seq<Action>, p: PaymentId, wallet: AccountId)
    returns (more: seq<Action>, t: Tx)
    requires Moved(base, actions, p, NewTx(p)) && p in base.db.payments && base.db.payments[p] == Row(p, 0, wallet, 10)
    requires forall j :: j in base.txs && j != p ==> base.txs[j].held == {}
    ensures Moved(base, more, p, t) && AtNumbering(t, Row(p, 0, wallet, 10)) && t.payment == p
  {
    more, t := Moves(base, actions, p, NewTx(p));
    assert t.pc == Locking;
    more, t := Moves(base, more, p, t);
  }

  /** Funding from clearing locks nothing but its own Payment. */
  lemma FundingReady(base: State, actions: seq<Action>, p: PaymentId, wallet: AccountId)
    returns (more: seq<Action>, t: Tx)
    requires Moved(base, actions, p, NewTx(p)) && p in base.db.payments && base.db.payments[p] == Row(p, 0, wallet, 10)
    requires forall j :: j in base.txs && j != p ==> base.txs[j].held == {}
    ensures Moved(base, more, p, t) && t.payment == p && t.pc == Committing && t.ledgerTx.Some? && !t.bumped
    ensures t.row == Some(base.db.payments[p].(status := Succeeded, ledgerTx := t.ledgerTx))
    ensures t.entries == Posting(Request(p, 0, wallet, 10, t.ledgerTx.value))
  {
    more, t := FundingNumbered(base, actions, p, wallet);
    more, t := Moves(base, more, p, t);
    more, t := Moves(base, more, p, t);
    assert t.pc == Finishing;
    more, t := Moves(base, more, p, t);
  }

  /** A Wallet is funded from clearing, with nothing else running. */
  lemma Funded(actions: seq<Action>, p: PaymentId, wallet: AccountId) returns (more: seq<Action>, n: LedgerTxId)
    requires var s := Run(Crossing(), actions);
             p !in s.db.payments && p !in s.txs && !KeyTaken(s.db.payments, 0, p)
             && forall j :: j in s.txs ==> s.txs[j].held == {}
    requires wallet == 1 || wallet == 2
    ensures var s, s' := Run(Crossing(), actions), Run(Crossing(), more);
            && s'.db.payments.Keys == s.db.payments.Keys + {p} && s'.txs.Keys == s.txs.Keys + {p}
            && (forall q :: q in s.db.payments ==> s'.db.payments[q] == s.db.payments[q]) && s'.db.payments[p].key == p
            && (forall j :: j in s'.txs ==> s'.txs[j].held == {})
            && s'.db.entries == s.db.entries + Posting(Request(p, 0, wallet, 10, n))
  {
    hide Run;
    more := Submitted(actions, p, 0, wallet, 10);
    var base := Run(Crossing(), more);
    more, n := FundingCommitted(base, more, p, wallet);
  }

  lemma FundingCommitted(base: State, actions: seq<Action>, p: PaymentId, wallet: AccountId)
    returns (more: seq<Action>, n: LedgerTxId)
    requires base == Run(Crossing(), actions) && p in base.txs && base.txs[p] == NewTx(p)
    requires p in base.db.payments && base.db.payments[p] == Row(p, 0, wallet, 10)
    requires forall j :: j in base.txs && j != p ==> base.txs[j].held == {}
    ensures var s' := Run(Crossing(), more);
            && s'.db.payments.Keys == base.db.payments.Keys && s'.txs.Keys == base.txs.Keys
            && (forall q :: q in base.db.payments && q != p ==> s'.db.payments[q] == base.db.payments[q])
            && s'.db.payments[p].key == p
            && (forall j :: j in s'.txs ==> s'.txs[j].held == {})
            && s'.db.entries == base.db.entries + Posting(Request(p, 0, wallet, 10, n))
  {
    assert base.txs[p := NewTx(p)] == base.txs;
    var t: Tx;
    more, t := FundingReady(base, actions, p, wallet);
    n := t.ledgerTx.value;
    more := NextRuns(Crossing(), more, p);
  }

  /** A transfer past its funds check holds its source and is about to insert its entries. */
  lemma Approaches(actions: seq<Action>, p: PaymentId, source: AccountId, destination: AccountId)
    returns (more: seq<Action>, t: Tx)
    requires var s := Run(Crossing(), actions);
             p !in s.db.payments && p !in s.txs && !KeyTaken(s.db.payments, 0, p)
             && Balance(s.db.entries, source) >= 5
             && forall j :: j in s.txs ==> Clear({RowLock(p), Lock(AccountRow(source), Update)}, s.txs[j].held)
    requires (source == 1 && destination == 2) || (source == 2 && destination == 1)
    ensures var s, s' := Run(Crossing(), actions), Run(Crossing(), more);
            && s'.db == s.db.(payments := s.db.payments[p := Row(p, source, destination, 5)])
            && s'.txs == s.txs[p := t]
            && t.pc == Entering && t.row == Some(Row(p, source, destination, 5).(status := Processing))
            && t.held == {RowLock(p), Lock(AccountRow(source), Update)}
  {
    hide Run, KeyTaken, Balance, Clear;
    more := Submitted(actions, p, source, destination, 5);
    var base := Run(Crossing(), more);
    more, t := Advances(base, more, p, source, destination);
    assert base.txs[p := t] == Run(Crossing(), actions).txs[p := t];
  }

  lemma Advances(base: State, actions: seq<Action>, p: PaymentId, source: AccountId, destination: AccountId)
    returns (more: seq<Action>, t: Tx)
    requires base == Run(Crossing(), actions) && p in base.txs && base.txs[p] == NewTx(p)
    requires p in base.db.payments && base.db.payments[p] == Row(p, source, destination, 5)
    requires source == 1 || source == 2
    requires Balance(base.db.entries, source) >= 5
    requires forall j :: j in base.txs && j != p ==>
               Clear({RowLock(p), Lock(AccountRow(source), Update)}, base.txs[j].held)
    ensures Moved(base, more, p, t) && t.pc == Entering
    ensures t.row == Some(Row(p, source, destination, 5).(status := Processing))
    ensures t.held == {RowLock(p), Lock(AccountRow(source), Update)}
  {
    more, t := Locks(base, actions, p, source, destination);
    assert base.db.entries + [] == base.db.entries;
    more, t := Moves(base, more, p, t);
    assert t.pc == Numbering;
    more, t := Moves(base, more, p, t);
  }

  lemma Locks(base: State, actions: seq<Action>, p: PaymentId, source: AccountId, destination: AccountId)
    returns (more: seq<Action>, t: Tx)
    requires base == Run(Crossing(), actions) && p in base.txs && base.txs[p] == NewTx(p)
    requires p in base.db.payments && base.db.payments[p] == Row(p, source, destination, 5)
    requires source == 1 || source == 2
    requires forall j :: j in base.txs && j != p ==>
               Clear({RowLock(p), Lock(AccountRow(source), Update)}, base.txs[j].held)
    ensures Moved(base, more, p, t) && t.pc == Reading && t.ledgerTx.None? && t.entries == []
    ensures t.row == Some(Row(p, source, destination, 5).(status := Processing))
    ensures t.held == {RowLock(p), Lock(AccountRow(source), Update)}
  {
    hide Run;
    assert base.txs[p := NewTx(p)] == base.txs;
    more, t := Moves(base, actions, p, NewTx(p));
    more, t := LocksSource(base, more, p, t);
  }

  lemma LocksSource(base: State, actions: seq<Action>, p: PaymentId, t: Tx) returns (more: seq<Action>, t': Tx)
    requires Moved(base, actions, p, t) && t.pc == Locking && t.row.Some?
             && IsWallet(Crossing().kinds, t.row.value.source)
    requires t.ledgerTx.None?
    requires forall j :: j in base.txs && j != p ==>
               Clear({Lock(AccountRow(t.row.value.source), Update)}, base.txs[j].held)
    ensures Moved(base, more, p, t')
    ensures t' == t.(pc := Reading, held := t.held + {Lock(AccountRow(t.row.value.source), Update)})
  {
    more, t' := Moves(base, actions, p, t);
  }

  /** Transfers 1 -> 2 and 2 -> 1: each holds its source FOR UPDATE and needs the other's
      Account row FOR KEY SHARE. */
  lemma CrossedTransfersDeadlock() returns (actions: seq<Action>)
    ensures ReachesDeadlock(Crossing(), actions)
  {
    hide Run, Balance;
    var t, u;
    actions := TwoFunded();
    actions, t := Approaches(actions, 2, 1, 2);
    actions, u := Approaches(actions, 3, 2, 1);
    CycleOfTwo(Crossing(), Run(Crossing(), actions), 2, 3);
  }

  /** Two Wallets with 10 each, and nothing open. */
  lemma TwoFunded() returns (actions: seq<Action>)
    ensures var s := Run(Crossing(), actions);
            && s.db.payments.Keys == {0, 1} && s.txs.Keys == {0, 1}
            && (forall p :: p in s.db.payments ==> s.db.payments[p].key == p)
            && (forall j :: j in s.txs ==> s.txs[j].held == {})
            && Balance(s.db.entries, 1) == 10 && Balance(s.db.entries, 2) == 10
  {
    var n, m;
    actions, n := Funded([], 0, 1);
    hide Run;
    actions, m := Funded(actions, 1, 2);
    BothFunded(n, m);
  }

  lemma BothFunded(n: LedgerTxId, m: LedgerTxId)
    ensures var entries := [] + Posting(Request(0, 0, 1, 10, n)) + Posting(Request(1, 0, 2, 10, m));
            Balance(entries, 1) == 10 && Balance(entries, 2) == 10
  {
    PostingEffect([], Request(0, 0, 1, 10, n), 1);
    PostingEffect([], Request(0, 0, 1, 10, n), 2);
    PostingEffect([] + Posting(Request(0, 0, 1, 10, n)), Request(1, 0, 2, 10, m), 1);
    PostingEffect([] + Posting(Request(0, 0, 1, 10, n)), Request(1, 0, 2, 10, m), 2);
  }

  lemma CycleOfTwo(cfg: Config, s: State, i: TxId, j: TxId)
    requires i in s.txs && j in s.txs && i != j && s.txs[i].pc == Entering && s.txs[j].pc == Entering
    requires s.txs[i].row.Some? && s.txs[j].row.Some?
    requires Lock(AccountRow(s.txs[i].row.value.destination), Update) in s.txs[j].held
    requires Lock(AccountRow(s.txs[j].row.value.destination), Update) in s.txs[i].held
    ensures Deadlocked(cfg, s)
  {
    NeedsDestination(cfg, s, i, j);
    NeedsDestination(cfg, s, j, i);
    var path := [i, j, i];
    assert path[1..] == [j, i] && path[1..][1..] == [i];
    assert WaitChain(cfg, s, path[1..][1..]);
    assert WaitCycle(cfg, s, path);
  }

  lemma NeedsDestination(cfg: Config, s: State, i: TxId, j: TxId)
    requires i in s.txs && j in s.txs && i != j && s.txs[i].pc == Entering && s.txs[i].row.Some?
    requires Lock(AccountRow(s.txs[i].row.value.destination), Update) in s.txs[j].held
    ensures WaitsFor(cfg, s, i, j)
  {
    var destination := s.txs[i].row.value.destination;
    assert Lock(AccountRow(destination), KeyShare) in Wanted(cfg, s.db, s.txs[i]);
    assert Conflict(Lock(AccountRow(destination), KeyShare), Lock(AccountRow(destination), Update));
  }

  /** A strategy can deadlock if and only if it locks the source FOR UPDATE. */
  lemma DeadlockIffForUpdate(strategy: Strategy)
    ensures CanDeadlock(strategy) <==> strategy == ForUpdate
  {
    if strategy == ForUpdate {
      var actions := CrossedTransfersDeadlock();
    } else if CanDeadlock(strategy) {
      var cfg: Config, actions :| cfg.strategy == strategy && ReachesDeadlock(cfg, actions);
      Reachable(cfg, actions);
      NeverDeadlocked(cfg, Run(cfg, actions));
    }
  }

  /** Credits never wait: inserting entries needs no lock an in-flight debit excludes. */
  lemma CreditsNeverWait(cfg: Config, actions: seq<Action>, i: TxId)
    requires cfg.strategy != ForUpdate
    requires i in Run(cfg, actions).txs && Run(cfg, actions).txs[i].pc == Entering
    ensures !Blocked(cfg, Run(cfg, actions), i)
  {
    var s := Run(cfg, actions);
    Reachable(cfg, actions);
    if Blocked(cfg, s, i) {
      var j :| j in s.txs && WaitsFor(cfg, s, i, j);
      WaitsForLater(cfg, s, i, j);
    }
  }
}

/** The database as the settling code uses it: one method per SQL statement, changing tables, write
    buffers and locks in place. `trace` records every statement of every transaction, so the object
    is always in the state that the run `trace` of the protocol reaches. */
module SettlementDatabase {
  import opened Options
  import opened Ledger
  import opened Protocol
  import opened ProtocolInvariant

  /** What may come instead of a result. `ReplyLost`: the connection breaks after the server has
      carried the statement out, so an error at COMMIT does not say whether it succeeded. */
  datatype Fault = DeadlockDetected | SerializationFailure | ConnectionLost | ReplyLost

  /** What happens while one statement is awaited: statements of other transactions, and possibly a
      fault. */
  datatype Turn = Turn(others: seq<Action>, fault: Option<Fault>)

  predicate MayLoseReply(turns: seq<Turn>) {
    exists k :: 0 <= k < |turns| && turns[k].fault == Some(ReplyLost)
  }

  predicate About(a: Action, i: TxId) { !a.Insert? && a.tx == i }

  /** The history variable is read by no statement. */
  lemma OrderIsUnread(cfg: Config, s: State, order: seq<Decision>, a: Action)
    ensures var x, y := Step(cfg, s, a), Step(cfg, s.(order := order), a);
            SameButOrder(x, y)
  {
    hide Blocked, Execute;
    if a.Next? {
      BlockedIgnoresOrder(cfg, s, order, a.tx);
      if a.tx in s.txs { ExecuteIgnoresOrder(cfg, s, order, a.tx, s.txs[a.tx]); }
    }
  }

  lemma ExecuteIgnoresOrder(cfg: Config, s: State, order: seq<Decision>, i: TxId, t: Tx)
    ensures SameButOrder(Execute(cfg, s, i, t), Execute(cfg, s.(order := order), i, t))
  {
    if t.pc.Claiming? || t.pc.Rejecting? || t.pc.Locking? || t.pc.Reading? || t.pc.Refusing? {
      hide OpenLedgerTx, InsertEntries, MarkSucceeded, BumpVersion, Commit;
    } else {
      hide Claim, Reject, LockSource, ReadBalance, MarkFailed;
      if t.pc.Committing? { hide InsertEntries, MarkSucceeded, BumpVersion; } else { hide Commit; }
    }
  }

  predicate SameButOrder(x: State, y: State) { y == x.(order := y.order) }

  lemma BlockedIgnoresOrder(cfg: Config, s: State, order: seq<Decision>, i: TxId)
    ensures Blocked(cfg, s.(order := order), i) == Blocked(cfg, s, i)
  {
    var t := s.(order := order);
    forall j ensures WaitsFor(cfg, t, i, j) == WaitsFor(cfg, s, i, j) {}
  }

  lemma OthersLeave(cfg: Config, s: State, a: Action, i: TxId)
    requires i in s.txs && !About(a, i)
    ensures i in Step(cfg, s, a).txs && Step(cfg, s, a).txs[i] == s.txs[i]
  {
  }

  lemma CommitStep(cfg: Config, s: State, i: TxId)
    requires i in s.txs && s.txs[i].pc.Committing? && s.txs[i].row.Some? && !Blocked(cfg, s, i)
    ensures Step(cfg, s, Next(i)) == Protocol.Commit(s, i, s.txs[i])
  {
  }

  lemma FreshTx(txs: map<TxId, Tx>) returns (i: TxId)
    ensures i !in txs
  {
    i := 0;
    var seen: set<TxId> := {};
    while i in txs
      invariant seen <= txs.Keys && forall j :: j in seen <==> 0 <= j < i
      decreases txs.Keys - seen
    {
      seen := seen + {i};
      i := i + 1;
    }
  }

  class Database {
    const cfg: Config
    var payments: map<PaymentId, Payment>
    var ledgerTxs: set<LedgerTxId>
    var entries: seq<Entry>
    var versions: map<AccountId, nat>
    var txs: map<TxId, Tx>
    var nextLedgerTx: LedgerTxId
    ghost var order: seq<Decision>
    ghost var trace: seq<Action>

    function Tables(): Db
      reads this
    {
      Db(payments, ledgerTxs, entries, versions)
    }

    ghost function Snapshot(): State
      reads this
    {
      State(Tables(), txs, nextLedgerTx, order)
    }

    ghost predicate Valid()
      reads this
    {
      Snapshot() == Run(cfg, trace)
    }

    lemma Seen()
      requires Valid()
      ensures Run(cfg, trace).db == Tables() && Run(cfg, trace).db.payments == payments && Run(cfg, trace).txs == txs
    {
    }

    /** Transaction `i` can run its next statement, which is at `pc`. */
    ghost predicate At(i: TxId, pc: Pc)
      reads this
    {
      i in txs && txs[i].pc == pc && !Blocked(cfg, Snapshot(), i)
    }

    /** All other transactions are over. */
    ghost predicate Alone(i: TxId)
      reads this
    {
      forall j :: j in txs && j != i ==> txs[j].pc.Closed?
    }

    constructor (cfg: Config)
      ensures Valid() && trace == [] && this.cfg == cfg
    {
      this.cfg := cfg;
      payments, ledgerTxs, entries, versions, txs, nextLedgerTx := map[], {}, [], map[], map[], 0;
      order, trace := [], [];
    }

    // -------------------------------------------------------------- the others

    method Apply(a: Action)
      requires Valid()
      modifies this
      ensures Valid() && trace == old(trace) + [a]
      ensures forall i :: i in old(txs) && !About(a, i) ==> i in txs && txs[i] == old(txs[i])
    {
      var next := Step(cfg, State(Tables(), txs, nextLedgerTx, []), a);
      OrderIsUnread(cfg, Snapshot(), [], a);
      RunExtends(cfg, trace, a);
      forall i | i in txs && !About(a, i) ensures i in next.txs && next.txs[i] == txs[i] {
        OthersLeave(cfg, State(Tables(), txs, nextLedgerTx, []), a, i);
      }
      order := Step(cfg, Snapshot(), a).order;
      payments, ledgerTxs, entries, versions := next.db.payments, next.db.ledgerTxs, next.db.entries, next.db.versions;
      txs, nextLedgerTx := next.txs, next.nextLedgerTx;
      trace := trace + [a];
    }

    /** Every statement may wait, and meanwhile the others run. */
    method Await(i: TxId, turns: seq<Turn>, from: nat) returns (fault: Option<Fault>, k: nat)
      requires Valid() && i in txs && from <= |turns|
      modifies this
      ensures Valid() && old(trace) <= trace && from <= k <= |turns|
      ensures forall m :: |old(trace)| <= m < |trace| ==> !About(trace[m], i)
      ensures i in txs && txs[i] == old(txs[i])
      ensures fault.None? ==> !Blocked(cfg, Snapshot(), i)
      ensures fault == Some(ReplyLost) ==> MayLoseReply(turns)
      ensures turns == [] && old(Alone(i)) ==> fault.None? && txs == old(txs) && Tables() == old(Tables())
    {
      fault, k := None, from;
      while k < |turns|
        invariant Valid() && old(trace) <= trace && from <= k <= |turns| && fault.None?
        invariant forall m :: |old(trace)| <= m < |trace| ==> !About(trace[m], i)
        invariant i in txs && txs[i] == old(txs[i])
        invariant turns == [] ==> txs == old(txs) && Tables() == old(Tables())
      {
        Others(i, turns[k].others);
        fault := turns[k].fault;
        k := k + 1;
        if fault.Some? { return; }
        var waiting := IsBlocked(i);
        if !waiting { return; }
      }
      var waiting := IsBlocked(i);
      if Alone(i) { NobodyBlocks(i); }
      if waiting { fault := Some(ConnectionLost); }
    }

    /** COMMIT needs no lock. */
    lemma CommitNeverWaits(i: TxId)
      requires i in txs && txs[i].pc == Committing
      ensures At(i, Committing)
    {
    }

    lemma NobodyBlocks(i: TxId)
      requires Valid() && Alone(i)
      ensures !Blocked(cfg, Snapshot(), i)
    {
      Reachable(cfg, trace);
      forall j | j in txs && j != i ensures txs[j].held == {} { assert TxOk(cfg, Tables(), txs[j]); }
    }

    method Others(i: TxId, actions: seq<Action>)
      requires Valid() && i in txs
      modifies this
      ensures Valid() && old(trace) <= trace
      ensures forall m :: |old(trace)| <= m < |trace| ==> !About(trace[m], i)
      ensures i in txs && txs[i] == old(txs[i])
    {
      for m := 0 to |actions|
        invariant Valid() && old(trace) <= trace
        invariant forall n :: |old(trace)| <= n < |trace| ==> !About(trace[n], i)
        invariant i in txs && txs[i] == old(txs[i])
      {
        if !About(actions[m], i) { Apply(actions[m]); }
      }
    }

    method IsBlocked(i: TxId) returns (blocked: bool)
      ensures blocked == Blocked(cfg, Snapshot(), i)
    {
      BlockedIgnoresOrder(cfg, Snapshot(), [], i);
      blocked := Blocked(cfg, State(Tables(), txs, nextLedgerTx, []), i);
    }

    // -------------------------------------------------------------- transactions

    method Begin(id: PaymentId) returns (i: TxId)
      requires Valid()
      modifies this
      ensures Valid() && trace == old(trace) + [Action.Begin(i, id)]
      ensures i !in old(txs) && txs == old(txs)[i := NewTx(id)] && Tables() == old(Tables())
    {
      ghost var unused := FreshTx(txs);
      i :| i !in txs;
      RunExtends(cfg, trace, Action.Begin(i, id));
      txs := txs[i := NewTx(id)];
      trace := trace + [Action.Begin(i, id)];
    }

    /** `txs := ...` for one statement that only changes the transaction itself. */
    method Put(i: TxId, t: Tx)
      requires Valid() && i in txs && Open(txs[i]) && !Blocked(cfg, Snapshot(), i)
      requires Execute(cfg, Snapshot(), i, txs[i]) == Protocol.Put(Snapshot(), i, t)
      modifies this`txs, this`trace
      ensures Valid() && trace == old(trace) + [Next(i)] && txs == old(txs)[i := t]
    {
      RunExtends(cfg, trace, Next(i));
      txs := txs[i := t];
      trace := trace + [Next(i)];
    }

    /** UPDATE payments SET status = 'PROCESSING' WHERE id and status IN ('CREATED', 'PROCESSING') RETURNING ... */
    method ClaimPayment(i: TxId) returns (claimed: Option<Payment>)
      requires Valid() && At(i, Claiming) && txs[i].row.None?
      modifies this`txs, this`trace
      ensures Valid() && trace == old(trace) + [Next(i)] && i in txs && (old(Alone(i)) ==> Alone(i))
      ensures claimed.Some? <==> Claimable(payments, old(txs[i]).payment)
      ensures claimed.Some? ==>
                && claimed.value == payments[old(txs[i]).payment].(status := Processing)
                && txs[i] == old(txs[i]).(row := claimed, held := old(txs[i]).held + {RowLock(old(txs[i]).payment)},
                                          pc := AfterClaim(cfg, claimed.value.source))
      ensures claimed.None? ==> txs[i] == old(txs[i]).(pc := Rejecting)
    {
      var t := txs[i];
      if t.payment in payments && (payments[t.payment].status == Created || payments[t.payment].status == Processing) {
        var row := payments[t.payment].(status := Processing);
        claimed := Some(row);
        Put(i, t.(row := Some(row), held := t.held + {RowLock(t.payment)}, pc := AfterClaim(cfg, row.source)));
      } else {
        claimed := None;
        Put(i, t.(pc := Rejecting));
      }
    }

    /** The status of a Payment that could not be claimed; the transaction then ends empty. */
    method ReadStatus(i: TxId) returns (status: Option<Status>)
      requires Valid() && At(i, Rejecting) && txs[i].row.None?
      modifies this`txs, this`trace
      ensures Valid() && trace == old(trace) + [Next(i)] && i in txs && (old(Alone(i)) ==> Alone(i))
      ensures status == if old(txs[i]).payment in payments then Some(payments[old(txs[i]).payment].status) else None
      ensures txs[i] == Close(old(txs[i]), if status.Some? then Rejected(status.value) else RolledBack)
    {
      var t := txs[i];
      status := if t.payment in payments then Some(payments[t.payment].status) else None;
      Put(i, Close(t, if status.Some? then Rejected(status.value) else RolledBack));
    }

    /** SELECT id FROM accounts WHERE id and kind = 'WALLET' FOR ... , or the advisory lock. */
    method LockSource(i: TxId) returns (locked: bool)
      requires Valid() && At(i, Locking) && txs[i].row.Some?
      modifies this`txs, this`trace
      ensures Valid() && trace == old(trace) + [Next(i)] && i in txs && (old(Alone(i)) ==> Alone(i))
      ensures locked == IsWallet(cfg.kinds, old(txs[i]).row.value.source)
      ensures txs[i] == old(txs[i]).(held := old(txs[i]).held + SourceLocks(cfg, old(txs[i]).row.value.source),
                                     pc := if locked then Reading else Numbering)
    {
      var t := txs[i];
      var source := t.row.value.source;
      locked := IsWallet(cfg.kinds, source);
      Put(i, t.(held := t.held + SourceLocks(cfg, source), pc := if locked then Reading else Numbering));
    }

    /** The Balance of the source, and its version, from one snapshot. */
    method SelectBalance(i: TxId) returns (balance: int, version: nat)
      requires Valid() && At(i, Reading) && txs[i].row.Some?
      modifies this`txs, this`trace, this`order
      ensures Valid() && trace == old(trace) + [Next(i)] && i in txs && (old(Alone(i)) ==> Alone(i))
      ensures balance == Balance(entries + old(txs[i]).entries, old(txs[i]).row.value.source)
      ensures version == Version(Tables(), old(txs[i]).row.value.source)
      ensures txs[i] == if balance < old(txs[i]).row.value.amount then old(txs[i]).(pc := Refusing)
                        else old(txs[i]).(pc := Numbering, expected := version)
    {
      var t := txs[i];
      var p := t.row.value;
      balance := Balance(entries + t.entries, p.source);
      version := Version(Tables(), p.source);
      RunExtends(cfg, trace, Next(i));
      if balance < p.amount {
        order := order + [Decision(RequestOf(t), Fails)];
        txs := txs[i := t.(pc := Refusing)];
      } else {
        txs := txs[i := t.(pc := Numbering, expected := version)];
      }
      trace := trace + [Next(i)];
    }

    /** UPDATE payments SET status = 'FAILED', failure_reason = 'INSUFFICIENT_FUNDS' */
    method MarkFailed(i: TxId)
      requires Valid() && At(i, Refusing) && txs[i].row.Some?
      modifies this`txs, this`trace
      ensures Valid() && trace == old(trace) + [Next(i)] && i in txs && (old(Alone(i)) ==> Alone(i))
      ensures var t := old(txs[i]);
              txs[i] == t.(row := Some(t.row.value.(status := Failed, failure := Some(InsufficientFunds))),
                           pc := Committing)
    {
      var t := txs[i];
      Put(i, t.(row := Some(t.row.value.(status := Failed, failure := Some(InsufficientFunds))), pc := Committing));
    }

    /** INSERT INTO ledger_transactions DEFAULT VALUES RETURNING id */
    method InsertLedgerTransaction(i: TxId) returns (id: LedgerTxId)
      requires Valid() && At(i, Numbering)
      modifies this`txs, this`trace, this`nextLedgerTx
      ensures Valid() && trace == old(trace) + [Next(i)] && i in txs && (old(Alone(i)) ==> Alone(i))
      ensures id == old(nextLedgerTx) && txs[i] == old(txs[i]).(ledgerTx := Some(id), pc := Entering)
    {
      RunExtends(cfg, trace, Next(i));
      id := nextLedgerTx;
      txs := txs[i := txs[i].(ledgerTx := Some(id), pc := Entering)];
      nextLedgerTx := nextLedgerTx + 1;
      trace := trace + [Next(i)];
    }

    /** INSERT INTO ledger_entries: a DEBIT of the source and a CREDIT of the destination. */
    method InsertEntries(i: TxId, id: LedgerTxId, source: AccountId, destination: AccountId, amount: int)
      requires Valid() && At(i, Entering) && txs[i].row.Some? && txs[i].ledgerTx == Some(id)
      requires source == txs[i].row.value.source && destination == txs[i].row.value.destination
               && amount == txs[i].row.value.amount
      modifies this`txs, this`trace
      ensures Valid() && trace == old(trace) + [Next(i)] && i in txs && (old(Alone(i)) ==> Alone(i))
      ensures txs[i] == old(txs[i]).(
                          entries := old(txs[i]).entries
                              + [Entry(id, source, Debit, amount), Entry(id, destination, Credit, amount)],
                          held := old(txs[i]).held + EntryLocks(old(txs[i]).row.value), pc := Finishing)
    {
      var t := txs[i];
      Put(i, t.(entries := t.entries + [Entry(id, source, Debit, amount), Entry(id, destination, Credit, amount)],
                held := t.held + EntryLocks(t.row.value), pc := Finishing));
    }

    /** UPDATE payments SET status = 'SUCCEEDED', ledger_transaction_id = ... */
    method MarkSucceeded(i: TxId, id: LedgerTxId)
      requires Valid() && At(i, Finishing) && txs[i].row.Some? && txs[i].ledgerTx == Some(id)
      modifies this`txs, this`trace
      ensures Valid() && trace == old(trace) + [Next(i)] && i in txs && (old(Alone(i)) ==> Alone(i))
      ensures txs[i] == old(txs[i]).(
                          row := Some(old(txs[i]).row.value.(status := Succeeded, ledgerTx := Some(id))),
                          pc := if NeedsBump(cfg, old(txs[i]).row.value.source) then Bumping else Committing)
    {
      var t := txs[i];
      Put(i, t.(row := Some(t.row.value.(status := Succeeded, ledgerTx := Some(id))),
                pc := if NeedsBump(cfg, t.row.value.source) then Bumping else Committing));
    }

    /** UPDATE accounts SET version = version + 1 WHERE id and version = expected. When nothing
        matches, the transaction is given up. */
    method BumpVersion(i: TxId, expected: nat) returns (bumped: bool)
      requires Valid() && At(i, Bumping) && txs[i].row.Some? && txs[i].expected == expected
      modifies this`txs, this`trace
      ensures Valid() && trace == old(trace) + [Next(i)] && i in txs && (old(Alone(i)) ==> Alone(i))
      ensures bumped == (Version(Tables(), old(txs[i]).row.value.source) == expected)
      ensures var t := old(txs[i]);
              txs[i] == if bumped
                        then t.(bumped := true, held := t.held + {VersionLock(t.row.value.source)}, pc := Committing)
                        else Close(t, VersionConflict)
    {
      var t := txs[i];
      var source := t.row.value.source;
      bumped := Version(Tables(), source) == expected;
      if bumped {
        Put(i, t.(bumped := true, held := t.held + {VersionLock(source)}, pc := Committing));
      } else {
        Put(i, Close(t, VersionConflict));
      }
    }

    /** COMMIT: the write buffer becomes visible and every lock is free. */
    method Commit(i: TxId) returns (payment: Payment)
      requires Valid() && At(i, Committing) && txs[i].row.Some?
      modifies this
      ensures Valid() && trace == old(trace) + [Next(i)] && i in txs && (old(Alone(i)) ==> Alone(i))
      ensures payment == old(txs[i]).row.value && txs[i] == Close(old(txs[i]), Settled(payment))
      ensures Tables() == Published(old(Tables()), old(txs[i]))
    {
      hide Step, Blocked;
      var t := txs[i];
      payment := t.row.value;
      RunExtends(cfg, trace, Next(i));
      CommitStep(cfg, Snapshot(), i);
      if payment.status == Succeeded { order := order + [Decision(RequestOf(t), Succeeds)]; }
      if t.bumped { versions := versions[payment.source := Version(Tables(), payment.source) + 1]; }
      payments := payments[t.payment := payment];
      if t.ledgerTx.Some? { ledgerTxs := ledgerTxs + {t.ledgerTx.value}; }
      entries := entries + t.entries;
      txs := txs[i := Close(t, Settled(payment))];
      trace := trace + [Next(i)];
    }

    /** ROLLBACK: nothing of the transaction remains. */
    method Rollback(i: TxId)
      requires Valid() && i in txs && Open(txs[i])
      modifies this`txs, this`trace, this`order
      ensures Valid() && trace == old(trace) + [Abort(i)] && i in txs && txs[i] == Close(old(txs[i]), RolledBack)
    {
      RunExtends(cfg, trace, Abort(i));
      if Refused(txs[i]) { order := Without(order, {txs[i].payment}); }
      txs := txs[i := Close(txs[i], RolledBack)];
      trace := trace + [Abort(i)];
    }
  }
}

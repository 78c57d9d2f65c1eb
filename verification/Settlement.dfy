/** Settlement, statement by statement, while any other transactions run in between. */
module Settlement {
  import opened Options
  import opened Ledger
  import opened Protocol
  import opened ProtocolInvariant
  import opened SerialEquivalence
  import opened SettlementDatabase

  datatype Answer = Right(payment: Payment) | Left(from: Status) | Raised

  /** What a finished Settlement of `id` left behind: a terminal Payment that is stored as answered,
      with its entries; otherwise nothing. When the reply to COMMIT is lost it may be either. */
  ghost predicate Answered(db: Database, i: TxId, id: PaymentId, r: Answer, turns: seq<Turn>)
    reads db
  {
    && i in db.txs && db.txs[i].payment == id
    && match r
       case Right(p) => db.txs[i].pc == Closed(Settled(p)) && Stored(db, id, p)
       case Left(from) => db.txs[i].pc == Closed(Rejected(from))
       case Raised =>
         || db.txs[i].pc == Closed(RolledBack)
         || (MayLoseReply(turns) && exists p :: db.txs[i].pc == Closed(Settled(p)) && Stored(db, id, p))
  }

  /** `p` is terminal and stored and, when it SUCCEEDED, so are its two entries and no other ones. */
  ghost predicate Stored(db: Database, id: PaymentId, p: Payment)
    reads db
  {
    && Terminal(p) && id in db.payments && db.payments[id] == p
    && (p.status == Succeeded ==>
          p.ledgerTx.Some? && EntriesOf(db.entries, p.ledgerTx.value)
          == [Entry(p.ledgerTx.value, p.source, Debit, p.amount),
              Entry(p.ledgerTx.value, p.destination, Credit, p.amount)])
  }

  lemma AnswerIsStored(db: Database, i: TxId, id: PaymentId, p: Payment)
    requires db.Valid() && i in db.txs && db.txs[i].payment == id && db.txs[i].pc == Closed(Settled(p))
    ensures Stored(db, id, p)
  {
    Reachable(db.cfg, db.trace);
    StateDoubleEntry(db.cfg, db.Snapshot());
    assert TxOk(db.cfg, db.Tables(), db.txs[i]);
  }

  /** `settle`: claim, lock the source Wallet, read its Balance, and either fail the Payment or post
      its two entries. */
  method Settle(db: Database, id: PaymentId, turns: seq<Turn>) returns (r: Answer, i: TxId)
    requires db.Valid() && db.cfg.strategy == NoKey
    modifies db
    ensures db.Valid() && old(db.trace) <= db.trace && i !in old(db.txs)
    ensures Answered(db, i, id, r, turns)
    ensures r.Left? && id in old(db.payments) ==>
              id in db.payments && Terminal(db.payments[id]) && db.payments[id].status == r.from
    ensures turns == [] && (forall j :: j in old(db.txs) ==> old(db.txs[j]).pc.Closed?)
            && Claimable(old(db.payments), id) ==>
              var p := old(db.payments[id]);
              && r.Right? && r.payment.status == (if Short(db.cfg, old(db.entries), p) then Failed else Succeeded)
              && r.payment.source == p.source && r.payment.destination == p.destination && r.payment.amount == p.amount
  {
    hide Run, Blocked, Answered, MayLoseReply, Database.Valid, Database.Snapshot, SourceLocks, EntryLocks, IsWallet,
      Balance;
    db.Seen();
    i := db.Begin(id);
    var fault, k := db.Await(i, turns, 0);
    if fault.Some? { r := Abandon(db, i, id, turns); return; }
    var claimed := db.ClaimPayment(i);
    if claimed.None? {
      ghost var there := id in old(db.payments);
      if there { UnclaimableIsTerminal(db, old(db.trace), id); }
      r := Refuse(db, i, id, turns, k);
      return;
    }
    r := Decide(db, i, id, claimed.value, turns, k);
  }

  /** Whether the claimed Payment has to fail. */
  ghost predicate Short(cfg: Config, entries: seq<Entry>, p: Payment) {
    IsWallet(cfg.kinds, p.source) && Balance(entries, p.source) < p.amount
  }

  /** The funds check, under the lock on the source Wallet, and what follows from it. */
  method Decide(db: Database, i: TxId, id: PaymentId, claimed: Payment, turns: seq<Turn>, from: nat) returns (r: Answer)
    requires db.Valid() && i in db.txs && db.txs[i].payment == id && from <= |turns| && db.cfg.strategy == NoKey
    requires db.txs[i].pc == Locking && db.txs[i].row == Some(claimed) && db.txs[i].entries == []
    modifies db
    ensures db.Valid() && old(db.trace) <= db.trace && Answered(db, i, id, r, turns) && !r.Left?
    ensures turns == [] && old(db.Alone(i)) ==>
              && r.Right? && r.payment.status == (if Short(db.cfg, old(db.entries), claimed) then Failed else Succeeded)
              && r.payment.source == claimed.source && r.payment.destination == claimed.destination
              && r.payment.amount == claimed.amount
  {
    hide Run, Blocked, Answered, MayLoseReply, Database.Valid, Database.Snapshot, SourceLocks, EntryLocks, IsWallet;
    var source, destination, amount := claimed.source, claimed.destination, claimed.amount;
    var fault, k := db.Await(i, turns, from);
    if fault.Some? { r := Abandon(db, i, id, turns); return; }
    var locked := db.LockSource(i);
    if locked {
      fault, k := db.Await(i, turns, k);
      if fault.Some? { r := Abandon(db, i, id, turns); return; }
      var balance, _ := db.SelectBalance(i);
      assert db.entries + [] == db.entries;
      if balance < amount {
        r := Fail(db, i, id, turns, k);
        return;
      }
    }
    r := Post(db, i, id, source, destination, amount, turns, k);
  }

  /** Nothing was claimed: report the status found. */
  method Refuse(db: Database, i: TxId, id: PaymentId, turns: seq<Turn>, from: nat) returns (r: Answer)
    requires db.Valid() && i in db.txs && db.txs[i].payment == id && from <= |turns|
    requires db.txs[i].pc == Rejecting && db.txs[i].row.None?
    modifies db
    ensures db.Valid() && old(db.trace) <= db.trace && Answered(db, i, id, r, turns) && !r.Right?
    ensures r.Left? && id in old(db.payments) && Terminal(old(db.payments[id])) ==>
              id in db.payments && db.payments[id] == old(db.payments[id]) && db.payments[id].status == r.from
  {
    hide Run, Blocked, Answered, MayLoseReply, Database.Valid, Database.Snapshot, Database.Tables, SourceLocks,
      EntryLocks, IsWallet;
    db.Seen();
    if id in db.payments && Terminal(db.payments[id]) { TerminalForGood(db.cfg, db.trace, id); }
    var fault, k := db.Await(i, turns, from);
    if fault.Some? { r := Abandon(db, i, id, turns); return; }
    db.Seen();
    var current := db.ReadStatus(i);
    r := if current.Some? then Left(current.value) else Raised;
    NotSettled(db, i, id, r, turns);
  }

  /** A terminal Payment stays exactly as it is. */
  lemma TerminalForGood(cfg: Config, before: seq<Action>, id: PaymentId)
    requires id in Run(cfg, before).db.payments && Terminal(Run(cfg, before).db.payments[id])
    ensures forall after :: before <= after ==>
              id in Run(cfg, after).db.payments && Run(cfg, after).db.payments[id] == Run(cfg, before).db.payments[id]
  {
    forall after | before <= after
      ensures id in Run(cfg, after).db.payments && Run(cfg, after).db.payments[id] == Run(cfg, before).db.payments[id]
    {
      assert after == before + after[|before|..];
      HistoryGrows(cfg, before, after[|before|..]);
    }
  }

  lemma StaysStored(cfg: Config, before: seq<Action>, after: seq<Action>, id: PaymentId)
    requires before <= after && id in Run(cfg, before).db.payments
    ensures id in Run(cfg, after).db.payments
            && Unsettled(Run(cfg, after).db.payments[id]) == Unsettled(Run(cfg, before).db.payments[id])
  {
    assert after == before + after[|before|..];
    HistoryGrows(cfg, before, after[|before|..]);
  }

  /** PROCESSING is never committed: what cannot be claimed is terminal. */
  lemma UnclaimableIsTerminal(db: Database, before: seq<Action>, id: PaymentId)
    requires db.Valid() && before <= db.trace && id in Run(db.cfg, before).db.payments && !Claimable(db.payments, id)
    ensures id in db.payments && Terminal(db.payments[id])
  {
    StaysStored(db.cfg, before, db.trace, id);
    Reachable(db.cfg, db.trace);
    assert PaymentOk(db.cfg, db.payments[id]);
  }

  method Fail(db: Database, i: TxId, id: PaymentId, turns: seq<Turn>, from: nat) returns (r: Answer)
    requires db.Valid() && i in db.txs && db.txs[i].payment == id && from <= |turns|
    requires db.txs[i].pc == Refusing && db.txs[i].row.Some?
    modifies db
    ensures db.Valid() && old(db.trace) <= db.trace && Answered(db, i, id, r, turns) && !r.Left?
    ensures r.Right? ==>
              r.payment == old(db.txs[i]).row.value.(status := Failed, failure := Some(InsufficientFunds))
    ensures turns == [] && old(db.Alone(i)) ==> r.Right?
  {
    hide Run, Blocked, Answered, MayLoseReply, Database.Valid, Database.Snapshot, Database.Tables, SourceLocks,
      EntryLocks, IsWallet;
    var fault, k := db.Await(i, turns, from);
    if fault.Some? { r := Abandon(db, i, id, turns); return; }
    db.MarkFailed(i);
    r := Finish(db, i, id, turns, k);
  }

  /** The Ledger Transaction, its two entries, and the Payment, all in the same transaction. */
  method Post(db: Database, i: TxId, id: PaymentId, source: AccountId, destination: AccountId, amount: int,
              turns: seq<Turn>, from: nat) returns (r: Answer)
    requires db.Valid() && i in db.txs && db.txs[i].payment == id && from <= |turns| && db.cfg.strategy != Optimistic
    requires db.txs[i].pc == Numbering && db.txs[i].row.Some?
    requires source == db.txs[i].row.value.source && destination == db.txs[i].row.value.destination
    requires amount == db.txs[i].row.value.amount
    modifies db
    ensures db.Valid() && old(db.trace) <= db.trace && Answered(db, i, id, r, turns) && !r.Left?
    ensures r.Right? ==> r.payment.status == Succeeded && r.payment.source == source
                         && r.payment.destination == destination && r.payment.amount == amount
    ensures turns == [] && old(db.Alone(i)) ==> r.Right?
  {
    hide Run, Blocked, Answered, MayLoseReply, Database.Valid, Database.Snapshot, Database.Tables, SourceLocks,
      EntryLocks, IsWallet;
    var fault, k := db.Await(i, turns, from);
    if fault.Some? { r := Abandon(db, i, id, turns); return; }
    var ledgerTx := db.InsertLedgerTransaction(i);
    r := PostEntries(db, i, id, ledgerTx, source, destination, amount, turns, k);
  }

  method PostEntries(db: Database, i: TxId, id: PaymentId, ledgerTx: LedgerTxId, source: AccountId,
                     destination: AccountId, amount: int, turns: seq<Turn>, from: nat) returns (r: Answer)
    requires db.Valid() && i in db.txs && db.txs[i].payment == id && from <= |turns| && db.cfg.strategy != Optimistic
    requires db.txs[i].pc == Entering && db.txs[i].row.Some? && db.txs[i].ledgerTx == Some(ledgerTx)
    requires source == db.txs[i].row.value.source && destination == db.txs[i].row.value.destination
    requires amount == db.txs[i].row.value.amount
    modifies db
    ensures db.Valid() && old(db.trace) <= db.trace && Answered(db, i, id, r, turns) && !r.Left?
    ensures r.Right? ==> r.payment.status == Succeeded && r.payment.source == source
                         && r.payment.destination == destination && r.payment.amount == amount
    ensures turns == [] && old(db.Alone(i)) ==> r.Right?
  {
    hide Run, Blocked, Answered, MayLoseReply, Database.Valid, Database.Snapshot, Database.Tables, SourceLocks,
      EntryLocks, IsWallet;
    var fault, k := db.Await(i, turns, from);
    if fault.Some? { r := Abandon(db, i, id, turns); return; }
    db.InsertEntries(i, ledgerTx, source, destination, amount);

    fault, k := db.Await(i, turns, k);
    if fault.Some? { r := Abandon(db, i, id, turns); return; }
    db.MarkSucceeded(i, ledgerTx);
    r := Finish(db, i, id, turns, k);
  }

  method Abandon(db: Database, i: TxId, id: PaymentId, turns: seq<Turn>) returns (r: Answer)
    requires db.Valid() && i in db.txs && Open(db.txs[i]) && db.txs[i].payment == id
    modifies db
    ensures db.Valid() && old(db.trace) <= db.trace && Answered(db, i, id, r, turns) && r == Raised
  {
    db.Rollback(i);
    r := Raised;
  }

  /** COMMIT. If its reply is lost, the Payment is settled all the same. */
  method Finish(db: Database, i: TxId, id: PaymentId, turns: seq<Turn>, k: nat) returns (r: Answer)
    requires db.Valid() && i in db.txs && db.txs[i].payment == id && k <= |turns|
    requires db.txs[i].pc == Committing && db.txs[i].row.Some?
    modifies db
    ensures db.Valid() && old(db.trace) <= db.trace && Answered(db, i, id, r, turns) && !r.Left?
    ensures r.Right? ==> Some(r.payment) == old(db.txs[i].row)
    ensures turns == [] && old(db.Alone(i)) ==> r.Right?
  {
    hide Run, Blocked;
    var fault, _ := db.Await(i, turns, k);
    if fault.Some? && fault != Some(ReplyLost) { r := Abandon(db, i, id, turns); return; }
    db.CommitNeverWaits(i);
    var payment := db.Commit(i);
    AnswerIsStored(db, i, id, payment);
    r := if fault.None? then Right(payment) else Raised;
  }

  lemma NotSettled(db: Database, i: TxId, id: PaymentId, r: Answer, turns: seq<Turn>)
    requires i in db.txs && db.txs[i].payment == id && !r.Right?
    requires db.txs[i].pc == Closed(if r.Left? then Rejected(r.from) else RolledBack)
    ensures Answered(db, i, id, r, turns)
  {
  }

  // ---------------------------------------------------------------- nothing of an unsettled attempt remains

  /** A closed transaction is over. */
  lemma {:induction false} ClosedForGood(cfg: Config, actions: seq<Action>, more: seq<Action>, i: TxId)
    requires i in Run(cfg, actions).txs && Run(cfg, actions).txs[i].pc.Closed?
    ensures i in Run(cfg, actions + more).txs && Run(cfg, actions + more).txs[i] == Run(cfg, actions).txs[i]
  {
    if more == [] {
      assert actions + more == actions;
    } else {
      var before, last := more[..|more| - 1], more[|more| - 1];
      ClosedForGood(cfg, actions, before, i);
      assert actions + more == (actions + before) + [last];
      RunExtends(cfg, actions + before, last);
      ClosedStep(cfg, Run(cfg, actions + before), last, i);
    }
  }

  lemma ClosedStep(cfg: Config, s: State, a: Action, i: TxId)
    requires i in s.txs && s.txs[i].pc.Closed?
    ensures i in Step(cfg, s, a).txs && Step(cfg, s, a).txs[i] == s.txs[i]
  {
    if !About(a, i) { OthersLeave(cfg, s, a, i); }
  }

  /** A transaction that ended any other way than by its COMMIT never changed the database, at any
      of its statements. */
  lemma UnsettledChangedNothing(cfg: Config, actions: seq<Action>, i: TxId, m: nat)
    requires i in Run(cfg, actions).txs && Run(cfg, actions).txs[i].pc.Closed?
             && !Run(cfg, actions).txs[i].pc.outcome.Settled?
    requires m < |actions| && About(actions[m], i)
    ensures Run(cfg, actions[..m + 1]).db == Run(cfg, actions[..m]).db
  {
    hide Step;
    assert actions[..m + 1] == actions[..m] + [actions[m]];
    RunExtends(cfg, actions[..m], actions[m]);
    OnlyCommitsPublish(cfg, Run(cfg, actions[..m]), actions[m]);
    if Run(cfg, actions[..m + 1]).db != Run(cfg, actions[..m]).db {
      assert actions == actions[..m + 1] + actions[m + 1..];
      StillThere(cfg, Run(cfg, actions[..m]), actions[m], i);
      ClosedForGood(cfg, actions[..m + 1], actions[m + 1..], i);
    }
  }

  lemma StillThere(cfg: Config, s: State, a: Action, i: TxId)
    requires i in s.txs
    ensures i in Step(cfg, s, a).txs
  {
  }
}

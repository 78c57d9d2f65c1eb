/** The alternative Settlement mechanisms, and the retry loop around an attempt. */
module Strategies {
  import opened Options
  import opened Ledger
  import opened Protocol
  import opened SerialEquivalence
  import opened SettlementDatabase
  import opened Settlement

  const MAX_ATTEMPTS := 50

  datatype Order = Order(payment: PaymentId, source: AccountId, destination: AccountId, amount: int,
                         sourceIsWallet: bool)

  datatype Error = VersionConflicted | Faulted(fault: Fault) | CouldNotClaim

  datatype Attempt = Done(status: Status) | Thrown(error: Error)

  /** The caller describes a Payment that exists. */
  ghost predicate Describes(cfg: Config, payments: map<PaymentId, Payment>, s: Order) {
    && s.payment in payments
    && payments[s.payment].source == s.source && payments[s.payment].destination == s.destination
    && payments[s.payment].amount == s.amount
    && (s.sourceIsWallet <==> IsWallet(cfg.kinds, s.source))
  }

  lemma StillDescribes(cfg: Config, before: seq<Action>, after: seq<Action>, s: Order)
    requires before <= after && Describes(cfg, Run(cfg, before).db.payments, s)
    ensures Describes(cfg, Run(cfg, after).db.payments, s)
  {
    assert after == before + after[|before|..];
    HistoryGrows(cfg, before, after[|before|..]);
  }

  /** How an attempt ended: its COMMIT, or nothing at all; a lost reply does not say which. */
  ghost predicate Over(db: Database, i: TxId, id: PaymentId, r: Attempt)
    reads db
  {
    && i in db.txs && db.txs[i].payment == id && db.txs[i].pc.Closed?
    && match r
       case Done(status) =>
         && db.txs[i].pc.outcome.Settled? && db.txs[i].pc.outcome.payment.status == status
         && Stored(db, id, db.txs[i].pc.outcome.payment)
       case Thrown(error) =>
         && (error.VersionConflicted? <==> db.txs[i].pc.outcome.VersionConflict?)
         && (db.txs[i].pc.outcome.Settled? ==>
               error == Faulted(ReplyLost) && Stored(db, id, db.txs[i].pc.outcome.payment))
  }

  /** `catch`: ROLLBACK, and the error goes on. */
  method Throw(db: Database, i: TxId, error: Error) returns (r: Attempt)
    requires db.Valid() && i in db.txs && Open(db.txs[i]) && !error.VersionConflicted?
    modifies db
    ensures db.Valid() && old(db.trace) <= db.trace && r == Thrown(error) && Over(db, i, old(db.txs[i]).payment, r)
  {
    db.Rollback(i);
    r := Thrown(error);
  }

  method Complete(db: Database, i: TxId, turns: seq<Turn>, from: nat) returns (r: Attempt, k: nat)
    requires db.Valid() && i in db.txs && from <= |turns|
    requires db.txs[i].pc == Committing && db.txs[i].row.Some?
    modifies db
    ensures db.Valid() && old(db.trace) <= db.trace && from <= k <= |turns| && Over(db, i, old(db.txs[i]).payment, r)
    ensures r.Done? ==> r.status == old(db.txs[i]).row.value.status
    ensures r.Thrown? ==> r.error.Faulted?
  {
    hide Run, Blocked;
    var fault;
    fault, k := db.Await(i, turns, from);
    if fault.Some? && fault != Some(ReplyLost) { r := Throw(db, i, Faulted(fault.value)); return; }
    db.CommitNeverWaits(i);
    var payment := db.Commit(i);
    AnswerIsStored(db, i, db.txs[i].payment, payment);
    r := if fault.None? then Done(payment.status) else Thrown(Faulted(ReplyLost));
  }

  /** One attempt: claim, then the funds check of the strategy, then the posting. */
  method AttemptOnce(db: Database, s: Order, turns: seq<Turn>, from: nat) returns (r: Attempt, i: TxId, k: nat)
    requires db.Valid() && from <= |turns| && Describes(db.cfg, db.payments, s)
    modifies db
    ensures db.Valid() && old(db.trace) <= db.trace && from <= k <= |turns| && i !in old(db.txs)
    ensures Over(db, i, s.payment, r)
    ensures r.Thrown? && r.error.VersionConflicted? ==> db.cfg.strategy == Optimistic && s.sourceIsWallet
  {
    hide Run, Blocked, Over, Describes, Database.Snapshot, SourceLocks, EntryLocks;
    db.Seen();
    i := db.Begin(s.payment);
    var fault;
    fault, k := db.Await(i, turns, from);
    if fault.Some? { r := Throw(db, i, Faulted(fault.value)); return; }
    var claimed := db.ClaimPayment(i);
    if claimed.None? { r := Throw(db, i, CouldNotClaim); return; }
    ClaimedAsDescribed(db, old(db.trace), s);
    r, k := CheckAndPost(db, i, s, turns, k);
  }

  lemma ClaimedAsDescribed(db: Database, before: seq<Action>, s: Order)
    requires db.Valid() && before <= db.trace && Describes(db.cfg, Run(db.cfg, before).db.payments, s)
    ensures Describes(db.cfg, db.payments, s)
    ensures s.sourceIsWallet <==> IsWallet(db.cfg.kinds, s.source)
    ensures s.payment in db.payments && db.payments[s.payment].source == s.source
            && db.payments[s.payment].destination == s.destination && db.payments[s.payment].amount == s.amount
  {
    StillDescribes(db.cfg, before, db.trace, s);
  }

  /** The row of a claimed Payment is the one described. */
  ghost predicate Claimed(t: Tx, s: Order) {
    && t.row.Some? && t.row.value.source == s.source && t.row.value.destination == s.destination
    && t.row.value.amount == s.amount
  }

  method CheckAndPost(db: Database, i: TxId, s: Order, turns: seq<Turn>, from: nat) returns (r: Attempt, k: nat)
    requires db.Valid() && i in db.txs && db.txs[i].payment == s.payment && from <= |turns| && Claimed(db.txs[i], s)
    requires db.txs[i].pc == AfterClaim(db.cfg, s.source) && (s.sourceIsWallet <==> IsWallet(db.cfg.kinds, s.source))
    modifies db
    ensures db.Valid() && old(db.trace) <= db.trace && from <= k <= |turns|
    ensures Over(db, i, s.payment, r)
    ensures r.Thrown? && r.error.VersionConflicted? ==> db.cfg.strategy == Optimistic && s.sourceIsWallet
  {
    hide Run, Blocked, Over, MayLoseReply, Database.Valid, Database.Snapshot, SourceLocks, EntryLocks, IsWallet;
    var fault;
    k := from;
    if db.cfg.strategy == NoKey || db.cfg.strategy == ForUpdate || (db.cfg.strategy == Advisory && s.sourceIsWallet) {
      fault, k := db.Await(i, turns, k);
      if fault.Some? { r := Throw(db, i, Faulted(fault.value)); return; }
      var _ := db.LockSource(i);
    }
    if s.sourceIsWallet {
      r, k := CheckFunds(db, i, s, turns, k);
    } else {
      r, k := PostAndBump(db, i, s, 0, turns, k);
    }
  }

  method CheckFunds(db: Database, i: TxId, s: Order, turns: seq<Turn>, from: nat) returns (r: Attempt, k: nat)
    requires db.Valid() && i in db.txs && db.txs[i].payment == s.payment && from <= |turns| && Claimed(db.txs[i], s)
    requires db.txs[i].pc == Reading && s.sourceIsWallet && IsWallet(db.cfg.kinds, s.source)
    modifies db
    ensures db.Valid() && old(db.trace) <= db.trace && from <= k <= |turns|
    ensures Over(db, i, s.payment, r)
    ensures r.Thrown? && r.error.VersionConflicted? ==> db.cfg.strategy == Optimistic && s.sourceIsWallet
  {
    hide Run, Blocked, Over, MayLoseReply, Database.Valid, Database.Snapshot, SourceLocks, EntryLocks, IsWallet;
    var fault;
    fault, k := db.Await(i, turns, from);
    if fault.Some? { r := Throw(db, i, Faulted(fault.value)); return; }
    var balance, expected := db.SelectBalance(i);
    if balance < s.amount {
      fault, k := db.Await(i, turns, k);
      if fault.Some? { r := Throw(db, i, Faulted(fault.value)); return; }
      db.MarkFailed(i);
      r, k := Complete(db, i, turns, k);
      return;
    }
    r, k := PostAndBump(db, i, s, expected, turns, k);
  }

  method PostAndBump(db: Database, i: TxId, s: Order, expected: nat, turns: seq<Turn>, from: nat)
    returns (r: Attempt, k: nat)
    requires db.Valid() && i in db.txs && db.txs[i].payment == s.payment && from <= |turns| && Claimed(db.txs[i], s)
    requires db.txs[i].pc == Numbering && (s.sourceIsWallet <==> IsWallet(db.cfg.kinds, s.source))
    requires s.sourceIsWallet ==> db.txs[i].expected == expected
    modifies db
    ensures db.Valid() && old(db.trace) <= db.trace && from <= k <= |turns|
    ensures Over(db, i, s.payment, r)
    ensures r.Thrown? && r.error.VersionConflicted? ==> db.cfg.strategy == Optimistic && s.sourceIsWallet
  {
    hide Run, Blocked, Over, MayLoseReply, Database.Valid, Database.Snapshot, Database.Tables, SourceLocks,
      EntryLocks, IsWallet;
    var fault;
    fault, k := db.Await(i, turns, from);
    if fault.Some? { r := Throw(db, i, Faulted(fault.value)); return; }
    var ledgerTx := db.InsertLedgerTransaction(i);

    fault, k := db.Await(i, turns, k);
    if fault.Some? { r := Throw(db, i, Faulted(fault.value)); return; }
    db.InsertEntries(i, ledgerTx, s.source, s.destination, s.amount);

    fault, k := db.Await(i, turns, k);
    if fault.Some? { r := Throw(db, i, Faulted(fault.value)); return; }
    db.MarkSucceeded(i, ledgerTx);
    r, k := Bump(db, i, s, expected, turns, k);
  }

  method Bump(db: Database, i: TxId, s: Order, expected: nat, turns: seq<Turn>, from: nat) returns (r: Attempt, k: nat)
    requires db.Valid() && i in db.txs && db.txs[i].payment == s.payment && from <= |turns| && Claimed(db.txs[i], s)
    requires db.txs[i].pc == if db.cfg.strategy == Optimistic && s.sourceIsWallet then Bumping else Committing
    requires s.sourceIsWallet ==> db.txs[i].expected == expected
    modifies db
    ensures db.Valid() && old(db.trace) <= db.trace && from <= k <= |turns|
    ensures Over(db, i, s.payment, r)
    ensures r.Thrown? && r.error.VersionConflicted? ==> db.cfg.strategy == Optimistic && s.sourceIsWallet
  {
    hide Run, Blocked, Database.Valid, Database.Snapshot, SourceLocks, EntryLocks, IsWallet;
    k := from;
    if db.cfg.strategy == Optimistic && s.sourceIsWallet {
      var fault;
      fault, k := db.Await(i, turns, k);
      if fault.Some? { r := Throw(db, i, Faulted(fault.value)); return; }
      var bumped := db.BumpVersion(i, expected);
      if !bumped { r := Thrown(VersionConflicted); return; }
    }
    r, k := Complete(db, i, turns, k);
  }

  // ---------------------------------------------------------------- the retry loop

  datatype Outcome = SUCCEEDED | FAILED | EXHAUSTED | ERROR

  datatype SettleResult = SettleResult(outcome: Outcome, attempts: nat, serializationFailures: nat,
                                       versionConflicts: nat, deadlocks: nat)

  function Aborts(r: SettleResult): nat { r.serializationFailures + r.versionConflicts + r.deadlocks }

  /** Transactions for Payment `id` that were not `known` before, no two the same, each of which ended
      and left nothing behind. */
  ghost predicate AllAborted(known: set<TxId>, txs: map<TxId, Tx>, id: PaymentId, aborted: seq<TxId>) {
    && (forall n :: 0 <= n < |aborted| ==>
          && aborted[n] !in known && aborted[n] in txs && txs[aborted[n]].payment == id
          && txs[aborted[n]].pc.Closed? && !txs[aborted[n]].pc.outcome.Settled?)
    && (forall m, n :: 0 <= m < n < |aborted| ==> aborted[m] != aborted[n])
  }

  lemma AbortedForGood(cfg: Config, before: seq<Action>, after: seq<Action>, known: set<TxId>, id: PaymentId,
                       aborted: seq<TxId>)
    requires before <= after && AllAborted(known, Run(cfg, before).txs, id, aborted)
    ensures AllAborted(known, Run(cfg, after).txs, id, aborted)
  {
    var more := after[|before|..];
    assert after == before + more;
    forall n | 0 <= n < |aborted|
      ensures aborted[n] in Run(cfg, after).txs && Run(cfg, after).txs[aborted[n]] == Run(cfg, before).txs[aborted[n]]
    {
      ClosedForGood(cfg, before, more, aborted[n]);
    }
  }

  lemma {:induction false} TxsStay(cfg: Config, before: seq<Action>, more: seq<Action>)
    ensures Run(cfg, before).txs.Keys <= Run(cfg, before + more).txs.Keys
  {
    if more == [] {
      assert before + more == before;
    } else {
      var most, last := more[..|more| - 1], more[|more| - 1];
      TxsStay(cfg, before, most);
      assert before + more == (before + most) + [last];
      RunExtends(cfg, before + most, last);
      forall i | i in Run(cfg, before + most).txs ensures i in Run(cfg, before + more).txs {
        StillThere(cfg, Run(cfg, before + most), last, i);
      }
    }
  }

  /** `settle`: attempts are the recorded aborts and one more, unless all of them were aborts; and
      every aborted attempt is a transaction of its own that never changed the database. */
  method SettleWithRetries(db: Database, s: Order, turns: seq<Turn>)
    returns (result: SettleResult, ghost aborted: seq<TxId>)
    requires db.Valid() && Describes(db.cfg, db.payments, s)
    modifies db
    ensures db.Valid() && old(db.trace) <= db.trace
    ensures result.attempts == Aborts(result) + if result.outcome == EXHAUSTED then 0 else 1
    ensures result.outcome == EXHAUSTED <==> Aborts(result) == MAX_ATTEMPTS
    ensures result.attempts <= MAX_ATTEMPTS
    ensures |aborted| == Aborts(result) && AllAborted(old(db.txs.Keys), db.txs, s.payment, aborted)
    ensures result.versionConflicts > 0 ==> db.cfg.strategy == Optimistic
    ensures result.outcome == SUCCEEDED ==> s.payment in db.payments && db.payments[s.payment].status == Succeeded
    ensures result.outcome == FAILED ==> s.payment in db.payments && db.payments[s.payment].status == Failed
  {
    hide Run, Blocked, Describes, Database.Valid, Database.Snapshot, AllAborted, Over;
    result := SettleResult(ERROR, 0, 0, 0, 0);
    aborted := [];
    ghost var known := db.txs.Keys;
    NoneAborted(known, db.txs, s.payment);
    var k, over := 0, false;
    while result.attempts < MAX_ATTEMPTS && !over
      invariant db.Valid() && old(db.trace) <= db.trace && k <= |turns|
      invariant Describes(db.cfg, db.payments, s)
      invariant result.attempts == Aborts(result) + (if over then 1 else 0) && result.attempts <= MAX_ATTEMPTS
      invariant |aborted| == Aborts(result) && AllAborted(known, db.txs, s.payment, aborted) && known <= db.txs.Keys
      invariant result.versionConflicts > 0 ==> db.cfg.strategy == Optimistic
      invariant !over || Reported(db.payments, s.payment, result.outcome)
      decreases MAX_ATTEMPTS - result.attempts
    {
      result, aborted, k, over := TryOnce(db, s, turns, k, result, aborted, known);
    }
    if !over { result := result.(outcome := EXHAUSTED); }
  }

  /** An outcome other than exhaustion is what the stored Payment says. */
  predicate Reported(payments: map<PaymentId, Payment>, id: PaymentId, o: Outcome) {
    match o
    case SUCCEEDED => id in payments && payments[id].status == Succeeded
    case FAILED => id in payments && payments[id].status == Failed
    case EXHAUSTED => false
    case ERROR => true
  }

  /** One turn of the loop. */
  method TryOnce(db: Database, s: Order, turns: seq<Turn>, from: nat, before: SettleResult,
                 ghost aborted0: seq<TxId>, ghost known: set<TxId>)
    returns (result: SettleResult, ghost aborted: seq<TxId>, k: nat, over: bool)
    requires db.Valid() && Describes(db.cfg, db.payments, s) && from <= |turns|
    requires |aborted0| == Aborts(before) && AllAborted(known, db.txs, s.payment, aborted0) && known <= db.txs.Keys
    modifies db
    ensures db.Valid() && old(db.trace) <= db.trace && Describes(db.cfg, db.payments, s) && from <= k <= |turns|
    ensures result.attempts == before.attempts + 1
    ensures Aborts(result) == Aborts(before) + if over then 0 else 1
    ensures |aborted| == Aborts(result) && AllAborted(known, db.txs, s.payment, aborted) && known <= db.txs.Keys
    ensures result.versionConflicts > before.versionConflicts ==> db.cfg.strategy == Optimistic
    ensures over ==> Reported(db.payments, s.payment, result.outcome)
  {
    hide Run, Blocked, Describes, Database.Valid, Database.Snapshot, AllAborted;
    result, aborted, over := before.(attempts := before.attempts + 1), aborted0, false;
    db.Seen();
    var attempt, i;
    attempt, i, k := AttemptOnce(db, s, turns, from);
    StillAborted(db, old(db.trace), known, aborted, s);
    match attempt {
      case Done(status) =>
        result := result.(outcome := if status == Succeeded then SUCCEEDED else FAILED);
        over := true;
      case Thrown(VersionConflicted) => result := result.(versionConflicts := result.versionConflicts + 1);
      case Thrown(Faulted(SerializationFailure)) =>
        result := result.(serializationFailures := result.serializationFailures + 1);
      case Thrown(Faulted(DeadlockDetected)) => result := result.(deadlocks := result.deadlocks + 1);
      case Thrown(_) =>
        result := result.(outcome := ERROR);
        over := true;
    }
    if !over {
      AbortedAreOld(known, old(db.txs), s.payment, aborted);
      OneMoreAborted(known, db.txs, s.payment, aborted, i);
      aborted := aborted + [i];
    }
  }

  lemma NoneAborted(known: set<TxId>, txs: map<TxId, Tx>, id: PaymentId)
    ensures AllAborted(known, txs, id, [])
  {
  }

  lemma AbortedAreOld(known: set<TxId>, txs: map<TxId, Tx>, id: PaymentId, aborted: seq<TxId>)
    requires AllAborted(known, txs, id, aborted)
    ensures forall i :: i in aborted ==> i in txs
  {
  }

  lemma OneMoreAborted(known: set<TxId>, txs: map<TxId, Tx>, id: PaymentId, aborted: seq<TxId>, i: TxId)
    requires AllAborted(known, txs, id, aborted) && i !in known && i !in aborted
    requires i in txs && txs[i].payment == id && txs[i].pc.Closed? && !txs[i].pc.outcome.Settled?
    ensures AllAborted(known, txs, id, aborted + [i])
  {
  }

  lemma StillAborted(db: Database, before: seq<Action>, known: set<TxId>, aborted: seq<TxId>, s: Order)
    requires db.Valid() && before <= db.trace && AllAborted(known, Run(db.cfg, before).txs, s.payment, aborted)
    requires Describes(db.cfg, Run(db.cfg, before).db.payments, s)
    ensures AllAborted(known, db.txs, s.payment, aborted) && Describes(db.cfg, db.payments, s)
    ensures Run(db.cfg, before).txs.Keys <= db.txs.Keys
  {
    AbortedForGood(db.cfg, before, db.trace, known, s.payment, aborted);
    StillDescribes(db.cfg, before, db.trace, s);
    assert db.trace == before + db.trace[|before|..];
    TxsStay(db.cfg, before, db.trace[|before|..]);
  }
}

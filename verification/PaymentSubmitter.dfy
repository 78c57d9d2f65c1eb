/** The two-transaction submission flow, in the order its calls are made, with other transactions
    running in between. */
module PaymentSubmitter {
  import opened Options
  import opened Ledger
  import opened Protocol
  import opened ProtocolInvariant
  import opened SettlementDatabase
  import opened Settlement
  import Idempotency

  /** What the others do, and what may go wrong, before each statement. */
  datatype Schedule = Schedule(beforeInsert: Turn, beforeLookup: Turn, beforeFind: Turn, settling: seq<Turn>,
                               beforeRefetch: Turn)

  const QUIET := Turn([], None)

  datatype Result = Submitted(payment: Payment, replayed: bool) | KeyReused | Errored

  predicate KeyedBy(payments: map<PaymentId, Payment>, id: PaymentId, merchant: nat, key: nat) {
    id in payments && payments[id].merchant == merchant && payments[id].key == key
  }

  /** Payment.create has checked it. */
  predicate NewlyCreated(cfg: Config, p: Payment) {
    && p.status == Created && p.failure.None? && p.ledgerTx.None?
    && p.amount > 0 && p.source in cfg.kinds && p.destination in cfg.kinds
  }

  /** The answer is the stored, terminal Payment of the key, for the same request. */
  ghost predicate IsOutcome(payments: map<PaymentId, Payment>, id: PaymentId, request: Payment, answer: Payment) {
    && KeyedBy(payments, id, request.merchant, request.key) && payments[id] == answer
    && Terminal(answer) && answer.fingerprint == request.fingerprint
  }

  // ---------------------------------------------------------------- the payments table

  /** The unique (Merchant, key) constraint decides. */
  method Create(db: Database, id: PaymentId, payment: Payment) returns (created: bool)
    requires db.Valid() && id !in db.payments && NewlyCreated(db.cfg, payment)
    modifies db`payments, db`trace
    ensures db.Valid() && old(db.trace) <= db.trace
    ensures created <==> !KeyTaken(old(db.payments), payment.merchant, payment.key)
    ensures db.payments == if created then old(db.payments)[id := payment] else old(db.payments)
  {
    ghost var insert := Insert(id, payment.merchant, payment.key, payment.fingerprint,
                               payment.source, payment.destination, payment.amount);
    RunExtends(db.cfg, db.trace, insert);
    assert NewPayment(insert) == payment;
    created := !KeyTaken(db.payments, payment.merchant, payment.key);
    if created { db.payments := db.payments[id := payment]; }
    db.trace := db.trace + [insert];
  }

  method FindByIdempotencyKey(db: Database, merchant: nat, key: nat) returns (found: Option<PaymentId>)
    ensures found.None? <==> !KeyTaken(db.payments, merchant, key)
    ensures found.Some? ==> KeyedBy(db.payments, found.value, merchant, key)
  {
    if p :| p in db.payments && db.payments[p].merchant == merchant && db.payments[p].key == key {
      found := Some(p);
    } else {
      found := None;
    }
  }

  /** The others run; nobody else inserts under the id of this request, which is fresh. */
  method Elapse(db: Database, turn: Turn, mine: PaymentId)
    requires db.Valid()
    modifies db
    ensures db.Valid() && old(db.trace) <= db.trace
    ensures mine !in old(db.payments) ==> mine !in db.payments
    ensures turn.others == [] ==> db.Snapshot() == old(db.Snapshot())
  {
    for m := 0 to |turn.others|
      invariant db.Valid() && old(db.trace) <= db.trace
      invariant mine !in old(db.payments) ==> mine !in db.payments
      invariant m == 0 ==> db.Snapshot() == old(db.Snapshot())
    {
      var a := turn.others[m];
      if !(a.Insert? && a.payment == mine) {
        NothingNew(db.cfg, db.trace, a, mine);
        db.Apply(a);
      }
    }
  }

  /** Rows come from inserts only. */
  lemma NothingNew(cfg: Config, trace: seq<Action>, a: Action, mine: PaymentId)
    requires !(a.Insert? && a.payment == mine)
    ensures mine !in Run(cfg, trace).db.payments ==> mine !in Run(cfg, trace + [a]).db.payments
  {
    hide TxOk, Execute;
    RunExtends(cfg, trace, a);
    Reachable(cfg, trace);
    var s := Run(cfg, trace);
    if a.Next? && a.tx in s.txs && Open(s.txs[a.tx]) {
      Idempotency.PaymentInPlace(cfg, s, a.tx);
      Idempotency.ExecuteInPlace(cfg, s, a.tx, s.txs[a.tx]);
    }
  }

  // ---------------------------------------------------------------- the flow

  /** A terminal Payment is returned as it is; any other one is settled, or found settled. */
  method Resume(db: Database, id: PaymentId, payment: Payment, schedule: Schedule) returns (settled: Option<Payment>)
    requires db.Valid() && db.cfg.strategy == NoKey && id in db.payments && db.payments[id] == payment
    modifies db
    ensures db.Valid() && old(db.trace) <= db.trace
    ensures settled.Some? ==>
              && id in db.payments && db.payments[id] == settled.value && Terminal(settled.value)
              && Unsettled(settled.value) == Unsettled(payment)
    ensures Terminal(payment) ==> settled == Some(payment)
    ensures schedule.settling == [] && schedule.beforeFind == QUIET && Idle(old(db.txs))
            && payment.status == Created ==>
              && settled.Some?
              && settled.value.status == if Short(db.cfg, old(db.entries), payment) then Failed else Succeeded
  {
    hide Run, Answered, Short;
    if payment.status == Succeeded || payment.status == Failed {
      return Some(payment);
    }
    ghost var start := db.trace;
    db.Seen();
    Elapse(db, schedule.beforeFind, id);
    if schedule.beforeFind.fault.Some? { return None; }
    db.Seen();
    StaysStored(db.cfg, start, db.trace, id);
    // settlePayment.execute finds the Payment, so it does settle it.
    var answer, i := Settle(db, id, schedule.settling);
    db.Seen();
    StaysStored(db.cfg, start, db.trace, id);
    match answer {
      case Right(p) =>
        AnswerMeans(db, i, id, answer, schedule.settling);
        settled := Some(p);
      case Left(_) =>
        ghost var found := db.trace;
        TerminalForGood(db.cfg, found, id);
        Elapse(db, schedule.beforeRefetch, id);
        if schedule.beforeRefetch.fault.Some? { return None; }
        db.Seen();
        // Rows are never deleted: the Payment in hand is never what is answered.
        settled := Some(db.payments[id]);
      case Raised =>
        settled := None;
    }
  }

  predicate Idle(txs: map<TxId, Tx>) { forall j :: j in txs ==> txs[j].pc.Closed? }

  lemma AnswerMeans(db: Database, i: TxId, id: PaymentId, r: Answer, turns: seq<Turn>)
    requires Answered(db, i, id, r, turns) && r.Right?
    ensures id in db.payments && db.payments[id] == r.payment && Terminal(r.payment)
  {
  }

  /** The key exists: the same request resumes or returns its Payment, a different one is rejected. */
  method ReplayIfExists(db: Database, request: Payment, mine: PaymentId, schedule: Schedule) returns (r: Option<Result>)
    requires db.Valid() && db.cfg.strategy == NoKey && mine !in db.payments
    modifies db
    ensures db.Valid() && old(db.trace) <= db.trace
    ensures KeyTaken(old(db.payments), request.merchant, request.key) ==> r.Some?
    ensures r.Some? && r.value.Submitted? ==>
              r.value.replayed && exists id :: IsOutcome(db.payments, id, request, r.value.payment)
    ensures r.Some? && r.value.KeyReused? ==> mine !in db.payments
    ensures r.Some? && r.value.KeyReused? ==>
              exists id :: KeyedBy(db.payments, id, request.merchant, request.key)
                && db.payments[id].fingerprint != request.fingerprint
  {
    hide Run;
    db.Seen();
    ghost var start := db.trace;
    Elapse(db, schedule.beforeLookup, mine);
    if schedule.beforeLookup.fault.Some? { return Some(Errored); }
    db.Seen();
    KeysStay(db.cfg, start, db.trace, request.merchant, request.key);
    var existing := FindByIdempotencyKey(db, request.merchant, request.key);
    if existing.None? { return None; }
    var id := existing.value;
    var payment := db.payments[id];
    if payment.fingerprint != request.fingerprint { return Some(KeyReused); }
    var settled := Resume(db, id, payment, schedule);
    if settled.None? { return Some(Errored); }
    assert IsOutcome(db.payments, id, request, settled.value);
    r := Some(Submitted(settled.value, true));
  }

  lemma KeysStay(cfg: Config, before: seq<Action>, after: seq<Action>, merchant: nat, key: nat)
    requires before <= after
    ensures KeyTaken(Run(cfg, before).db.payments, merchant, key) ==>
              KeyTaken(Run(cfg, after).db.payments, merchant, key)
  {
    var payments := Run(cfg, before).db.payments;
    if p :| p in payments && payments[p].merchant == merchant && payments[p].key == key {
      StaysStored(cfg, before, after, p);
    }
  }

  /** Insert, or find who was first; then settle. Whatever the others do, an answer is the one
      stored terminal Payment of the key. */
  method Submit(db: Database, mine: PaymentId, payment: Payment, schedule: Schedule) returns (r: Result)
    requires db.Valid() && db.cfg.strategy == NoKey && mine !in db.payments && NewlyCreated(db.cfg, payment)
    modifies db
    ensures db.Valid() && old(db.trace) <= db.trace
    ensures r.Submitted? ==> exists id :: IsOutcome(db.payments, id, payment, r.payment)
    ensures r.Submitted? && !r.replayed ==> IsOutcome(db.payments, mine, payment, r.payment)
    ensures r.KeyReused? ==> mine !in db.payments
    ensures r.KeyReused? ==>
              exists id :: KeyedBy(db.payments, id, payment.merchant, payment.key)
                && db.payments[id].fingerprint != payment.fingerprint
    ensures KeyTaken(old(db.payments), payment.merchant, payment.key) ==> !r.Submitted? || r.replayed
    ensures Calm(schedule) && Idle(old(db.txs)) && !KeyTaken(old(db.payments), payment.merchant, payment.key) ==>
              r.Submitted? && !r.replayed
              && r.payment.status == if Short(db.cfg, old(db.entries), payment) then Failed else Succeeded
  {
    hide Run, Short;
    db.Seen();
    ghost var start := db.trace;
    Elapse(db, schedule.beforeInsert, mine);
    var fault := schedule.beforeInsert.fault;
    if fault.Some? && fault != Some(ReplyLost) { return Errored; }
    db.Seen();
    KeysStay(db.cfg, start, db.trace, payment.merchant, payment.key);
    var created := Create(db, mine, payment);
    // The row may be there although nobody was told.
    if fault.Some? { return Errored; }
    if !created {
      var replay := ReplayIfExists(db, payment, mine, schedule);
      return replay.value;
    }
    var settled := Resume(db, mine, payment, schedule);
    if settled.None? { return Errored; }
    assert IsOutcome(db.payments, mine, payment, settled.value);
    r := Submitted(settled.value, false);
  }

  /** Nobody else runs and nothing goes wrong. */
  predicate Calm(s: Schedule) {
    s.beforeInsert == QUIET && s.beforeFind == QUIET && s.settling == []
  }
}

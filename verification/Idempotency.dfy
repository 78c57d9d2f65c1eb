/** Idempotent submission, over every interleaving of requests, crashes and rollbacks. */
module Idempotency {
  import opened Options
  import opened Ledger
  import opened Protocol
  import opened ProtocolInvariant
  import opened SerialEquivalence
  import opened Submission

  // ---------------------------------------------------------------- the invariant

  /** `p` is stored under the key and fingerprint of the request. */
  ghost predicate Mine(bank: Bank, db: Db, q: Req, p: PaymentId) {
    HasKey(db, p, Merchant(bank, q.input), q.input.key) && db.payments[p].fingerprint == Fingerprint(bank, q.input)
  }

  ghost predicate Taken(bank: Bank, db: Db, q: Req) {
    exists p :: HasKey(db, p, Merchant(bank, q.input), q.input.key)
  }

  ghost predicate TakenByOther(bank: Bank, db: Db, q: Req) {
    exists p :: HasKey(db, p, Merchant(bank, q.input), q.input.key)
             && db.payments[p].fingerprint != Fingerprint(bank, q.input)
  }

  /** The request has left no trace in the database. */
  ghost predicate Traceless(core: State, r: ReqId) {
    r !in core.db.payments && r !in core.txs
  }

  ghost predicate Rejecting(t: Tx) {
    t.pc.Rejecting? || (t.pc.Closed? && t.pc.outcome.Rejected?)
  }

  ghost predicate ReqOk(bank: Bank, core: State, r: ReqId, q: Req) {
    match q.pc
    case Starting => Traceless(core, r)
    case Looking => Traceless(core, r) && EarlyCheck(bank, q.input).None?
    case Validating => Traceless(core, r) && EarlyCheck(bank, q.input).None?
    case Inserting => Traceless(core, r) && EarlyCheck(bank, q.input).None? && LateCheck(bank, q.input).None?
    case Relooking => Traceless(core, r) && Taken(bank, core.db, q)
    case Resuming => Mine(bank, core.db, q, q.id) && r !in core.txs
    case Settling =>
      && Mine(bank, core.db, q, q.id)
      && r in core.txs && core.txs[r].payment == q.id
      && (Rejecting(core.txs[r]) ==> Terminal(core.db.payments[q.id]))
    case Refetching => Mine(bank, core.db, q, q.id) && Terminal(core.db.payments[q.id])
    case Answered(reply) => ReplyOk(bank, core, r, q, reply)
    case Dead => true
  }

  /** The checks refuse the request itself, whatever is stored. */
  predicate Refuses(bank: Bank, i: Input, error: Error) {
    EarlyCheck(bank, i) == Some(error) || (EarlyCheck(bank, i).None? && LateCheck(bank, i) == Some(error))
  }

  ghost predicate ReplyOk(bank: Bank, core: State, r: ReqId, q: Req, reply: Reply) {
    match reply
    case Done(payment, _) =>
      Mine(bank, core.db, q, q.id) && core.db.payments[q.id] == payment && Terminal(payment)
    case KeyReused => Traceless(core, r) && TakenByOther(bank, core.db, q)
    case Invalid(error) => Traceless(core, r) && Refuses(bank, q.input, error)
    case Errored => true
  }

  ghost predicate ReqsOk(bank: Bank, s: SubState) {
    && (forall r :: r in s.requests ==> ReqOk(bank, s.core, r, s.requests[r]))
    && (forall r :: r in s.core.db.payments || r in s.core.txs ==> r in s.requests)
  }

  ghost predicate SubInv(bank: Bank, s: SubState) {
    Inv(bank.core, s.core) && ReqsOk(bank, s)
  }

  // ---------------------------------------------------------------- preservation

  /** What `r` is not involved in does not disturb it. */
  ghost predicate Undisturbed(core: State, core': State, r: ReqId) {
    && Grows(core.db, core'.db)
    && (r in core'.db.payments ==> r in core.db.payments)
    && (r in core.txs <==> r in core'.txs)
    && (r in core.txs ==> core'.txs[r] == core.txs[r])
  }

  lemma GrowsKeepsKey(db: Db, db': Db, p: PaymentId, merchant: nat, key: nat)
    requires Grows(db, db') && HasKey(db, p, merchant, key)
    ensures HasKey(db', p, merchant, key) && db'.payments[p].fingerprint == db.payments[p].fingerprint
  {
    assert Unsettled(db'.payments[p]) == Unsettled(db.payments[p]);
  }

  lemma UndisturbedStays(bank: Bank, core: State, core': State, r: ReqId, q: Req)
    requires Undisturbed(core, core', r) && ReqOk(bank, core, r, q)
    ensures ReqOk(bank, core', r, q)
  {
    var merchant, key := Merchant(bank, q.input), q.input.key;
    forall p | HasKey(core.db, p, merchant, key)
      ensures HasKey(core'.db, p, merchant, key) && core'.db.payments[p].fingerprint == core.db.payments[p].fingerprint
    {
      GrowsKeepsKey(core.db, core'.db, p, merchant, key);
    }
  }

  lemma FoundByKey(db: Db, merchant: nat, key: nat)
    ensures var found := FindByKey(db, merchant, key);
            if found.Some? then HasKey(db, found.value, merchant, key)
            else forall p :: !HasKey(db, p, merchant, key)
  {
  }

  lemma ReplayOk(bank: Bank, core: State, r: ReqId, q: Req, missing: Req)
    requires PaymentsOk(bank.core, core.db) && Traceless(core, r)
    requires missing.input == q.input
    requires (forall p :: !HasKey(core.db, p, Merchant(bank, q.input), q.input.key)) ==> ReqOk(bank, core, r, missing)
    ensures ReqOk(bank, core, r, Replay(bank, core.db, q, missing))
  {
    FoundByKey(core.db, Merchant(bank, q.input), q.input.key);
  }

  /** The core step of request `r`: it inserts `r`, begins `r`, or moves transaction `r`. */
  ghost predicate StepOf(a: Action, r: ReqId) {
    match a
    case Insert(p, _, _, _, _, _, _) => p == r
    case Begin(i, _) => i == r
    case Next(i) => i == r
    case Abort(i) => i == r
  }

  lemma StepIsPrivate(cfg: Config, core: State, a: Action, r: ReqId, other: ReqId)
    requires TxsOk(cfg, core) && PaymentsOk(cfg, core.db) && StepOf(a, r) && other != r
    ensures Undisturbed(core, Step(cfg, core, a), other)
  {
    StepGrows(cfg, core, a);
    if a.Next? && r in core.txs && Open(core.txs[r]) {
      PaymentInPlace(cfg, core, r);
      ExecuteInPlace(cfg, core, r, core.txs[r]);
    }
  }

  /** A statement moves its own transaction and adds no row. */
  lemma ExecuteInPlace(cfg: Config, core: State, r: TxId, t: Tx)
    requires r in core.txs && (t.row.Some? ==> t.payment in core.db.payments)
    ensures var core' := Execute(cfg, core, r, t);
            core'.txs.Keys == core.txs.Keys && core'.db.payments.Keys == core.db.payments.Keys
            && forall other :: other in core.txs && other != r ==> core'.txs[other] == core.txs[other]
  {
  }

  lemma PaymentInPlace(cfg: Config, core: State, r: TxId)
    requires TxsOk(cfg, core) && r in core.txs && Open(core.txs[r])
    ensures core.txs[r].row.Some? ==> core.txs[r].payment in core.db.payments
  {
    assert TxOk(cfg, core.db, core.txs[r]);
  }

  /** What passes validation can be inserted, unless the key is taken. */
  lemma ValidatedInsertable(bank: Bank, db: Db, r: ReqId, i: Input)
    requires EarlyCheck(bank, i).None? && LateCheck(bank, i).None? && r !in db.payments
    ensures Insertable(bank.core, db, InsertOf(bank, r, i)) <==> !KeyTaken(db.payments, Merchant(bank, i), i.key)
  {
  }

  lemma InsertingOk(bank: Bank, s: SubState, r: ReqId, q: Req)
    requires q.pc.Inserting? && ReqOk(bank, s.core, r, q)
    ensures var s' := AdvanceReq(bank, s, r, q); r in s'.requests && ReqOk(bank, s'.core, r, s'.requests[r])
  {
    var a := InsertOf(bank, r, q.input);
    ValidatedInsertable(bank, s.core.db, r, q.input);
    if !Insertable(bank.core, s.core.db, a) {
      var p :| p in s.core.db.payments && s.core.db.payments[p].merchant == a.merchant
        && s.core.db.payments[p].key == a.key;
      assert HasKey(s.core.db, p, a.merchant, a.key);
    }
  }

  lemma SettlingOk(bank: Bank, s: SubState, r: ReqId, q: Req)
    requires Inv(bank.core, s.core) && q.pc.Settling? && ReqOk(bank, s.core, r, q) && s.requests[r := q] == s.requests
    ensures var s' := AdvanceReq(bank, s, r, q); r in s'.requests && ReqOk(bank, s'.core, r, s'.requests[r])
  {
    var core := s.core;
    var t := core.txs[r];
    if t.pc.Closed? {
      assert OutcomeOk(core.db, t) by { assert TxOk(bank.core, core.db, t); }
      SettlingEnds(bank, s, r, q);
    } else {
      NextOk(bank, core, r, q);
      hide Step, Inv, ReqOk;
    }
  }

  lemma SettlingEnds(bank: Bank, s: SubState, r: ReqId, q: Req)
    requires q.pc.Settling? && ReqOk(bank, s.core, r, q) && s.requests[r := q] == s.requests
    requires s.core.txs[r].pc.Closed? && OutcomeOk(s.core.db, s.core.txs[r])
    ensures var s' := AdvanceReq(bank, s, r, q); r in s'.requests && ReqOk(bank, s'.core, r, s'.requests[r])
  {
    hide Step, EarlyCheck, LateCheck, Replay, Insertable;
  }

  lemma NextOk(bank: Bank, core: State, r: ReqId, q: Req)
    requires Inv(bank.core, core) && q.pc.Settling? && ReqOk(bank, core, r, q)
    ensures ReqOk(bank, Step(bank.core, core, Next(r)), r, q)
  {
    var core' := Step(bank.core, core, Next(r));
    StepGrows(bank.core, core, Next(r));
    GrowsKeepsKey(core.db, core'.db, q.id, Merchant(bank, q.input), q.input.key);
    assert PaymentOk(bank.core, core.db.payments[q.id]);
    assert core.txs[r].row.Some? ==> Past(core.txs[r]) by { assert TxOk(bank.core, core.db, core.txs[r]); }
    NextMoves(bank.core, core, r);
  }

  /** Where one statement may lead. */
  lemma NextMoves(cfg: Config, core: State, r: TxId)
    requires r in core.txs && (core.txs[r].row.Some? ==> Past(core.txs[r]))
    ensures var core' := Step(cfg, core, Next(r));
            && r in core'.txs && core'.txs[r].payment == core.txs[r].payment
            && (Rejecting(core'.txs[r]) && !Rejecting(core.txs[r]) ==>
                !Claimable(core.db.payments, core.txs[r].payment))
  {
  }

  lemma AdvanceOk(bank: Bank, s: SubState, r: ReqId)
    requires SubInv(bank, s) && r in s.requests
    ensures var s' := SubStep(bank, s, Advance(r)); r in s'.requests && ReqOk(bank, s'.core, r, s'.requests[r])
  {
    var q := s.requests[r];
    assert ReqOk(bank, s.core, r, q);
    if q.pc.Settling? {
      SettlingOk(bank, s, r, q);
    } else if q.pc.Inserting? {
      InsertingOk(bank, s, r, q);
    } else if q.pc.Looking? {
      ReplayOk(bank, s.core, r, q, q.(pc := Validating));
    } else if q.pc.Relooking? {
      ReplayOk(bank, s.core, r, q, q.(pc := Resuming, replayed := true));
    } else {
      OtherAdvanceOk(bank, s, r, q);
    }
  }

  lemma OtherAdvanceOk(bank: Bank, s: SubState, r: ReqId, q: Req)
    requires ReqOk(bank, s.core, r, q) && s.requests[r := q] == s.requests
    requires !q.pc.Settling? && !q.pc.Inserting? && !q.pc.Looking? && !q.pc.Relooking?
    ensures var s' := AdvanceReq(bank, s, r, q); r in s'.requests && ReqOk(bank, s'.core, r, s'.requests[r])
  {
  }

  lemma KillOk(bank: Bank, core: State, r: ReqId, q: Req)
    requires ReqOk(bank, core, r, q)
    ensures ReqOk(bank, Step(bank.core, core, Abort(r)), r, q)
  {
    assert Step(bank.core, core, Abort(r)).db == core.db;
  }

  /** Every event is at most one core step of its own request. */
  lemma EventAction(bank: Bank, s: SubState, e: Event) returns (a: Action)
    ensures StepOf(a, e.req)
    ensures SubStep(bank, s, e).core == s.core || SubStep(bank, s, e).core == Step(bank.core, s.core, a)
    ensures e.req !in s.requests ==> a.Abort?
  {
    a := Abort(e.req);
    if e.Advance? && e.req in s.requests {
      var q := s.requests[e.req];
      if q.pc.Inserting? { a := InsertOf(bank, e.req, q.input); }
      if q.pc.Resuming? { a := Begin(e.req, q.id); }
      if q.pc.Settling? { a := Next(e.req); }
    }
    if e.Late? && e.req in s.requests { a := Next(e.req); }
  }

  lemma OtherRequests(bank: Bank, s: SubState, e: Event, other: ReqId)
    requires other != e.req
    ensures var s' := SubStep(bank, s, e);
            (other in s.requests <==> other in s'.requests)
              && (other in s.requests ==> s'.requests[other] == s.requests[other])
    ensures e.req in s.requests ==> e.req in SubStep(bank, s, e).requests
  {
  }

  /** Rows and transactions belong to requests. */
  lemma NewKeys(cfg: Config, core: State, a: Action, r: ReqId)
    requires TxsOk(cfg, core) && StepOf(a, r)
    ensures var core' := Step(cfg, core, a);
            forall k :: k in core'.db.payments || k in core'.txs ==>
                k in core.db.payments || k in core.txs || (k == r && !a.Abort?)
  {
    if a.Next? && r in core.txs && Open(core.txs[r]) {
      PaymentInPlace(cfg, core, r);
      ExecuteInPlace(cfg, core, r, core.txs[r]);
    }
  }

  lemma OwnEventOk(bank: Bank, s: SubState, e: Event)
    requires SubInv(bank, s)
    ensures var s' := SubStep(bank, s, e); e.req in s'.requests ==> ReqOk(bank, s'.core, e.req, s'.requests[e.req])
  {
    if e.Advance? && e.req in s.requests {
      AdvanceOk(bank, s, e.req);
    } else if e.Kill? && e.req in s.requests {
      KillOk(bank, s.core, e.req, s.requests[e.req]);
    }
    hide Step, Inv, AdvanceReq, Mine, EarlyCheck, LateCheck;
  }

  lemma EventKeeps(bank: Bank, s: SubState, e: Event)
    requires SubInv(bank, s)
    ensures SubInv(bank, SubStep(bank, s, e))
  {
    hide SubStep, Step, ReqOk, StepOf;
    var s', r := SubStep(bank, s, e), e.req;
    var a := EventAction(bank, s, e);
    StepKeeps(bank.core, s.core, a);
    OwnEventOk(bank, s, e);
    forall other | other in s'.requests ensures ReqOk(bank, s'.core, other, s'.requests[other]) {
      if other != r {
        OtherRequests(bank, s, e, other);
        StepIsPrivate(bank.core, s.core, a, r, other);
        UndisturbedStays(bank, s.core, s'.core, other, s.requests[other]);
      }
    }
    NewKeys(bank.core, s.core, a, r);
    forall k | k in s'.core.db.payments || k in s'.core.txs ensures k in s'.requests {
      if k != r { OtherRequests(bank, s, e, k); } else if r in s.requests { OtherRequests(bank, s, e, r + 1); }
    }
  }

  lemma {:induction false} SubReachable(bank: Bank, events: seq<Event>)
    ensures SubInv(bank, SubRun(bank, events))
  {
    if events == [] {
      InitOk(bank.core);
    } else {
      SubReachable(bank, events[..|events| - 1]);
      EventKeeps(bank, SubRun(bank, events[..|events| - 1]), events[|events| - 1]);
    }
  }

  // ---------------------------------------------------------------- the promises

  predicate SameKey(bank: Bank, i: Input, j: Input) {
    Merchant(bank, i) == Merchant(bank, j) && i.key == j.key
  }

  /** All requests answered under one key got the one stored Payment of that key, in the terminal
      state it is stored in; a request with another fingerprint was rejected and left no row and
      no Settlement behind. */
  lemma OneOutcomePerKey(bank: Bank, events: seq<Event>, r1: ReqId, r2: ReqId)
    requires var s := SubRun(bank, events);
             && r1 in s.requests && r2 in s.requests && SameKey(bank, s.requests[r1].input, s.requests[r2].input)
             && s.requests[r1].pc.Answered? && s.requests[r1].pc.reply.Done?
             && s.requests[r2].pc.Answered?
    ensures var s := SubRun(bank, events);
            var (q1, q2) := (s.requests[r1], s.requests[r2]);
            var payment := q1.pc.reply.payment;
            && HasKey(s.core.db, q1.id, Merchant(bank, q1.input), q1.input.key) && s.core.db.payments[q1.id] == payment
            && Terminal(payment) && payment.fingerprint == Fingerprint(bank, q1.input)
            && (forall p :: HasKey(s.core.db, p, Merchant(bank, q1.input), q1.input.key) ==> p == q1.id)
            && (q2.pc.reply.Done? ==> q2.id == q1.id && q2.pc.reply.payment == payment
                                      && Fingerprint(bank, q2.input) == payment.fingerprint)
            && (q2.pc.reply.KeyReused? ==> Fingerprint(bank, q2.input) != payment.fingerprint && Traceless(s.core, r2))
  {
    SubReachable(bank, events);
    var s := SubRun(bank, events);
    var q1, q2 := s.requests[r1], s.requests[r2];
    assert ReqOk(bank, s.core, r1, q1) && ReqOk(bank, s.core, r2, q2);
    OneRowPerKey(bank, s.core, q1);
  }

  lemma OneRowPerKey(bank: Bank, core: State, q: Req)
    requires PaymentsOk(bank.core, core.db) && Mine(bank, core.db, q, q.id)
    ensures forall p :: HasKey(core.db, p, Merchant(bank, q.input), q.input.key) ==> p == q.id
  {
  }

  lemma AnswerStays(bank: Bank, s: SubState, e: Event, r: ReqId)
    requires r in s.requests && s.requests[r].pc.Answered?
    ensures r in SubStep(bank, s, e).requests && SubStep(bank, s, e).requests[r] == s.requests[r]
  {
    if e.req != r { OtherRequests(bank, s, e, r); }
  }

  /** An answer stays true: together with OneOutcomePerKey, the answered Payment never changes. */
  lemma {:induction false} AnswersAreFinal(bank: Bank, events: seq<Event>, more: seq<Event>, r: ReqId)
    requires r in SubRun(bank, events).requests && SubRun(bank, events).requests[r].pc.Answered?
    ensures var (s, s') := (SubRun(bank, events), SubRun(bank, events + more));
            r in s'.requests && s'.requests[r] == s.requests[r]
  {
    if more == [] {
      assert events + more == events;
    } else {
      var before, last := more[..|more| - 1], more[|more| - 1];
      AnswersAreFinal(bank, events, before, r);
      assert (events + more)[..|events + more| - 1] == events + before;
      AnswerStays(bank, SubRun(bank, events + before), last, r);
    }
  }

  /** The fall-through branches of the source are dead: a lost race always finds the winner's row,
      a Settlement always finds its Payment, and a rejected Settlement finds it terminal. */
  lemma FallThroughsUnreachable(bank: Bank, events: seq<Event>, r: ReqId)
    requires r in SubRun(bank, events).requests
    ensures var s := SubRun(bank, events);
            var q := s.requests[r];
            && (q.pc.Relooking? ==> FindByKey(s.core.db, Merchant(bank, q.input), q.input.key).Some?)
            && (q.pc.Resuming? ==> q.id in s.core.db.payments)
            && (q.pc.Refetching? ==> q.id in s.core.db.payments && Terminal(s.core.db.payments[q.id]))
  {
    SubReachable(bank, events);
    var s := SubRun(bank, events);
    assert ReqOk(bank, s.core, r, s.requests[r]);
  }

  /** A rejection changes nothing: the step that answers KeyReused, or a validation error, leaves
      the database and every transaction as they were. */
  lemma RejectionChangesNothing(bank: Bank, s: SubState, e: Event)
    requires e.req in s.requests && !s.requests[e.req].pc.Answered?
    ensures var s' := SubStep(bank, s, e);
            s'.requests[e.req].pc.Answered?
              && (s'.requests[e.req].pc.reply.KeyReused? || s'.requests[e.req].pc.reply.Invalid?) ==>
              s'.core == s.core
  {
  }
}

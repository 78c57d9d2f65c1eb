/** A Payment stranded by a crash is finished by the next request with its key. */
module Recovery {
  import opened Options
  import opened Ledger
  import opened Protocol
  import opened ProtocolInvariant
  import opened Deadlock
  import opened SerialEquivalence
  import opened Submission
  import opened Idempotency

  /** Request `r` runs `n` steps with nobody else moving. */
  ghost function Alone(bank: Bank, s: SubState, r: ReqId, n: nat): SubState
    decreases n
  {
    if n == 0 then s else Alone(bank, SubStep(bank, s, Advance(r)), r, n - 1)
  }

  ghost predicate OthersClosed(core: State, r: ReqId) {
    forall i :: i in core.txs && i != r ==> !Open(core.txs[i])
  }

  ghost predicate Answers(bank: Bank, s: SubState, r: ReqId, p: PaymentId) {
    && r in s.requests && s.requests[r].pc.Answered? && s.requests[r].pc.reply.Done?
    && s.requests[r].id == p && p in s.core.db.payments && s.core.db.payments[p] == s.requests[r].pc.reply.payment
    && Terminal(s.core.db.payments[p]) && s.requests[r].pc.reply.replayed
  }

  lemma NobodyBlocks(cfg: Config, core: State, r: TxId)
    requires TxsOk(cfg, core) && OthersClosed(core, r)
    ensures !Blocked(cfg, core, r)
  {
    forall i | i in core.txs && i != r ensures core.txs[i].held == {} {
      assert TxOk(cfg, core.db, core.txs[i]);
    }
  }

  /** On its way to a verdict: about to claim a claimable row, or past the claim with the version
      it read still current. */
  predicate OnTrack(cfg: Config, core: State, r: TxId) {
    && r in core.txs
    && ((Past(core.txs[r]) && (core.txs[r].row.Some? ==> VersionCurrent(cfg, core.db, core.txs[r])))
        || (core.txs[r].pc.Claiming? && Claimable(PaymentsSeen(core.db, core.txs[r]), core.txs[r].payment))
        || (core.txs[r].pc.Closed? && core.txs[r].pc.outcome.Settled?))
  }

  predicate VersionCurrent(cfg: Config, db: Db, t: Tx)
    requires t.row.Some?
  {
    NeedsBump(cfg, t.row.value.source) && Cleared(t) ==> t.expected == Version(db, t.row.value.source)
  }

  lemma TrackHolds(cfg: Config, core: State, r: TxId)
    requires OnTrack(cfg, core, r) && Open(core.txs[r]) && BufferOk(cfg, core.txs[r])
    ensures var core' := Execute(cfg, core, r, core.txs[r]);
            && OnTrack(cfg, core', r)
            && (forall i :: i in core'.txs && i != r ==> i in core.txs && core'.txs[i] == core.txs[i])
  {
  }

  lemma OneFirst(bank: Bank, s: SubState, r: ReqId, n: nat)
    ensures Alone(bank, s, r, n + 1) == Alone(bank, SubStep(bank, s, Advance(r)), r, n)
    ensures Alone(bank, s, r, 0) == s
  {
  }

  lemma TxOfRequest(bank: Bank, s: SubState, r: ReqId)
    requires ReqsOk(bank, s) && r in s.requests && s.requests[r].pc.Settling?
    ensures r in s.core.txs && s.core.txs[r].payment == s.requests[r].id
  {
    assert ReqOk(bank, s.core, r, s.requests[r]);
  }

  ghost predicate SettlingAlone(bank: Bank, s: SubState, r: ReqId) {
    && r in s.requests && s.requests[r].pc.Settling? && s.requests[r].replayed
    && OnTrack(bank.core, s.core, r) && OthersClosed(s.core, r)
  }

  /** A Settlement with no competitor reaches its verdict. */
  lemma {:induction false} SettlesAlone(bank: Bank, s: SubState, r: ReqId) returns (n: nat)
    requires SubInv(bank, s) && SettlingAlone(bank, s, r)
    ensures Answers(bank, Alone(bank, s, r, n), r, s.requests[r].id)
    decreases Remaining(s.core.txs[r])
  {
    hide SubStep, Inv, ReqsOk;
    var s' := SubStep(bank, s, Advance(r));
    TxOfRequest(bank, s, r);
    if s.core.txs[r].pc.Closed? {
      n := 1;
      AnsweredNow(bank, s, r);
      OneFirst(bank, s', r, 0);
    } else {
      StaysOnTrack(bank, s, r);
      EventKeeps(bank, s, Advance(r));
      var m := SettlesAlone(bank, s', r);
      n := m + 1;
    }
    OneFirst(bank, s, r, n - 1);
  }

  lemma AnsweredNow(bank: Bank, s: SubState, r: ReqId)
    requires Inv(bank.core, s.core)
    requires r in s.requests && s.requests[r].pc.Settling? && s.requests[r].replayed
    requires r in s.core.txs && s.core.txs[r].payment == s.requests[r].id
    requires s.core.txs[r].pc.Closed? && s.core.txs[r].pc.outcome.Settled?
    ensures Answers(bank, SubStep(bank, s, Advance(r)), r, s.requests[r].id)
  {
    SettledIsStored(bank.core, s.core, r);
    SettlingAnswers(bank, s, r);
    hide Inv, SubStep;
  }

  lemma SettlingAnswers(bank: Bank, s: SubState, r: ReqId)
    requires r in s.requests && s.requests[r].pc.Settling?
    requires r in s.core.txs && s.core.txs[r].pc.Closed? && s.core.txs[r].pc.outcome.Settled?
    ensures SubStep(bank, s, Advance(r)) ==
            SetReq(s, r, Answer(s.requests[r], Done(s.core.txs[r].pc.outcome.payment, s.requests[r].replayed)))
  {
    hide Step, EarlyCheck, LateCheck, Replay, Insertable;
  }

  lemma SettledIsStored(cfg: Config, core: State, r: TxId)
    requires Inv(cfg, core) && r in core.txs && core.txs[r].pc.Closed? && core.txs[r].pc.outcome.Settled?
    ensures core.txs[r].payment in core.db.payments && Terminal(core.txs[r].pc.outcome.payment)
            && core.db.payments[core.txs[r].payment] == core.txs[r].pc.outcome.payment
  {
    assert TxOk(cfg, core.db, core.txs[r]);
  }

  lemma SettlingSteps(bank: Bank, s: SubState, r: ReqId)
    requires r in s.requests && s.requests[r].pc.Settling? && r in s.core.txs && Open(s.core.txs[r])
             && !Blocked(bank.core, s.core, r)
    ensures SubStep(bank, s, Advance(r)) == s.(core := Execute(bank.core, s.core, r, s.core.txs[r]))
  {
  }

  lemma StaysOnTrack(bank: Bank, s: SubState, r: ReqId)
    requires Inv(bank.core, s.core)
    requires r in s.requests && s.requests[r].pc.Settling?
    requires OnTrack(bank.core, s.core, r) && Open(s.core.txs[r]) && OthersClosed(s.core, r)
    ensures var s' := SubStep(bank, s, Advance(r));
            && r in s'.requests && s'.requests[r] == s.requests[r]
            && OnTrack(bank.core, s'.core, r) && OthersClosed(s'.core, r)
            && Remaining(s'.core.txs[r]) < Remaining(s.core.txs[r])
  {
    NobodyBlocks(bank.core, s.core, r);
    Ready(bank.core, s.core, r);
    assert BufferOk(bank.core, s.core.txs[r]) by { assert TxOk(bank.core, s.core.db, s.core.txs[r]); }
    SettlingSteps(bank, s, r);
    hide Inv, TxOk, Execute, OnTrack, Remaining, SubStep;
    TrackHolds(bank.core, s.core, r);
    ExecuteAdvances(bank.core, s.core, r, s.core.txs[r]);
  }

  // ---------------------------------------------------------------- winding down

  /** An open transaction belongs to a request that runs it or is gone. */
  ghost predicate Attended(s: SubState) {
    forall j :: j in s.core.txs && Open(s.core.txs[j]) ==>
      j in s.requests && (s.requests[j].pc.Settling? || Gone(s.requests[j]))
  }

  lemma OwnAttended(bank: Bank, s: SubState, e: Event)
    requires ReqsOk(bank, s) && Attended(s)
    ensures var s' := SubStep(bank, s, e);
            e.req in s'.core.txs && Open(s'.core.txs[e.req]) ==>
              e.req in s'.requests && (s'.requests[e.req].pc.Settling? || Gone(s'.requests[e.req]))
  {
    if e.req in s.requests { assert ReqOk(bank, s.core, e.req, s.requests[e.req]); }
  }

  lemma EventAttended(bank: Bank, s: SubState, e: Event)
    requires SubInv(bank, s) && Attended(s)
    ensures Attended(SubStep(bank, s, e))
  {
    var s' := SubStep(bank, s, e);
    OwnAttended(bank, s, e);
    var a := EventAction(bank, s, e);
    hide SubStep, Step, ReqsOk;
    forall j | j in s'.core.txs && Open(s'.core.txs[j]) && j != e.req
      ensures j in s'.requests && (s'.requests[j].pc.Settling? || Gone(s'.requests[j]))
    {
      OtherRequests(bank, s, e, j);
      StepIsPrivate(bank.core, s.core, a, e.req, j);
    }
  }

  lemma {:induction false} AlwaysAttended(bank: Bank, events: seq<Event>)
    ensures Attended(SubRun(bank, events))
  {
    if events != [] {
      var before := events[..|events| - 1];
      AlwaysAttended(bank, before);
      SubReachable(bank, before);
      EventAttended(bank, SubRun(bank, before), events[|events| - 1]);
    }
  }

  /** Every open transaction waits for another one. */
  ghost predicate Stuck(cfg: Config, core: State) {
    forall j :: j in core.txs && Open(core.txs[j]) ==> Blocked(cfg, core, j)
  }

  /** An event nobody has to decide on: a Settlement that is not blocked takes its next statement,
      or the database rolls back one whose request is gone, or a victim when all of them wait. */
  ghost predicate WindsDown(bank: Bank, s: SubState, e: Event) {
    && e.req in s.core.txs && Open(s.core.txs[e.req]) && e.req in s.requests
    && match e
       case Advance(j) => s.requests[j].pc.Settling? && !Blocked(bank.core, s.core, j)
       case Kill(j) => Gone(s.requests[j]) || Stuck(bank.core, s.core)
       case _ => false
  }

  ghost predicate AllWindDown(bank: Bank, s: SubState, events: seq<Event>)
    decreases |events|
  {
    events == [] || (WindsDown(bank, s, events[0]) && AllWindDown(bank, SubStep(bank, s, events[0]), events[1..]))
  }

  ghost function After(bank: Bank, s: SubState, events: seq<Event>): SubState
    decreases |events|
  {
    if events == [] then s else After(bank, SubStep(bank, s, events[0]), events[1..])
  }

  lemma SomethingWindsDown(bank: Bank, s: SubState) returns (e: Event)
    requires Attended(s) && !Idle(s.core)
    ensures WindsDown(bank, s, e)
  {
    if Stuck(bank.core, s.core) {
      var j :| j in s.core.txs && Open(s.core.txs[j]);
      e := Kill(j);
    } else {
      var j :| j in s.core.txs && Open(s.core.txs[j]) && !Blocked(bank.core, s.core, j);
      e := if s.requests[j].pc.Settling? then Advance(j) else Kill(j);
    }
  }

  lemma WindingWorks(bank: Bank, s: SubState, e: Event)
    requires TxsOk(bank.core, s.core) && WindsDown(bank, s, e)
    ensures var (txs, txs') := (s.core.txs, SubStep(bank, s, e).core.txs);
            Work(txs') < Work(txs)
  {
    if e.Advance? {
      SettlingSteps(bank, s, e.req);
      StepWorks(bank.core, s.core, Next(e.req));
    } else {
      StepWorks(bank.core, s.core, Abort(e.req));
    }
  }

  /** `p` is stored under the key of request `r`, which has not begun to look. */
  ghost predicate Waiting(bank: Bank, s: SubState, r: ReqId, p: PaymentId) {
    && SubInv(bank, s) && r in s.requests && s.requests[r].pc.Starting?
    && EarlyCheck(bank, s.requests[r].input).None? && Mine(bank, s.core.db, s.requests[r], p)
  }

  lemma StillWaiting(bank: Bank, s: SubState, e: Event, r: ReqId, p: PaymentId)
    requires Waiting(bank, s, r, p) && e.req in s.core.txs
    ensures Waiting(bank, SubStep(bank, s, e), r, p)
  {
    assert ReqOk(bank, s.core, r, s.requests[r]);
    var q, s' := s.requests[r], SubStep(bank, s, e);
    var a := EventAction(bank, s, e);
    EventKeeps(bank, s, e);
    OtherRequests(bank, s, e, r);
    StepIsPrivate(bank.core, s.core, a, e.req, r);
    hide SubStep, Step, SubInv;
    GrowsKeepsKey(s.core.db, s'.core.db, p, Merchant(bank, q.input), q.input.key);
  }

  /** Every open transaction ends, in no more events than there is work left. */
  lemma {:induction false} Settles(bank: Bank, s: SubState, r: ReqId, p: PaymentId) returns (others: seq<Event>)
    requires Attended(s) && Waiting(bank, s, r, p)
    ensures AllWindDown(bank, s, others) && |others| <= Work(s.core.txs)
    ensures var s' := After(bank, s, others); Idle(s'.core) && Waiting(bank, s', r, p)
    decreases Work(s.core.txs)
  {
    if Idle(s.core) {
      others := [];
    } else {
      var e := SomethingWindsDown(bank, s);
      WindingWorks(bank, s, e);
      StillWaiting(bank, s, e, r, p);
      EventAttended(bank, s, e);
      hide Work, Waiting, Attended, WindsDown, SubStep, Idle;
      var rest := Settles(bank, SubStep(bank, s, e), r, p);
      others := [e] + rest;
    }
  }

  /** `p` was stored by some earlier request, which may have died right after. A new request with
      the same key and fingerprint arrives, whatever else is going on. Once the transactions open
      at that moment have ended, the request, left alone, is answered with that Payment in a
      terminal state, as a replay. */
  lemma StrandedPaymentIsFinished(bank: Bank, events: seq<Event>, p: PaymentId, r: ReqId, i: Input)
    returns (others: seq<Event>, n: nat)
    requires var s := SubRun(bank, events);
             && r !in s.requests && EarlyCheck(bank, i).None?
             && HasKey(s.core.db, p, Merchant(bank, i), i.key)
             && s.core.db.payments[p].fingerprint == Fingerprint(bank, i)
    ensures var s := SubStep(bank, SubRun(bank, events), Arrive(r, i));
            && AllWindDown(bank, s, others) && |others| <= Work(s.core.txs)
            && Answers(bank, Alone(bank, After(bank, s, others), r, n), r, p)
  {
    var s := SubRun(bank, events);
    Arrives(bank, s, r, i);
    SubReachable(bank, events);
    AlwaysAttended(bank, events);
    var s1 := SubStep(bank, s, Arrive(r, i));
    EventKeeps(bank, s, Arrive(r, i));
    EventAttended(bank, s, Arrive(r, i));
    hide SubInv, SubStep, SubRun, Answers, Alone, EarlyCheck, Attended, Work, Idle;
    others := Settles(bank, s1, r, p);
    n := FinishedFrom(bank, After(bank, s1, others), r, p);
  }

  lemma FinishedFrom(bank: Bank, s1: SubState, r: ReqId, p: PaymentId) returns (n: nat)
    requires SubInv(bank, s1) && Idle(s1.core)
    requires r in s1.requests && s1.requests[r].pc.Starting? && EarlyCheck(bank, s1.requests[r].input).None?
    requires Mine(bank, s1.core.db, s1.requests[r], p)
    ensures Answers(bank, Alone(bank, s1, r, n), r, p)
  {
    hide SubInv, SubStep, Answers, Alone, EarlyCheck, Mine, Idle, ReqOk;
    var s3 := LooksUp(bank, s1, r, p);
    OneFirst(bank, s1, r, 1);
    OneFirst(bank, SubStep(bank, s1, Advance(r)), r, 0);
    OneFirst(bank, s3, r, 0);
    if Answers(bank, s3, r, p) {
      n := 2;
    } else {
      var m := FinishesAlone(bank, s3, r);
      n := m + 2;
      OneFirst(bank, s1, r, m + 1);
      OneFirst(bank, SubStep(bank, s1, Advance(r)), r, m);
    }
  }

  lemma Arrives(bank: Bank, s: SubState, r: ReqId, i: Input)
    requires r !in s.requests
    ensures SubStep(bank, s, Arrive(r, i)) == s.(requests := s.requests[r := Req(i, Starting, 0, None, false)])
  {
  }

  /** The first two steps find the stored Payment and either answer it or resume it. */
  lemma LooksUp(bank: Bank, s1: SubState, r: ReqId, p: PaymentId) returns (s3: SubState)
    requires SubInv(bank, s1) && Idle(s1.core)
    requires r in s1.requests && s1.requests[r].pc.Starting? && EarlyCheck(bank, s1.requests[r].input).None?
    requires Mine(bank, s1.core.db, s1.requests[r], p)
    ensures s3 == SubStep(bank, SubStep(bank, s1, Advance(r)), Advance(r)) && SubInv(bank, s3) && s3.core == s1.core
    ensures r in s3.requests && ReqOk(bank, s3.core, r, s3.requests[r])
    ensures s3.requests[r].id == p && s3.requests[r].replayed
    ensures Answers(bank, s3, r, p)
         || (s3.requests[r].pc.Resuming? && p in s3.core.db.payments && !Terminal(s3.core.db.payments[p]))
  {
    var s2 := SubStep(bank, s1, Advance(r));
    EventKeeps(bank, s1, Advance(r));
    s3 := SubStep(bank, s2, Advance(r));
    EventKeeps(bank, s2, Advance(r));
    FindsStored(bank, s2.core, s2.requests[r], p);
  }

  lemma FindsStored(bank: Bank, core: State, q: Req, p: PaymentId)
    requires PaymentsOk(bank.core, core.db) && Mine(bank, core.db, q, p)
    ensures FindByKey(core.db, Merchant(bank, q.input), q.input.key) == Some(p)
  {
    FoundByKey(core.db, Merchant(bank, q.input), q.input.key);
  }

  lemma FinishesAlone(bank: Bank, s: SubState, r: ReqId) returns (n: nat)
    requires SubInv(bank, s) && Idle(s.core)
    requires r in s.requests && ReqOk(bank, s.core, r, s.requests[r])
    requires s.requests[r].pc.Resuming? && s.requests[r].replayed
    requires s.requests[r].id in s.core.db.payments && !Terminal(s.core.db.payments[s.requests[r].id])
    ensures Answers(bank, Alone(bank, s, r, n), r, s.requests[r].id)
  {
    hide SubStep, Inv, ReqsOk;
    var s' := SubStep(bank, s, Advance(r));
    EventKeeps(bank, s, Advance(r));
    StartsOnTrack(bank, s, r);
    var m := SettlesAlone(bank, s', r);
    n := m + 1;
    OneFirst(bank, s, r, m);
  }

  lemma StartsOnTrack(bank: Bank, s: SubState, r: ReqId)
    requires Inv(bank.core, s.core) && Idle(s.core) && r in s.requests && ReqOk(bank, s.core, r, s.requests[r])
    requires s.requests[r].pc.Resuming? && s.requests[r].replayed && !Terminal(s.core.db.payments[s.requests[r].id])
    ensures var s' := SubStep(bank, s, Advance(r)); SettlingAlone(bank, s', r) && s'.requests[r].id == s.requests[r].id
  {
    assert PaymentOk(bank.core, s.core.db.payments[s.requests[r].id]);
  }

  /** The books of the whole system are those of some sequential execution. */
  lemma SubmissionsSerializable(bank: Bank, events: seq<Event>, a: AccountId)
    ensures exists rs :: IsSerialization(bank.core.kinds, SubRun(bank, events).core.db, rs)
    ensures DoubleEntry(SubRun(bank, events).core.db) && Net(SubRun(bank, events).core.db.entries) == 0
    ensures IsWallet(bank.core.kinds, a) ==> Balance(SubRun(bank, events).core.db.entries, a) >= 0
  {
    SubReachable(bank, events);
    var core := SubRun(bank, events).core;
    StateSerializable(bank.core, core);
    StateDoubleEntry(bank.core, core);
    var rs :| IsSerialization(bank.core.kinds, core.db, rs);
    SequentialSafety(bank.core.kinds, rs, a);
  }
}

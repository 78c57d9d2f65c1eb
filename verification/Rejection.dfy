/** Which requests are turned away: never one that repeats the request its Payment was created by. */
module Rejection {
  import opened Options
  import opened Ledger
  import opened Protocol
  import opened ProtocolInvariant
  import opened SerialEquivalence
  import opened Submission
  import opened Idempotency

  /** The request passes every check. */
  predicate Sound(bank: Bank, i: Input) { EarlyCheck(bank, i).None? && LateCheck(bank, i).None? }

  /** The Payment has the data of the request. */
  predicate MadeFrom(bank: Bank, i: Input, p: Payment) {
    && p.merchant == Merchant(bank, i) && p.key == i.key && p.fingerprint == Fingerprint(bank, i)
    && p.source == Source(bank, i) && p.destination == Destination(i) && p.amount == i.amount
  }

  /** A Payment was made from the request with its number, which passed every check. */
  ghost predicate CreatorsOk(bank: Bank, s: SubState) {
    forall p :: p in s.core.db.payments ==>
      && p in s.requests && Sound(bank, s.requests[p].input)
      && MadeFrom(bank, s.requests[p].input, s.core.db.payments[p])
  }

  lemma InputStays(bank: Bank, s: SubState, e: Event, r: ReqId)
    requires r in s.requests
    ensures r in SubStep(bank, s, e).requests && SubStep(bank, s, e).requests[r].input == s.requests[r].input
  {
    if e.req != r { OtherRequests(bank, s, e, r); } else { OwnInputStays(bank, s, e); }
  }

  lemma OwnInputStays(bank: Bank, s: SubState, e: Event)
    requires e.req in s.requests
    ensures var s' := SubStep(bank, s, e);
            e.req in s'.requests && s'.requests[e.req].input == s.requests[e.req].input
  {
    hide Step, EarlyCheck, LateCheck, Insertable, FindByKey;
  }

  /** A new row comes from the insert of its own request. */
  lemma NewRow(bank: Bank, s: SubState, e: Event, p: PaymentId)
    requires TxsOk(bank.core, s.core) && PaymentsOk(bank.core, s.core.db)
    requires p in SubStep(bank, s, e).core.db.payments && p !in s.core.db.payments
    ensures p == e.req && p in s.requests && s.requests[p].pc.Inserting?
    ensures SubStep(bank, s, e).core.db.payments[p] == NewPayment(InsertOf(bank, p, s.requests[p].input))
  {
    hide SubStep, Step, TxsOk, PaymentsOk;
    var a := EventAction(bank, s, e);
    if p != e.req {
      StepIsPrivate(bank.core, s.core, a, e.req, p);
    } else {
      OwnNewRow(bank, s, e);
    }
  }

  lemma OwnNewRow(bank: Bank, s: SubState, e: Event)
    requires TxsOk(bank.core, s.core)
    requires e.req in SubStep(bank, s, e).core.db.payments && e.req !in s.core.db.payments
    ensures e.req in s.requests && s.requests[e.req].pc.Inserting?
    ensures SubStep(bank, s, e).core.db.payments[e.req] == NewPayment(InsertOf(bank, e.req, s.requests[e.req].input))
  {
    NextAddsNoRow(bank.core, s.core, e.req);
    hide Execute, TxsOk, EarlyCheck, LateCheck, Insertable, FindByKey, Fingerprint, Merchant;
  }

  lemma NextAddsNoRow(cfg: Config, core: State, i: TxId)
    requires TxsOk(cfg, core)
    ensures Step(cfg, core, Next(i)).db.payments.Keys == core.db.payments.Keys
  {
    if i in core.txs && Open(core.txs[i]) {
      PaymentInPlace(cfg, core, i);
      ExecuteInPlace(cfg, core, i, core.txs[i]);
    }
    hide Execute, TxsOk;
  }

  lemma CreatorsStay(bank: Bank, s: SubState, e: Event)
    requires SubInv(bank, s) && CreatorsOk(bank, s)
    ensures CreatorsOk(bank, SubStep(bank, s, e))
  {
    var s' := SubStep(bank, s, e);
    EventGrows(bank, s, e);
    forall p | p in s'.core.db.payments
      ensures p in s'.requests && Sound(bank, s'.requests[p].input)
      ensures MadeFrom(bank, s'.requests[p].input, s'.core.db.payments[p])
    {
      if p !in s.core.db.payments {
        assert TxsOk(bank.core, s.core) && PaymentsOk(bank.core, s.core.db);
        NewRow(bank, s, e, p);
        assert ReqOk(bank, s.core, p, s.requests[p]);
      } else {
        assert Unsettled(s'.core.db.payments[p]) == Unsettled(s.core.db.payments[p]);
      }
      hide SubStep, SubInv, Merchant, Source, Fingerprint, EarlyCheck, LateCheck;
      InputStays(bank, s, e, p);
    }
  }

  lemma EventGrows(bank: Bank, s: SubState, e: Event)
    requires SubInv(bank, s)
    ensures Grows(s.core.db, SubStep(bank, s, e).core.db)
  {
    var a := EventAction(bank, s, e);
    StepGrows(bank.core, s.core, a);
  }

  lemma {:induction false} CreatorsReachable(bank: Bank, events: seq<Event>)
    ensures CreatorsOk(bank, SubRun(bank, events))
  {
    if events != [] {
      var before := events[..|events| - 1];
      CreatorsReachable(bank, before);
      SubReachable(bank, before);
      CreatorsStay(bank, SubRun(bank, before), events[|events| - 1]);
    }
  }

  /** A request with the key and fingerprint of a stored Payment is answered with that Payment or
      with an error; it is turned away only if it fails the checks itself, and so never when it
      repeats the request the Payment was made from. */
  lemma SameRequestIsServed(bank: Bank, events: seq<Event>, r: ReqId, p: PaymentId)
    requires var s := SubRun(bank, events);
             r in s.requests && s.requests[r].pc.Answered? && Mine(bank, s.core.db, s.requests[r], p)
    ensures var s := SubRun(bank, events);
            var (q, reply) := (s.requests[r], s.requests[r].pc.reply);
            && (reply.Errored? || reply.Invalid?
                || (reply.Done? && q.id == p && reply.payment == s.core.db.payments[p]))
            && (reply.Invalid? ==> Refuses(bank, q.input, reply.error))
            && p in s.requests && Sound(bank, s.requests[p].input)
            && (Sound(bank, q.input) ==> !reply.Invalid?)
            && (q.input == s.requests[p].input ==> !reply.Invalid?)
  {
    SubReachable(bank, events);
    CreatorsReachable(bank, events);
    var s := SubRun(bank, events);
    var q := s.requests[r];
    assert ReqOk(bank, s.core, r, q);
    KeyIsOnes(bank, s.core, q, p);
    hide SubRun, SubInv, ReqOk, Mine, EarlyCheck, LateCheck, MadeFrom;
    Served(bank, s, r, p);
  }

  lemma Served(bank: Bank, s: SubState, r: ReqId, p: PaymentId)
    requires CreatorsOk(bank, s) && r in s.requests && s.requests[r].pc.Answered?
    requires ReqOk(bank, s.core, r, s.requests[r]) && Mine(bank, s.core.db, s.requests[r], p)
    requires forall other :: HasKey(s.core.db, other, Merchant(bank, s.requests[r].input), s.requests[r].input.key) ==>
               other == p
    ensures var (q, reply) := (s.requests[r], s.requests[r].pc.reply);
            && (reply.Errored? || reply.Invalid?
                || (reply.Done? && q.id == p && reply.payment == s.core.db.payments[p]))
            && (reply.Invalid? ==> Refuses(bank, q.input, reply.error))
            && p in s.requests && Sound(bank, s.requests[p].input)
            && (Sound(bank, q.input) ==> !reply.Invalid?)
            && (q.input == s.requests[p].input ==> !reply.Invalid?)
  {
    hide EarlyCheck, LateCheck, Fingerprint, Merchant, MadeFrom;
  }

  lemma KeyIsOnes(bank: Bank, core: State, q: Req, p: PaymentId)
    requires PaymentsOk(bank.core, core.db) && Mine(bank, core.db, q, p)
    ensures forall other :: HasKey(core.db, other, Merchant(bank, q.input), q.input.key) ==> other == p
  {
  }

  // ---------------------------------------------------------------- a twin that is turned away

  /** A clearing Account 0 and a Wallet 1 of Merchant 7. */
  function TwinBank(fingerprint: (AccountId, AccountId, int, string) -> nat): Bank {
    Bank(Config(map[0 := Clearing, 1 := Wallet], NoKey, _ => 0), map[1 := 7], map[0 := "BRL", 1 := "BRL"], Some(0),
         fingerprint)
  }

  lemma OneMore(bank: Bank, events: seq<Event>, e: Event)
    ensures SubRun(bank, events + [e]) == SubStep(bank, SubRun(bank, events), e)
  {
    assert (events + [e])[..|events|] == events;
  }

  /** A public request may not name the clearing Account as its source, but has the key and the
      fingerprint of the funding that does: it is turned away if it comes first. */
  lemma TwinTurnedAway(fingerprint: (AccountId, AccountId, int, string) -> nat) returns (events: seq<Event>)
    ensures var (bank, s) := (TwinBank(fingerprint), SubRun(TwinBank(fingerprint), events));
            && 0 in s.requests && s.requests[0].pc == Answered(Invalid(NotFound))
            && Mine(bank, s.core.db, s.requests[0], 1)
  {
    var bank := TwinBank(fingerprint);
    var pub, fund := Public(7, 5, 0, 1, 10, "BRL"), Input.Funding(1, 10, 5);
    events := Refused(bank, pub);
    events := Stored(bank, events, pub, fund);
  }

  lemma Refused(bank: Bank, i: Input) returns (events: seq<Event>)
    requires i.Public? && LateCheck(bank, i) == Some(NotFound)
    ensures var s := SubRun(bank, events);
            && s.core == Init() && s.requests.Keys == {0}
            && s.requests[0].input == i && s.requests[0].pc == Answered(Invalid(NotFound))
  {
    hide LateCheck;
    var a := Advance(0);
    OneMore(bank, [], Arrive(0, i));
    OneMore(bank, [] + [Arrive(0, i)], a);
    OneMore(bank, [] + [Arrive(0, i)] + [a], a);
    OneMore(bank, [] + [Arrive(0, i)] + [a] + [a], a);
    events := [] + [Arrive(0, i)] + [a] + [a] + [a];
  }

  lemma Stored(bank: Bank, before: seq<Event>, i: Input, j: Input) returns (events: seq<Event>)
    requires var s := SubRun(bank, before);
             && s.core == Init() && s.requests.Keys == {0}
             && s.requests[0].input == i && s.requests[0].pc == Answered(Invalid(NotFound))
    requires Sound(bank, j) && SameKey(bank, i, j) && Fingerprint(bank, i) == Fingerprint(bank, j)
    ensures var s := SubRun(bank, events);
            && 0 in s.requests && s.requests[0].pc == Answered(Invalid(NotFound))
            && Mine(bank, s.core.db, s.requests[0], 1)
  {
    hide LateCheck, EarlyCheck, Fingerprint, Merchant;
    var a := Advance(1);
    ValidatedInsertable(bank, Init().db, 1, j);
    OneMore(bank, before, Arrive(1, j));
    OneMore(bank, before + [Arrive(1, j)], a);
    OneMore(bank, before + [Arrive(1, j)] + [a], a);
    OneMore(bank, before + [Arrive(1, j)] + [a] + [a], a);
    OneMore(bank, before + [Arrive(1, j)] + [a] + [a] + [a], a);
    events := before + [Arrive(1, j)] + [a] + [a] + [a] + [a];
  }
}

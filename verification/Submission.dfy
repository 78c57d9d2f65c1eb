/** Idempotent submission: two transactions per request, any number of requests interleaved,
    each of which may die, or lose its connection, between any two of its steps.

    Transaction one inserts the Payment as CREATED under its unique (Merchant, key); transaction
    two is a Settlement of Protocol.dfy, statement by statement. A request uses its own number
    as the fresh Payment id and as the id of its Settlement transaction. */
module Submission {
  import opened Options
  import opened Ledger
  import opened Protocol
  import opened ProtocolInvariant

  const SUPPORTED_CURRENCY := "BRL"
  const MAX_SAFE_INTEGER := 9007199254740991

  /** Accounts as the use cases see them. `fingerprint` stands for the digest of the normalized
      request; collisions are allowed. */
  datatype Bank = Bank(core: Config, owners: map<AccountId, nat>, currencies: map<AccountId, string>,
                       clearing: Option<AccountId>, fingerprint: (AccountId, AccountId, int, string) -> nat)

  /** The public API, and the internal path that funds a Wallet from clearing. */
  datatype Input =
    | Public(merchant: nat, key: nat, source: AccountId, destination: AccountId, amount: int, currency: string)
    | Funding(wallet: AccountId, amount: int, key: nat)

  datatype Error = NotFound | DestinationNotFound | InvalidAmount | UnsupportedCurrency | InvalidPayment

  datatype Reply = Done(payment: Payment, replayed: bool) | KeyReused | Invalid(error: Error) | Errored

  datatype ReqPc =
    | Starting | Looking | Validating | Inserting | Relooking | Resuming | Settling | Refetching
    | Answered(reply: Reply) | Dead

  /** `id` and `memory` are the Payment in hand once there is one. */
  datatype Req = Req(input: Input, pc: ReqPc, id: PaymentId, memory: Option<Payment>, replayed: bool)

  type ReqId = nat

  datatype SubState = SubState(core: State, requests: map<ReqId, Req>)

  // ---------------------------------------------------------------- validation

  predicate WalletOf(bank: Bank, a: AccountId) { IsWallet(bank.core.kinds, a) && a in bank.owners }

  function Merchant(bank: Bank, i: Input): nat {
    if i.Public? then i.merchant else if i.wallet in bank.owners then bank.owners[i.wallet] else 0
  }

  function Source(bank: Bank, i: Input): AccountId {
    if i.Public? then i.source else if bank.clearing.Some? then bank.clearing.value else 0
  }

  function Destination(i: Input): AccountId {
    if i.Public? then i.destination else i.wallet
  }

  function Currency(bank: Bank, a: AccountId): string {
    if a in bank.currencies then bank.currencies[a] else ""
  }

  function Fingerprint(bank: Bank, i: Input): nat {
    bank.fingerprint(Source(bank, i), Destination(i), i.amount,
                     if i.Public? then i.currency else Currency(bank, i.wallet))
  }

  predicate ValidAmount(amount: int) { 0 < amount <= MAX_SAFE_INTEGER }

  /** What funding checks before it looks at the key; the public API looks at the key first. */
  function EarlyCheck(bank: Bank, i: Input): Option<Error> {
    if i.Public? then None
    else if !WalletOf(bank, i.wallet) then Some(NotFound)
    else if bank.clearing.None? || bank.clearing.value !in bank.core.kinds then Some(NotFound)
    else if !ValidAmount(i.amount) then Some(InvalidAmount)
    else None
  }

  /** Amount, currency, ownership of the source, existence of the destination, in this order. */
  function PublicCheck(bank: Bank, i: Input): Option<Error>
    requires i.Public?
  {
    if !ValidAmount(i.amount) then Some(InvalidAmount)
    else if i.currency != SUPPORTED_CURRENCY then Some(UnsupportedCurrency)
    else if !WalletOf(bank, i.source) || bank.owners[i.source] != i.merchant then Some(NotFound)
    else if i.destination !in bank.core.kinds then Some(DestinationNotFound)
    else None
  }

  /** Payment.create: two different Accounts of one currency. */
  function LateCheck(bank: Bank, i: Input): Option<Error> {
    var early := if i.Public? then PublicCheck(bank, i) else None;
    if early.Some? then early
    else if Source(bank, i) == Destination(i) then Some(InvalidPayment)
    else if Currency(bank, Source(bank, i)) != Currency(bank, Destination(i)) then Some(InvalidPayment)
    else None
  }

  // ---------------------------------------------------------------- steps

  predicate HasKey(db: Db, p: PaymentId, merchant: nat, key: nat) {
    p in db.payments && db.payments[p].merchant == merchant && db.payments[p].key == key
  }

  ghost function FindByKey(db: Db, merchant: nat, key: nat): Option<PaymentId> {
    if p :| HasKey(db, p, merchant, key) then Some(p) else None
  }

  function Answer(q: Req, reply: Reply): Req { q.(pc := Answered(reply)) }

  /** A terminal Payment is returned as it is, any other one is settled. */
  function Resume(q: Req, id: PaymentId, payment: Payment, replayed: bool): Req {
    var q' := q.(id := id, memory := Some(payment), replayed := replayed);
    if Terminal(payment) then Answer(q', Done(payment, replayed)) else q'.(pc := Resuming)
  }

  /** replayIfExists; `missing` is what follows when the key is unknown. */
  ghost function Replay(bank: Bank, db: Db, q: Req, missing: Req): Req {
    var found := FindByKey(db, Merchant(bank, q.input), q.input.key);
    if found.None? then missing
    else if db.payments[found.value].fingerprint != Fingerprint(bank, q.input) then Answer(q, KeyReused)
    else Resume(q, found.value, db.payments[found.value], true)
  }

  function InsertOf(bank: Bank, r: ReqId, i: Input): Action {
    Insert(r, Merchant(bank, i), i.key, Fingerprint(bank, i), Source(bank, i), Destination(i), i.amount)
  }

  function SetReq(s: SubState, r: ReqId, q: Req): SubState { s.(requests := s.requests[r := q]) }

  /** The next step of request `r`; `before` is its record, `core` moves with it. */
  ghost function AdvanceReq(bank: Bank, s: SubState, r: ReqId, q: Req): SubState {
    var db := s.core.db;
    match q.pc
    case Starting =>
      var early := EarlyCheck(bank, q.input);
      SetReq(s, r, if early.Some? then Answer(q, Invalid(early.value)) else q.(pc := Looking))
    case Looking => SetReq(s, r, Replay(bank, db, q, q.(pc := Validating)))
    case Validating =>
      var late := LateCheck(bank, q.input);
      SetReq(s, r, if late.Some? then Answer(q, Invalid(late.value)) else q.(pc := Inserting))
    case Inserting =>
      var a := InsertOf(bank, r, q.input);
      var created := Insertable(bank.core, db, a);
      var s' := s.(core := Step(bank.core, s.core, a));
      var q' := q.(id := r, memory := Some(NewPayment(a)));
      SetReq(s', r, if created then q'.(pc := Resuming, replayed := false) else q'.(pc := Relooking))
    case Relooking => SetReq(s, r, Replay(bank, db, q, q.(pc := Resuming, replayed := true)))
    case Resuming =>
      if q.id in db.payments then
        SetReq(s.(core := Step(bank.core, s.core, Begin(r, q.id))), r, q.(pc := Settling))
      else SetReq(s, r, q.(pc := Refetching))
    case Settling =>
      if r in s.core.txs && s.core.txs[r].pc.Closed? then
        SetReq(s, r, match s.core.txs[r].pc.outcome
          case Settled(payment) => Answer(q, Done(payment, q.replayed))
          case Rejected(_) => q.(pc := Refetching)
          case RolledBack => Answer(q, Errored)
          case VersionConflict => Answer(q, Errored))
      else s.(core := Step(bank.core, s.core, Next(r)))
    case Refetching =>
      SetReq(s, r, if q.id in db.payments then Answer(q, Done(db.payments[q.id], q.replayed))
                   else if q.memory.Some? then Answer(q, Done(q.memory.value, q.replayed)) else q)
    case Answered(_) => s
    case Dead => s
  }

  /** `Crash`: the process serving a request dies. `Break`: its connection breaks, and the request is
      answered an error, whether or not the statement in flight, COMMIT included, took effect.
      `Late`: the database carries out what a request that is gone had sent. `Kill`: it rolls a
      transaction back, whether its request still lives or not. */
  datatype Event =
    | Arrive(req: ReqId, input: Input) | Advance(req: ReqId)
    | Crash(req: ReqId) | Break(req: ReqId) | Late(req: ReqId) | Kill(req: ReqId)

  /** The request lost its transaction: its process died, or its connection broke. */
  predicate Gone(q: Req) { q.pc.Dead? || q.pc == Answered(Errored) }

  ghost function SubStep(bank: Bank, s: SubState, e: Event): SubState {
    match e
    case Arrive(r, i) =>
      if r !in s.requests then SetReq(s, r, Req(i, Starting, 0, None, false)) else s
    case Advance(r) =>
      if r in s.requests then AdvanceReq(bank, s, r, s.requests[r]) else s
    case Crash(r) =>
      if r in s.requests && !s.requests[r].pc.Answered? then SetReq(s, r, s.requests[r].(pc := Dead)) else s
    case Break(r) =>
      if r in s.requests && !s.requests[r].pc.Answered? && !s.requests[r].pc.Dead?
      then SetReq(s, r, Answer(s.requests[r], Errored)) else s
    case Late(r) =>
      if r in s.requests && Gone(s.requests[r]) then s.(core := Step(bank.core, s.core, Next(r))) else s
    case Kill(r) => s.(core := Step(bank.core, s.core, Abort(r)))
  }

  ghost function SubRun(bank: Bank, events: seq<Event>): SubState {
    if events == [] then SubState(Init(), map[])
    else SubStep(bank, SubRun(bank, events[..|events| - 1]), events[|events| - 1])
  }
}

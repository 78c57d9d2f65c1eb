/** Settlement as PostgreSQL runs it: any number of READ COMMITTED transactions, interleaved
    statement by statement.

    Every open transaction has a private write buffer and a set of locks held until it ends.
    A statement runs only when the locks it needs are free, against a fresh snapshot: the
    committed database plus the transaction's own writes. COMMIT publishes the buffer and
    releases the locks at once; a rollback may happen at any point. */
module Protocol {
  import opened Options
  import opened Ledger

  /** The concurrency mechanisms compared with the production one, which is `NoKey`. */
  datatype Strategy = NoKey | ForUpdate | Advisory | Optimistic

  /** Accounts never change while Payments settle. `hash` is the advisory lock key of an
      Account; nothing is assumed of it, so collisions are allowed. */
  datatype Config = Config(kinds: Kinds, strategy: Strategy, hash: AccountId -> int)

  datatype Status = Created | Processing | Succeeded | Failed
  datatype FailureReason = InsufficientFunds

  datatype Payment = Payment(merchant: nat, key: nat, fingerprint: nat,
                             source: AccountId, destination: AccountId, amount: int,
                             status: Status, failure: Option<FailureReason>, ledgerTx: Option<LedgerTxId>)

  /** The committed tables. `versions` is the Wallet column only the optimistic strategy uses. */
  datatype Db = Db(payments: map<PaymentId, Payment>, ledgerTxs: set<LedgerTxId>, entries: seq<Entry>,
                   versions: map<AccountId, nat>)

  function Version(db: Db, a: AccountId): nat {
    if a in db.versions then db.versions[a] else 0
  }

  // ---------------------------------------------------------------- locks

  datatype Resource = PaymentRow(payment: PaymentId) | AccountRow(account: AccountId) | AdvisoryKey(key: int)
  datatype Mode = KeyShare | NoKeyUpdate | Update | Exclusive
  datatype Lock = Lock(resource: Resource, mode: Mode)

  /** Row-lock conflicts of PostgreSQL for the three modes in use; advisory locks are exclusive. */
  predicate ModesConflict(m: Mode, n: Mode) {
    match (m, n)
    case (KeyShare, Update) => true
    case (NoKeyUpdate, NoKeyUpdate) => true
    case (NoKeyUpdate, Update) => true
    case (Update, KeyShare) => true
    case (Update, NoKeyUpdate) => true
    case (Update, Update) => true
    case (Exclusive, Exclusive) => true
    case _ => false
  }

  predicate Conflict(l: Lock, k: Lock) {
    l.resource == k.resource && ModesConflict(l.mode, k.mode)
  }

  function RowLock(p: PaymentId): Lock { Lock(PaymentRow(p), NoKeyUpdate) }

  /** What the strategy locks before it reads the Balance of a Wallet. */
  function SourceLocks(cfg: Config, source: AccountId): set<Lock> {
    if !IsWallet(cfg.kinds, source) then {}
    else match cfg.strategy
      case NoKey => {Lock(AccountRow(source), NoKeyUpdate)}
      case ForUpdate => {Lock(AccountRow(source), Update)}
      case Advisory => {Lock(AdvisoryKey(cfg.hash(source)), Exclusive)}
      case Optimistic => {}
  }

  /** A foreign key check locks the referenced Account row. */
  function EntryLocks(p: Payment): set<Lock> {
    {Lock(AccountRow(p.source), KeyShare), Lock(AccountRow(p.destination), KeyShare)}
  }

  function VersionLock(source: AccountId): Lock { Lock(AccountRow(source), NoKeyUpdate) }

  // ---------------------------------------------------------------- transactions

  /** The next statement of a Settlement, or how it ended. */
  datatype Pc =
    | Claiming | Rejecting | Locking | Reading | Refusing | Numbering | Entering | Finishing | Bumping | Committing
    | Closed(outcome: Outcome)

  datatype Outcome = Settled(payment: Payment) | Rejected(status: Status) | RolledBack | VersionConflict

  /** `row`, `ledgerTx`, `entries` and `bumped` are the write buffer. */
  datatype Tx = Tx(payment: PaymentId, pc: Pc, held: set<Lock>, row: Option<Payment>, ledgerTx: Option<LedgerTxId>,
                   entries: seq<Entry>, expected: nat, bumped: bool)

  type TxId = nat

  /** `order` is a history variable, read by no statement: the decisions in the order in which
      they take effect. A refusal takes effect at its Balance read, a success at its COMMIT. */
  datatype Decision = Decision(request: Request, verdict: Verdict)

  datatype State = State(db: Db, txs: map<TxId, Tx>, nextLedgerTx: LedgerTxId, order: seq<Decision>)

  function Init(): State {
    State(Db(map[], {}, [], map[]), map[], 0, [])
  }

  predicate Open(t: Tx) { !t.pc.Closed? }

  predicate Past(t: Tx) { Open(t) && !t.pc.Claiming? && !t.pc.Rejecting? }

  function RequestOf(t: Tx): Request
    requires t.row.Some?
  {
    var p := t.row.value;
    Request(t.payment, p.source, p.destination, p.amount, if t.ledgerTx.Some? then t.ledgerTx.value else 0)
  }

  // ---------------------------------------------------------------- snapshots

  function PaymentsSeen(db: Db, t: Tx): map<PaymentId, Payment> {
    if t.row.Some? then db.payments[t.payment := t.row.value] else db.payments
  }

  function EntriesSeen(db: Db, t: Tx): seq<Entry> { db.entries + t.entries }

  // ---------------------------------------------------------------- waiting

  /** The locks the next statement must acquire. */
  function Wanted(cfg: Config, db: Db, t: Tx): set<Lock> {
    match t.pc
    case Claiming => if Claimable(PaymentsSeen(db, t), t.payment) then {RowLock(t.payment)} else {}
    case Locking => if t.row.Some? then SourceLocks(cfg, t.row.value.source) else {}
    case Entering => if t.row.Some? then EntryLocks(t.row.value) else {}
    case Bumping => if t.row.Some? then {VersionLock(t.row.value.source)} else {}
    case _ => {}
  }

  predicate Claimable(payments: map<PaymentId, Payment>, p: PaymentId) {
    p in payments && (payments[p].status == Created || payments[p].status == Processing)
  }

  predicate WaitsFor(cfg: Config, s: State, i: TxId, j: TxId) {
    && i in s.txs && j in s.txs && i != j
    && exists l, k :: l in Wanted(cfg, s.db, s.txs[i]) && k in s.txs[j].held && Conflict(l, k)
  }

  predicate Blocked(cfg: Config, s: State, i: TxId) {
    exists j :: j in s.txs && WaitsFor(cfg, s, i, j)
  }

  // ---------------------------------------------------------------- statements

  function Put(s: State, i: TxId, t: Tx): State { s.(txs := s.txs[i := t]) }

  function Close(t: Tx, o: Outcome): Tx
  {
    t.(pc := Closed(o), held := {}, row := None, ledgerTx := None, entries := [], bumped := false)
  }

  /** UPDATE payments SET status = 'PROCESSING' ... WHERE status IN ('CREATED', 'PROCESSING'). */
  function Claim(cfg: Config, s: State, i: TxId, t: Tx): State {
    if Claimable(PaymentsSeen(s.db, t), t.payment) then
      var row := PaymentsSeen(s.db, t)[t.payment].(status := Processing);
      Put(s, i, t.(row := Some(row), held := t.held + {RowLock(t.payment)}, pc := AfterClaim(cfg, row.source)))
    else
      Put(s, i, t.(pc := Rejecting))
  }

  /** Production always runs the row-lock statement, which matches nothing for a clearing source;
      the other strategies skip both it and the Balance read. */
  function AfterClaim(cfg: Config, source: AccountId): Pc {
    if cfg.strategy == NoKey || cfg.strategy == ForUpdate then Locking
    else if !IsWallet(cfg.kinds, source) then Numbering
    else if cfg.strategy == Advisory then Locking
    else Reading
  }

  /** No row was claimed: report the status found, or fail when there is no such Payment. */
  function Reject(s: State, i: TxId, t: Tx): State {
    var seen := PaymentsSeen(s.db, t);
    Put(s, i, Close(t, if t.payment in seen then Rejected(seen[t.payment].status) else RolledBack))
  }

  function LockSource(cfg: Config, s: State, i: TxId, t: Tx): State
    requires t.row.Some?
  {
    var source := t.row.value.source;
    Put(s, i, t.(held := t.held + SourceLocks(cfg, source),
                 pc := if IsWallet(cfg.kinds, source) then Reading else Numbering))
  }

  /** The Balance, and for the optimistic strategy the version, from one snapshot. */
  function ReadBalance(s: State, i: TxId, t: Tx): State
    requires t.row.Some?
  {
    var p := t.row.value;
    if Balance(EntriesSeen(s.db, t), p.source) < p.amount then
      Put(s, i, t.(pc := Refusing)).(order := s.order + [Decision(RequestOf(t), Fails)])
    else
      Put(s, i, t.(pc := Numbering, expected := Version(s.db, p.source)))
  }

  function MarkFailed(s: State, i: TxId, t: Tx): State
    requires t.row.Some?
  {
    Put(s, i, t.(row := Some(t.row.value.(status := Failed, failure := Some(InsufficientFunds))), pc := Committing))
  }

  /** INSERT INTO ledger_transactions: the id is drawn at once and never reused. */
  function OpenLedgerTx(s: State, i: TxId, t: Tx): State {
    Put(s, i, t.(ledgerTx := Some(s.nextLedgerTx), pc := Entering)).(nextLedgerTx := s.nextLedgerTx + 1)
  }

  function InsertEntries(s: State, i: TxId, t: Tx): State
    requires t.row.Some? && t.ledgerTx.Some?
  {
    var p, id := t.row.value, t.ledgerTx.value;
    Put(s, i, t.(
      entries := t.entries + [Entry(id, p.source, Debit, p.amount), Entry(id, p.destination, Credit, p.amount)],
      held := t.held + EntryLocks(p),
      pc := Finishing))
  }

  function MarkSucceeded(cfg: Config, s: State, i: TxId, t: Tx): State
    requires t.row.Some? && t.ledgerTx.Some?
  {
    Put(s, i, t.(
      row := Some(t.row.value.(status := Succeeded, ledgerTx := t.ledgerTx)),
      pc := if cfg.strategy == Optimistic && IsWallet(cfg.kinds, t.row.value.source) then Bumping else Committing))
  }

  /** UPDATE accounts SET version = version + 1 WHERE version = expected; no match rolls back. */
  function BumpVersion(s: State, i: TxId, t: Tx): State
    requires t.row.Some?
  {
    var source := t.row.value.source;
    if Version(s.db, source) == t.expected then
      Put(s, i, t.(bumped := true, held := t.held + {VersionLock(source)}, pc := Committing))
    else
      Put(s, i, Close(t, VersionConflict))
  }

  /** The database after the write buffer of `t` is published. */
  function Published(db: Db, t: Tx): Db
    requires t.row.Some?
  {
    var source := t.row.value.source;
    Db(db.payments[t.payment := t.row.value],
       if t.ledgerTx.Some? then db.ledgerTxs + {t.ledgerTx.value} else db.ledgerTxs,
       db.entries + t.entries,
       if t.bumped then db.versions[source := Version(db, source) + 1] else db.versions)
  }

  function Commit(s: State, i: TxId, t: Tx): State
    requires t.row.Some?
  {
    Put(s, i, Close(t, Settled(t.row.value))).(
      db := Published(s.db, t),
      order := if t.row.value.status == Succeeded then s.order + [Decision(RequestOf(t), Succeeds)] else s.order)
  }

  function Execute(cfg: Config, s: State, i: TxId, t: Tx): State {
    match t.pc
    case Claiming => Claim(cfg, s, i, t)
    case Rejecting => Reject(s, i, t)
    case Locking => if t.row.Some? then LockSource(cfg, s, i, t) else s
    case Reading => if t.row.Some? then ReadBalance(s, i, t) else s
    case Refusing => if t.row.Some? then MarkFailed(s, i, t) else s
    case Numbering => OpenLedgerTx(s, i, t)
    case Entering => if t.row.Some? && t.ledgerTx.Some? then InsertEntries(s, i, t) else s
    case Finishing => if t.row.Some? && t.ledgerTx.Some? then MarkSucceeded(cfg, s, i, t) else s
    case Bumping => if t.row.Some? then BumpVersion(s, i, t) else s
    case Committing => if t.row.Some? then Commit(s, i, t) else s
    case Closed(_) => s
  }

  /** A rolled-back refusal never took effect. */
  function Without(order: seq<Decision>, ps: set<PaymentId>): seq<Decision> {
    if order == [] then []
    else
      var last := order[|order| - 1];
      Without(order[..|order| - 1], ps) + if last.request.payment in ps then [] else [last]
  }

  predicate Refused(t: Tx) {
    t.pc.Refusing? || (t.pc.Committing? && t.row.Some? && t.row.value.status == Failed)
  }

  function Rollback(s: State, i: TxId, t: Tx): State {
    Put(s, i, Close(t, RolledBack)).(order := if Refused(t) then Without(s.order, {t.payment}) else s.order)
  }

  // ---------------------------------------------------------------- runs

  /** `Insert` is transaction one of a submission: one autocommitted INSERT of a CREATED Payment. */
  datatype Action =
    | Insert(payment: PaymentId, merchant: nat, key: nat, fingerprint: nat,
             source: AccountId, destination: AccountId, amount: int)
    | Begin(tx: TxId, payment: PaymentId)
    | Next(tx: TxId)
    | Abort(tx: TxId)

  predicate KeyTaken(payments: map<PaymentId, Payment>, merchant: nat, key: nat) {
    exists p :: p in payments && payments[p].merchant == merchant && payments[p].key == key
  }

  /** The id is fresh, the (Merchant, key) pair is free, both Accounts exist, the Amount is positive. */
  predicate Insertable(cfg: Config, db: Db, a: Action)
    requires a.Insert?
  {
    && a.payment !in db.payments
    && !KeyTaken(db.payments, a.merchant, a.key)
    && a.source in cfg.kinds && a.destination in cfg.kinds
    && a.amount > 0
  }

  function NewPayment(a: Action): Payment
    requires a.Insert?
  {
    Payment(a.merchant, a.key, a.fingerprint, a.source, a.destination, a.amount, Created, None, None)
  }

  function NewTx(p: PaymentId): Tx { Tx(p, Claiming, {}, None, None, [], 0, false) }

  /** An action that is not possible now (a blocked statement, a taken key) changes nothing. */
  function Step(cfg: Config, s: State, a: Action): State {
    match a
    case Insert(p, _, _, _, _, _, _) =>
      if Insertable(cfg, s.db, a) then s.(db := s.db.(payments := s.db.payments[p := NewPayment(a)])) else s
    case Begin(i, p) =>
      if i !in s.txs then Put(s, i, NewTx(p)) else s
    case Next(i) =>
      if i in s.txs && Open(s.txs[i]) && !Blocked(cfg, s, i) then Execute(cfg, s, i, s.txs[i]) else s
    case Abort(i) =>
      if i in s.txs && Open(s.txs[i]) then Rollback(s, i, s.txs[i]) else s
  }

  /** Every interleaving is a sequence of actions, so the reachable states are exactly the
      values of `Run`. */
  function Run(cfg: Config, actions: seq<Action>): State {
    if actions == [] then Init()
    else Step(cfg, Run(cfg, actions[..|actions| - 1]), actions[|actions| - 1])
  }

  lemma RunExtends(cfg: Config, actions: seq<Action>, a: Action)
    ensures Run(cfg, actions + [a]) == Step(cfg, Run(cfg, actions), a)
  {
    assert (actions + [a])[..|actions|] == actions;
  }

  function RunFrom(cfg: Config, s: State, actions: seq<Action>): State
    decreases |actions|
  {
    if actions == [] then s
    else RunFrom(cfg, Step(cfg, s, actions[0]), actions[1..])
  }
}

/** FakeBank: creation with Simulation Scenarios, and decisions, as interleaved statements.

    Every request is a process. Statements outside a database transaction commit at once; those
    inside write to the process's buffer and take effect together at COMMIT. A statement waits
    while another open transaction holds the row, or the unique key, it needs. */
module FakeBank {
  import opened Options
  import opened ProviderTransaction

  datatype Outcome = Succeed | Fail | Deferred | RateLimit | ErrorBeforeCommit | ErrorAfterCommit

  predicate PrePersistence(o: Outcome) { o == RateLimit || o == ErrorBeforeCommit }

  datatype ScenarioKey = ScenarioKey(client: nat, reference: string)

  /** `generation` is a history variable: which registration this row comes from. */
  datatype Scenario = Scenario(outcome: Outcome, failureCode: Option<string>, remaining: nat, generation: nat)

  datatype Row = Row(core: Core, client: nat, reference: string, key: string, fingerprint: nat,
                     amount: int, appliedOutcome: Option<Outcome>, updatedAt: Instant)

  /** History: one attempt of a registration, consumed by a process; `stored` when it was consumed
      together with a new row. */
  datatype Use = Use(generation: nat, process: ProcessId, stored: bool)
  datatype Registration = Registration(key: ScenarioKey, outcome: Outcome, failureCode: Option<string>, times: nat)

  /** History: the process whose COMMIT decided a row. */
  datatype Decider = Decider(row: RowId, process: ProcessId)

  type ProcessId = nat

  /** The committed tables, then the history. */
  datatype Db = Db(rows: map<RowId, Row>, events: seq<Event>, scenarios: map<ScenarioKey, Scenario>,
                   uses: seq<Use>, registrations: seq<Registration>, deciders: seq<Decider>)

  datatype Command = Command(client: nat, key: string, reference: string, amount: int, currency: string)

  /** `fingerprint` stands for the digest of (reference, amount, currency). */
  datatype Config = Config(lab: bool, space: char -> bool, fingerprint: (string, int, string) -> nat)

  const SUPPORTED_CURRENCY := "BRL"

  /** What a new transaction does. */
  datatype Decision = Decision(appliedOutcome: Option<Outcome>, transition: Option<Transition>)

  const IMMEDIATE_SUCCESS := Decision(None, Some(ToSucceeded))

  datatype Taken = Taken(key: ScenarioKey, generation: nat)

  /** The open database transaction of a process. */
  datatype Buffer = Buffer(taken: Option<Taken>, row: Option<Row>, events: seq<Event>)

  const EMPTY := Buffer(None, None, [])

  datatype Reply =
    | Created(row: Row) | Replayed(row: Row) | Advanced(row: Row)
    | UnsupportedCurrency | TransportError(outcome: Outcome) | KeyReused | ProviderError
    | NotFound | Refusal(refusal: Refusal) | DecidedConcurrently | Failure

  /** `Responding`: the COMMIT is done, and the answer is not given yet. */
  datatype Pc =
    | Checking | PrePersisting | Rejecting(outcome: Outcome) | Consuming | Inserting
    | Logging(pending: seq<Event>) | Committing
    | Responding(row: Row) | Replaying
    | Reading | Updating(change: Change)
    | Answered(reply: Reply) | Dead

  datatype Task = Create(command: Command) | Advance(client: nat, id: RowId, transition: Transition)

  datatype Process = Process(task: Task, pc: Pc, buffer: Buffer, decision: Decision)

  datatype State = State(db: Db, processes: map<ProcessId, Process>)

  function Init(): State { State(Db(map[], [], map[], [], [], []), map[]) }

  // ---------------------------------------------------------------- waiting

  predicate HoldsScenario(p: Process, k: ScenarioKey) {
    p.buffer.taken.Some? && p.buffer.taken.value.key == k
  }

  predicate HoldsRow(p: Process, id: RowId) {
    p.task.Advance? && p.buffer.row.Some? && p.task.id == id
  }

  predicate HoldsKey(p: Process, client: nat, key: string) {
    p.task.Create? && p.buffer.row.Some? && p.task.command.client == client && p.task.command.key == key
  }

  function KeyOf(c: Command): ScenarioKey { ScenarioKey(c.client, c.reference) }

  /** Whether consumeAttempt finds its row: attempts left, and an Outcome of the wanted kind. */
  predicate Consumable(db: Db, k: ScenarioKey, pre: bool) {
    && k in db.scenarios && db.scenarios[k].remaining > 0
    && PrePersistence(db.scenarios[k].outcome) == pre
  }

  predicate Updatable(db: Db, id: RowId, client: nat) {
    id in db.rows && db.rows[id].client == client && db.rows[id].core.status == Processing
  }

  predicate ScenarioBusy(s: State, i: ProcessId, k: ScenarioKey) {
    exists j :: j in s.processes && j != i && HoldsScenario(s.processes[j], k)
  }

  predicate RowBusy(s: State, i: ProcessId, id: RowId) {
    exists j :: j in s.processes && j != i && HoldsRow(s.processes[j], id)
  }

  predicate KeyBusy(s: State, i: ProcessId, client: nat, key: string) {
    exists j :: j in s.processes && j != i && HoldsKey(s.processes[j], client, key)
  }

  predicate Waits(cfg: Config, s: State, i: ProcessId, p: Process) {
    match p.pc
    case PrePersisting =>
      p.task.Create? && cfg.lab && Consumable(s.db, KeyOf(p.task.command), true)
        && ScenarioBusy(s, i, KeyOf(p.task.command))
    case Consuming =>
      p.task.Create? && cfg.lab && Consumable(s.db, KeyOf(p.task.command), false)
        && ScenarioBusy(s, i, KeyOf(p.task.command))
    case Inserting => p.task.Create? && KeyBusy(s, i, p.task.command.client, p.task.command.key)
    case Updating(_) => p.task.Advance? && Updatable(s.db, p.task.id, p.task.client) && RowBusy(s, i, p.task.id)
    case _ => false
  }

  // ---------------------------------------------------------------- creation

  function Put(s: State, i: ProcessId, p: Process): State { s.(processes := s.processes[i := p]) }

  function Answer(p: Process, r: Reply): Process { p.(pc := Answered(r), buffer := EMPTY) }

  function Consume(db: Db, k: ScenarioKey): Db
    requires k in db.scenarios && db.scenarios[k].remaining > 0
  {
    db.(scenarios := db.scenarios[k := db.scenarios[k].(remaining := db.scenarios[k].remaining - 1)])
  }

  /** decideBeforePersistence: one autocommitted statement; the error is answered after a delay. */
  function PrePersist(cfg: Config, s: State, i: ProcessId, p: Process): State
    requires p.task.Create?
  {
    var k := KeyOf(p.task.command);
    if cfg.lab && Consumable(s.db, k, true) then
      var scenario := s.db.scenarios[k];
      var db := Consume(s.db, k);
      State(db.(uses := db.uses + [Use(scenario.generation, i, false)]),
            s.processes[i := p.(pc := Rejecting(scenario.outcome))])
    else
      Put(s, i, p.(pc := Consuming))
  }

  function DecideFor(scenario: Scenario): Decision {
    match scenario.outcome
    case Fail => Decision(Some(Fail),
                          Some(ToFailed(if scenario.failureCode.Some? then scenario.failureCode.value else "")))
    case Deferred => Decision(Some(Deferred), None)
    case o => Decision(Some(o), Some(ToSucceeded))
  }

  /** decideNewTransaction, inside the insert's transaction. */
  function ConsumeInside(cfg: Config, s: State, i: ProcessId, p: Process): State
    requires p.task.Create?
  {
    var k := KeyOf(p.task.command);
    if cfg.lab && Consumable(s.db, k, false) then
      var scenario := s.db.scenarios[k];
      Put(s, i, p.(pc := Inserting, decision := DecideFor(scenario),
                   buffer := p.buffer.(taken := Some(Taken(k, scenario.generation)))))
    else
      Put(s, i, p.(pc := Inserting, decision := IMMEDIATE_SUCCESS))
  }

  predicate KeyTaken(db: Db, client: nat, key: string) {
    exists id :: id in db.rows && db.rows[id].client == client && db.rows[id].key == key
  }

  function NewRow(cfg: Config, c: Command, core: Core, d: Decision): Row {
    Row(core, c.client, c.reference, c.key, cfg.fingerprint(c.reference, c.amount, c.currency), c.amount,
        d.appliedOutcome, LastChangedAt(core))
  }

  /** decidedTransaction and the INSERT; a taken key rolls everything back. */
  function InsertRow(cfg: Config, s: State, i: ProcessId, p: Process, now: Instant, later: Instant): State
    requires p.task.Create?
  {
    var c := p.task.command;
    var born := CreateTransaction(i, now);
    var decided := if p.decision.transition.None? then Ok(born)
                   else Decide(born.core, p.decision.transition.value, later, cfg.space);
    if decided.Refused? then Put(s, i, Answer(p, Failure))
    else if KeyTaken(s.db, c.client, c.key) then Put(s, i, p.(pc := Replaying, buffer := EMPTY))
    else
      var pending := if p.decision.transition.None? then [born.event] else [born.event, decided.change.event];
      Put(s, i, p.(pc := Logging(pending),
                   buffer := p.buffer.(row := Some(NewRow(cfg, c, decided.change.core, p.decision)))))
  }

  function LogOne(s: State, i: ProcessId, p: Process): State
    requires p.pc.Logging?
  {
    if p.pc.pending == [] then Put(s, i, p.(pc := Committing))
    else Put(s, i, p.(pc := Logging(p.pc.pending[1..]),
                      buffer := p.buffer.(events := p.buffer.events + [p.pc.pending[0]])))
  }

  function Published(db: Db, i: ProcessId, b: Buffer): Db {
    var db1 := if b.row.Some? then db.(rows := db.rows[b.row.value.core.id := b.row.value]) else db;
    var db2 := db1.(events := db1.events + b.events);
    if b.taken.Some? && b.taken.value.key in db2.scenarios && db2.scenarios[b.taken.value.key].remaining > 0 then
      var db3 := Consume(db2, b.taken.value.key);
      db3.(uses := db3.uses + [Use(b.taken.value.generation, i, true)])
    else db2
  }

  /** The process learns that its COMMIT succeeded only afterwards, and may die before it answers. */
  function Commit(s: State, i: ProcessId, p: Process): State
    requires p.buffer.row.Some?
  {
    var db := Published(s.db, i, p.buffer);
    State(if p.task.Create? then db else db.(deciders := db.deciders + [Decider(p.task.id, i)]),
          s.processes[i := p.(pc := Responding(p.buffer.row.value), buffer := EMPTY)])
  }

  /** What is answered once the row is stored. */
  function StoredReply(p: Process, row: Row): Reply {
    if p.task.Advance? then Advanced(row)
    else if p.decision.appliedOutcome == Some(ErrorAfterCommit) then ProviderError
    else Created(row)
  }

  function Respond(s: State, i: ProcessId, p: Process): State
    requires p.pc.Responding?
  {
    Put(s, i, Answer(p, StoredReply(p, p.pc.row)))
  }

  /** Rows in the way of a key; when several are, which one is found is left to the smallest id. */
  function FindByKey(db: Db, client: nat, key: string): Option<RowId> {
    if KeyTaken(db, client, key) then
      LeastOwner(db, client, key);
      var id :| Owns(db, id, client, key)
                && forall other :: other in db.rows && Owns(db, other, client, key) ==> id <= other;
      Some(id)
    else None
  }

  predicate Owns(db: Db, id: RowId, client: nat, key: string) {
    id in db.rows && db.rows[id].client == client && db.rows[id].key == key
  }

  lemma LeastOwner(db: Db, client: nat, key: string)
    requires KeyTaken(db, client, key)
    ensures exists id :: Owns(db, id, client, key)
                         && forall other :: other in db.rows && Owns(db, other, client, key) ==> id <= other
  {
    var id :| id in db.rows && db.rows[id].client == client && db.rows[id].key == key;
    while exists other :: other in db.rows && Owns(db, other, client, key) && other < id
      invariant Owns(db, id, client, key)
      decreases id
    {
      var smaller :| smaller in db.rows && Owns(db, smaller, client, key) && smaller < id;
      id := smaller;
    }
  }

  function Replay(cfg: Config, s: State, i: ProcessId, p: Process): State
    requires p.task.Create?
  {
    var c := p.task.command;
    var found := FindByKey(s.db, c.client, c.key);
    Put(s, i, Answer(p,
      if found.None? then Failure
      else if s.db.rows[found.value].fingerprint != cfg.fingerprint(c.reference, c.amount, c.currency) then KeyReused
      else Replayed(s.db.rows[found.value])))
  }

  // ---------------------------------------------------------------- decisions

  /** A read of the row and a decision on what was read; the row may have moved by the update. */
  function ReadAndDecide(cfg: Config, s: State, i: ProcessId, p: Process, now: Instant): State
    requires p.task.Advance?
  {
    var id := p.task.id;
    if id !in s.db.rows || s.db.rows[id].client != p.task.client then Put(s, i, Answer(p, NotFound))
    else
      match Decide(s.db.rows[id].core, p.task.transition, now, cfg.space)
      case Refused(r) => Put(s, i, Answer(p, Refusal(r)))
      case Ok(change) => Put(s, i, p.(pc := Updating(change)))
  }

  /** UPDATE ... WHERE id, client and status = 'PROCESSING'. */
  function ApplyDecision(s: State, i: ProcessId, p: Process): State
    requires p.task.Advance? && p.pc.Updating?
  {
    var id, change := p.task.id, p.pc.change;
    if Updatable(s.db, id, p.task.client) then
      var row := s.db.rows[id];
      var core := row.core.(status := change.core.status, failureCode := change.core.failureCode,
                            completedAt := change.core.completedAt);
      Put(s, i, p.(pc := Logging([change.event]),
                   buffer := p.buffer.(row := Some(row.(core := core, updatedAt := LastChangedAt(change.core))))))
    else
      Put(s, i, Answer(p, DecidedConcurrently))
  }

  // ---------------------------------------------------------------- runs

  function Execute(cfg: Config, s: State, i: ProcessId, p: Process, now: Instant, later: Instant): State {
    match p.pc
    case Checking =>
      if p.task.Advance? then Put(s, i, p.(pc := Reading))
      else if p.task.command.currency != SUPPORTED_CURRENCY then Put(s, i, Answer(p, UnsupportedCurrency))
      else Put(s, i, p.(pc := PrePersisting))
    case PrePersisting => if p.task.Create? then PrePersist(cfg, s, i, p) else s
    case Rejecting(outcome) => Put(s, i, Answer(p, TransportError(outcome)))
    case Consuming => if p.task.Create? then ConsumeInside(cfg, s, i, p) else s
    case Inserting => if p.task.Create? then InsertRow(cfg, s, i, p, now, later) else s
    case Logging(_) => LogOne(s, i, p)
    case Committing => if p.buffer.row.Some? then Commit(s, i, p) else s
    case Responding(_) => Respond(s, i, p)
    case Replaying => if p.task.Create? then Replay(cfg, s, i, p) else s
    case Reading => if p.task.Advance? then ReadAndDecide(cfg, s, i, p, now) else s
    case Updating(_) => if p.task.Advance? then ApplyDecision(s, i, p) else s
    case Answered(_) => s
    case Dead => s
  }

  /** `Fault`: the transaction is rolled back, and the process answers an error or dies. */
  datatype Action =
    | Arrive(process: ProcessId, task: Task)
    | Next(process: ProcessId, now: Instant, later: Instant)
    | Fault(process: ProcessId)
    | Register(key: ScenarioKey, outcome: Outcome, failureCode: Option<string>, times: nat)

  /** The scenario schema: 1 to 100 attempts, and a Failure Code, trimmed and not blank, exactly for FAIL. */
  predicate ValidRegistration(cfg: Config, a: Action)
    requires a.Register?
  {
    && 1 <= a.times <= 100
    && (a.outcome == Fail <==> a.failureCode.Some?)
    && (a.failureCode.Some? ==>
        a.failureCode.value != "" && a.failureCode.value == Trim(a.failureCode.value, cfg.space))
  }

  /** Registering again replaces the scenario: a new registration begins. */
  function Registered(db: Db, k: ScenarioKey, outcome: Outcome, code: Option<string>, times: nat): Db {
    db.(scenarios := db.scenarios[k := Scenario(outcome, code, times, |db.registrations|)],
        registrations := db.registrations + [Registration(k, outcome, code, times)])
  }

  function Step(cfg: Config, s: State, a: Action): State {
    match a
    case Arrive(i, task) =>
      if i !in s.processes && (task.Advance? ==> cfg.lab)
      then Put(s, i, Process(task, Checking, EMPTY, IMMEDIATE_SUCCESS)) else s
    case Next(i, now, later) =>
      if i in s.processes && !Waits(cfg, s, i, s.processes[i])
      then Execute(cfg, s, i, s.processes[i], now, later) else s
    case Fault(i) =>
      if i in s.processes && !s.processes[i].pc.Answered?
      then Put(s, i, s.processes[i].(pc := Dead, buffer := EMPTY)) else s
    case Register(k, outcome, code, times) =>
      if cfg.lab && ValidRegistration(cfg, a) && !(exists j :: j in s.processes && HoldsScenario(s.processes[j], k))
      then s.(db := Registered(s.db, k, outcome, code, times)) else s
  }

  function Run(cfg: Config, actions: seq<Action>): State {
    if actions == [] then Init()
    else Step(cfg, Run(cfg, actions[..|actions| - 1]), actions[|actions| - 1])
  }
}

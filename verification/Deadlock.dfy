/** Which lock mode deadlocks, and why the production one never does. */
module Deadlock {
  import opened Protocol
  import opened ProtocolInvariant
  import opened Totals

  // ---------------------------------------------------------------- cycles

  /** A closed chain of transactions, each waiting for a lock the next one holds. */
  ghost predicate WaitCycle(cfg: Config, s: State, path: seq<TxId>) {
    |path| >= 2 && path[0] == path[|path| - 1] && WaitChain(cfg, s, path)
  }

  ghost predicate WaitChain(cfg: Config, s: State, path: seq<TxId>) {
    |path| >= 2 ==> WaitsFor(cfg, s, path[0], path[1]) && WaitChain(cfg, s, path[1..])
  }

  ghost predicate Deadlocked(cfg: Config, s: State) {
    exists path :: WaitCycle(cfg, s, path)
  }

  /** A waiting transaction is always behind the one it waits for. */
  function Rank(t: Tx): nat {
    match t.pc
    case Claiming => 0
    case Locking => 1
    case Bumping => 1
    case _ => 2
  }

  lemma WaitsForLater(cfg: Config, s: State, i: TxId, j: TxId)
    requires TxsOk(cfg, s) && cfg.strategy != ForUpdate && WaitsFor(cfg, s, i, j)
    ensures Open(s.txs[i]) && Open(s.txs[j]) && Rank(s.txs[i]) < Rank(s.txs[j])
  {
    var t, u := s.txs[i], s.txs[j];
    assert TxOk(cfg, s.db, t) && TxOk(cfg, s.db, u);
    var l, k :| l in Wanted(cfg, s.db, t) && k in u.held && Conflict(l, k);
    assert k.mode != Update;
  }

  /** Every wait is for a transaction further on. */
  ghost predicate WaitsClimb(cfg: Config, s: State) {
    forall i, j :: WaitsFor(cfg, s, i, j) ==> Rank(s.txs[i]) < Rank(s.txs[j])
  }

  lemma {:induction false} ChainClimbs(cfg: Config, s: State, path: seq<TxId>)
    requires WaitsClimb(cfg, s) && |path| >= 2 && WaitChain(cfg, s, path)
    ensures path[0] in s.txs && path[|path| - 1] in s.txs && Rank(s.txs[path[0]]) < Rank(s.txs[path[|path| - 1]])
  {
    assert WaitsFor(cfg, s, path[0], path[1]);
    if |path| > 2 { ChainClimbs(cfg, s, path[1..]); }
  }

  lemma NeverDeadlocked(cfg: Config, s: State)
    requires Inv(cfg, s) && cfg.strategy != ForUpdate
    ensures !Deadlocked(cfg, s)
  {
    forall i, j | WaitsFor(cfg, s, i, j) ensures Rank(s.txs[i]) < Rank(s.txs[j]) {
      WaitsForLater(cfg, s, i, j);
    }
    if Deadlocked(cfg, s) {
      var path :| WaitCycle(cfg, s, path);
      ChainClimbs(cfg, s, path);
    }
  }

  // ---------------------------------------------------------------- progress

  ghost predicate Idle(s: State) {
    forall i :: i in s.txs ==> !Open(s.txs[i])
  }

  /** While a transaction is open, some open transaction can take its next statement. */
  lemma SomeoneCanStep(cfg: Config, s: State, i: TxId) returns (j: TxId)
    requires Inv(cfg, s) && cfg.strategy != ForUpdate && i in s.txs && Open(s.txs[i])
    ensures j in s.txs && Open(s.txs[j]) && !Blocked(cfg, s, j)
    decreases 2 - Rank(s.txs[i])
  {
    if Blocked(cfg, s, i) {
      var k :| k in s.txs && WaitsFor(cfg, s, i, k);
      WaitsForLater(cfg, s, i, k);
      j := SomeoneCanStep(cfg, s, k);
    } else {
      j := i;
    }
  }

  /** An upper bound on the statements a transaction still executes. */
  function Remaining(t: Tx): nat {
    match t.pc
    case Claiming => 9
    case Locking => 8
    case Reading => 7
    case Numbering => 6
    case Entering => 5
    case Finishing => 4
    case Bumping => 3
    case Refusing => 2
    case Rejecting => 1
    case Committing => 1
    case Closed(_) => 0
  }

  function Weights(txs: map<TxId, Tx>): map<nat, nat> { map i | i in txs :: Remaining(txs[i]) }

  ghost function Work(txs: map<TxId, Tx>): nat { Total(Weights(txs)) }

  lemma WorkPut(txs: map<TxId, Tx>, i: TxId, t: Tx)
    requires i in txs
    ensures Work(txs[i := t]) == Work(txs) - Remaining(txs[i]) + Remaining(t)
  {
    TotalPut(Weights(txs), i, Remaining(t));
    assert Weights(txs[i := t]) == Weights(txs)[i := Remaining(t)];
  }

  lemma ExecuteAdvances(cfg: Config, s: State, i: TxId, t: Tx)
    requires Open(t) && (Past(t) <==> t.row.Some?) && (t.ledgerTx.Some? <==> Numbered(t))
    ensures var s' := Execute(cfg, s, i, t);
            i in s'.txs && s'.txs == s.txs[i := s'.txs[i]] && Remaining(s'.txs[i]) < Remaining(t)
  {
  }

  /** The step takes effect on an open transaction. */
  ghost predicate Effective(cfg: Config, s: State, a: Action) {
    && (a.Next? || a.Abort?) && a.tx in s.txs && Open(s.txs[a.tx])
    && (a.Next? ==> !Blocked(cfg, s, a.tx))
  }

  /** Termination: a statement that runs, or a rollback, uses up work, and only a new
      Settlement adds any. */
  lemma StepWorks(cfg: Config, s: State, a: Action)
    requires TxsOk(cfg, s) && !a.Begin?
    ensures var s' := Step(cfg, s, a);
            && Work(s'.txs) <= Work(s.txs)
            && (Effective(cfg, s, a) ==> Work(s'.txs) < Work(s.txs))
  {
    if Effective(cfg, s, a) {
      EffectiveAdvances(cfg, s, a);
      WorkPut(s.txs, a.tx, Step(cfg, s, a).txs[a.tx]);
    } else {
      Ineffective(cfg, s, a);
    }
  }

  lemma Ineffective(cfg: Config, s: State, a: Action)
    requires !a.Begin? && !Effective(cfg, s, a)
    ensures Step(cfg, s, a).txs == s.txs
  {
  }

  lemma EffectiveAdvances(cfg: Config, s: State, a: Action)
    requires TxsOk(cfg, s) && Effective(cfg, s, a)
    ensures var s' := Step(cfg, s, a);
            a.tx in s'.txs && s'.txs == s.txs[a.tx := s'.txs[a.tx]] && Remaining(s'.txs[a.tx]) < Remaining(s.txs[a.tx])
  {
    if a.Next? {
      Ready(cfg, s, a.tx);
      ExecuteAdvances(cfg, s, a.tx, s.txs[a.tx]);
    }
  }

  lemma UsefulStep(cfg: Config, s: State) returns (a: Action)
    requires Inv(cfg, s) && cfg.strategy != ForUpdate && !Idle(s)
    ensures a.Next? && Inv(cfg, Step(cfg, s, a))
    ensures Work(Step(cfg, s, a).txs) < Work(s.txs)
  {
    hide Work;
    var i :| i in s.txs && Open(s.txs[i]);
    var j := SomeoneCanStep(cfg, s, i);
    a := Next(j);
    StepWorks(cfg, s, a);
    StepKeeps(cfg, s, a);
  }

  /** Nothing gets stuck: from any reachable state, some order of the pending statements alone,
      no longer than the work left, ends every transaction. */
  lemma {:induction false} Drains(cfg: Config, s: State) returns (schedule: seq<Action>)
    requires Inv(cfg, s) && cfg.strategy != ForUpdate
    ensures forall a :: a in schedule ==> a.Next?
    ensures |schedule| <= Work(s.txs) && Idle(RunFrom(cfg, s, schedule))
    decreases Work(s.txs)
  {
    if Idle(s) {
      schedule := [];
    } else {
      hide Inv, Work, Step;
      var a := UsefulStep(cfg, s);
      var rest := Drains(cfg, Step(cfg, s, a));
      schedule := [a] + rest;
    }
  }
}

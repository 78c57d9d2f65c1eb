/** The concurrent protocol against the sequential rule, and what follows for the books. */
module SerialEquivalence {
  import opened Options
  import opened Ledger
  import opened Protocol
  import opened ProtocolInvariant

  function VerdictOf(p: Payment): Verdict { if p.status == Succeeded then Succeeds else Fails }

  function VerdictsOf(db: Db): map<PaymentId, Verdict> {
    map p | p in db.payments && Terminal(db.payments[p]) :: VerdictOf(db.payments[p])
  }

  /** `rs` lists exactly the settled Payments, each once and with its stored data, and settling
      them one after another yields the stored statuses and the stored ledger. */
  ghost predicate IsSerialization(kinds: Kinds, db: Db, rs: seq<Request>) {
    && (forall m, n :: 0 <= m < n < |rs| ==> rs[m].payment != rs[n].payment)
    && (forall r :: r in rs ==>
          && r.payment in db.payments && Terminal(db.payments[r.payment])
          && var p := db.payments[r.payment];
             r.source == p.source && r.destination == p.destination && r.amount == p.amount && r.amount > 0
             && (p.status == Succeeded ==> p.ledgerTx == Some(r.ledgerTx)))
    && SettleAll(kinds, rs) == Books(db.entries, VerdictsOf(db))
  }

  function Requests(order: seq<Decision>): seq<Request> {
    seq(|order|, m requires 0 <= m < |order| => order[m].request)
  }

  function Verdicts(order: seq<Decision>): map<PaymentId, Verdict> {
    if order == [] then map[]
    else Verdicts(order[..|order| - 1])[order[|order| - 1].request.payment := order[|order| - 1].verdict]
  }

  /** A legal history replays to itself under the sequential rule. */
  lemma {:induction false} LegalReplays(kinds: Kinds, order: seq<Decision>)
    requires Legal(kinds, order)
    ensures SettleAll(kinds, Requests(order)) == Books(Entries(order), Verdicts(order))
  {
    if order == [] {
    } else {
      var before, last := order[..|order| - 1], order[|order| - 1];
      LegalReplays(kinds, before);
      assert Requests(order)[..|order| - 1] == Requests(before);
      assert Entries(before) + [] == Entries(before);
    }
  }

  lemma {:induction false} VerdictsAre(order: seq<Decision>)
    requires Once(order)
    ensures forall d :: d in order ==>
              d.request.payment in Verdicts(order) && Verdicts(order)[d.request.payment] == d.verdict
    ensures forall p :: p in Verdicts(order) ==> Decided(order, p)
  {
    if order == [] {
    } else {
      var before, last := order[..|order| - 1], order[|order| - 1];
      assert order == before + [last];
      VerdictsAre(before);
      forall d | d in before ensures d.request.payment != last.request.payment {
        var m :| 0 <= m < |before| && before[m] == d;
        assert order[m] == d;
      }
      forall p | p in Verdicts(order) ensures Decided(order, p) {
        if p == last.request.payment { assert last in order; } else {
          var d :| d in before && d.request.payment == p;
          assert d in order;
        }
      }
    }
  }

  /** Payments whose decision, if any, is not committed. */
  function Pending(db: Db): set<PaymentId> {
    set p | p in db.payments && db.payments[p].status == Created
  }

  /** The history of a state, without the refusals still waiting to commit. */
  lemma CommittedHistory(cfg: Config, s: State) returns (order: seq<Decision>)
    requires Inv(cfg, s)
    ensures order == Without(s.order, Pending(s.db))
    ensures HistoryOk(cfg.kinds, order) && Entries(order) == s.db.entries
    ensures forall d :: d in order ==> Backed(s, d) && Terminal(s.db.payments[d.request.payment])
    ensures forall p :: p in s.db.payments && Terminal(s.db.payments[p]) ==> Decided(order, p)
  {
    var ps := Pending(s.db);
    order := Without(s.order, ps);
    PendingRefused(s);
    WithoutMembers(s.order, ps);
    WithoutOnce(s.order, ps);
    WithoutLegal(cfg.kinds, s.order, ps);
    WithoutNumbers(s.order, ps);
    SettledBacked(cfg, s);
  }

  lemma PendingRefused(s: State)
    requires AllBacked(s)
    ensures forall d :: d in s.order && d.request.payment in Pending(s.db) ==> d.verdict == Fails
  {
    forall d | d in s.order ensures Backed(s, d) { }
  }

  lemma SettledBacked(cfg: Config, s: State)
    requires AllBacked(s) && PaymentsOk(cfg, s.db)
    ensures forall d :: d in s.order && d.request.payment !in Pending(s.db) ==>
              Backed(s, d) && Terminal(s.db.payments[d.request.payment])
  {
    forall d | d in s.order ensures Backed(s, d) && PaymentOk(cfg, s.db.payments[d.request.payment]) {
      assert Backed(s, d);
    }
  }

  lemma VerdictsMatch(s: State, order: seq<Decision>)
    requires Once(order)
    requires forall d :: d in order ==> Backed(s, d) && Terminal(s.db.payments[d.request.payment])
    requires forall p :: p in s.db.payments && Terminal(s.db.payments[p]) ==> Decided(order, p)
    ensures Verdicts(order) == VerdictsOf(s.db)
  {
    VerdictsAre(order);
    forall p | p in VerdictsOf(s.db) ensures p in Verdicts(order) && Verdicts(order)[p] == VerdictsOf(s.db)[p] {
      var d :| d in order && d.request.payment == p;
      assert Backed(s, d);
    }
    forall p | p in Verdicts(order) ensures p in VerdictsOf(s.db) {
      var d :| d in order && d.request.payment == p;
      assert Backed(s, d);
    }
  }

  lemma StateSerializable(cfg: Config, s: State)
    requires Inv(cfg, s)
    ensures exists rs :: IsSerialization(cfg.kinds, s.db, rs)
  {
    HistorySerializes(cfg, s);
  }

  /** The committed decisions, in the order in which they took effect, are a serialization. */
  lemma HistorySerializes(cfg: Config, s: State)
    requires Inv(cfg, s)
    ensures IsSerialization(cfg.kinds, s.db, Requests(Without(s.order, Pending(s.db))))
  {
    var order := CommittedHistory(cfg, s);
    LegalReplays(cfg.kinds, order);
    VerdictsMatch(s, order);
    assert PaymentsOk(cfg, s.db);
    Serializes(cfg, s, order);
  }

  lemma Serializes(cfg: Config, s: State, order: seq<Decision>)
    requires Once(order) && PaymentsOk(cfg, s.db)
    requires forall d :: d in order ==> Backed(s, d) && Terminal(s.db.payments[d.request.payment])
    requires SettleAll(cfg.kinds, Requests(order)) == Books(s.db.entries, VerdictsOf(s.db))
    ensures IsSerialization(cfg.kinds, s.db, Requests(order))
  {
    forall r | r in Requests(order) ensures
      && r.payment in s.db.payments && Terminal(s.db.payments[r.payment])
      && var p := s.db.payments[r.payment];
         r.source == p.source && r.destination == p.destination && r.amount == p.amount && r.amount > 0
         && (p.status == Succeeded ==> p.ledgerTx == Some(r.ledgerTx))
    {
      var m :| 0 <= m < |order| && order[m].request == r;
      assert order[m] in order && Backed(s, order[m]) && PaymentOk(cfg, s.db.payments[r.payment]);
    }
  }

  /** Serial equivalence: whatever the interleaving and wherever transactions roll back, the
      committed Settlements are those of some sequential execution. */
  lemma SerialEquivalence(cfg: Config, actions: seq<Action>)
    ensures exists rs :: IsSerialization(cfg.kinds, Run(cfg, actions).db, rs)
  {
    Reachable(cfg, actions);
    StateSerializable(cfg, Run(cfg, actions));
  }

  /** No Wallet is ever overdrawn, and no money is created or lost. */
  lemma NoOverdraft(cfg: Config, actions: seq<Action>, a: AccountId)
    ensures IsWallet(cfg.kinds, a) ==> Balance(Run(cfg, actions).db.entries, a) >= 0
    ensures Net(Run(cfg, actions).db.entries) == 0
  {
    SerialEquivalence(cfg, actions);
    var rs :| IsSerialization(cfg.kinds, Run(cfg, actions).db, rs);
    SequentialSafety(cfg.kinds, rs, a);
  }

  // ---------------------------------------------------------------- double entry

  /** SUCCEEDED Payments and Ledger Transactions correspond one to one, and each Ledger Transaction
      is one debit and one credit of its Payment's Amount. */
  ghost predicate DoubleEntry(db: Db) {
    && (forall p :: p in db.payments && db.payments[p].status == Succeeded ==>
          && db.payments[p].ledgerTx.Some? && db.payments[p].ledgerTx.value in db.ledgerTxs
          && EntriesOf(db.entries, db.payments[p].ledgerTx.value)
             == [Entry(db.payments[p].ledgerTx.value, db.payments[p].source, Debit, db.payments[p].amount),
                 Entry(db.payments[p].ledgerTx.value, db.payments[p].destination, Credit, db.payments[p].amount)])
    && (forall p, q :: p in db.payments && q in db.payments && p != q && db.payments[p].status == Succeeded ==>
          db.payments[p].ledgerTx != db.payments[q].ledgerTx)
    && (forall n :: n in db.ledgerTxs ==>
          exists p :: p in db.payments && db.payments[p].status == Succeeded && db.payments[p].ledgerTx == Some(n))
    && (forall e :: e in db.entries ==> e.ledgerTx in db.ledgerTxs)
  }

  lemma {:induction false} EntriesNumbered(order: seq<Decision>)
    ensures forall e :: e in Entries(order) ==> e.ledgerTx in Numbers(order)
  {
    if order == [] {
    } else {
      var before, last := order[..|order| - 1], order[|order| - 1];
      assert order == before + [last];
      EntriesNumbered(before);
      AppendEffect(before, last);
    }
  }

  lemma {:induction false} NoEntries(entries: seq<Entry>, n: LedgerTxId)
    requires forall e :: e in entries ==> e.ledgerTx != n
    ensures EntriesOf(entries, n) == []
  {
    if entries != [] { NoEntries(entries[..|entries| - 1], n); }
  }

  lemma {:induction false} EntriesOfDecision(order: seq<Decision>, k: nat)
    requires DistinctNumbers(order) && k < |order| && order[k].verdict == Succeeds
    ensures EntriesOf(Entries(order), order[k].request.ledgerTx) == Posting(order[k].request)
  {
    var before, last, n := order[..|order| - 1], order[|order| - 1], order[k].request.ledgerTx;
    EntriesOfPosting(Entries(before), last.request, n);
    if k == |order| - 1 {
      EntriesNumbered(before);
      NoEntries(Entries(before), n);
    } else {
      EntriesOfDecision(before, k);
      assert Entries(before) + [] == Entries(before);
    }
  }

  lemma SucceededDecision(cfg: Config, s: State, p: PaymentId) returns (d: Decision)
    requires Inv(cfg, s) && p in s.db.payments && s.db.payments[p].status == Succeeded
    ensures d in s.order && d.verdict == Succeeds && d.request.payment == p
            && s.db.payments[p].ledgerTx == Some(d.request.ledgerTx)
    ensures d.request.source == s.db.payments[p].source && d.request.destination == s.db.payments[p].destination
    ensures d.request.amount == s.db.payments[p].amount
  {
    d :| d in s.order && d.request.payment == p;
    assert Backed(s, d);
  }

  lemma StateDoubleEntry(cfg: Config, s: State)
    requires Inv(cfg, s)
    ensures DoubleEntry(s.db)
  {
    forall p | p in s.db.payments && s.db.payments[p].status == Succeeded
      ensures s.db.payments[p].ledgerTx.Some? && s.db.payments[p].ledgerTx.value in s.db.ledgerTxs
      ensures EntriesOf(s.db.entries, s.db.payments[p].ledgerTx.value)
           == [Entry(s.db.payments[p].ledgerTx.value, s.db.payments[p].source, Debit, s.db.payments[p].amount),
               Entry(s.db.payments[p].ledgerTx.value, s.db.payments[p].destination, Credit, s.db.payments[p].amount)]
    {
      var d := SucceededDecision(cfg, s, p);
      var k :| 0 <= k < |s.order| && s.order[k] == d;
      EntriesOfDecision(s.order, k);
    }
    forall p, q | p in s.db.payments && q in s.db.payments && p != q && s.db.payments[p].status == Succeeded
      ensures s.db.payments[p].ledgerTx != s.db.payments[q].ledgerTx
    {
      NumbersApart(cfg, s, p, q);
    }
    forall n | n in s.db.ledgerTxs
      ensures exists p :: p in s.db.payments
                          && s.db.payments[p].status == Succeeded && s.db.payments[p].ledgerTx == Some(n)
    {
      var d :| d in s.order && d.verdict == Succeeds && d.request.ledgerTx == n;
      assert Backed(s, d);
      assert s.db.payments[d.request.payment].ledgerTx == Some(n);
    }
    EntriesNumbered(s.order);
  }

  lemma NumbersApart(cfg: Config, s: State, p: PaymentId, q: PaymentId)
    requires Inv(cfg, s) && p in s.db.payments && q in s.db.payments && p != q && s.db.payments[p].status == Succeeded
    ensures s.db.payments[p].ledgerTx != s.db.payments[q].ledgerTx
  {
    var d := SucceededDecision(cfg, s, p);
    if s.db.payments[q].status == Succeeded {
      var e := SucceededDecision(cfg, s, q);
      var m :| 0 <= m < |s.order| && s.order[m] == d;
      var n :| 0 <= n < |s.order| && s.order[n] == e;
      assert m != n;
    } else {
      assert PaymentOk(cfg, s.db.payments[q]);
    }
  }

  /** Exactly once: in every reachable state the books are double entry, no stored Payment is
      PROCESSING, and no (Merchant, key) pair occurs twice. */
  lemma ExactlyOnce(cfg: Config, actions: seq<Action>)
    ensures DoubleEntry(Run(cfg, actions).db)
    ensures var payments := Run(cfg, actions).db.payments;
            && (forall p :: p in payments ==> payments[p].status != Processing)
            && (forall p, q :: p in payments && q in payments && p != q ==>
                  payments[p].merchant != payments[q].merchant || payments[p].key != payments[q].key)
  {
    Reachable(cfg, actions);
    var s := Run(cfg, actions);
    StateDoubleEntry(cfg, s);
    forall p | p in s.db.payments ensures s.db.payments[p].status != Processing {
      assert PaymentOk(cfg, s.db.payments[p]);
    }
  }

  // ---------------------------------------------------------------- over time

  /** Rows are never deleted, their data never changes, a settled Payment never changes at all,
      and the ledger only grows. */
  ghost predicate Grows(db: Db, db': Db) {
    && (forall p :: p in db.payments ==>
          && p in db'.payments && Unsettled(db'.payments[p]) == Unsettled(db.payments[p])
          && (Terminal(db.payments[p]) ==> db'.payments[p] == db.payments[p]))
    && db.entries <= db'.entries && db.ledgerTxs <= db'.ledgerTxs
  }

  /** Only a COMMIT publishes anything: blocked, refused, conflicting and rolled-back attempts
      leave the database as it was. */
  lemma OnlyCommitsPublish(cfg: Config, s: State, a: Action)
    requires !a.Insert?
    ensures var s' := Step(cfg, s, a);
            s'.db == s.db
            || (a.Next? && a.tx in s.txs && s.txs[a.tx].pc.Committing?
                && s'.txs[a.tx].pc.Closed? && s'.txs[a.tx].pc.outcome.Settled?)
  {
  }

  lemma StepGrows(cfg: Config, s: State, a: Action)
    requires TxsOk(cfg, s) && PaymentsOk(cfg, s.db)
    ensures Grows(s.db, Step(cfg, s, a).db)
  {
    if a.Next? && a.tx in s.txs && Open(s.txs[a.tx]) && !Blocked(cfg, s, a.tx) && s.txs[a.tx].pc.Committing? {
      Ready(cfg, s, a.tx);
      CommitFacts(cfg, s, a.tx);
    } else if !a.Insert? {
      OnlyCommitsPublish(cfg, s, a);
    }
  }

  lemma OneMore(cfg: Config, actions: seq<Action>, a: Action)
    ensures Grows(Run(cfg, actions).db, Run(cfg, actions + [a]).db)
  {
    assert (actions + [a])[..|actions|] == actions;
    Reachable(cfg, actions);
    StepGrows(cfg, Run(cfg, actions), a);
  }

  lemma {:induction false} HistoryGrows(cfg: Config, actions: seq<Action>, more: seq<Action>)
    ensures Grows(Run(cfg, actions).db, Run(cfg, actions + more).db)
  {
    if more == [] {
      assert actions + more == actions;
    } else {
      var before, last := more[..|more| - 1], more[|more| - 1];
      HistoryGrows(cfg, actions, before);
      OneMore(cfg, actions + before, last);
      assert actions + more == actions + before + [last];
      GrowsTransitive(Run(cfg, actions).db, Run(cfg, actions + before).db, Run(cfg, actions + more).db);
    }
  }

  lemma GrowsTransitive(x: Db, y: Db, z: Db)
    requires Grows(x, y) && Grows(y, z)
    ensures Grows(x, z)
  {
  }

  /** With the optimistic strategy, the version of a Wallet counts its committed debits. */
  lemma VersionCountsDebits(cfg: Config, actions: seq<Action>, a: AccountId)
    requires cfg.strategy == Optimistic && IsWallet(cfg.kinds, a)
    ensures Version(Run(cfg, actions).db, a) == DebitCount(Run(cfg, actions).db.entries, a)
  {
    Reachable(cfg, actions);
  }
}

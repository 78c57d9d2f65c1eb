/** What every reachable state of the Settlement protocol satisfies. */
module ProtocolInvariant {
  import opened Options
  import opened Ledger
  import opened Protocol

  // ---------------------------------------------------------------- one transaction

  /** Funds were checked (or need not be) and the entries will be posted. */
  predicate Cleared(t: Tx) {
    || t.pc.Numbering? || t.pc.Entering? || t.pc.Finishing? || t.pc.Bumping?
    || (t.pc.Committing? && t.row.Some? && t.row.value.status == Succeeded)
  }

  predicate Posted(t: Tx) {
    Cleared(t) && !t.pc.Numbering? && !t.pc.Entering?
  }

  predicate Numbered(t: Tx) {
    Cleared(t) && !t.pc.Numbering?
  }

  predicate NeedsBump(cfg: Config, source: AccountId) {
    cfg.strategy == Optimistic && IsWallet(cfg.kinds, source)
  }

  /** Exactly which locks a transaction holds, from its next statement alone. */
  function HeldAt(cfg: Config, t: Tx): set<Lock> {
    if !Past(t) || t.row.None? then {}
    else
      {RowLock(t.payment)}
      + (if t.pc.Locking? then {} else SourceLocks(cfg, t.row.value.source))
      + (if Posted(t) then EntryLocks(t.row.value) else {})
      + (if t.bumped then {VersionLock(t.row.value.source)} else {})
  }

  /** The stored row, as the transaction found it. */
  function Unsettled(p: Payment): Payment {
    p.(status := Created, failure := None, ledgerTx := None)
  }

  predicate RowOk(t: Tx)
    requires t.row.Some?
  {
    var row := t.row.value;
    if t.pc.Committing? then
      if row.status == Succeeded then row == Unsettled(row).(status := Succeeded, ledgerTx := t.ledgerTx)
      else row == Unsettled(row).(status := Failed, failure := Some(InsufficientFunds))
    else if t.pc.Bumping? then row == Unsettled(row).(status := Succeeded, ledgerTx := t.ledgerTx)
    else row == Unsettled(row).(status := Processing)
  }

  predicate BufferOk(cfg: Config, t: Tx) {
    && (Past(t) <==> t.row.Some?)
    && (t.row.Some? ==> RowOk(t))
    && (t.ledgerTx.Some? <==> Numbered(t))
    && t.entries == (if Posted(t) && t.row.Some? then Posting(RequestOf(t)) else [])
    && (t.bumped <==> t.pc.Committing? && Cleared(t) && t.row.Some? && NeedsBump(cfg, t.row.value.source))
    && ((t.pc.Reading? || Refused(t) || t.pc.Bumping?) && t.row.Some? ==> IsWallet(cfg.kinds, t.row.value.source))
    && (t.pc.Bumping? ==> cfg.strategy == Optimistic)
    && t.held == HeldAt(cfg, t)
  }

  /** The claimed row is still CREATED in the committed table, with the data the buffer has. */
  predicate ClaimOk(db: Db, t: Tx) {
    t.row.Some? ==> t.payment in db.payments && db.payments[t.payment] == Unsettled(t.row.value)
  }

  /** The heart of the protocol: past the funds check, the committed Balance still covers the
      Amount. The optimistic strategy only knows it as long as the version has not moved, and
      its last statement makes sure that it has not. */
  predicate FundsOk(cfg: Config, db: Db, t: Tx) {
    Cleared(t) && t.row.Some? && IsWallet(cfg.kinds, t.row.value.source) ==>
      var source := t.row.value.source;
      var covered := Balance(db.entries, source) >= t.row.value.amount;
      if cfg.strategy == Optimistic then
        && t.expected <= Version(db, source)
        && (t.expected == Version(db, source) ==> covered)
        && (t.bumped ==> t.expected == Version(db, source))
      else covered
  }

  predicate Terminal(p: Payment) { p.status == Succeeded || p.status == Failed }

  /** What a Settlement answered is what is stored. */
  predicate OutcomeOk(db: Db, t: Tx) {
    t.pc.Closed? && t.pc.outcome.Settled? ==>
      t.payment in db.payments && db.payments[t.payment] == t.pc.outcome.payment && Terminal(t.pc.outcome.payment)
  }

  predicate TxOk(cfg: Config, db: Db, t: Tx) {
    BufferOk(cfg, t) && ClaimOk(db, t) && FundsOk(cfg, db, t) && OutcomeOk(db, t)
  }

  // ---------------------------------------------------------------- the whole state

  ghost predicate TxsOk(cfg: Config, s: State) {
    forall i :: i in s.txs ==> TxOk(cfg, s.db, s.txs[i])
  }

  ghost predicate Compatible(t: Tx, u: Tx) {
    forall l, k :: l in t.held && k in u.held ==> !Conflict(l, k)
  }

  /** No two transactions hold conflicting locks. */
  ghost predicate LocksOk(s: State) {
    forall i, j :: i in s.txs && j in s.txs && i != j ==> Compatible(s.txs[i], s.txs[j])
  }

  /** Ledger Transaction ids in use are below the counter and belong to one transaction each. */
  ghost predicate NumbersOk(s: State) {
    && (forall n :: n in s.db.ledgerTxs ==> n < s.nextLedgerTx)
    && (forall i :: i in s.txs && s.txs[i].ledgerTx.Some? ==>
          s.txs[i].ledgerTx.value < s.nextLedgerTx && s.txs[i].ledgerTx.value !in s.db.ledgerTxs)
    && (forall i, j :: i in s.txs && j in s.txs && i != j && s.txs[i].ledgerTx.Some? && s.txs[j].ledgerTx.Some? ==>
          s.txs[i].ledgerTx != s.txs[j].ledgerTx)
  }

  predicate PaymentOk(cfg: Config, p: Payment) {
    && p.amount > 0 && p.source in cfg.kinds && p.destination in cfg.kinds
    && p.status != Processing
    && (p.status == Succeeded <==> p.ledgerTx.Some?)
    && (p.status == Failed <==> p.failure.Some?)
  }

  /** Committed Payments are never PROCESSING, and (Merchant, key) is unique. */
  ghost predicate PaymentsOk(cfg: Config, db: Db) {
    && (forall p :: p in db.payments ==> PaymentOk(cfg, db.payments[p]))
    && (forall p, q :: p in db.payments && q in db.payments && p != q ==>
          db.payments[p].merchant != db.payments[q].merchant || db.payments[p].key != db.payments[q].key)
  }

  // ---------------------------------------------------------------- the order of decisions

  function Entries(order: seq<Decision>): seq<Entry> {
    if order == [] then []
    else
      var last := order[|order| - 1];
      Entries(order[..|order| - 1]) + if last.verdict == Succeeds then Posting(last.request) else []
  }

  function Numbers(order: seq<Decision>): set<LedgerTxId> {
    set d | d in order && d.verdict == Succeeds :: d.request.ledgerTx
  }

  /** Each decision is the one the sequential rule takes after those before it. */
  predicate Legal(kinds: Kinds, order: seq<Decision>) {
    order == [] ||
    (var before, last := order[..|order| - 1], order[|order| - 1];
     && Legal(kinds, before)
     && (last.verdict == Succeeds <==> Affords(kinds, Entries(before), last.request))
     && last.request.amount > 0)
  }

  ghost predicate DistinctNumbers(order: seq<Decision>) {
    forall m, n :: 0 <= m < n < |order| && order[m].verdict == Succeeds && order[n].verdict == Succeeds ==>
      order[m].request.ledgerTx != order[n].request.ledgerTx
  }

  ghost predicate Once(order: seq<Decision>) {
    forall m, n :: 0 <= m < n < |order| ==> order[m].request.payment != order[n].request.payment
  }

  /** A decision on `p` is backed by the committed row, or, for a refusal, by the open
      transaction that is about to write it. */
  ghost predicate Backed(s: State, d: Decision) {
    var r := d.request;
    && r.payment in s.db.payments
    && (var p := s.db.payments[r.payment];
        && r.source == p.source && r.destination == p.destination && r.amount == p.amount
        && (d.verdict == Succeeds <==> p.status == Succeeded)
        && (d.verdict == Succeeds ==> p.ledgerTx == Some(r.ledgerTx))
        && (p.status == Created ==> exists i :: RefusedBy(s, i, r.payment)))
  }

  predicate RefusedBy(s: State, i: TxId, p: PaymentId) {
    i in s.txs && Refused(s.txs[i]) && s.txs[i].payment == p
  }

  ghost predicate Decided(order: seq<Decision>, p: PaymentId) {
    exists d :: d in order && d.request.payment == p
  }

  /** The decisions form a legal serial history, each Payment at most once. */
  ghost predicate HistoryOk(kinds: Kinds, order: seq<Decision>) {
    Once(order) && Legal(kinds, order) && DistinctNumbers(order)
  }

  ghost predicate AllBacked(s: State) {
    forall d :: d in s.order ==> Backed(s, d)
  }

  /** Nothing was decided outside the history. */
  ghost predicate AllDecided(s: State) {
    && (forall p :: p in s.db.payments && s.db.payments[p].status != Created ==> Decided(s.order, p))
    && (forall i :: i in s.txs && Refused(s.txs[i]) ==> Decided(s.order, s.txs[i].payment))
  }

  ghost predicate BooksMatch(db: Db, order: seq<Decision>) {
    db.entries == Entries(order) && db.ledgerTxs == Numbers(order)
  }

  ghost predicate OrderOk(cfg: Config, s: State) {
    HistoryOk(cfg.kinds, s.order) && AllBacked(s) && AllDecided(s) && BooksMatch(s.db, s.order)
  }

  /** For the optimistic strategy, the version of a Wallet counts its committed debits. */
  ghost predicate VersionsOk(cfg: Config, db: Db) {
    cfg.strategy == Optimistic ==>
      forall a :: IsWallet(cfg.kinds, a) ==> Version(db, a) == DebitCount(db.entries, a)
  }

  ghost predicate Inv(cfg: Config, s: State) {
    && TxsOk(cfg, s) && LocksOk(s) && NumbersOk(s)
    && PaymentsOk(cfg, s.db) && OrderOk(cfg, s) && VersionsOk(cfg, s.db)
  }

  // ---------------------------------------------------------------- preservation: one transaction

  lemma InitOk(cfg: Config)
    ensures Inv(cfg, Init())
  {
  }

  lemma CompatibleSymmetric(t: Tx, u: Tx)
    ensures Compatible(t, u) == Compatible(u, t)
  {
    assert forall l, k :: Conflict(l, k) == Conflict(k, l);
  }

  /** A statement that is not blocked acquires only locks compatible with all others. */
  lemma AcquiredCompatible(cfg: Config, s: State, i: TxId, t': Tx)
    requires LocksOk(s) && i in s.txs && !Blocked(cfg, s, i)
    requires t'.held <= s.txs[i].held + Wanted(cfg, s.db, s.txs[i])
    ensures LocksOk(Put(s, i, t'))
  {
    forall j | j in s.txs && j != i ensures Compatible(t', s.txs[j]) {
      assert !WaitsFor(cfg, s, i, j);
      assert Compatible(s.txs[i], s.txs[j]);
    }
    PutCompatible(s, i, t');
  }

  lemma PutCompatible(s: State, i: TxId, t': Tx)
    requires LocksOk(s) && forall j :: j in s.txs && j != i ==> Compatible(t', s.txs[j])
    ensures LocksOk(Put(s, i, t'))
  {
    forall j, k | j in s.txs.Keys + {i} && k in s.txs.Keys + {i} && j != k
      ensures Compatible(Put(s, i, t').txs[j], Put(s, i, t').txs[k])
    {
      if k == i { CompatibleSymmetric(s.txs[j], t'); }
    }
  }

  lemma CarriesOver(s: State, s': State)
    requires AllBacked(s) && AllDecided(s) && s'.db == s.db && s'.order == s.order && s.txs.Keys <= s'.txs.Keys
    requires forall i :: i in s.txs ==> s'.txs[i].payment == s.txs[i].payment && Refused(s'.txs[i]) == Refused(s.txs[i])
    requires forall i :: i in s'.txs && i !in s.txs ==> !Refused(s'.txs[i])
    ensures AllBacked(s') && AllDecided(s')
  {
    forall d | d in s'.order ensures Backed(s', d) {
      assert Backed(s, d);
      if s.db.payments[d.request.payment].status == Created {
        var i :| RefusedBy(s, i, d.request.payment);
        assert RefusedBy(s', i, d.request.payment);
      }
    }
  }

  /** A statement that only touches the transaction's own record: no commit, no decision. */
  lemma LocalKeeps(cfg: Config, s: State, i: TxId, t': Tx)
    requires Inv(cfg, s) && i in s.txs && !Blocked(cfg, s, i)
    requires TxOk(cfg, s.db, t')
    requires t'.held <= s.txs[i].held + Wanted(cfg, s.db, s.txs[i])
    requires t'.payment == s.txs[i].payment && Refused(t') == Refused(s.txs[i])
    requires t'.ledgerTx == s.txs[i].ledgerTx || t'.ledgerTx == None
    ensures Inv(cfg, Put(s, i, t'))
  {
    var s' := Put(s, i, t');
    AcquiredCompatible(cfg, s, i, t');
    CarriesOver(s, s');
    PutTx(cfg, s, i, t');
    PutNumbers(s, i, t');
  }

  lemma PutTx(cfg: Config, s: State, i: TxId, t': Tx)
    requires TxsOk(cfg, s) && TxOk(cfg, s.db, t')
    ensures TxsOk(cfg, Put(s, i, t'))
  {
  }

  lemma PutNumbers(s: State, i: TxId, t': Tx)
    requires NumbersOk(s) && i in s.txs && (t'.ledgerTx == s.txs[i].ledgerTx || t'.ledgerTx == None)
    ensures NumbersOk(Put(s, i, t'))
  {
  }

  lemma NewNumber(s: State, i: TxId, t': Tx)
    requires NumbersOk(s) && t'.ledgerTx == Some(s.nextLedgerTx)
    ensures NumbersOk(Put(s, i, t').(nextLedgerTx := s.nextLedgerTx + 1))
  {
  }

  // What each statement does to its own transaction.

  lemma ClaimTx(cfg: Config, s: State, i: TxId, t: Tx)
    requires TxOk(cfg, s.db, t) && t.pc.Claiming? && PaymentsOk(cfg, s.db)
    ensures TxOk(cfg, s.db, Claim(cfg, s, i, t).txs[i])
  {
    if Claimable(s.db.payments, t.payment) {
      assert PaymentOk(cfg, s.db.payments[t.payment]);
    }
  }

  lemma LockTx(cfg: Config, s: State, i: TxId, t: Tx)
    requires TxOk(cfg, s.db, t) && t.pc.Locking? && t.row.Some?
    ensures TxOk(cfg, s.db, LockSource(cfg, s, i, t).txs[i])
  {
  }

  lemma InsertEntriesTx(cfg: Config, s: State, i: TxId, t: Tx)
    requires TxOk(cfg, s.db, t) && t.pc.Entering? && t.row.Some? && t.ledgerTx.Some?
    ensures TxOk(cfg, s.db, InsertEntries(s, i, t).txs[i])
  {
    assert t.entries == [];
  }

  lemma MarkSucceededTx(cfg: Config, s: State, i: TxId, t: Tx)
    requires TxOk(cfg, s.db, t) && t.pc.Finishing? && t.row.Some? && t.ledgerTx.Some?
    ensures TxOk(cfg, s.db, MarkSucceeded(cfg, s, i, t).txs[i])
  {
  }

  lemma BumpTx(cfg: Config, s: State, i: TxId, t: Tx)
    requires TxOk(cfg, s.db, t) && t.pc.Bumping? && t.row.Some?
    ensures TxOk(cfg, s.db, BumpVersion(s, i, t).txs[i])
  {
  }

  lemma ReadTx(cfg: Config, s: State, i: TxId, t: Tx)
    requires TxOk(cfg, s.db, t) && t.pc.Reading? && t.row.Some?
    ensures TxOk(cfg, s.db, ReadBalance(s, i, t).txs[i])
    ensures EntriesSeen(s.db, t) == s.db.entries && IsWallet(cfg.kinds, t.row.value.source)
  {
    assert EntriesSeen(s.db, t) == s.db.entries;
  }

  lemma MarkFailedTx(cfg: Config, s: State, i: TxId, t: Tx)
    requires TxOk(cfg, s.db, t) && t.pc.Refusing? && t.row.Some?
    ensures TxOk(cfg, s.db, MarkFailed(s, i, t).txs[i]) && Refused(MarkFailed(s, i, t).txs[i])
  {
  }

  lemma NumberTx(cfg: Config, s: State, i: TxId, t: Tx)
    requires i in s.txs && s.txs[i] == t && TxOk(cfg, s.db, t) && t.pc.Numbering?
    ensures var t' := OpenLedgerTx(s, i, t).txs[i]; TxOk(cfg, s.db, t') && t'.held == t.held
  {
  }

  /** Drawing a Ledger Transaction id moves the counter past it. */
  lemma NumberKeeps(cfg: Config, s: State, i: TxId)
    requires Inv(cfg, s) && i in s.txs && s.txs[i].pc.Numbering? && !Blocked(cfg, s, i)
    ensures Inv(cfg, OpenLedgerTx(s, i, s.txs[i]))
  {
    var t, s' := s.txs[i], OpenLedgerTx(s, i, s.txs[i]);
    var t' := s'.txs[i];
    NumberTx(cfg, s, i, t);
    AcquiredCompatible(cfg, s, i, t');
    PutTx(cfg, s, i, t');
    CarriesOver(s, s');
    NewNumber(s, i, t');
  }

  // ---------------------------------------------------------------- preservation: decisions

  lemma HistoryAppend(kinds: Kinds, order: seq<Decision>, d: Decision)
    requires HistoryOk(kinds, order) && !Decided(order, d.request.payment)
    requires d.verdict == Succeeds ==> d.request.ledgerTx !in Numbers(order)
    requires d.verdict == Succeeds <==> Affords(kinds, Entries(order), d.request)
    requires d.request.amount > 0
    ensures HistoryOk(kinds, order + [d])
  {
    var order' := order + [d];
    assert order'[..|order'| - 1] == order;
    forall m | 0 <= m < |order| ensures order[m].request.payment != d.request.payment {
      assert order[m] in order;
    }
    forall m | 0 <= m < |order| && order[m].verdict == Succeeds ensures order[m].request.ledgerTx in Numbers(order) {
      assert order[m] in order;
    }
  }

  lemma AppendEffect(order: seq<Decision>, d: Decision)
    ensures Entries(order + [d]) == Entries(order) + (if d.verdict == Succeeds then Posting(d.request) else [])
    ensures Numbers(order + [d]) == Numbers(order) + (if d.verdict == Succeeds then {d.request.ledgerTx} else {})
    ensures Decided(order + [d], d.request.payment)
    ensures forall p :: Decided(order, p) ==> Decided(order + [d], p)
  {
    var order' := order + [d];
    assert order'[..|order'| - 1] == order;
    assert d in order';
    forall p | Decided(order, p) ensures Decided(order', p) {
      var e :| e in order && e.request.payment == p;
      assert e in order';
    }
  }

  /** Two transactions never hold a claim on the same Payment. */
  lemma SameClaim(cfg: Config, s: State, i: TxId, j: TxId)
    requires TxsOk(cfg, s) && LocksOk(s) && i in s.txs && j in s.txs && s.txs[i].row.Some? && s.txs[j].row.Some?
    requires s.txs[i].payment == s.txs[j].payment
    ensures i == j
  {
    var t, u := s.txs[i], s.txs[j];
    assert TxOk(cfg, s.db, t) && TxOk(cfg, s.db, u);
    assert i == j || Compatible(t, u);
    assert RowLock(t.payment) in t.held && RowLock(u.payment) in u.held;
    assert Conflict(RowLock(t.payment), RowLock(u.payment));
  }

  /** No decision on a Payment whose claim is held and not yet decided. */
  lemma UndecidedWhileClaimed(cfg: Config, s: State, i: TxId)
    requires TxsOk(cfg, s) && LocksOk(s) && AllBacked(s) && i in s.txs && s.txs[i].row.Some? && !Refused(s.txs[i])
    ensures !Decided(s.order, s.txs[i].payment)
  {
    var t := s.txs[i];
    assert TxOk(cfg, s.db, t);
    if Decided(s.order, t.payment) {
      var d :| d in s.order && d.request.payment == t.payment;
      assert Backed(s, d);
      var j :| RefusedBy(s, j, t.payment);
      assert TxOk(cfg, s.db, s.txs[j]);
      SameClaim(cfg, s, i, j);
      assert false;
    }
  }

  /** A decision on another Payment stays backed while `i` moves. */
  lemma StillBacked(s: State, s': State, i: TxId, e: Decision)
    requires i in s.txs && Backed(s, e) && e.request.payment != s.txs[i].payment
    requires e.request.payment in s'.db.payments
             && s'.db.payments[e.request.payment] == s.db.payments[e.request.payment]
    requires forall j :: j in s.txs && j != i ==> j in s'.txs && s'.txs[j] == s.txs[j]
    ensures Backed(s', e)
  {
    if s.db.payments[e.request.payment].status == Created {
      var j :| RefusedBy(s, j, e.request.payment);
      assert RefusedBy(s', j, e.request.payment);
    }
  }

  lemma RefuseKeeps(cfg: Config, s: State, i: TxId)
    requires Inv(cfg, s) && i in s.txs && s.txs[i].pc.Reading? && s.txs[i].row.Some? && !Blocked(cfg, s, i)
    requires Balance(EntriesSeen(s.db, s.txs[i]), s.txs[i].row.value.source) < s.txs[i].row.value.amount
    ensures Inv(cfg, ReadBalance(s, i, s.txs[i]))
  {
    var t, s' := s.txs[i], ReadBalance(s, i, s.txs[i]);
    ReadTx(cfg, s, i, t);
    AcquiredCompatible(cfg, s, i, s'.txs[i]);
    PutTx(cfg, s, i, s'.txs[i]);
    PutNumbers(s, i, s'.txs[i]);
    RefusalDecides(cfg, s, i);
  }

  lemma RefusalDecides(cfg: Config, s: State, i: TxId)
    requires TxsOk(cfg, s) && LocksOk(s) && PaymentsOk(cfg, s.db) && OrderOk(cfg, s)
    requires i in s.txs && s.txs[i].pc.Reading? && s.txs[i].row.Some?
    requires Balance(EntriesSeen(s.db, s.txs[i]), s.txs[i].row.value.source) < s.txs[i].row.value.amount
    ensures OrderOk(cfg, ReadBalance(s, i, s.txs[i]))
  {
    AppendEffect(s.order, Decision(RequestOf(s.txs[i]), Fails));
    RefusalHistory(cfg, s, i);
    UndecidedWhileClaimed(cfg, s, i);
    RefusalBacked(cfg, s, i);
  }

  lemma RefusalHistory(cfg: Config, s: State, i: TxId)
    requires TxsOk(cfg, s) && LocksOk(s) && PaymentsOk(cfg, s.db) && AllBacked(s)
    requires HistoryOk(cfg.kinds, s.order) && BooksMatch(s.db, s.order)
    requires i in s.txs && s.txs[i].pc.Reading? && s.txs[i].row.Some?
    requires Balance(EntriesSeen(s.db, s.txs[i]), s.txs[i].row.value.source) < s.txs[i].row.value.amount
    ensures HistoryOk(cfg.kinds, ReadBalance(s, i, s.txs[i]).order)
  {
    UndecidedWhileClaimed(cfg, s, i);
    ReadTx(cfg, s, i, s.txs[i]);
    AmountPositive(cfg, s, i);
    HistoryAppend(cfg.kinds, s.order, Decision(RequestOf(s.txs[i]), Fails));
  }

  lemma RefusalBacked(cfg: Config, s: State, i: TxId)
    requires TxsOk(cfg, s) && AllBacked(s) && i in s.txs && s.txs[i].pc.Reading? && s.txs[i].row.Some?
    requires !Decided(s.order, s.txs[i].payment)
    requires Balance(EntriesSeen(s.db, s.txs[i]), s.txs[i].row.value.source) < s.txs[i].row.value.amount
    ensures AllBacked(ReadBalance(s, i, s.txs[i]))
  {
    var t, s' := s.txs[i], ReadBalance(s, i, s.txs[i]);
    assert ClaimOk(s.db, t) && RowOk(t) by { assert TxOk(cfg, s.db, t); }
    assert RefusedBy(s', i, t.payment);
    forall e | e in s'.order ensures Backed(s', e) {
      if e in s.order {
        assert Backed(s, e);
        StillBacked(s, s', i, e);
      }
    }
  }

  lemma AmountPositive(cfg: Config, s: State, i: TxId)
    requires TxsOk(cfg, s) && PaymentsOk(cfg, s.db) && i in s.txs && s.txs[i].row.Some?
    ensures s.txs[i].row.value.amount > 0
  {
    assert TxOk(cfg, s.db, s.txs[i]) && PaymentOk(cfg, s.db.payments[s.txs[i].payment]);
  }

  // ---------------------------------------------------------------- preservation: commit

  /** Two transactions past the funds check of one Wallet: only the optimistic strategy lets them
      get there, and then at most one has bumped the version. */
  lemma SameSource(cfg: Config, s: State, i: TxId, j: TxId)
    requires TxsOk(cfg, s) && LocksOk(s) && i in s.txs && j in s.txs && i != j && Cleared(s.txs[i]) && Cleared(s.txs[j])
    requires s.txs[i].row.Some? && s.txs[j].row.Some?
    requires s.txs[i].row.value.source == s.txs[j].row.value.source
    requires IsWallet(cfg.kinds, s.txs[i].row.value.source)
    ensures cfg.strategy == Optimistic && !(s.txs[i].bumped && s.txs[j].bumped)
  {
    var t, u := s.txs[i], s.txs[j];
    HoldsSource(cfg, s, i);
    HoldsSource(cfg, s, j);
    var source := t.row.value.source;
    SelfConflicting(cfg, source);
    assert forall l :: l in t.held && l in u.held ==> !Conflict(l, l) by { assert Compatible(t, u); }
    assert SourceLocks(cfg, source) == {};
  }

  lemma SelfConflicting(cfg: Config, source: AccountId)
    ensures Conflict(VersionLock(source), VersionLock(source))
    ensures forall l :: l in SourceLocks(cfg, source) ==> Conflict(l, l)
    ensures SourceLocks(cfg, source) == {} && IsWallet(cfg.kinds, source) ==> cfg.strategy == Optimistic
  {
    assert Lock(AccountRow(source), NoKeyUpdate) !in {} && Lock(AccountRow(source), Update) !in {};
    assert Lock(AdvisoryKey(cfg.hash(source)), Exclusive) !in {};
  }

  lemma HoldsSource(cfg: Config, s: State, i: TxId)
    requires TxsOk(cfg, s) && i in s.txs && Cleared(s.txs[i]) && s.txs[i].row.Some?
    ensures SourceLocks(cfg, s.txs[i].row.value.source) <= s.txs[i].held
    ensures s.txs[i].bumped ==> VersionLock(s.txs[i].row.value.source) in s.txs[i].held
  {
    assert TxOk(cfg, s.db, s.txs[i]);
  }

  /** What a commit publishes. */
  lemma CommitFacts(cfg: Config, s: State, i: TxId)
    requires TxsOk(cfg, s) && PaymentsOk(cfg, s.db) && i in s.txs && s.txs[i].pc.Committing? && s.txs[i].row.Some?
    ensures var t, db' := s.txs[i], Published(s.db, s.txs[i]);
            && t.payment in s.db.payments && s.db.payments[t.payment] == Unsettled(t.row.value)
            && t.row.value.amount > 0
            && (if t.row.value.status == Succeeded then
                  && t.ledgerTx.Some? && t.row.value.ledgerTx == t.ledgerTx
                  && t.entries == Posting(RequestOf(t)) && db'.entries == s.db.entries + Posting(RequestOf(t))
                else t.row.value.status == Failed && t.ledgerTx.None? && db'.entries == s.db.entries)
  {
    assert TxOk(cfg, s.db, s.txs[i]) && PaymentOk(cfg, s.db.payments[s.txs[i].payment]);
    assert s.db.entries + [] == s.db.entries;
  }

  /** A debit on the same Wallet is excluded by the lock, or noticed through the version;
      credits only help. */
  lemma FundsSurvive(cfg: Config, s: State, i: TxId, j: TxId)
    requires TxsOk(cfg, s) && LocksOk(s) && PaymentsOk(cfg, s.db)
    requires i in s.txs && s.txs[i].pc.Committing? && s.txs[i].row.Some?
    requires j in s.txs && j != i
    ensures FundsOk(cfg, Published(s.db, s.txs[i]), s.txs[j])
  {
    var t, u := s.txs[i], s.txs[j];
    if Cleared(u) && u.row.Some? && IsWallet(cfg.kinds, u.row.value.source) {
      CommitFacts(cfg, s, i);
      assert FundsOk(cfg, s.db, u) by { assert TxOk(cfg, s.db, u); }
      assert t.bumped ==> Cleared(t) by { assert TxOk(cfg, s.db, t); }
      PostingEffect(s.db.entries, RequestOf(t), u.row.value.source);
      if t.row.value.status == Succeeded && t.row.value.source == u.row.value.source {
        SameSource(cfg, s, i, j);
        assert t.bumped by { assert TxOk(cfg, s.db, t); }
      }
    }
  }

  lemma CommitTxs(cfg: Config, s: State, i: TxId)
    requires TxsOk(cfg, s) && LocksOk(s) && PaymentsOk(cfg, s.db)
    requires i in s.txs && s.txs[i].pc.Committing? && s.txs[i].row.Some?
    ensures TxsOk(cfg, Commit(s, i, s.txs[i]))
  {
    var t, s' := s.txs[i], Commit(s, i, s.txs[i]);
    forall j | j in s'.txs ensures TxOk(cfg, s'.db, s'.txs[j]) {
      if j != i {
        var u := s.txs[j];
        assert TxOk(cfg, s.db, u);
        FundsSurvive(cfg, s, i, j);
        if u.row.Some? && t.payment == u.payment { SameClaim(cfg, s, i, j); }
      }
    }
  }

  lemma CommitNumbers(cfg: Config, s: State, i: TxId)
    requires NumbersOk(s) && i in s.txs && s.txs[i].row.Some?
    ensures NumbersOk(Commit(s, i, s.txs[i]))
  {
  }

  lemma CommitPayments(cfg: Config, s: State, i: TxId)
    requires TxsOk(cfg, s) && PaymentsOk(cfg, s.db) && i in s.txs && s.txs[i].pc.Committing? && s.txs[i].row.Some?
    ensures PaymentsOk(cfg, Published(s.db, s.txs[i]))
  {
    var t := s.txs[i];
    assert PaymentOk(cfg, t.row.value) && s.db.payments[t.payment] == Unsettled(t.row.value) by {
      assert TxOk(cfg, s.db, t) && PaymentOk(cfg, s.db.payments[t.payment]);
    }
  }

  lemma CommitVersions(cfg: Config, s: State, i: TxId)
    requires TxsOk(cfg, s) && PaymentsOk(cfg, s.db) && VersionsOk(cfg, s.db)
    requires i in s.txs && s.txs[i].pc.Committing? && s.txs[i].row.Some?
    ensures VersionsOk(cfg, Published(s.db, s.txs[i]))
  {
    var t, db' := s.txs[i], Published(s.db, s.txs[i]);
    CommitFacts(cfg, s, i);
    assert BufferOk(cfg, t) by { assert TxOk(cfg, s.db, t); }
    forall a | IsWallet(cfg.kinds, a) && cfg.strategy == Optimistic
      ensures Version(db', a) == DebitCount(db'.entries, a)
    {
      PostingEffect(s.db.entries, RequestOf(t), a);
    }
  }

  lemma CommitKeeps(cfg: Config, s: State, i: TxId)
    requires Inv(cfg, s) && i in s.txs && s.txs[i].pc.Committing? && s.txs[i].row.Some?
    ensures Inv(cfg, Commit(s, i, s.txs[i]))
  {
    CommitTxs(cfg, s, i);
    CommitLocks(s, i);
    CommitNumbers(cfg, s, i);
    CommitPayments(cfg, s, i);
    CommitVersions(cfg, s, i);
    CommitOrder(cfg, s, i);
  }

  lemma CommitLocks(s: State, i: TxId)
    requires LocksOk(s) && i in s.txs && s.txs[i].row.Some?
    ensures LocksOk(Commit(s, i, s.txs[i]))
  {
    PutCompatible(s, i, Commit(s, i, s.txs[i]).txs[i]);
  }

  lemma CommitBacked(cfg: Config, s: State, i: TxId)
    requires TxsOk(cfg, s) && LocksOk(s) && PaymentsOk(cfg, s.db) && AllBacked(s)
    requires i in s.txs && s.txs[i].pc.Committing? && s.txs[i].row.Some?
    ensures AllBacked(Commit(s, i, s.txs[i]))
  {
    var t, s' := s.txs[i], Commit(s, i, s.txs[i]);
    CommitFacts(cfg, s, i);
    if t.row.value.status == Succeeded { UndecidedWhileClaimed(cfg, s, i); }
    forall e | e in s'.order ensures Backed(s', e) {
      if e in s.order {
        assert Backed(s, e);
        if e.request.payment != t.payment { StillBacked(s, s', i, e); }
      }
    }
  }

  lemma CommitOrder(cfg: Config, s: State, i: TxId)
    requires TxsOk(cfg, s) && LocksOk(s) && PaymentsOk(cfg, s.db) && OrderOk(cfg, s) && NumbersOk(s)
    requires i in s.txs && s.txs[i].pc.Committing? && s.txs[i].row.Some?
    ensures OrderOk(cfg, Commit(s, i, s.txs[i]))
  {
    CommitBacked(cfg, s, i);
    CommitHistory(cfg, s, i);
    CommitDecided(cfg, s, i);
  }

  lemma CommitHistory(cfg: Config, s: State, i: TxId)
    requires TxsOk(cfg, s) && LocksOk(s) && PaymentsOk(cfg, s.db) && OrderOk(cfg, s) && NumbersOk(s)
    requires i in s.txs && s.txs[i].pc.Committing? && s.txs[i].row.Some?
    ensures var s' := Commit(s, i, s.txs[i]); HistoryOk(cfg.kinds, s'.order) && BooksMatch(s'.db, s'.order)
  {
    var t := s.txs[i];
    CommitFacts(cfg, s, i);
    if t.row.value.status == Succeeded {
      UndecidedWhileClaimed(cfg, s, i);
      assert Affords(cfg.kinds, s.db.entries, RequestOf(t)) by { assert TxOk(cfg, s.db, t); }
      HistoryAppend(cfg.kinds, s.order, Decision(RequestOf(t), Succeeds));
      AppendEffect(s.order, Decision(RequestOf(t), Succeeds));
    }
  }

  lemma CommitDecided(cfg: Config, s: State, i: TxId)
    requires TxsOk(cfg, s) && PaymentsOk(cfg, s.db) && AllDecided(s)
    requires i in s.txs && s.txs[i].pc.Committing? && s.txs[i].row.Some?
    ensures AllDecided(Commit(s, i, s.txs[i]))
  {
    CommitFacts(cfg, s, i);
    AppendEffect(s.order, Decision(RequestOf(s.txs[i]), Succeeds));
  }

  // ---------------------------------------------------------------- preservation: rollback

  lemma {:induction false} WithoutMembers(order: seq<Decision>, ps: set<PaymentId>)
    ensures forall d :: d in Without(order, ps) <==> d in order && d.request.payment !in ps
  {
    if order == [] {
    } else {
      var before, last := order[..|order| - 1], order[|order| - 1];
      assert order == before + [last];
      WithoutMembers(before, ps);
    }
  }

  lemma {:induction false} WithoutOnce(order: seq<Decision>, ps: set<PaymentId>)
    requires Once(order) && DistinctNumbers(order)
    ensures Once(Without(order, ps)) && DistinctNumbers(Without(order, ps))
  {
    if order == [] {
    } else {
      var before, last := order[..|order| - 1], order[|order| - 1];
      WithoutOnce(before, ps);
      WithoutMembers(before, ps);
      var rest := Without(before, ps);
      forall m | 0 <= m < |rest|
        ensures rest[m].request.payment != last.request.payment
        ensures rest[m].verdict == Succeeds && last.verdict == Succeeds ==>
                  rest[m].request.ledgerTx != last.request.ledgerTx
      {
        assert rest[m] in before;
      }
    }
  }

  /** A refusal posted nothing, so those after it stay legal without it. */
  lemma {:induction false} WithoutLegal(kinds: Kinds, order: seq<Decision>, ps: set<PaymentId>)
    requires Legal(kinds, order)
    requires forall d :: d in order && d.request.payment in ps ==> d.verdict == Fails
    ensures Legal(kinds, Without(order, ps)) && Entries(Without(order, ps)) == Entries(order)
  {
    if order == [] {
    } else {
      var before, last := order[..|order| - 1], order[|order| - 1];
      assert order == before + [last];
      WithoutLegal(kinds, before, ps);
      var rest := Without(before, ps);
      assert (rest + [last])[..|rest|] == rest;
      assert last in order && rest + [] == rest && Entries(before) + [] == Entries(before);
    }
  }

  lemma WithoutNumbers(order: seq<Decision>, ps: set<PaymentId>)
    requires forall d :: d in order && d.request.payment in ps ==> d.verdict == Fails
    ensures Numbers(Without(order, ps)) == Numbers(order)
    ensures forall q :: Decided(order, q) && q !in ps ==> Decided(Without(order, ps), q)
  {
    WithoutMembers(order, ps);
    forall q | Decided(order, q) && q !in ps ensures Decided(Without(order, ps), q) {
      var d :| d in order && d.request.payment == q;
      assert d in Without(order, ps);
    }
  }

  lemma RefusalPending(cfg: Config, s: State, i: TxId)
    requires TxsOk(cfg, s) && AllBacked(s) && i in s.txs && Refused(s.txs[i])
    ensures var p := s.txs[i].payment;
            && p in s.db.payments && s.db.payments[p].status == Created
            && forall d :: d in s.order && d.request.payment == p ==> d.verdict == Fails
  {
    assert TxOk(cfg, s.db, s.txs[i]);
    forall d | d in s.order && d.request.payment == s.txs[i].payment ensures d.verdict == Fails {
      assert Backed(s, d);
    }
  }

  lemma RollbackBacked(cfg: Config, s: State, i: TxId)
    requires AllBacked(s) && i in s.txs && Refused(s.txs[i])
    ensures AllBacked(Rollback(s, i, s.txs[i]))
  {
    var t, s' := s.txs[i], Rollback(s, i, s.txs[i]);
    WithoutMembers(s.order, {t.payment});
    forall e | e in s'.order ensures Backed(s', e) {
      StillBacked(s, s', i, e);
    }
  }

  lemma RollbackDecided(cfg: Config, s: State, i: TxId)
    requires TxsOk(cfg, s) && LocksOk(s) && AllBacked(s) && AllDecided(s) && i in s.txs && Refused(s.txs[i])
    ensures AllDecided(Rollback(s, i, s.txs[i]))
  {
    var t, s' := s.txs[i], Rollback(s, i, s.txs[i]);
    RefusalPending(cfg, s, i);
    WithoutNumbers(s.order, {t.payment});
    forall j | j in s'.txs && Refused(s'.txs[j]) ensures Decided(s'.order, s'.txs[j].payment) {
      RefusedApart(cfg, s, i, j);
    }
  }

  lemma RefusedApart(cfg: Config, s: State, i: TxId, j: TxId)
    requires TxsOk(cfg, s) && LocksOk(s)
    requires i in s.txs && j in s.txs && i != j && Refused(s.txs[i]) && Refused(s.txs[j])
    ensures s.txs[i].payment != s.txs[j].payment
  {
    assert TxOk(cfg, s.db, s.txs[i]) && TxOk(cfg, s.db, s.txs[j]);
    if s.txs[j].payment == s.txs[i].payment { SameClaim(cfg, s, i, j); }
  }

  lemma RollbackOrder(cfg: Config, s: State, i: TxId)
    requires TxsOk(cfg, s) && LocksOk(s) && OrderOk(cfg, s) && i in s.txs && Open(s.txs[i])
    ensures OrderOk(cfg, Rollback(s, i, s.txs[i]))
  {
    var t, s' := s.txs[i], Rollback(s, i, s.txs[i]);
    if Refused(t) {
      RefusalPending(cfg, s, i);
      RollbackBacked(cfg, s, i);
      RollbackDecided(cfg, s, i);
      WithoutOnce(s.order, {t.payment});
      WithoutLegal(cfg.kinds, s.order, {t.payment});
      WithoutNumbers(s.order, {t.payment});
    } else {
      CarriesOver(s, s');
    }
  }

  lemma ClosedOk(cfg: Config, db: Db, t: Tx)
    ensures TxOk(cfg, db, Close(t, RolledBack))
  {
  }

  lemma RollbackKeeps(cfg: Config, s: State, i: TxId)
    requires Inv(cfg, s) && i in s.txs && Open(s.txs[i])
    ensures Inv(cfg, Rollback(s, i, s.txs[i]))
  {
    var t' := Close(s.txs[i], RolledBack);
    ClosedOk(cfg, s.db, s.txs[i]);
    PutCompatible(s, i, t');
    PutTx(cfg, s, i, t');
    PutNumbers(s, i, t');
    RollbackOrder(cfg, s, i);
  }

  // ---------------------------------------------------------------- preservation: every step

  lemma InsertKeeps(cfg: Config, s: State, a: Action)
    requires Inv(cfg, s) && a.Insert? && Insertable(cfg, s.db, a)
    ensures Inv(cfg, Step(cfg, s, a))
  {
    var s' := Step(cfg, s, a);
    InsertPayments(cfg, s, a);
    forall j | j in s'.txs ensures TxOk(cfg, s'.db, s'.txs[j]) { assert TxOk(cfg, s.db, s.txs[j]); }
    InsertOrder(cfg, s, a);
  }

  lemma InsertPayments(cfg: Config, s: State, a: Action)
    requires PaymentsOk(cfg, s.db) && a.Insert? && Insertable(cfg, s.db, a)
    ensures PaymentsOk(cfg, Step(cfg, s, a).db)
  {
  }

  lemma InsertOrder(cfg: Config, s: State, a: Action)
    requires OrderOk(cfg, s) && a.Insert? && Insertable(cfg, s.db, a)
    ensures OrderOk(cfg, Step(cfg, s, a))
  {
    var s' := Step(cfg, s, a);
    forall e | e in s'.order ensures Backed(s', e) {
      assert Backed(s, e);
      if s.db.payments[e.request.payment].status == Created {
        var j :| RefusedBy(s, j, e.request.payment);
        assert RefusedBy(s', j, e.request.payment);
      }
    }
  }

  lemma NewTxOk(cfg: Config, db: Db, p: PaymentId)
    ensures TxOk(cfg, db, NewTx(p))
  {
  }

  lemma BeginKeeps(cfg: Config, s: State, i: TxId, p: PaymentId)
    requires Inv(cfg, s) && i !in s.txs
    ensures Inv(cfg, Put(s, i, NewTx(p)))
  {
    NewTxOk(cfg, s.db, p);
    hide TxOk, HistoryOk, PaymentsOk, VersionsOk, AllBacked, AllDecided;
    PutCompatible(s, i, NewTx(p));
    PutTx(cfg, s, i, NewTx(p));
    CarriesOver(s, Put(s, i, NewTx(p)));
  }

  /** All statements but the id draw, a refusal and COMMIT only move their own transaction. */
  lemma LocalStatement(cfg: Config, s: State, i: TxId, t: Tx)
    requires TxOk(cfg, s.db, t) && PaymentsOk(cfg, s.db) && Open(t) && !t.pc.Numbering? && !t.pc.Committing?
    requires t.pc.Reading? ==> !Execute(cfg, s, i, t).txs[i].pc.Refusing?
    ensures var s' := Execute(cfg, s, i, t);
            && i in s'.txs && s' == Put(s, i, s'.txs[i])
            && TxOk(cfg, s.db, s'.txs[i])
            && s'.txs[i].held <= t.held + Wanted(cfg, s.db, t)
            && s'.txs[i].payment == t.payment && Refused(s'.txs[i]) == Refused(t)
            && (s'.txs[i].ledgerTx == t.ledgerTx || s'.txs[i].ledgerTx == None)
  {
    match t.pc
    case Claiming => ClaimTx(cfg, s, i, t);
    case Rejecting =>
    case Locking => LockTx(cfg, s, i, t);
    case Reading => ReadTx(cfg, s, i, t);
    case Refusing => MarkFailedTx(cfg, s, i, t);
    case Entering => InsertEntriesTx(cfg, s, i, t);
    case Finishing => MarkSucceededTx(cfg, s, i, t);
    case Bumping => BumpTx(cfg, s, i, t);
  }

  lemma LocalExecute(cfg: Config, s: State, i: TxId)
    requires Inv(cfg, s) && i in s.txs && Open(s.txs[i]) && !Blocked(cfg, s, i)
    requires !s.txs[i].pc.Numbering? && !s.txs[i].pc.Committing?
    requires s.txs[i].pc.Reading? ==> !Execute(cfg, s, i, s.txs[i]).txs[i].pc.Refusing?
    ensures Inv(cfg, Execute(cfg, s, i, s.txs[i]))
  {
    LocalStatement(cfg, s, i, s.txs[i]);
    LocalKeeps(cfg, s, i, Execute(cfg, s, i, s.txs[i]).txs[i]);
  }

  /** A claimed row is in the buffer whenever a later statement needs it. */
  lemma Ready(cfg: Config, s: State, i: TxId)
    requires TxsOk(cfg, s) && i in s.txs && Open(s.txs[i])
    ensures Past(s.txs[i]) <==> s.txs[i].row.Some?
    ensures s.txs[i].ledgerTx.Some? <==> Numbered(s.txs[i])
  {
    assert TxOk(cfg, s.db, s.txs[i]);
  }

  lemma ExecuteKeepsTx(cfg: Config, s: State, i: TxId, t: Tx)
    requires i in s.txs
    ensures i in Execute(cfg, s, i, t).txs
  {
  }

  lemma ExecuteKeeps(cfg: Config, s: State, i: TxId)
    requires Inv(cfg, s) && i in s.txs && Open(s.txs[i]) && !Blocked(cfg, s, i)
    ensures Inv(cfg, Execute(cfg, s, i, s.txs[i]))
  {
    var t := s.txs[i];
    Ready(cfg, s, i);
    ExecuteKeepsTx(cfg, s, i, t);
    hide Inv, Blocked, Execute;
    if t.pc.Numbering? {
      NumberKeeps(cfg, s, i);
    } else if t.pc.Committing? {
      CommitKeeps(cfg, s, i);
    } else if t.pc.Reading? && Execute(cfg, s, i, t).txs[i].pc.Refusing? {
      RefuseKeeps(cfg, s, i);
    } else {
      LocalExecute(cfg, s, i);
    }
  }

  /** Every step of every transaction keeps the invariant, whatever the strategy. */
  lemma StepKeeps(cfg: Config, s: State, a: Action)
    requires Inv(cfg, s)
    ensures Inv(cfg, Step(cfg, s, a))
  {
    if a.Insert? && Insertable(cfg, s.db, a) {
      InsertKeeps(cfg, s, a);
    } else if a.Begin? && a.tx !in s.txs {
      BeginKeeps(cfg, s, a.tx, a.payment);
    } else if a.Next? && a.tx in s.txs && Open(s.txs[a.tx]) && !Blocked(cfg, s, a.tx) {
      ExecuteKeeps(cfg, s, a.tx);
    } else if a.Abort? && a.tx in s.txs && Open(s.txs[a.tx]) {
      RollbackKeeps(cfg, s, a.tx);
    } else {
      assert Step(cfg, s, a) == s;
    }
  }

  lemma {:induction false} Reachable(cfg: Config, actions: seq<Action>)
    ensures Inv(cfg, Run(cfg, actions))
  {
    if actions == [] {
      InitOk(cfg);
    } else {
      Reachable(cfg, actions[..|actions| - 1]);
      StepKeeps(cfg, Run(cfg, actions[..|actions| - 1]), actions[|actions| - 1]);
    }
  }
}

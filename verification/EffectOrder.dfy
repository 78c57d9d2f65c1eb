/** Which sequential order: Payments are ordered by the moment their Settlement took effect, a
    success at its COMMIT and a refusal at its Balance read, so the order respects real time. */
module EffectOrder {
  import opened Ledger
  import opened Protocol
  import opened ProtocolInvariant
  import opened SerialEquivalence

  /** The Payment is settled, or a transaction has found its funds short and is about to write it. */
  ghost predicate InEffect(s: State, p: PaymentId) {
    (p in s.db.payments && Terminal(s.db.payments[p])) || exists i :: RefusedBy(s, i, p)
  }

  /** In effect after the first `m` actions, and ever since: no later rollback took it back. */
  ghost predicate EffectiveFrom(cfg: Config, actions: seq<Action>, m: nat, p: PaymentId) {
    m <= |actions| && forall k :: m <= k <= |actions| ==> InEffect(Run(cfg, actions[..k]), p)
  }

  ghost predicate Precedes(rs: seq<Request>, p: PaymentId, q: PaymentId) {
    forall a, b :: 0 <= a < |rs| && 0 <= b < |rs| && rs[a].payment == p && rs[b].payment == q ==> a < b
  }

  /** What took effect for good at some moment comes before everything that had not by then. */
  ghost predicate ByEffect(cfg: Config, actions: seq<Action>, rs: seq<Request>) {
    forall m: nat, p, q :: EffectiveFrom(cfg, actions, m, p) && m <= |actions| && !EffectiveFrom(cfg, actions, m, q) ==>
      Precedes(rs, p, q)
  }

  // ---------------------------------------------------------------- when a Payment takes effect

  lemma EffectIsDecision(cfg: Config, s: State, p: PaymentId)
    requires PaymentsOk(cfg, s.db) && AllBacked(s) && AllDecided(s)
    ensures InEffect(s, p) <==> Decided(s.order, p)
  {
    if Decided(s.order, p) {
      var d :| d in s.order && d.request.payment == p;
      assert Backed(s, d) && PaymentOk(cfg, s.db.payments[p]);
    }
    if i :| RefusedBy(s, i, p) { assert Decided(s.order, s.txs[i].payment); }
  }

  /** The two statements that make a Payment take effect. */
  predicate EffectPoint(s: State, a: Action, p: PaymentId) {
    && a.Next? && a.tx in s.txs && s.txs[a.tx].payment == p && s.txs[a.tx].row.Some?
    && (s.txs[a.tx].pc.Reading? || (s.txs[a.tx].pc.Committing? && s.txs[a.tx].row.value.status == Succeeded))
  }

  /** Each action leaves the history as it is, adds the Payment that takes effect, or takes back the
      refusal of a transaction that rolls back. */
  lemma HistoryMoves(cfg: Config, s: State, a: Action)
    ensures var order, order' := s.order, Step(cfg, s, a).order;
            || order' == order
            || (|order'| == |order| + 1 && order'[..|order|] == order
                && EffectPoint(s, a, order'[|order|].request.payment))
            || (a.Abort? && a.tx in s.txs && Refused(s.txs[a.tx]) && order' == Without(order, {s.txs[a.tx].payment}))
  {
    hide Blocked, Without;
  }

  lemma NewlyDecided(order: seq<Decision>, order': seq<Decision>, p: PaymentId)
    requires |order'| == |order| + 1 && order'[..|order|] == order && Decided(order', p) && !Decided(order, p)
    ensures order'[|order|].request.payment == p
  {
    assert order' == order + [order'[|order|]];
  }

  /** A Payment takes effect at the COMMIT of its success or at the Balance read of its refusal, and
      at no other statement. */
  lemma TakesEffectAt(cfg: Config, actions: seq<Action>, a: Action, p: PaymentId)
    requires !InEffect(Run(cfg, actions), p) && InEffect(Run(cfg, actions + [a]), p)
    ensures EffectPoint(Run(cfg, actions), a, p)
  {
    hide Run, Step, InEffect, TxsOk, LocksOk, NumbersOk, PaymentsOk, HistoryOk, VersionsOk, AllBacked, AllDecided,
      Decided, EffectPoint;
    var s := Run(cfg, actions);
    RunExtends(cfg, actions, a);
    Reachable(cfg, actions);
    Reachable(cfg, actions + [a]);
    EffectIsDecision(cfg, s, p);
    EffectIsDecision(cfg, Step(cfg, s, a), p);
    HistoryMoves(cfg, s, a);
    if a.Abort? && a.tx in s.txs { WithoutDecides(s.order, {s.txs[a.tx].payment}, p); }
    if |Step(cfg, s, a).order| == |s.order| + 1 && Step(cfg, s, a).order[..|s.order|] == s.order {
      NewlyDecided(s.order, Step(cfg, s, a).order, p);
    }
  }

  lemma WithoutDecides(order: seq<Decision>, ps: set<PaymentId>, p: PaymentId)
    ensures Decided(Without(order, ps), p) ==> Decided(order, p)
  {
    WithoutMembers(order, ps);
  }

  // ---------------------------------------------------------------- positions in the history

  ghost predicate Ahead(order: seq<Decision>, p: PaymentId, q: PaymentId) {
    forall a, b :: 0 <= a < |order| && 0 <= b < |order| ==>
      order[a].request.payment == p && order[b].request.payment == q ==> a < b
  }

  lemma {:induction false} AheadWithout(order: seq<Decision>, ps: set<PaymentId>, p: PaymentId, q: PaymentId)
    requires p != q && Ahead(order, p, q)
    ensures Ahead(Without(order, ps), p, q)
  {
    if order != [] {
      var n := |order| - 1;
      var before, after := Without(order[..n], ps), Without(order, ps);
      assert Ahead(order[..n], p, q) by {
        assert forall k :: 0 <= k < n ==> order[..n][k] == order[k];
      }
      AheadWithout(order[..n], ps, p, q);
      WithoutMembers(order[..n], ps);
      if order[n].request.payment == p {
        NothingBehind(order, p, q);
        forall b | 0 <= b < |before| ensures before[b].request.payment != q { assert before[b] in before; }
      }
    }
  }

  lemma NothingBehind(order: seq<Decision>, p: PaymentId, q: PaymentId)
    requires p != q && Ahead(order, p, q) && order != [] && order[|order| - 1].request.payment == p
    ensures forall d :: d in order[..|order| - 1] ==> d.request.payment != q
  {
    forall d | d in order[..|order| - 1] ensures d.request.payment != q {
      var k :| 0 <= k < |order| - 1 && order[k] == d;
    }
  }

  /** Once `p` is decided and ahead of `q`, it stays ahead as long as it stays decided. */
  lemma AheadStays(cfg: Config, s: State, a: Action, p: PaymentId, q: PaymentId)
    requires p != q && Decided(s.order, p) && Ahead(s.order, p, q)
    requires Once(Step(cfg, s, a).order)
    ensures Ahead(Step(cfg, s, a).order, p, q)
  {
    hide Step;
    var order, order' := s.order, Step(cfg, s, a).order;
    HistoryMoves(cfg, s, a);
    if |order'| == |order| + 1 && order'[..|order|] == order {
      var d :| d in order && d.request.payment == p;
      var m :| 0 <= m < |order| && order[m] == d;
      assert forall k :: 0 <= k < |order| ==> order'[k] == order[k];
      assert order'[|order|].request.payment != p;
    } else if order' != order {
      AheadWithout(order, {s.txs[a.tx].payment}, p, q);
    }
  }

  /** From a moment at which `p` is in effect and `q` is not, `p` stays ahead. */
  lemma {:induction false} AheadFrom(cfg: Config, actions: seq<Action>, k: nat, n: nat, p: PaymentId, q: PaymentId)
    requires k <= n <= |actions| && p != q
    requires forall j :: k <= j <= |actions| ==> InEffect(Run(cfg, actions[..j]), p)
    requires !InEffect(Run(cfg, actions[..k]), q)
    ensures Ahead(Run(cfg, actions[..n]).order, p, q) && Decided(Run(cfg, actions[..n]).order, p)
    decreases n
  {
    hide Run, Step, InEffect, TxsOk, LocksOk, NumbersOk, PaymentsOk, Legal, DistinctNumbers, VersionsOk, AllBacked,
      AllDecided;
    Reachable(cfg, actions[..n]);
    EffectIsDecision(cfg, Run(cfg, actions[..n]), p);
    if n == k {
      EffectIsDecision(cfg, Run(cfg, actions[..n]), q);
      NotThereYet(Run(cfg, actions[..n]).order, p, q);
    } else {
      AheadFrom(cfg, actions, k, n - 1, p, q);
      assert actions[..n] == actions[..n - 1] + [actions[n - 1]];
      RunExtends(cfg, actions[..n - 1], actions[n - 1]);
      AheadStays(cfg, Run(cfg, actions[..n - 1]), actions[n - 1], p, q);
    }
  }

  lemma NotThereYet(order: seq<Decision>, p: PaymentId, q: PaymentId)
    requires !Decided(order, q)
    ensures Ahead(order, p, q)
  {
    forall b | 0 <= b < |order| ensures order[b].request.payment != q { assert order[b] in order; }
  }

  // ---------------------------------------------------------------- the order of the serialization

  lemma EffectOrdersOne(cfg: Config, actions: seq<Action>, m: nat, p: PaymentId, q: PaymentId)
    requires EffectiveFrom(cfg, actions, m, p) && !EffectiveFrom(cfg, actions, m, q)
    ensures var s := Run(cfg, actions); Precedes(Requests(Without(s.order, Pending(s.db))), p, q)
  {
    var k :| m <= k <= |actions| && !InEffect(Run(cfg, actions[..k]), q);
    assert p != q;
    assert actions[..|actions|] == actions;
    AheadFrom(cfg, actions, k, |actions|, p, q);
    var s := Run(cfg, actions);
    hide Run, InEffect, Without;
    AheadWithout(s.order, Pending(s.db), p, q);
  }

  /** Serial equivalence in the order in which the Payments took effect. */
  lemma OrderedByEffect(cfg: Config, actions: seq<Action>)
    ensures exists rs :: IsSerialization(cfg.kinds, Run(cfg, actions).db, rs) && ByEffect(cfg, actions, rs)
  {
    hide Inv, IsSerialization, EffectiveFrom, Precedes;
    var s := Run(cfg, actions);
    Reachable(cfg, actions);
    HistorySerializes(cfg, s);
    var rs := Requests(Without(s.order, Pending(s.db)));
    forall m: nat, p, q | EffectiveFrom(cfg, actions, m, p) && m <= |actions| && !EffectiveFrom(cfg, actions, m, q)
      ensures Precedes(rs, p, q)
    {
      EffectOrdersOne(cfg, actions, m, p, q);
    }
    assert IsSerialization(cfg.kinds, s.db, rs) && ByEffect(cfg, actions, rs);
  }

  /** A Payment that was settled before the Settlement of another one began is before it, in every
      order by effect. */
  lemma RealTime(cfg: Config, actions: seq<Action>, m: nat, rs: seq<Request>, p: PaymentId, q: PaymentId)
    requires m <= |actions| && ByEffect(cfg, actions, rs)
    requires var s := Run(cfg, actions[..m]);
             && p in s.db.payments && Terminal(s.db.payments[p])
             && (q in s.db.payments ==> !Terminal(s.db.payments[q]))
             && forall i :: i in s.txs ==> s.txs[i].payment != q || !Open(s.txs[i])
    ensures Precedes(rs, p, q)
  {
    hide Inv, Step;
    forall k | m <= k <= |actions| ensures InEffect(Run(cfg, actions[..k]), p) {
      assert actions[..k] == actions[..m] + actions[m..k];
      HistoryGrows(cfg, actions[..m], actions[m..k]);
    }
    assert !InEffect(Run(cfg, actions[..m]), q);
    assert EffectiveFrom(cfg, actions, m, p) && !EffectiveFrom(cfg, actions, m, q);
  }
}

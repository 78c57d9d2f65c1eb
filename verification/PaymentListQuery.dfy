/** The Payment list query: its text and its numbered parameters, built for the filters present. */
module PaymentListQuery {
  import opened Options
  import Keyset

  datatype Status = Created | Processing | Succeeded | Failed

  datatype PaymentRow = PaymentRow(id: int, merchant: int, source: int, destination: int, status: Status,
                                   createdAt: int)

  type Position = Keyset.Position

  datatype Filters = Filters(merchant: int, account: Option<int>, status: Option<Status>, from: Option<int>,
                             to: Option<int>, after: Option<Position>, fetch: nat)

  datatype Param = Uuid(id: int) | Label(status: Status) | Timestamp(at: int) | Count(n: nat)

  /** The lines of the query; a number is the placeholder `$n`, counted from one. */
  datatype Line =
    | SelectForMerchant(n: nat)
    | AccountIs(n: nat)
    | StatusIs(n: nat)
    | FromIs(n: nat)
    | ToIs(n: nat)
    | BelowCursor(n: nat)
    | OrderAndLimit(n: nat)

  // ---------------------------------------------------------------- what a query means

  predicate Given(params: seq<Param>, n: nat) { 1 <= n <= |params| }

  /** Whether a row passes one line; a missing or mistyped parameter passes nothing. */
  predicate Passes(line: Line, params: seq<Param>, r: PaymentRow) {
    match line
    case SelectForMerchant(n) => Given(params, n) && params[n - 1] == Uuid(r.merchant)
    case AccountIs(n) => Given(params, n) && (params[n - 1] == Uuid(r.source) || params[n - 1] == Uuid(r.destination))
    case StatusIs(n) => Given(params, n) && params[n - 1] == Label(r.status)
    case FromIs(n) => Given(params, n) && params[n - 1].Timestamp? && r.createdAt >= params[n - 1].at
    case ToIs(n) => Given(params, n) && params[n - 1].Timestamp? && r.createdAt < params[n - 1].at
    case BelowCursor(n) =>
      && Given(params, n) && Given(params, n + 1) && params[n - 1].Timestamp? && params[n].Uuid?
      && (r.createdAt < params[n - 1].at || (r.createdAt == params[n - 1].at && r.id < params[n].id))
    case OrderAndLimit(_) => true
  }

  predicate Selects(lines: seq<Line>, params: seq<Param>, r: PaymentRow) {
    forall k :: 0 <= k < |lines| ==> Passes(lines[k], params, r)
  }

  /** All placeholders of a line have a parameter. */
  predicate Bound(line: Line, params: seq<Param>) {
    Given(params, line.n) && (line.BelowCursor? ==> Given(params, line.n + 1))
  }

  predicate AllBound(lines: seq<Line>, params: seq<Param>) {
    forall k :: 0 <= k < |lines| ==> Bound(lines[k], params)
  }

  // ---------------------------------------------------------------- what was asked for

  predicate Asked(f: Filters, r: PaymentRow) {
    && r.merchant == f.merchant
    && (f.account.Some? ==> r.source == f.account.value || r.destination == f.account.value)
    && (f.status.Some? ==> r.status == f.status.value)
    && (f.from.Some? ==> f.from.value <= r.createdAt)
    && (f.to.Some? ==> r.createdAt < f.to.value)
    && (f.after.Some? ==> r.createdAt < f.after.value.createdAt
                          || (r.createdAt == f.after.value.createdAt && r.id < f.after.value.id))
  }

  /** Parameters added later change no line that is already bound. */
  lemma LineStands(line: Line, params: seq<Param>, more: seq<Param>, r: PaymentRow)
    requires Bound(line, params)
    ensures Bound(line, params + more) && (Passes(line, params + more, r) <==> Passes(line, params, r))
  {
  }

  /** One more line with its own parameters is one more condition. */
  lemma Pushed(lines: seq<Line>, params: seq<Param>, line: Line, more: seq<Param>)
    requires AllBound(lines, params) && Bound(line, params + more)
    ensures AllBound(lines + [line], params + more)
    ensures forall r :: Selects(lines + [line], params + more, r) <==>
              Selects(lines, params, r) && Passes(line, params + more, r)
  {
    forall k, r: PaymentRow | 0 <= k < |lines|
      ensures Bound((lines + [line])[k], params + more)
      ensures Passes((lines + [line])[k], params + more, r) <==> Passes(lines[k], params, r)
    {
      LineStands(lines[k], params, more, r);
    }
    forall r | Selects(lines + [line], params + more, r)
      ensures Selects(lines, params, r) && Passes(line, params + more, r)
    {
      assert forall k :: 0 <= k < |lines| ==> Passes((lines + [line])[k], params + more, r);
      assert Passes((lines + [line])[|lines|], params + more, r);
    }
  }

  /** The query starts with the Merchant alone. */
  function MerchantOnly(f: Filters): Filters { Filters(f.merchant, None, None, None, None, None, f.fetch) }

  /** The query selects exactly the rows asked for, and every placeholder is bound. */
  ghost predicate Means(lines: seq<Line>, params: seq<Param>, f: Filters) {
    AllBound(lines, params) && forall r :: Selects(lines, params, r) <==> Asked(f, r)
  }

  lemma MerchantAlone(f: Filters)
    ensures Means([SelectForMerchant(1)], [Uuid(f.merchant)], MerchantOnly(f))
  {
    forall r ensures Selects([SelectForMerchant(1)], [Uuid(f.merchant)], r) <==> Asked(MerchantOnly(f), r) {
      assert Selects([SelectForMerchant(1)], [Uuid(f.merchant)], r) <==>
          Passes([SelectForMerchant(1)][0], [Uuid(f.merchant)], r);
    }
  }

  lemma AccountAdded(lines: seq<Line>, params: seq<Param>, g: Filters, account: int)
    requires Means(lines, params, g) && g.account.None?
    ensures Means(lines + [AccountIs(|params| + 1)], params + [Uuid(account)], g.(account := Some(account)))
  {
    Pushed(lines, params, AccountIs(|params| + 1), [Uuid(account)]);
  }

  lemma StatusAdded(lines: seq<Line>, params: seq<Param>, g: Filters, status: Status)
    requires Means(lines, params, g) && g.status.None?
    ensures Means(lines + [StatusIs(|params| + 1)], params + [Label(status)], g.(status := Some(status)))
  {
    Pushed(lines, params, StatusIs(|params| + 1), [Label(status)]);
  }

  lemma FromAdded(lines: seq<Line>, params: seq<Param>, g: Filters, at: int)
    requires Means(lines, params, g) && g.from.None?
    ensures Means(lines + [FromIs(|params| + 1)], params + [Timestamp(at)], g.(from := Some(at)))
  {
    Pushed(lines, params, FromIs(|params| + 1), [Timestamp(at)]);
  }

  lemma ToAdded(lines: seq<Line>, params: seq<Param>, g: Filters, at: int)
    requires Means(lines, params, g) && g.to.None?
    ensures Means(lines + [ToIs(|params| + 1)], params + [Timestamp(at)], g.(to := Some(at)))
  {
    Pushed(lines, params, ToIs(|params| + 1), [Timestamp(at)]);
  }

  lemma CursorAdded(lines: seq<Line>, params: seq<Param>, g: Filters, p: Position)
    requires Means(lines, params, g) && g.after.None?
    ensures Means(lines + [BelowCursor(|params| + 1)], params + [Timestamp(p.createdAt), Uuid(p.id)],
                  g.(after := Some(p)))
  {
    Pushed(lines, params, BelowCursor(|params| + 1), [Timestamp(p.createdAt), Uuid(p.id)]);
  }

  lemma OrderAdded(lines: seq<Line>, params: seq<Param>, g: Filters)
    requires Means(lines, params, g)
    ensures Means(lines + [OrderAndLimit(|params| + 1)], params + [Count(g.fetch)], g)
  {
    Pushed(lines, params, OrderAndLimit(|params| + 1), [Count(g.fetch)]);
  }

  /** Whatever filters are present, the query selects exactly the rows asked for, every placeholder
      is bound, and the limit is the fetch size. */
  method BuildPaymentListQuery(f: Filters) returns (lines: seq<Line>, params: seq<Param>)
    ensures Means(lines, params, f)
    ensures |lines| >= 2 && lines[|lines| - 1] == OrderAndLimit(|params|) && params[|params| - 1] == Count(f.fetch)
  {
    hide Means, Asked;
    params := [Uuid(f.merchant)];
    lines := [SelectForMerchant(1)];
    ghost var g := MerchantOnly(f);
    MerchantAlone(f);

    if f.account.Some? {
      AccountAdded(lines, params, g, f.account.value);
      lines := lines + [AccountIs(|params| + 1)];
      params := params + [Uuid(f.account.value)];
      g := g.(account := f.account);
    }
    if f.status.Some? {
      StatusAdded(lines, params, g, f.status.value);
      lines := lines + [StatusIs(|params| + 1)];
      params := params + [Label(f.status.value)];
      g := g.(status := f.status);
    }
    if f.from.Some? {
      FromAdded(lines, params, g, f.from.value);
      lines := lines + [FromIs(|params| + 1)];
      params := params + [Timestamp(f.from.value)];
      g := g.(from := f.from);
    }
    if f.to.Some? {
      ToAdded(lines, params, g, f.to.value);
      lines := lines + [ToIs(|params| + 1)];
      params := params + [Timestamp(f.to.value)];
      g := g.(to := f.to);
    }
    if f.after.Some? {
      CursorAdded(lines, params, g, f.after.value);
      lines := lines + [BelowCursor(|params| + 1)];
      params := params + [Timestamp(f.after.value.createdAt), Uuid(f.after.value.id)];
      g := g.(after := f.after);
    }
    assert g == f;
    OrderAdded(lines, params, g);
    lines := lines + [OrderAndLimit(|params| + 1)];
    params := params + [Count(f.fetch)];
  }
}

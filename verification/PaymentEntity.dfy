/** The Payment aggregate in memory, and that the Settlement statements write exactly what its
    transitions would. */
module PaymentEntity {
  import opened Options
  import opened Ledger
  import opened Protocol
  import opened ProtocolInvariant

  type Instant = int

  datatype Error = InvalidTransition(from: Status, to: Status)

  datatype Creation = NewPayment(payment: Payment) | SameAccount | CurrencyMismatch

  datatype Account = Account(id: AccountId, currency: string)

  /** Two different Accounts of one currency, and then CREATED. */
  function Create(merchant: nat, key: nat, fingerprint: nat, source: Account, destination: Account,
                  amount: int): Creation {
    if source.id == destination.id then SameAccount
    else if source.currency != destination.currency then CurrencyMismatch
    else
      Creation.NewPayment(Payment(merchant, key, fingerprint, source.id, destination.id, amount, Created, None, None))
  }

  // ---------------------------------------------------------------- transitions on values

  function Start(p: Payment): Payment { if p.status == Created then p.(status := Processing) else p }

  function Succeed(p: Payment, id: Option<LedgerTxId>): Payment {
    if p.status == Processing then p.(status := Succeeded, ledgerTx := id) else p
  }

  function Fail(p: Payment, reason: FailureReason): Payment {
    if p.status == Processing then p.(status := Failed, failure := Some(reason)) else p
  }

  /** The two lives of a Payment. */
  ghost predicate Life(history: seq<Status>) {
    history != [] && (history <= [Created, Processing, Succeeded] || history <= [Created, Processing, Failed])
  }

  class Entity {
    var props: Payment
    var updatedAt: Instant
    ghost var history: seq<Status>

    /** The statuses so far are a life, and the reason and the Ledger Transaction go with the last. */
    ghost predicate Valid()
      reads this
    {
      && Life(history) && history[|history| - 1] == props.status
      && (props.failure.Some? <==> props.status == Failed)
      && (props.ledgerTx.Some? ==> props.status == Succeeded)
    }

    constructor (created: Payment, now: Instant)
      requires created.status == Created && created.failure.None? && created.ledgerTx.None?
      ensures Valid() && props == created && updatedAt == now && history == [Created]
    {
      props, updatedAt, history := created, now, [Created];
    }

    /** Refused, and nothing changed, unless the Payment is in `from`. */
    method Transition(from: Status, to: Status, now: Instant) returns (refused: Option<Error>)
      modifies this`props, this`updatedAt
      ensures refused == if old(props).status == from then None else Some(InvalidTransition(old(props).status, to))
      ensures refused.None? ==> props == old(props).(status := to) && updatedAt == now
      ensures refused.Some? ==> props == old(props) && updatedAt == old(updatedAt)
    {
      if props.status != from { return Some(InvalidTransition(props.status, to)); }
      props := props.(status := to);
      updatedAt := now;
      refused := None;
    }

    method StartProcessing(now: Instant) returns (refused: Option<Error>)
      requires Valid()
      modifies this
      ensures Valid() && props == Start(old(props)) && (refused.None? <==> old(props).status == Created)
      ensures old(history) <= history && (refused.Some? ==> history == old(history) && updatedAt == old(updatedAt))
    {
      refused := Transition(Created, Processing, now);
      if refused.None? { history := history + [Processing]; }
    }

    method MarkSucceeded(id: Option<LedgerTxId>, now: Instant) returns (refused: Option<Error>)
      requires Valid()
      modifies this
      ensures Valid() && props == Succeed(old(props), id) && (refused.None? <==> old(props).status == Processing)
      ensures old(history) <= history && (refused.Some? ==> history == old(history) && updatedAt == old(updatedAt))
    {
      refused := Transition(Processing, Succeeded, now);
      if refused.None? {
        props := props.(ledgerTx := id);
        history := history + [Succeeded];
      }
    }

    method MarkFailed(reason: FailureReason, now: Instant) returns (refused: Option<Error>)
      requires Valid()
      modifies this
      ensures Valid() && props == Fail(old(props), reason) && (refused.None? <==> old(props).status == Processing)
      ensures old(history) <= history && (refused.Some? ==> history == old(history) && updatedAt == old(updatedAt))
    {
      refused := Transition(Processing, Failed, now);
      if refused.None? {
        props := props.(failure := Some(reason));
        history := history + [Failed];
      }
    }
  }

  // ---------------------------------------------------------------- the database agrees with the entity

  /** Whatever a Settlement is about to commit, in any interleaving, is the stored Payment taken
      through the entity's own transitions: started, and then succeeded with its Ledger
      Transaction or failed for lack of funds. */
  lemma SettlementFollowsEntity(cfg: Config, actions: seq<Action>, i: TxId)
    requires i in Run(cfg, actions).txs && Run(cfg, actions).txs[i].pc == Committing
    ensures var s := Run(cfg, actions);
            var t := s.txs[i];
            && t.row.Some? && t.payment in s.db.payments
            && (t.row.value == Succeed(Start(s.db.payments[t.payment]), t.ledgerTx)
                || t.row.value == Fail(Start(s.db.payments[t.payment]), InsufficientFunds))
            && (t.row.value.status == Succeeded <==> t.ledgerTx.Some?)
  {
    Reachable(cfg, actions);
    assert TxOk(cfg, Run(cfg, actions).db, Run(cfg, actions).txs[i]);
  }
}

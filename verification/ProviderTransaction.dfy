/** The Provider Transaction state machine: pure rules, as in the domain file. */
module ProviderTransaction {
  import opened Options

  datatype Status = Processing | Succeeded | Failed

  type Instant = int
  type RowId = nat

  /** The part of a Provider Transaction its rules see. */
  datatype Core = Core(id: RowId, status: Status, failureCode: Option<string>, createdAt: Instant,
                       completedAt: Option<Instant>)

  datatype Event = Event(transaction: RowId, status: Status, failureCode: Option<string>, occurredAt: Instant)

  datatype Change = Change(core: Core, event: Event)

  datatype Transition = ToProcessing | ToSucceeded | ToFailed(failureCode: string)

  datatype Refusal = InvalidTransition(from: Status, to: Status) | FailureCodeRequired

  datatype Decided = Ok(change: Change) | Refused(refusal: Refusal)

  function Target(t: Transition): Status {
    match t
    case ToProcessing => Processing
    case ToSucceeded => Succeeded
    case ToFailed(_) => Failed
  }

  function EventFor(c: Core, at: Instant): Event {
    Event(c.id, c.status, c.failureCode, at)
  }

  /** A new Provider Transaction is PROCESSING and enters it with one event. */
  function CreateTransaction(id: RowId, now: Instant): Change {
    var c := Core(id, Processing, None, now, None);
    Change(c, EventFor(c, now))
  }

  function LastChangedAt(c: Core): Instant {
    if c.completedAt.Some? then c.completedAt.value else c.createdAt
  }

  // ---------------------------------------------------------------- trimming

  /** Which characters count as white space is left open. */
  function TrimStart(s: string, space: char -> bool): string {
    if s != [] && space(s[0]) then TrimStart(s[1..], space) else s
  }

  function TrimEnd(s: string, space: char -> bool): string {
    if s != [] && space(s[|s| - 1]) then TrimEnd(s[..|s| - 1], space) else s
  }

  function Trim(s: string, space: char -> bool): string { TrimEnd(TrimStart(s, space), space) }

  predicate Trimmed(s: string, space: char -> bool) {
    s != [] ==> !space(s[0]) && !space(s[|s| - 1])
  }

  lemma {:induction false} TrimStartStarts(s: string, space: char -> bool)
    ensures var r := TrimStart(s, space); r != [] ==> !space(r[0])
  {
    if s != [] && space(s[0]) { TrimStartStarts(s[1..], space); }
  }

  lemma {:induction false} TrimEndEnds(s: string, space: char -> bool)
    ensures var r := TrimEnd(s, space); r <= s && (r != [] ==> !space(r[|r| - 1]))
  {
    if s != [] && space(s[|s| - 1]) { TrimEndEnds(s[..|s| - 1], space); }
  }

  /** Trimming twice is trimming once: a code that was stored trimmed and not blank stays so. */
  lemma TrimIdempotent(s: string, space: char -> bool)
    ensures Trimmed(Trim(s, space), space) && Trim(Trim(s, space), space) == Trim(s, space)
  {
    TrimStartStarts(s, space);
    TrimEndEnds(TrimStart(s, space), space);
  }

  // ---------------------------------------------------------------- transitions

  /** Only PROCESSING -> SUCCEEDED and PROCESSING -> FAILED exist, and FAILED needs a code. */
  function Decide(current: Core, t: Transition, now: Instant, space: char -> bool): Decided {
    if current.status != Processing || t.ToProcessing? then Refused(InvalidTransition(current.status, Target(t)))
    else if t.ToFailed? && Trim(t.failureCode, space) == "" then Refused(FailureCodeRequired)
    else
      var c := current.(status := Target(t),
                        failureCode := if t.ToFailed? then Some(Trim(t.failureCode, space)) else None,
                        completedAt := Some(now));
      Ok(Change(c, EventFor(c, now)))
  }

  /** PROCESSING exactly without a completion time, FAILED exactly with a Failure Code. */
  predicate WellFormed(c: Core) {
    && (c.status == Processing <==> c.completedAt.None?)
    && (c.status == Failed <==> c.failureCode.Some?)
  }

  /** The whole event history a transaction in this state must have. */
  function LogOf(c: Core): seq<Event> {
    [Event(c.id, Processing, None, c.createdAt)]
    + if c.status == Processing then [] else [Event(c.id, c.status, c.failureCode, LastChangedAt(c))]
  }

  /** Creating, and deciding once, keep the state and its history in step. */
  lemma DecisionExtendsLog(id: RowId, created: Instant, current: Core, t: Transition, now: Instant, space: char -> bool)
    ensures var born := CreateTransaction(id, created);
            WellFormed(born.core) && LogOf(born.core) == [born.event]
    ensures var d := Decide(current, t, now, space);
            d.Ok? && WellFormed(current) ==>
              && WellFormed(d.change.core) && d.change.core.status != Processing
              && LogOf(d.change.core) == LogOf(current) + [d.change.event]
              && LastChangedAt(d.change.core) == d.change.event.occurredAt
    ensures var d := Decide(current, t, now, space);
            d.Ok? <==> current.status == Processing
                       && (t.ToSucceeded? || (t.ToFailed? && Trim(t.failureCode, space) != ""))
  {
  }
}

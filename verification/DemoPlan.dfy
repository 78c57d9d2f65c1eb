/** The demo data is a legal run of the sequential Settlement rule.

    `PlanDemoData` builds the plan while it keeps its own Balances; `DemoDatabase.Write` inserts
    it row by row. Both are proved against `Ledger.SettleAll`: the plan decides every Payment as
    the rule would, and the written ledger is the one the rule would have posted. */
module DemoPlan {
  import opened Ledger

  const MINUTE_MS := 60 * 1000
  const DAY_MS := 24 * 60 * MINUTE_MS
  const DAYS := 14

  /** One output of the seeded generator, before it is divided by 2^32. Nothing else is assumed
      of it, so the results hold for every seed. */
  type Draw = x: nat | x < 0x1_0000_0000

  function Between(low: int, high: int, u: Draw): (r: int)
    requires low <= high
    ensures low <= r <= high
  {
    ScaledBelow(u, high - low + 1);
    low + u * (high - low + 1) / 0x1_0000_0000
  }

  lemma ScaledBelow(u: Draw, n: nat)
    requires n > 0
    ensures 0 <= u * n / 0x1_0000_0000 < n
  {
    assert u * n <= 0xFFFF_FFFF * n;
  }

  /** next() < 0.18 */
  predicate Unlucky(u: Draw) { u * 100 < 18 * 0x1_0000_0000 }

  datatype Merchant = Store | Rival

  /** A Wallet key is its number; `clearing` is Account 0. */
  datatype PlannedWallet = PlannedWallet(key: AccountId, merchant: Merchant, createdAt: int)
  datatype Slot = FundingSlot(wallet: AccountId, at: int) | PaymentSlot(merchant: Merchant, at: int)

  datatype Event =
    | Funding(wallet: AccountId, amount: int, at: int)
    | Transfer(source: AccountId, destination: AccountId, amount: int, succeeded: bool, at: int)

  const CLEARING: AccountId := 0

  function WalletsPer(m: Merchant): nat { if m == Store then 6 else 2 }

  function PaymentsPer(m: Merchant): nat { if m == Store then 140 else 14 }

  const MERCHANTS := [Store, Rival]

  /** The Accounts of the plan: clearing, and Wallets 1..n. */
  function KindsUpTo(n: nat): Kinds {
    if n == 0 then map[CLEARING := Clearing] else KindsUpTo(n - 1)[n := Wallet]
  }

  lemma {:induction false} WalletsAre(n: nat, a: AccountId)
    ensures IsWallet(KindsUpTo(n), a) <==> 1 <= a <= n
  {
    if n > 0 { WalletsAre(n - 1, a); }
  }

  function PlanKinds(wallets: seq<PlannedWallet>): Kinds { KindsUpTo(|wallets|) }

  predicate Numbered(wallets: seq<PlannedWallet>) {
    forall k :: 0 <= k < |wallets| ==> wallets[k].key == k + 1
  }

  // ---------------------------------------------------------------- what a plan means

  function Posts(e: Event): bool { e.Funding? || e.succeeded }

  /** Ledger Transactions posted by the first events. */
  function PostCount(events: seq<Event>): nat {
    if events == [] then 0
    else PostCount(events[..|events| - 1]) + if Posts(events[|events| - 1]) then 1 else 0
  }

  /** The Payment behind an event: funding is a Payment from clearing. */
  function RequestFor(n: PaymentId, e: Event, ledgerTx: LedgerTxId): Request {
    match e
    case Funding(w, amount, _) => Request(n, CLEARING, w, amount, ledgerTx)
    case Transfer(s, d, amount, _, _) => Request(n, s, d, amount, ledgerTx)
  }

  /** Payments and Ledger Transactions are numbered in order of insertion, from `p` and `l`. */
  function Requests(events: seq<Event>, p: PaymentId, l: LedgerTxId): seq<Request> {
    if events == [] then []
    else
      var before := events[..|events| - 1];
      Requests(before, p, l) + [RequestFor(p + |before|, events[|events| - 1], l + PostCount(before))]
  }

  function Verdicts(events: seq<Event>, p: PaymentId): map<PaymentId, Verdict> {
    if events == [] then map[]
    else
      var before := events[..|events| - 1];
      Verdicts(before, p)[p + |before| := if Posts(events[|events| - 1]) then Succeeds else Fails]
  }

  predicate WellFormed(wallets: seq<PlannedWallet>, e: Event) {
    match e
    case Funding(w, amount, _) => 1 <= w <= |wallets| && amount > 0
    case Transfer(s, d, amount, _, _) =>
      1 <= s <= |wallets| && 1 <= d <= |wallets| && s != d && amount > 0
      && Numbered(wallets) && wallets[s - 1].merchant == wallets[d - 1].merchant
  }

  /** Positive amounts, two different Wallets of one Merchant, and every transfer succeeds
      exactly when its source holds enough at that point. */
  ghost predicate LegalPlan(wallets: seq<PlannedWallet>, events: seq<Event>) {
    events == [] || (var before, last := events[..|events| - 1], events[|events| - 1];
                     LegalPlan(wallets, before) && LegalNext(wallets, before, last))
  }

  ghost predicate LegalNext(wallets: seq<PlannedWallet>, before: seq<Event>, e: Event) {
    WellFormed(wallets, e) && (e.Transfer? ==> (e.succeeded <==> BalanceAfter(wallets, before, e.source) >= e.amount))
  }

  function BalanceAfter(wallets: seq<PlannedWallet>, events: seq<Event>, a: AccountId): int {
    Balance(SettleAll(PlanKinds(wallets), Requests(events, 0, 0)).entries, a)
  }

  lemma {:induction false} AmountsPositive(wallets: seq<PlannedWallet>, events: seq<Event>)
    requires LegalPlan(wallets, events)
    ensures forall r :: r in Requests(events, 0, 0) ==> r.amount > 0
  {
    if events != [] { AmountsPositive(wallets, events[..|events| - 1]); }
  }

  lemma {:induction false} RequestsLength(events: seq<Event>, p: PaymentId, l: LedgerTxId)
    ensures |Requests(events, p, l)| == |events|
  {
    if events != [] { RequestsLength(events[..|events| - 1], p, l); }
  }

  /** The sequential rule takes exactly the planned decisions. */
  lemma {:induction false} PlanIsSerialRun(wallets: seq<PlannedWallet>, events: seq<Event>)
    requires LegalPlan(wallets, events)
    ensures SettleAll(PlanKinds(wallets), Requests(events, 0, 0)).verdicts == Verdicts(events, 0)
  {
    if events != [] {
      var before, rs := events[..|events| - 1], Requests(events, 0, 0);
      PlanIsSerialRun(wallets, before);
      var e := events[|events| - 1];
      WalletsAre(|wallets|, if e.Funding? then CLEARING else e.source);
      assert rs[..|rs| - 1] == Requests(before, 0, 0);
    }
  }

  /** What one event does to every Balance. */
  function Effect(e: Event, a: AccountId): int {
    if !Posts(e) then 0
    else match e
      case Funding(w, amount, _) => (if a == w then amount else 0) - (if a == CLEARING then amount else 0)
      case Transfer(s, d, amount, _, _) => (if a == d then amount else 0) - (if a == s then amount else 0)
  }

  lemma EventEffect(wallets: seq<PlannedWallet>, events: seq<Event>, e: Event, a: AccountId)
    requires LegalNext(wallets, events, e)
    ensures BalanceAfter(wallets, events + [e], a) == BalanceAfter(wallets, events, a) + Effect(e, a)
  {
    var kinds, events' := PlanKinds(wallets), events + [e];
    WalletsAre(|wallets|, if e.Funding? then CLEARING else e.source);
    assert events'[..|events'| - 1] == events;
    var r, rs := RequestFor(|events|, e, PostCount(events)), Requests(events, 0, 0);
    assert (rs + [r])[..|rs|] == rs;
    PostingEffect(SettleAll(kinds, rs).entries, r, a);
  }

  /** The events before `n`, and event `n` after them. */
  lemma {:induction false} LegalAt(wallets: seq<PlannedWallet>, events: seq<Event>, n: nat)
    requires LegalPlan(wallets, events) && n < |events|
    ensures LegalPlan(wallets, events[..n]) && LegalNext(wallets, events[..n], events[n])
    decreases |events|
  {
    if n < |events| - 1 {
      LegalAt(wallets, events[..|events| - 1], n);
      assert events[..|events| - 1][..n] == events[..n];
    }
  }

  lemma {:induction false} PrefixLegal(wallets: seq<PlannedWallet>, events: seq<Event>, n: nat)
    requires LegalPlan(wallets, events) && n <= |events|
    ensures LegalPlan(wallets, events[..n])
    decreases |events|
  {
    if n == |events| {
      assert events[..n] == events;
    } else {
      LegalAt(wallets, events, n);
    }
  }

  /** No prefix of a legal plan overdraws a Wallet or creates money. */
  lemma LegalPlanSafe(wallets: seq<PlannedWallet>, events: seq<Event>, n: nat, a: AccountId)
    requires LegalPlan(wallets, events) && n <= |events|
    ensures 1 <= a <= |wallets| ==> BalanceAfter(wallets, events[..n], a) >= 0
    ensures Net(SettleAll(PlanKinds(wallets), Requests(events[..n], 0, 0)).entries) == 0
  {
    PrefixLegal(wallets, events, n);
    AmountsPositive(wallets, events[..n]);
    WalletsAre(|wallets|, a);
    SequentialSafety(PlanKinds(wallets), Requests(events[..n], 0, 0), a);
  }

  function TotalFunding(events: seq<Event>): int {
    if events == [] then 0
    else TotalFunding(events[..|events| - 1]) + if events[|events| - 1].Funding? then events[|events| - 1].amount else 0
  }

  /** Sum of the Balances of Wallets 1..n. */
  function WalletTotal(wallets: seq<PlannedWallet>, events: seq<Event>, n: nat): int {
    if n == 0 then 0 else WalletTotal(wallets, events, n - 1) + BalanceAfter(wallets, events, n)
  }

  function EffectTotal(e: Event, n: nat): int {
    if n == 0 then 0 else EffectTotal(e, n - 1) + Effect(e, n)
  }

  lemma {:induction false} EffectTotalIs(e: Event, n: nat)
    requires e.Funding? ==> e.wallet >= 1
    requires e.Transfer? ==> e.source >= 1 && e.destination >= 1
    ensures EffectTotal(e, n) == (if !Posts(e) then 0
                                  else if e.Funding? then (if e.wallet <= n then e.amount else 0)
                                  else (if e.destination <= n then e.amount else 0)
                                       - (if e.source <= n then e.amount else 0))
  {
    if n > 0 { EffectTotalIs(e, n - 1); }
  }

  lemma {:induction false} WalletTotalStep(wallets: seq<PlannedWallet>, events: seq<Event>, e: Event, n: nat)
    requires LegalNext(wallets, events, e)
    ensures WalletTotal(wallets, events + [e], n) == WalletTotal(wallets, events, n) + EffectTotal(e, n)
  {
    hide LegalNext, BalanceAfter, Effect;
    if n > 0 {
      WalletTotalStep(wallets, events, e, n - 1);
      EventEffect(wallets, events, e, n);
    }
  }

  /** Conservation: the Wallets together hold exactly the total funding. */
  lemma {:induction false} Conservation(wallets: seq<PlannedWallet>, events: seq<Event>)
    requires LegalPlan(wallets, events)
    ensures WalletTotal(wallets, events, |wallets|) == TotalFunding(events)
  {
    if events == [] {
      NothingHeld(wallets, |wallets|);
    } else {
      var before, last := events[..|events| - 1], events[|events| - 1];
      Conservation(wallets, before);
      WalletTotalStep(wallets, before, last, |wallets|);
      EffectTotalIs(last, |wallets|);
      assert before + [last] == events;
    }
  }

  lemma {:induction false} NothingHeld(wallets: seq<PlannedWallet>, n: nat)
    ensures WalletTotal(wallets, [], n) == 0
  {
    if n > 0 { NothingHeld(wallets, n - 1); }
  }

  // ---------------------------------------------------------------- building the plan

  method PlanWallets(start: int) returns (wallets: seq<PlannedWallet>)
    ensures |wallets| == 8 && Numbered(wallets)
    ensures forall k :: 0 <= k < 8 ==> wallets[k].merchant == (if k < 6 then Store else Rival)
                                       && wallets[k].createdAt == start + k * MINUTE_MS
  {
    wallets := [];
    for m := 0 to |MERCHANTS|
      invariant |wallets| == if m == 0 then 0 else if m == 1 then 6 else 8
      invariant Numbered(wallets)
      invariant forall k :: 0 <= k < |wallets| ==> wallets[k].merchant == (if k < 6 then Store else Rival)
                                                   && wallets[k].createdAt == start + k * MINUTE_MS
    {
      var before := |wallets|;
      for index := 0 to WalletsPer(MERCHANTS[m])
        invariant |wallets| == before + index && Numbered(wallets)
        invariant forall k :: 0 <= k < |wallets| ==> wallets[k].merchant == (if k < 6 then Store else Rival)
                                                     && wallets[k].createdAt == start + k * MINUTE_MS
      {
        wallets := wallets + [PlannedWallet(|wallets| + 1, MERCHANTS[m], start + |wallets| * MINUTE_MS)];
      }
    }
  }

  predicate SlotOk(wallets: seq<PlannedWallet>, slot: Slot) {
    slot.FundingSlot? ==> 1 <= slot.wallet <= |wallets|
  }

  /** An opening funding per Wallet, two top-ups per Wallet of the main Merchant, and the Payments,
      all before `end`. */
  method PlanSlots(wallets: seq<PlannedWallet>, start: int, draws: nat -> Draw, from: nat)
    returns (slots: seq<Slot>, drawn: nat)
    requires |wallets| == 8 && Numbered(wallets)
    requires forall k :: 0 <= k < 8 ==> wallets[k].merchant == (if k < 6 then Store else Rival)
                                        && wallets[k].createdAt == start + k * MINUTE_MS
    ensures forall slot :: slot in slots ==>
              SlotOk(wallets, slot) && start < slot.at <= start + DAYS * DAY_MS - 5 * MINUTE_MS
    ensures |slots| == 8 + 12 + 140 + 14
    ensures forall k :: 0 <= k < 8 ==> FundingSlot(wallets[k].key, wallets[k].createdAt + 5 * MINUTE_MS) in slots
  {
    var end := start + DAYS * DAY_MS - 5 * MINUTE_MS;
    slots, drawn := [], from;
    for w := 0 to |wallets|
      invariant forall slot :: slot in slots ==> SlotOk(wallets, slot) && start < slot.at <= end
      invariant |slots| == w + 2 * (if w < 6 then w else 6)
      invariant forall k :: 0 <= k < w ==> FundingSlot(wallets[k].key, wallets[k].createdAt + 5 * MINUTE_MS) in slots
    {
      slots := slots + [FundingSlot(wallets[w].key, wallets[w].createdAt + 5 * MINUTE_MS)];
      if wallets[w].merchant == Store {
        for topUp := 0 to 2
          invariant forall slot :: slot in slots ==> SlotOk(wallets, slot) && start < slot.at <= end
          invariant |slots| == 3 * w + 1 + topUp
          invariant forall k :: 0 <= k <= w ==>
                      FundingSlot(wallets[k].key, wallets[k].createdAt + 5 * MINUTE_MS) in slots
        {
          slots := slots + [FundingSlot(wallets[w].key, Between(start + DAY_MS, end, draws(drawn)))];
          drawn := drawn + 1;
        }
      }
    }
    for m := 0 to |MERCHANTS|
      invariant forall slot :: slot in slots ==> SlotOk(wallets, slot) && start < slot.at <= end
      invariant |slots| == 20 + if m == 0 then 0 else if m == 1 then 140 else 154
      invariant forall k :: 0 <= k < 8 ==> FundingSlot(wallets[k].key, wallets[k].createdAt + 5 * MINUTE_MS) in slots
    {
      var before := |slots|;
      for i := 0 to PaymentsPer(MERCHANTS[m])
        invariant forall slot :: slot in slots ==> SlotOk(wallets, slot) && start < slot.at <= end
        invariant |slots| == before + i
        invariant forall k :: 0 <= k < 8 ==> FundingSlot(wallets[k].key, wallets[k].createdAt + 5 * MINUTE_MS) in slots
      {
        slots := slots + [PaymentSlot(MERCHANTS[m], Between(start + 60 * MINUTE_MS, end, draws(drawn)))];
        drawn := drawn + 1;
      }
    }
  }

  predicate InOrder(slots: seq<Slot>) {
    forall j, k :: 0 <= j < k < |slots| ==> slots[j].at <= slots[k].at
  }

  lemma InsertedInOrder(sorted: seq<Slot>, k: nat, slot: Slot)
    requires InOrder(sorted) && k <= |sorted|
    requires forall j :: k <= j < |sorted| ==> sorted[j].at > slot.at
    requires k > 0 ==> sorted[k - 1].at <= slot.at
    ensures InOrder(sorted[..k] + [slot] + sorted[k..])
  {
    var longer := sorted[..k] + [slot] + sorted[k..];
    forall i, j | 0 <= i < j < |longer| ensures longer[i].at <= longer[j].at {
      assert longer[i] == if i < k then sorted[i] else if i == k then slot else sorted[i - 1];
      assert longer[j] == if j < k then sorted[j] else if j == k then slot else sorted[j - 1];
      if i < k <= j { assert sorted[i].at <= sorted[k - 1].at; }
    }
  }

  method InsertSlot(sorted: seq<Slot>, slot: Slot) returns (longer: seq<Slot>)
    requires InOrder(sorted)
    ensures InOrder(longer) && multiset(longer) == multiset(sorted) + multiset{slot}
  {
    var k := |sorted|;
    while k > 0 && sorted[k - 1].at > slot.at
      invariant 0 <= k <= |sorted|
      invariant forall j :: k <= j < |sorted| ==> sorted[j].at > slot.at
    {
      k := k - 1;
    }
    InsertedInOrder(sorted, k, slot);
    longer := sorted[..k] + [slot] + sorted[k..];
    assert multiset(longer) == multiset(sorted) + multiset{slot} by {
      assert sorted == sorted[..k] + sorted[k..];
    }
  }

  /** slots.sort by time; ties keep their order. */
  method SortSlots(slots: seq<Slot>) returns (sorted: seq<Slot>)
    ensures InOrder(sorted) && multiset(sorted) == multiset(slots)
  {
    sorted := [];
    for n := 0 to |slots|
      invariant InOrder(sorted) && multiset(sorted) == multiset(slots[..n])
    {
      assert slots[..n + 1] == slots[..n] + [slots[n]];
      sorted := InsertSlot(sorted, slots[n]);
    }
    assert slots[..|slots|] == slots;
  }

  /** wallets.filter(...) by Merchant, without `except`. */
  method WalletsOf(wallets: seq<PlannedWallet>, m: Merchant, except: AccountId) returns (own: seq<AccountId>)
    requires EightWallets(wallets)
    ensures forall a :: a in own ==> 1 <= a <= 8 && wallets[a - 1].merchant == m && a != except
    ensures |own| >= WalletsPer(m) - 1 && (except == CLEARING ==> |own| == WalletsPer(m))
  {
    own := [];
    for k := 0 to 8
      invariant forall a :: a in own ==> 1 <= a <= 8 && wallets[a - 1].merchant == m && a != except
      invariant |own| == (if m == Store then (if k < 6 then k else 6) else if k < 6 then 0 else k - 6)
                         - (if 1 <= except <= k && wallets[except - 1].merchant == m then 1 else 0)
    {
      if wallets[k].merchant == m && wallets[k].key != except {
        own := own + [wallets[k].key];
      }
    }
  }

  function Held(balances: map<AccountId, int>, a: AccountId): int {
    if a in balances then balances[a] else 0
  }

  /** The loop's own `balances` are those of the ledger of the plan so far. */
  ghost predicate Agree(wallets: seq<PlannedWallet>, events: seq<Event>, balances: map<AccountId, int>) {
    forall a :: 1 <= a <= 8 ==> Held(balances, a) == BalanceAfter(wallets, events, a)
  }

  lemma AgreeStep(wallets: seq<PlannedWallet>, events: seq<Event>, balances: map<AccountId, int>, e: Event,
                  balances': map<AccountId, int>)
    requires LegalPlan(wallets, events) && Agree(wallets, events, balances) && LegalNext(wallets, events, e)
    requires forall a :: 1 <= a <= 8 ==> Held(balances', a) == Held(balances, a) + Effect(e, a)
    ensures LegalPlan(wallets, events + [e]) && Agree(wallets, events + [e], balances')
  {
    forall a | 1 <= a <= 8 ensures Held(balances', a) == BalanceAfter(wallets, events + [e], a) {
      EventEffect(wallets, events, e, a);
    }
    assert (events + [e])[..|events|] == events;
  }

  predicate EightWallets(wallets: seq<PlannedWallet>) {
    && |wallets| == 8 && Numbered(wallets)
    && forall k :: 0 <= k < 8 ==> wallets[k].merchant == (if k < 6 then Store else Rival)
  }

  predicate Follows(e: Event, slot: Slot) {
    e.at == slot.at && (e.Funding? <==> slot.FundingSlot?)
  }

  /** The replay loop. */
  method PlanEvents(wallets: seq<PlannedWallet>, slots: seq<Slot>, draws: nat -> Draw, from: nat)
    returns (events: seq<Event>, balances: map<AccountId, int>)
    requires EightWallets(wallets) && forall slot :: slot in slots ==> SlotOk(wallets, slot)
    ensures LegalPlan(wallets, events) && |events| == |slots| && Agree(wallets, events, balances)
    ensures forall k :: 0 <= k < |events| ==> Follows(events[k], slots[k])
  {
    hide EightWallets, Follows, LegalNext;
    balances, events := map[], [];
    var drawn := from;
    for n := 0 to |slots|
      invariant LegalPlan(wallets, events) && |events| == n && Agree(wallets, events, balances)
      invariant forall k :: 0 <= k < n ==> Follows(events[k], slots[k])
    {
      assert slots[n] in slots;
      var e, balances';
      if slots[n].FundingSlot? {
        e, balances', drawn := PlanFunding(wallets, slots[n], balances, draws, drawn, events);
      } else {
        e, balances', drawn := PlanTransfer(wallets, slots[n], balances, draws, drawn, events);
      }
      AgreeStep(wallets, events, balances, e, balances');
      events, balances := events + [e], balances';
    }
  }

  method PlanFunding(wallets: seq<PlannedWallet>, slot: Slot, balances: map<AccountId, int>, draws: nat -> Draw,
                     from: nat, ghost events: seq<Event>)
    returns (e: Event, balances': map<AccountId, int>, drawn: nat)
    requires EightWallets(wallets) && slot.FundingSlot? && SlotOk(wallets, slot)
    ensures LegalNext(wallets, events, e) && Follows(e, slot)
    ensures forall a :: 1 <= a <= 8 ==> Held(balances', a) == Held(balances, a) + Effect(e, a)
  {
    var amount := Between(300_000, 900_000, draws(from));
    drawn := from + 1;
    balances' := balances[slot.wallet := Held(balances, slot.wallet) + amount];
    e := Funding(slot.wallet, amount, slot.at);
  }

  /** One Payment: some are deliberately larger than the Balance, so failures appear. */
  method PlanTransfer(wallets: seq<PlannedWallet>, slot: Slot, balances: map<AccountId, int>, draws: nat -> Draw,
                      from: nat, ghost events: seq<Event>)
    returns (e: Event, balances': map<AccountId, int>, drawn: nat)
    requires EightWallets(wallets) && slot.PaymentSlot?
    requires LegalPlan(wallets, events) && Agree(wallets, events, balances)
    ensures LegalNext(wallets, events, e) && Follows(e, slot)
    ensures forall a :: 1 <= a <= 8 ==> Held(balances', a) == Held(balances, a) + Effect(e, a)
  {
    var source, destination := PickPair(wallets, slot.merchant, draws, from);
    var balance := Held(balances, source);
    assert balance >= 0 && balance == BalanceAfter(wallets, events, source) by {
      LegalPlanSafe(wallets, events, |events|, source);
      assert events[..|events|] == events;
    }
    drawn := from + 4;
    var overdraw := Unlucky(draws(from + 2)) || balance < 1_000;
    var amount := if overdraw then balance + Between(1_000, 400_000, draws(from + 3))
                  else Least(balance, Between(500, 150_000, draws(from + 3)));
    var succeeded := balance >= amount;
    balances' := balances;
    if succeeded {
      balances' := balances'[source := balance - amount];
      balances' := balances'[destination := Held(balances', destination) + amount];
    }
    e := Transfer(source, destination, amount, succeeded, slot.at);
  }

  function Least(x: int, y: int): int { if x < y then x else y }

  /** Two different Wallets of one Merchant. */
  method PickPair(wallets: seq<PlannedWallet>, m: Merchant, draws: nat -> Draw, from: nat)
    returns (source: AccountId, destination: AccountId)
    requires EightWallets(wallets)
    ensures 1 <= source <= 8 && 1 <= destination <= 8 && source != destination
    ensures wallets[source - 1].merchant == m && wallets[destination - 1].merchant == m
  {
    var own := WalletsOf(wallets, m, CLEARING);
    source := own[Between(0, |own| - 1, draws(from))];
    assert source in own;
    var others := WalletsOf(wallets, m, source);
    destination := others[Between(0, |others| - 1, draws(from + 1))];
    assert destination in others;
  }

  /** For any seed and any instant, the plan is legal and in time order, and its last Balances are
      those of its ledger. */
  method PlanDemoData(now: int, draws: nat -> Draw)
    returns (wallets: seq<PlannedWallet>, events: seq<Event>, balances: map<AccountId, int>)
    ensures |wallets| == 8 && Numbered(wallets) && |events| == 174
    ensures LegalPlan(wallets, events)
    ensures forall j, k :: 0 <= j < k < |events| ==> events[j].at <= events[k].at
    ensures forall e :: e in events ==> now - DAYS * DAY_MS < e.at <= now - 5 * MINUTE_MS
    ensures Agree(wallets, events, balances)
  {
    var start := now - DAYS * DAY_MS;
    wallets := PlanWallets(start);
    var slots, drawn := PlanSlots(wallets, start, draws, 0);
    var sorted := SortSlots(slots);
    forall slot | slot in sorted ensures slot in slots {
      assert slot in multiset(sorted);
    }
    assert |multiset(sorted)| == |multiset(slots)|;
    events, balances := PlanEvents(wallets, sorted, draws, drawn);
  }
}

/** What a settled purchase has returned after any set of refund notifications
    (handleReversal in internal/billing/service.go, with the dedupe of InsertProviderEvent). */
module Refunds {
  import opened Tables
  import opened Purchases
  import opened Catalog
  import L = Licences
  import opened Billing

  /** The sum over a set of dedupe keys, each taken once. */
  ghost function Owed(keys: set<string>, amount: string -> int, total: int): int
    decreases |keys|
  {
    if keys == {} then 0
    else
      var k :| k in keys;
      Effective(amount(k), total) + Owed(keys - {k}, amount, total)
  }

  lemma {:induction false} OwedWithout(keys: set<string>, k: string, amount: string -> int, total: int)
    requires k in keys
    ensures Owed(keys, amount, total) == Effective(amount(k), total) + Owed(keys - {k}, amount, total)
    decreases |keys|
  {
    var c :| c in keys && Owed(keys, amount, total) == Effective(amount(c), total) + Owed(keys - {c}, amount, total);
    if c != k {
      OwedWithout(keys - {c}, k, amount, total);
      OwedWithout(keys - {k}, c, amount, total);
      assert keys - {c} - {k} == keys - {k} - {c};
    }
  }

  lemma OwedWith(keys: set<string>, k: string, amount: string -> int, total: int)
    requires k !in keys
    ensures Owed(keys + {k}, amount, total) == Owed(keys, amount, total) + Effective(amount(k), total)
  {
    OwedWithout(keys + {k}, k, amount, total);
    assert keys + {k} - {k} == keys;
  }

  /** A refund of this purchase in which no call of the handler fails. */
  ghost predicate CleanRefund(step: Step, id: Id) {
    && step.DeliverStep? && step.d.kind.PaymentRefunded? && step.d.purchaseId == Some(id)
    && !step.x.withdrawFails && !step.x.flagFails && !step.x.recordFails
  }

  /** The step returns nothing of this purchase: it is about another one, or about plans, checkouts
      and retries, or it settles, fails or cancels; and it uses up none of the refunds' keys. */
  ghost predicate Elsewhere(step: Step, id: Id, keys: set<string>) {
    step.DeliverStep? ==>
      && step.d.key !in keys
      && (step.d.purchaseId == Some(id) ==>
           !step.d.kind.PaymentRefunded? && !step.d.kind.PaymentDisputed? && !step.d.kind.DisputeReversed?)
  }

  ghost predicate RefundStep(step: Step, id: Id) { step.DeliverStep? && step.d.kind.PaymentRefunded? && step.d.purchaseId == Some(id) }

  /** The dedupe keys the refunds of this purchase carry. */
  ghost function KeysOf(steps: seq<Step>, id: Id): set<string> {
    set i | 0 <= i < |steps| && RefundStep(steps[i], id) :: steps[i].d.key
  }

  /** A run in which the reversals of one purchase are clean refunds, each key always with the same
      amount. What else happens is up to the run. */
  ghost predicate RefundsOf(steps: seq<Step>, id: Id, amount: string -> int, keys: set<string>) {
    forall i :: 0 <= i < |steps| ==>
      if RefundStep(steps[i], id) then
        CleanRefund(steps[i], id) && steps[i].d.key in keys && steps[i].d.amount == amount(steps[i].d.key)
      else Elsewhere(steps[i], id, keys)
  }

  /** What was returned stays, and so does what was settled once it is. */
  ghost predicate MoneyKept(s: Ledger, s': Ledger, id: Id)
    requires id in s.purchases
  {
    && id in s'.purchases && s'.purchases[id].refunded == s.purchases[id].refunded
    && (PostSettlement(s.purchases[id].status) ==>
         PostSettlement(s'.purchases[id].status) && s'.purchases[id].settlement == s.purchases[id].settlement)
  }

  lemma ApplyElsewhere(cat: PlanCatalog, s: Ledger, id: Id, p: Purchase, at: Time, x: World)
    requires id in s.purchases && Row(s, p)
    ensures var s' := ApplyEntitlement(cat, s, p, at, x).0; MoneyKept(s, s', id) && s'.records == s.records
  {
  }

  lemma SettlementElsewhere(cat: PlanCatalog, s: Ledger, id: Id, p: Purchase, d: Delivery, x: World)
    requires id in s.purchases && Row(s, p)
    ensures var s' := HandleSettlement(cat, s, p, d, x).0; MoneyKept(s, s', id) && s'.records == s.records
  {
    if p.status.Settled? {
      ApplyElsewhere(cat, s, id, p, OccurredAt(d, x), x);
    } else if !PostSettlement(p.status) {
      var paid := SettledRow(p, d, x.now);
      ApplyElsewhere(cat, Put(s, paid), id, paid, OccurredAt(d, x), x);
    }
  }

  /** A reversal of another purchase. */
  lemma ReversalElsewhere(s: Ledger, id: Id, p: Purchase, d: Delivery, dispute: bool, x: World)
    requires id in s.purchases && Row(s, p) && p.id != id
    ensures var s' := HandleReversal(s, p, d, dispute, x).0; MoneyKept(s, s', id) && s'.records == s.records
  {
  }

  lemma DisputeReversedElsewhere(s: Ledger, id: Id, p: Purchase, d: Delivery, x: World)
    requires id in s.purchases && Row(s, p) && p.id != id
    ensures var s' := HandleDisputeReversed(s, p, d, x).0; MoneyKept(s, s', id) && s'.records == s.records
  {
  }

  lemma HandleElsewhere(cat: PlanCatalog, s: Ledger, id: Id, p: Purchase, d: Delivery, x: World)
    requires id in s.purchases && Row(s, p)
    requires p.id == id ==> !d.kind.PaymentRefunded? && !d.kind.PaymentDisputed? && !d.kind.DisputeReversed?
    ensures var s' := Handle(cat, s, p, d, x).0; MoneyKept(s, s', id) && s'.records == s.records
  {
    match d.kind
    case PaymentSettled => SettlementElsewhere(cat, s, id, p, d, x);
    case PaymentRefunded => ReversalElsewhere(s, id, p, d, false, x);
    case PaymentDisputed => ReversalElsewhere(s, id, p, d, true, x);
    case DisputeReversed => DisputeReversedElsewhere(s, id, p, d, x);
    case _ =>
  }

  lemma ElsewhereEffect(cat: PlanCatalog, s: Ledger, id: Id, step: Step, keys: set<string>)
    requires Valid(s) && id in s.purchases && Guarded(s, step) && Elsewhere(step, id, keys)
    ensures MoneyKept(s, Next(cat, s, step), id)
    ensures forall k :: k in keys ==> Claimable(Next(cat, s, step).records, k) == Claimable(s.records, k)
  {
    match step
    case DeliverStep(d, x) => DeliverElsewhere(cat, s, id, d, x, keys);
    case ReconcileStep(q, x) =>
      if q in s.purchases && Unapplied()(s.purchases[q]) {
        ApplyElsewhere(cat, s, id, s.purchases[q], RetryTime(s.purchases[q], x), x);
      }
    case _ =>
  }

  lemma RouteElsewhere(cat: PlanCatalog, s: Ledger, id: Id, d: Delivery, x: World)
    requires Valid(s) && id in s.purchases
    requires d.purchaseId == Some(id) ==> !d.kind.PaymentRefunded? && !d.kind.PaymentDisputed? && !d.kind.DisputeReversed?
    ensures var s' := Route(cat, s, d, x).0; MoneyKept(s, s', id) && s'.records == s.records
  {
    if d.purchaseId.Some? && d.purchaseId.value in s.purchases {
      HandleElsewhere(cat, s, id, s.purchases[d.purchaseId.value], d, x);
    }
  }

  lemma DeliverElsewhere(cat: PlanCatalog, s: Ledger, id: Id, d: Delivery, x: World, keys: set<string>)
    requires Valid(s) && id in s.purchases && Elsewhere(DeliverStep(d, x), id, keys)
    ensures var s' := HandleProviderEvent(cat, s, d, x).0;
      MoneyKept(s, s', id) && forall k :: k in keys ==> Claimable(s'.records, k) == Claimable(s.records, k)
  {
    RouteElsewhere(cat, Claimed(s, d.key), id, d, x);
  }

  lemma CleanStep(cat: PlanCatalog, s: Ledger, id: Id, step: Step)
    requires Valid(s) && id in s.purchases && PostSettlement(s.purchases[id].status) && CleanRefund(step, id)
    ensures var s' := Next(cat, s, step);
      && s'.books == s.books && id in s'.purchases
      && if Claimable(s.records, step.d.key) then
           s'.purchases == s.purchases[id := Reversed(s.purchases[id], step.d.amount, false)] && s'.records == s.records[step.d.key := Processed]
         else s' == s
  {
    L.NothingToWithdraw(s.books, id, step.x.now);
  }

  /** A refund that arrives before the payment has settled: it is handled, and returns nothing. */
  lemma EarlyStep(cat: PlanCatalog, s: Ledger, id: Id, step: Step)
    requires Valid(s) && id in s.purchases && !PostSettlement(s.purchases[id].status) && CleanRefund(step, id)
    ensures var s' := Next(cat, s, step);
      && id in s'.purchases && !PostSettlement(s'.purchases[id].status) && !Claimable(s'.records, step.d.key)
      && forall k :: k != step.d.key ==> Claimable(s'.records, k) == Claimable(s.records, k)
  {
  }

  /** A sum of refunds, no more than the total once there is one. */
  function Capped(total: int, sum: int): int { if total > 0 && sum > total then total else sum }

  lemma CappedStep(total: int, sum: int, e: int)
    requires e >= 0
    ensures Capped(total, Capped(total, sum) + e) == Capped(total, sum + e)
  {
  }

  /** The table once the keys in done were refunded and those in spent used up before the payment. */
  ghost predicate RefundedFor(s: Ledger, id: Id, spent: set<string>, done: set<string>, amount: string -> int) {
    && id in s.purchases && spent !! done
    && (forall k :: k in spent + done ==> !Claimable(s.records, k))
    && if PostSettlement(s.purchases[id].status) then
         s.purchases[id].refunded == Capped(Total(s.purchases[id]), Owed(done, amount, Total(s.purchases[id])))
       else done == {}
  }

  /** No refund was delivered yet. */
  lemma NoneYet(s: Ledger, id: Id, amount: string -> int)
    requires id in s.purchases && s.purchases[id].refunded == 0
    ensures RefundedFor(s, id, {}, {}, amount)
  {
  }

  ghost predicate Collected(s: Ledger, id: Id) { id in s.purchases && PostSettlement(s.purchases[id].status) }

  /** The refund key of one step, and that key if it comes before the payment has settled. */
  ghost function StepKey(step: Step, id: Id): set<string> { if RefundStep(step, id) then {step.d.key} else {} }

  ghost function EarlyKey(s: Ledger, step: Step, id: Id): set<string> {
    if RefundStep(step, id) && !Collected(s, id) then {step.d.key} else {}
  }

  /** The keys whose refund came before the payment had settled. */
  ghost function EarlyKeys(cat: PlanCatalog, s: Ledger, steps: seq<Step>, id: Id): set<string>
    decreases |steps|
  {
    if steps == [] then {}
    else
      EarlyKeys(cat, Next(cat, s, steps[0]), steps[1..], id) + EarlyKey(s, steps[0], id)
  }

  lemma LateStep(cat: PlanCatalog, s: Ledger, id: Id, step: Step, spent: set<string>, done: set<string>, amount: string -> int)
    requires Valid(s) && RefundedFor(s, id, spent, done, amount) && PostSettlement(s.purchases[id].status)
    requires CleanRefund(step, id) && step.d.amount == amount(step.d.key)
    requires step.d.key in spent + done || Claimable(s.records, step.d.key)
    ensures RefundedFor(Next(cat, s, step), id, spent, done + ({step.d.key} - spent), amount)
    ensures forall k :: k != step.d.key ==> Claimable(Next(cat, s, step).records, k) == Claimable(s.records, k)
  {
    var k, total := step.d.key, Total(s.purchases[id]);
    CleanStep(cat, s, id, step);
    if k in spent {
      assert done + ({k} - spent) == done;
    } else if k in done {
      assert done + ({k} - spent) == done;
    } else {
      assert done + ({k} - spent) == done + {k};
      OwedWith(done, k, amount, total);
      CappedStep(total, Owed(done, amount, total), Effective(amount(k), total));
    }
  }

  lemma ElsewhereStep(cat: PlanCatalog, s: Ledger, id: Id, step: Step, spent: set<string>, done: set<string>,
                      amount: string -> int, keys: set<string>)
    requires Valid(s) && RefundedFor(s, id, spent, done, amount) && Guarded(s, step) && Elsewhere(step, id, keys)
    requires spent + done <= keys
    ensures var s' := Next(cat, s, step);
      RefundedFor(s', id, spent, done, amount) && forall k :: k in keys ==> Claimable(s'.records, k) == Claimable(s.records, k)
  {
    ElsewhereEffect(cat, s, id, step, keys);
  }

  /** The keys not met yet can still be claimed. */
  ghost predicate Standing(s: Ledger, id: Id, spent: set<string>, done: set<string>, amount: string -> int, keys: set<string>) {
    && RefundedFor(s, id, spent, done, amount) && spent + done <= keys
    && forall k :: k in keys - spent - done ==> Claimable(s.records, k)
  }

  lemma StandingElsewhere(cat: PlanCatalog, s: Ledger, id: Id, step: Step, spent: set<string>, done: set<string>,
                          amount: string -> int, keys: set<string>)
    requires Valid(s) && Standing(s, id, spent, done, amount, keys) && Guarded(s, step) && Elsewhere(step, id, keys)
    ensures Standing(Next(cat, s, step), id, spent, done, amount, keys)
  {
    ElsewhereStep(cat, s, id, step, spent, done, amount, keys);
  }

  lemma StandingLate(cat: PlanCatalog, s: Ledger, id: Id, step: Step, spent: set<string>, done: set<string>,
                     amount: string -> int, keys: set<string>)
    requires Valid(s) && Standing(s, id, spent, done, amount, keys) && PostSettlement(s.purchases[id].status)
    requires CleanRefund(step, id) && step.d.amount == amount(step.d.key) && step.d.key in keys
    ensures Standing(Next(cat, s, step), id, spent, done + ({step.d.key} - spent), amount, keys)
  {
    LateStep(cat, s, id, step, spent, done, amount);
  }

  lemma StandingEarly(cat: PlanCatalog, s: Ledger, id: Id, step: Step, spent: set<string>, done: set<string>,
                      amount: string -> int, keys: set<string>)
    requires Valid(s) && Standing(s, id, spent, done, amount, keys) && !PostSettlement(s.purchases[id].status)
    requires CleanRefund(step, id) && step.d.key in keys
    ensures Standing(Next(cat, s, step), id, spent + {step.d.key}, done, amount, keys)
  {
    EarlyStep(cat, s, id, step);
  }

  /** One step of such a run, whichever kind it is. */
  lemma OneStep(cat: PlanCatalog, s: Ledger, id: Id, step: Step, spent: set<string>, done: set<string>,
                amount: string -> int, keys: set<string>)
    requires Valid(s) && Guarded(s, step) && Standing(s, id, spent, done, amount, keys) && RefundsOf([step], id, amount, keys)
    ensures var spent' := spent + EarlyKey(s, step, id);
      Standing(Next(cat, s, step), id, spent', done + (StepKey(step, id) - spent'), amount, keys)
  {
    assert [step][0] == step;
    if !RefundStep(step, id) {
      StandingElsewhere(cat, s, id, step, spent, done, amount, keys);
      assert spent + {} == spent && done + ({} - spent) == done;
    } else if PostSettlement(s.purchases[id].status) {
      StandingLate(cat, s, id, step, spent, done, amount, keys);
      assert spent + {} == spent;
    } else {
      StandingEarly(cat, s, id, step, spent, done, amount, keys);
      assert done + ({step.d.key} - (spent + {step.d.key})) == done;
    }
  }

  /** Refunds of a purchase, delivered in any order and any number of times, before its payment and
      after it, return the sum over the distinct dedupe keys first delivered after the payment, up to
      the total: the repetitions do not show, nor does whatever else the run does to this purchase or
      to others in between, and the other keys are lost. */
  lemma {:induction false} LateRefundsAddUp(cat: PlanCatalog, s: Ledger, id: Id, steps: seq<Step>, spent: set<string>,
                                            done: set<string>, amount: string -> int, keys: set<string>)
    requires Valid(s) && GuardedRun(cat, s, steps)
    requires Standing(s, id, spent, done, amount, keys) && RefundsOf(steps, id, amount, keys)
    ensures var spent' := spent + EarlyKeys(cat, s, steps, id);
      RefundedFor(Run(cat, s, steps), id, spent', done + (KeysOf(steps, id) - spent'), amount)
    decreases |steps|
  {
    if steps == [] {
      assert spent + {} == spent && done + (KeysOf(steps, id) - spent) == done;
    } else {
      var s1, rest := Next(cat, s, steps[0]), steps[1..];
      var spent1 := spent + EarlyKey(s, steps[0], id);
      var done1 := done + (StepKey(steps[0], id) - spent1);
      HeadAndRest(steps, id, amount, keys);
      NextKeepsValid(cat, s, steps[0]);
      OneStep(cat, s, id, steps[0], spent, done, amount, keys);
      LateRefundsAddUp(cat, s1, id, rest, spent1, done1, amount, keys);
      NoOverlap(cat, s, id, steps, spent, done);
    }
  }

  /** A refund made after the payment is not used up early later on. */
  lemma NoOverlap(cat: PlanCatalog, s: Ledger, id: Id, steps: seq<Step>, spent: set<string>, done: set<string>)
    requires Valid(s) && GuardedRun(cat, s, steps) && steps != [] && (!Collected(s, id) ==> done == {}) && spent !! done
    ensures var spent1 := spent + EarlyKey(s, steps[0], id);
      var done1 := done + (StepKey(steps[0], id) - spent1);
      var spent' := spent1 + EarlyKeys(cat, Next(cat, s, steps[0]), steps[1..], id);
      && spent' == spent + EarlyKeys(cat, s, steps, id)
      && done1 + (KeysOf(steps[1..], id) - spent') == done + (KeysOf(steps, id) - spent')
  {
    KeysSplit(steps, id);
    if Collected(s, id) {
      NextKeepsValid(cat, s, steps[0]);
      NoneEarly(cat, Next(cat, s, steps[0]), steps[1..], id);
    }
  }

  /** Nothing is used up early once the payment has settled. */
  lemma {:induction false} NoneEarly(cat: PlanCatalog, s: Ledger, steps: seq<Step>, id: Id)
    requires Valid(s) && GuardedRun(cat, s, steps) && Collected(s, id)
    ensures EarlyKeys(cat, s, steps, id) == {}
    decreases |steps|
  {
    if steps != [] {
      NextKeepsValid(cat, s, steps[0]);
      NoneEarly(cat, Next(cat, s, steps[0]), steps[1..], id);
    }
  }

  /** Once the payment has settled every key counts, once. */
  lemma RefundsCountOnce(cat: PlanCatalog, s: Ledger, id: Id, steps: seq<Step>, done: set<string>,
                         amount: string -> int, keys: set<string>)
    requires Valid(s) && GuardedRun(cat, s, steps) && Collected(s, id)
    requires Standing(s, id, {}, done, amount, keys) && RefundsOf(steps, id, amount, keys)
    ensures var s' := Run(cat, s, steps);
      && Collected(s', id) && Total(s'.purchases[id]) == Total(s.purchases[id])
      && s'.purchases[id].refunded ==
           Capped(Total(s.purchases[id]), Owed(done + KeysOf(steps, id), amount, Total(s.purchases[id])))
  {
    LateRefundsAddUp(cat, s, id, steps, {}, done, amount, keys);
    NoneEarly(cat, s, steps, id);
    PurchasesStayConsistent(cat, s, steps);
    assert done + (KeysOf(steps, id) - ({} + {})) == done + KeysOf(steps, id);
  }

  lemma {:induction false} OwedPositive(keys: set<string>, amount: string -> int, total: int)
    requires total > 0
    ensures Owed(keys, amount, total) >= 0 && (Owed(keys, amount, total) == 0 <==> keys == {})
    decreases |keys|
  {
    if keys != {} {
      var k :| k in keys;
      OwedWithout(keys, k, amount, total);
      OwedPositive(keys - {k}, amount, total);
    }
  }

  lemma {:induction false} OwedSplits(a: set<string>, b: set<string>, amount: string -> int, total: int)
    requires a !! b
    ensures Owed(a + b, amount, total) == Owed(a, amount, total) + Owed(b, amount, total)
    decreases |b|
  {
    if b == {} {
      assert a + b == a;
    } else {
      var k :| k in b;
      OwedSplits(a, b - {k}, amount, total);
      OwedWithout(b, k, amount, total);
      OwedWith(a + (b - {k}), k, amount, total);
      assert a + (b - {k}) + {k} == a + b;
    }
  }

  lemma CapAgrees(total: int, late: int, early: int)
    requires total > 0 && early >= 0
    ensures Min(total, late) == Min(total, late + early) <==> early == 0 || late >= total
  {
  }

  /** What the distinct keys would return, and what they return without the early ones. */
  lemma EarlyShare(early: set<string>, all: set<string>, amount: string -> int, total: int)
    requires early <= all && total > 0
    ensures var late := Owed(all - early, amount, total);
      Min(total, late) == Min(total, Owed(all, amount, total)) <==> early == {} || late >= total
  {
    OwedPositive(early, amount, total);
    OwedSplits(all - early, early, amount, total);
    assert all - early + early == all;
    CapAgrees(total, Owed(all - early, amount, total), Owed(early, amount, total));
  }

  /** A purchase opened, refunded and paid in any order: what it returned is what its refunds name if
      and only if none of them came before the payment or the others return the total anyway. */
  lemma EarlyRefundsLostIff(cat: PlanCatalog, s: Ledger, id: Id, steps: seq<Step>, amount: string -> int, keys: set<string>)
    requires Valid(s) && GuardedRun(cat, s, steps)
    requires Standing(s, id, {}, {}, amount, keys) && RefundsOf(steps, id, amount, keys)
    requires var s' := Run(cat, s, steps); Collected(s', id) && Total(s'.purchases[id]) > 0
    ensures var p, early := Run(cat, s, steps).purchases[id], EarlyKeys(cat, s, steps, id);
      && early <= KeysOf(steps, id)
      && p.refunded == Min(Total(p), Owed(KeysOf(steps, id) - early, amount, Total(p)))
      && (p.refunded == Min(Total(p), Owed(KeysOf(steps, id), amount, Total(p))) <==>
           early == {} || Owed(KeysOf(steps, id) - early, amount, Total(p)) >= Total(p))
  {
    var early := EarlyKeys(cat, s, steps, id);
    LateRefundsAddUp(cat, s, id, steps, {}, {}, amount, keys);
    EarlyAreRefunds(cat, s, steps, id);
    assert {} + early == early && {} + (KeysOf(steps, id) - early) == KeysOf(steps, id) - early;
    EarlyShare(early, KeysOf(steps, id), amount, Total(Run(cat, s, steps).purchases[id]));
  }

  lemma {:induction false} EarlyAreRefunds(cat: PlanCatalog, s: Ledger, steps: seq<Step>, id: Id)
    ensures EarlyKeys(cat, s, steps, id) <= KeysOf(steps, id)
    decreases |steps|
  {
    if steps != [] {
      EarlyAreRefunds(cat, Next(cat, s, steps[0]), steps[1..], id);
      KeysSplit(steps, id);
    }
  }

  lemma HeadAndRest(steps: seq<Step>, id: Id, amount: string -> int, keys: set<string>)
    requires steps != [] && RefundsOf(steps, id, amount, keys)
    ensures RefundsOf([steps[0]], id, amount, keys) && RefundsOf(steps[1..], id, amount, keys)
  {
    assert forall i :: 0 <= i < |steps| - 1 ==> steps[1..][i] == steps[i + 1];
  }

  lemma KeysSplit(steps: seq<Step>, id: Id)
    requires steps != []
    ensures KeysOf(steps, id) == KeysOf(steps[1..], id) + StepKey(steps[0], id)
  {
  }

  /** Two deliveries of the same refunds end alike, whatever their order, their repetitions and what
      else goes on. */
  lemma RefundOrderIrrelevant(cat: PlanCatalog, s: Ledger, id: Id, a: seq<Step>, b: seq<Step>, amount: string -> int,
                              keys: set<string>)
    requires Valid(s) && GuardedRun(cat, s, a) && GuardedRun(cat, s, b)
    requires Collected(s, id) && Standing(s, id, {}, {}, amount, keys) && KeysOf(a, id) == KeysOf(b, id)
    requires RefundsOf(a, id, amount, keys) && RefundsOf(b, id, amount, keys)
    ensures id in Run(cat, s, a).purchases && id in Run(cat, s, b).purchases
    ensures Run(cat, s, a).purchases[id].refunded == Run(cat, s, b).purchases[id].refunded
  {
    RefundsCountOnce(cat, s, id, a, {}, amount, keys);
    RefundsCountOnce(cat, s, id, b, {}, amount, keys);
  }

  /** A clean refund, or a notification billing has no state for. */
  ghost predicate RefundOnly(step: Step) {
    && step.DeliverStep? && step.d.purchaseId.Some?
    && (CleanRefund(step, step.d.purchaseId.value) || step.d.kind.IgnoredKind?)
  }

  lemma RefundKeepsBooks(cat: PlanCatalog, s: Ledger, step: Step)
    requires Valid(s) && RefundOnly(step)
    ensures Next(cat, s, step).books == s.books
  {
    L.NothingToWithdraw(s.books, step.d.purchaseId.value, step.x.now);
  }

  /** Refunds never need a guard, and however many arrive no plan, licence or grant is touched. */
  lemma {:induction false} RefundsTouchNoBooks(cat: PlanCatalog, s: Ledger, steps: seq<Step>)
    requires Valid(s) && forall i :: 0 <= i < |steps| ==> RefundOnly(steps[i])
    ensures GuardedRun(cat, s, steps) && Run(cat, s, steps).books == s.books
    decreases |steps|
  {
    if steps != [] {
      NextKeepsValid(cat, s, steps[0]);
      RefundKeepsBooks(cat, s, steps[0]);
      RefundsTouchNoBooks(cat, Next(cat, s, steps[0]), steps[1..]);
    }
  }

  // ---- A refund is recorded before the licence is looked at ----

  /** One refund notification, delivered once per world. */
  function Tries(d: Delivery, worlds: seq<World>): seq<Step> {
    if worlds == [] then [] else Tries(d, worlds[..|worlds| - 1]) + [DeliverStep(d, worlds[|worlds| - 1])]
  }

  /** The licence call fails and the delivery is marked failed, so it is delivered again. */
  ghost predicate LookupFails(x: World) { x.withdrawFails && !x.recordFails }

  /** What a purchase of this total has returned after n more refunds of amount, by the cap. */
  lemma CapSteps(total: int, refunded: int, e: int, n: nat)
    requires 0 <= refunded <= total && e > 0
    ensures Min(total, Min(total, refunded + n * e) + e) == Min(total, refunded + (n + 1) * e)
  {
  }

  /** Every failing delivery counts the refund anew: after n of them and a clean one it was returned
      n + 1 times, up to the total. */
  lemma {:induction false} FailuresAddUp(cat: PlanCatalog, s: Ledger, id: Id, d: Delivery, worlds: seq<World>)
    requires Valid(s) && id in s.purchases && PostSettlement(s.purchases[id].status) && Total(s.purchases[id]) > 0
    requires d.kind.PaymentRefunded? && d.purchaseId == Some(id) && Claimable(s.records, d.key)
    requires forall i :: 0 <= i < |worlds| ==> LookupFails(worlds[i])
    ensures var p, s' := s.purchases[id], Run(cat, s, Tries(d, worlds));
      && Valid(s') && id in s'.purchases && Claimable(s'.records, d.key) && PostSettlement(s'.purchases[id].status)
      && Total(s'.purchases[id]) == Total(p)
      && s'.purchases[id].refunded == Min(Total(p), p.refunded + |worlds| * Effective(d.amount, Total(p)))
  {
    if worlds != [] {
      var before, x := worlds[..|worlds| - 1], worlds[|worlds| - 1];
      FailuresAddUp(cat, s, id, d, before);
      var s1 := Run(cat, s, Tries(d, before));
      RunThen(cat, s, Tries(d, before), DeliverStep(d, x));
      OneFailure(cat, s1, id, d, x, s.purchases[id].refunded, |before|);
    }
  }

  lemma OneFailure(cat: PlanCatalog, s: Ledger, id: Id, d: Delivery, x: World, refunded: int, n: nat)
    requires Valid(s) && Collected(s, id) && d.kind.PaymentRefunded? && d.purchaseId == Some(id) && Claimable(s.records, d.key)
    requires var total := Total(s.purchases[id]);
      0 <= refunded <= total && total > 0 && s.purchases[id].refunded == Min(total, refunded + n * Effective(d.amount, total))
    requires LookupFails(x)
    ensures var s', total := Next(cat, s, DeliverStep(d, x)), Total(s.purchases[id]);
      && Valid(s') && Collected(s', id) && Claimable(s'.records, d.key) && Total(s'.purchases[id]) == total
      && s'.purchases[id].refunded == Min(total, refunded + (n + 1) * Effective(d.amount, total))
  {
    FirstTry(cat, s, id, d, x);
    NextKeepsValid(cat, s, DeliverStep(d, x));
    CapSteps(Total(s.purchases[id]), refunded, Effective(d.amount, Total(s.purchases[id])), n);
  }

  /** A refund whose licence call fails n times is returned n + 1 times when it finally goes through,
      or the whole total is. It is counted once exactly when nothing failed or once is everything. */
  lemma RetriesAddUp(cat: PlanCatalog, s: Ledger, id: Id, d: Delivery, worlds: seq<World>, y: World)
    requires Valid(s) && id in s.purchases && PostSettlement(s.purchases[id].status) && Total(s.purchases[id]) > 0
    requires CleanRefund(DeliverStep(d, y), id) && Claimable(s.records, d.key)
    requires forall i :: 0 <= i < |worlds| ==> LookupFails(worlds[i])
    ensures var p, s' := s.purchases[id], Run(cat, s, Tries(d, worlds + [y]));
      var e := Effective(d.amount, Total(p));
      && id in s'.purchases && s'.purchases[id].refunded == Min(Total(p), p.refunded + (|worlds| + 1) * e)
      && (s'.purchases[id].refunded == Min(Total(p), p.refunded + e) <==> worlds == [] || p.refunded + e >= Total(p))
  {
    var p, s1 := s.purchases[id], Run(cat, s, Tries(d, worlds));
    var e := Effective(d.amount, Total(p));
    FailuresAddUp(cat, s, id, d, worlds);
    CleanStep(cat, s1, id, DeliverStep(d, y));
    assert (worlds + [y])[..|worlds|] == worlds;
    RunThen(cat, s, Tries(d, worlds), DeliverStep(d, y));
    CapSteps(Total(p), p.refunded, e, |worlds|);
    CapOnce(Total(p), p.refunded, e, |worlds|);
  }

  lemma CapOnce(total: int, refunded: int, e: int, n: nat)
    requires 0 <= refunded <= total && e > 0
    ensures Min(total, refunded + (n + 1) * e) == Min(total, refunded + e) <==> n == 0 || refunded + e >= total
  {
    if n > 0 { assert n * e >= e; }
  }

  lemma {:induction false} RunThen(cat: PlanCatalog, s: Ledger, steps: seq<Step>, step: Step)
    ensures Run(cat, s, steps + [step]) == Next(cat, Run(cat, s, steps), step)
    decreases |steps|
  {
    if steps == [] {
      assert [] + [step] == [step] && [step][1..] == [];
      assert Run(cat, s, [step]) == Run(cat, Next(cat, s, step), []);
    } else {
      assert (steps + [step])[1..] == steps[1..] + [step];
      RunThen(cat, Next(cat, s, steps[0]), steps[1..], step);
    }
  }

  /** One failing try: the retry is counted once exactly when the look-up worked after all, or the
      delivery could not be marked, or the refund returned the rest anyway. */
  lemma RetryCountsOnceIff(cat: PlanCatalog, s: Ledger, id: Id, d: Delivery, x: World, y: World)
    requires Valid(s) && id in s.purchases && PostSettlement(s.purchases[id].status) && Total(s.purchases[id]) > 0
    requires CleanRefund(DeliverStep(d, y), id) && Claimable(s.records, d.key)
    ensures var p, s2 := s.purchases[id], Run(cat, s, [DeliverStep(d, x), DeliverStep(d, y)]);
      var once := Min(Total(p), p.refunded + Effective(d.amount, Total(p)));
      && id in s2.purchases
      && (s2.purchases[id].refunded == once <==>
           !x.withdrawFails || x.recordFails || p.refunded + Effective(d.amount, Total(p)) >= Total(p))
  {
    var p, s1 := s.purchases[id], Next(cat, s, DeliverStep(d, x));
    FirstTry(cat, s, id, d, x);
    NextKeepsValid(cat, s, DeliverStep(d, x));
    CleanStep(cat, s1, id, DeliverStep(d, y));
    RunTwo(cat, s, DeliverStep(d, x), DeliverStep(d, y));
  }

  /** A try counts the refund whatever fails after that. */
  lemma FirstTry(cat: PlanCatalog, s: Ledger, id: Id, d: Delivery, x: World)
    requires Valid(s) && id in s.purchases && PostSettlement(s.purchases[id].status) && Total(s.purchases[id]) > 0
    requires d.kind.PaymentRefunded? && d.purchaseId == Some(id) && Claimable(s.records, d.key)
    ensures var s1 := Next(cat, s, DeliverStep(d, x));
      && id in s1.purchases && s1.purchases[id] == Reversed(s.purchases[id], d.amount, false)
      && (x.withdrawFails && !x.recordFails ==> Claimable(s1.records, d.key))
      && (Claimable(s1.records, d.key) ==>
           (x.withdrawFails && !x.recordFails) || s1.purchases[id].refunded == Total(s.purchases[id]))
  {
    L.NothingToWithdraw(s.books, id, x.now);
  }

  lemma RunTwo(cat: PlanCatalog, s: Ledger, a: Step, b: Step)
    ensures Run(cat, s, [a, b]) == Next(cat, Next(cat, s, a), b)
  {
    assert [a, b][1..] == [b] && [b][1..] == [];
    assert Run(cat, Next(cat, s, a), [b]) == Run(cat, Next(cat, Next(cat, s, a), b), []);
  }
}

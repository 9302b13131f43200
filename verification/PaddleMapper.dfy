/** How Paddle's notifications become billing events (internal/platform/paddle/mapper.go). */
module PaddleMapper {
  import opened Tables
  import opened Purchases
  import opened Catalog
  import opened Pricing
  import opened Billing
  import opened Refunds

  // ---- Amounts ----

  predicate Digit(c: char) { '0' <= c <= '9' }

  /** The characters with Unicode's White_Space property. */
  predicate Space(c: char) {
    var n := c as int;
    n in {0x20, 0x85, 0xA0, 0x1680, 0x2028, 0x2029, 0x202F, 0x205F, 0x3000} || 0x09 <= n <= 0x0D || 0x2000 <= n <= 0x200A
  }

  function TrimSpace(s: string): string {
    if s != [] && Space(s[0]) then TrimSpace(s[1..])
    else if s != [] && Space(s[|s| - 1]) then TrimSpace(s[..|s| - 1])
    else s
  }

  /** The number its digits spell, whatever stands between them. */
  function DigitsValue(s: string): nat {
    if s == [] then 0
    else
      var rest, c := DigitsValue(s[..|s| - 1]), s[|s| - 1];
      if Digit(c) then rest * 10 + (c - '0') as int else rest
  }

  /** One digit more, or a sign, after wrapping is the same as before it. */
  lemma Int64Steps(n: int, d: int)
    ensures Int64(Int64(n) * 10 + d) == Int64(n * 10 + d)
    ensures Int64(-Int64(n)) == Int64(-n)
  {
    var k := (n + TWO63) / (2 * TWO63);
    assert Int64(n) == n - 2 * TWO63 * k;
    WholeTurns(n * 10 + d, -10 * k);
    WholeTurns(-n, k);
  }

  lemma WholeTurns(n: int, k: int)
    ensures Int64(n + 2 * TWO63 * k) == Int64(n)
  {
    assert (n + 2 * TWO63 * k + TWO63) % (2 * TWO63) == (n + TWO63) % (2 * TWO63);
  }

  /** What an amount says: its digits, negative behind a leading minus sign. */
  function Amount(s: string): int {
    var value: int := DigitsValue(s);
    if "-" <= s then -value else value
  }

  method ParseMinorUnits(s: string) returns (n: int)
    ensures n == Int64(Amount(TrimSpace(s)))
  {
    var t := TrimSpace(s);
    var negative := "-" <= t;
    n := 0;
    for i := 0 to |t|
      invariant n == Int64(DigitsValue(t[..i]))
    {
      assert t[..i + 1][..i] == t[..i];
      if Digit(t[i]) {
        Int64Steps(DigitsValue(t[..i]), (t[i] - '0') as int);
        n := Int64(n * 10 + (t[i] - '0') as int);
      }
    }
    assert t[..|t|] == t;
    if negative {
      Int64Steps(DigitsValue(t), 0);
      n := Int64(-n);
    }
  }

  function ParsedUnits(s: string): int {
    Int64(Amount(TrimSpace(s)))
  }

  /** Decimal notation. */
  function Digits(n: nat): string {
    if n < 10 then [('0' as int + n) as char] else Digits(n / 10) + [('0' as int + n % 10) as char]
  }

  function Decimal(n: int): string { if n < 0 then "-" + Digits(-n) else Digits(n) }

  lemma {:induction false} DigitsRoundTrip(n: nat)
    ensures Digits(n) != [] && DigitsValue(Digits(n)) == n
    ensures forall i :: 0 <= i < |Digits(n)| ==> Digit(Digits(n)[i])
  {
    if n < 10 {
      assert Digits(n)[..0] == [];
      assert DigitsValue([]) == 0;
    } else {
      DigitsRoundTrip(n / 10);
      assert Digits(n)[..|Digits(n)| - 1] == Digits(n / 10);
    }
  }

  lemma {:induction false} SignHasNoValue(s: string)
    ensures DigitsValue("-" + s) == DigitsValue(s)
  {
    if s == [] {
      assert "-" + s == "-" && "-"[..0] == [];
    } else {
      SignHasNoValue(s[..|s| - 1]);
      assert ("-" + s)[..|s|] == "-" + s[..|s| - 1];
    }
  }

  /** Reading an amount in decimal notation gives the amount back, for every number an int64 holds
      and no other. */
  lemma AmountRoundTrip(n: int)
    ensures ParsedUnits(Decimal(n)) == Int64(n)
    ensures ParsedUnits(Decimal(n)) == n <==> -TWO63 <= n < TWO63
  {
    DecimalTrimmed(n);
    DecimalAmount(n);
    Int64Range(n);
  }

  lemma {:induction false} TrimsBoth(before: string, s: string, after: string)
    requires s != [] && !Space(s[0]) && !Space(s[|s| - 1]) && forall c :: c in before || c in after ==> Space(c)
    ensures TrimSpace(before + s + after) == s
    decreases |before| + |after|
  {
    var t := before + s + after;
    if before != [] {
      assert t[0] == before[0] && t[1..] == before[1..] + s + after;
      TrimsBoth(before[1..], s, after);
    } else if after != [] {
      assert t[0] == s[0] && t[|t| - 1] == after[|after| - 1] && t[..|t| - 1] == before + s + after[..|after| - 1];
      TrimsBoth(before, s, after[..|after| - 1]);
    } else {
      assert t == s;
    }
  }

  /** White space around an amount does not change it. */
  lemma SpacedAmount(before: string, n: int, after: string)
    requires forall c :: c in before || c in after ==> c as int in {0x09, 0x0A, 0x0B, 0x0C, 0x0D, 0x20, 0x85, 0xA0}
    ensures ParsedUnits(before + Decimal(n) + after) == Int64(n)
  {
    DigitsRoundTrip(if n < 0 then -n else n);
    var t := Decimal(n);
    assert Digit(t[|t| - 1]);
    TrimsBoth(before, t, after);
    DecimalAmount(n);
  }

  lemma DecimalTrimmed(n: int)
    ensures TrimSpace(Decimal(n)) == Decimal(n)
  {
    var t := Decimal(n);
    DigitsRoundTrip(if n < 0 then -n else n);
    assert Digit(t[|t| - 1]);
    assert !Space(t[0]) && !Space(t[|t| - 1]);
  }

  lemma DecimalAmount(n: int)
    ensures Amount(Decimal(n)) == n
  {
    DigitsRoundTrip(if n < 0 then -n else n);
    if n < 0 {
      SignHasNoValue(Digits(-n));
    } else {
      assert Digit(Digits(n)[0]);
    }
  }

  lemma Int64Range(n: int)
    ensures Int64(n) == n <==> -TWO63 <= n < TWO63
  {
  }

  // ---- Adjustments ----

  datatype Adjustment = Adjustment(id: string, action: string, status: string, transaction: string, total: string, currency: string)

  const ADJUSTMENT := "adjustment:"

  /** One notification about an adjustment, for the purchase its transaction resolves to. */
  function MapAdjustment(eventId: string, a: Adjustment, purchaseId: Option<Id>, at: Option<Time>): Delivery {
    var kind :=
      if a.action == "refund" then PaymentRefunded
      else if a.action == "chargeback" || a.action == "chargeback_warning" then PaymentDisputed
      else if a.action == "chargeback_reverse" then EventKind.DisputeReversed
      else IgnoredKind;
    if kind.IgnoredKind? || (a.action == "refund" && a.status == "pending_approval") then
      Delivery(IgnoredKind, purchaseId, eventId, a.transaction, "", 0, "", 0, 0, "", 0, at)
    else
      Delivery(kind, purchaseId, ADJUSTMENT + a.id, a.transaction, "", 0, "", 0,
               ParsedUnits(a.total), a.currency, ParsedUnits(a.total), at)
  }

  /** Which adjustments are refunds, disputes and won disputes, each under a key of its own however
      often it is announced; anything else, and a refund still under review, is ignored under the
      notification's own id. The amount is the one the notification spells. */
  lemma AdjustmentStatement(eventId: string, a: Adjustment, purchaseId: Option<Id>, at: Option<Time>)
    ensures var d := MapAdjustment(eventId, a, purchaseId, at);
      && d.purchaseId == purchaseId && d.transaction == a.transaction && d.occurredAt == at
      && (d.kind == PaymentRefunded <==> a.action == "refund" && a.status != "pending_approval")
      && (d.kind == PaymentDisputed <==> a.action in {"chargeback", "chargeback_warning"})
      && (d.kind == EventKind.DisputeReversed <==> a.action == "chargeback_reverse")
      && d.kind in {IgnoredKind, PaymentRefunded, PaymentDisputed, EventKind.DisputeReversed}
      && d.key == (if d.kind == IgnoredKind then eventId else "adjustment:" + a.id)
      && forall n :: -TWO63 <= n < TWO63 && a.total == Decimal(n) && d.kind != IgnoredKind ==> d.amount == d.total == n
  {
    forall n | -TWO63 <= n < TWO63 && a.total == Decimal(n) ensures ParsedUnits(a.total) == n { AmountRoundTrip(n); }
  }

  /** A delivery of one adjustment notification. */
  datatype Notice = Notice(eventId: string, a: Adjustment, at: Option<Time>, x: World)

  function StepOf(n: Notice, id: Id): Step { DeliverStep(MapAdjustment(n.eventId, n.a, Some(id), n.at), n.x) }

  function Steps(notices: seq<Notice>, id: Id): seq<Step> {
    if notices == [] then [] else Steps(notices[..|notices| - 1], id) + [StepOf(notices[|notices| - 1], id)]
  }

  lemma {:induction false} StepsAt(notices: seq<Notice>, id: Id)
    ensures |Steps(notices, id)| == |notices|
    ensures forall i :: 0 <= i < |notices| ==> Steps(notices, id)[i] == StepOf(notices[i], id)
  {
    if notices != [] { StepsAt(notices[..|notices| - 1], id); }
  }

  ghost predicate Clean(x: World) { !x.withdrawFails && !x.flagFails && !x.recordFails }

  /** What one notice makes of its purchase: a chargeback, or the warning of one, disputes it and a
      reversed one gives the money back. */
  lemma NoticeStatement(cat: PlanCatalog, s: Ledger, id: Id, n: Notice, amount: int)
    requires Valid(s) && id in s.purchases && Clean(n.x) && n.a.total == Decimal(amount) && -TWO63 <= amount < TWO63
    requires var key := "adjustment:" + n.a.id; key in s.records ==> s.records[key] == FailedRecord
    ensures var s' := Next(cat, s, StepOf(n, id));
      && id in s'.purchases
      && var p, q := s.purchases[id], s'.purchases[id];
      match n.a.action
      case "refund" => if n.a.status == "pending_approval" then q == p else ReversalRecorded(p, q, amount, false)
      case "chargeback" => ReversalRecorded(p, q, amount, true)
      case "chargeback_warning" => ReversalRecorded(p, q, amount, true)
      case "chargeback_reverse" => DisputeWon(p, q, amount)
      case _ => q == p
  {
    AdjustmentStatement(n.eventId, n.a, Some(id), n.at);
    DeliveryStatement(cat, s, MapAdjustment(n.eventId, n.a, Some(id), n.at), n.x);
  }

  /** Refund notices whose adjustment always names the same amount. */
  ghost predicate RefundNotices(notices: seq<Notice>, total: string -> string) {
    forall i :: 0 <= i < |notices| ==>
      && notices[i].a.action == "refund" && Clean(notices[i].x) && notices[i].a.total == total(notices[i].a.id)
      && !(ADJUSTMENT <= notices[i].eventId)
  }

  /** The adjustments announced at least once with a status other than "pending_approval", which is
      the only one the mapper looks for: a rejected refund is decided as well. */
  function Decided(notices: seq<Notice>): set<string> {
    set i | 0 <= i < |notices| && notices[i].a.status != "pending_approval" :: ADJUSTMENT + notices[i].a.id
  }

  function AmountOf(total: string -> string): string -> int {
    (key: string) => if ADJUSTMENT <= key then ParsedUnits(total(key[|ADJUSTMENT|..])) else 0
  }

  /** Paddle announces a refund as created and as updated, before and after its review, and sends
      each more than once. Every decided adjustment is returned once, an undecided one not at all, and
      a pending notice never uses up the key its decision will carry. */
  lemma DecidedRefundsCountOnce(cat: PlanCatalog, s: Ledger, id: Id, notices: seq<Notice>, total: string -> string)
    requires Valid(s) && Collected(s, id) && RefundNotices(notices, total)
    requires Standing(s, id, {}, {}, AmountOf(total), Decided(notices))
    ensures var s', paid := Run(cat, s, Steps(notices, id)), Total(s.purchases[id]);
      && s'.books == s.books && Collected(s', id) && Total(s'.purchases[id]) == paid
      && s'.purchases[id].refunded == Capped(paid, Owed(Decided(notices), AmountOf(total), paid))
  {
    var steps, keys := Steps(notices, id), Decided(notices);
    StepsAt(notices, id);
    forall i | 0 <= i < |steps|
      ensures RefundOnly(steps[i])
      ensures if RefundStep(steps[i], id) then
          CleanRefund(steps[i], id) && steps[i].d.key in keys && steps[i].d.amount == AmountOf(total)(steps[i].d.key)
        else Elsewhere(steps[i], id, keys)
    {
      var n := notices[i];
      assert (ADJUSTMENT + n.a.id)[|ADJUSTMENT|..] == n.a.id;
      assert forall k :: k in keys ==> ADJUSTMENT <= k;
    }
    SameKeys(notices, id, total);
    RefundsTouchNoBooks(cat, s, steps);
    RefundsCountOnce(cat, s, id, steps, {}, AmountOf(total), keys);
    assert {} + keys == keys;
  }

  /** A refund that was rejected returns money like one that was approved. */
  lemma RejectedIsReturned(cat: PlanCatalog, s: Ledger, id: Id, n: Notice, total: string -> string)
    requires Valid(s) && Collected(s, id) && s.purchases[id].refunded == 0 && Claimable(s.records, ADJUSTMENT + n.a.id)
    requires RefundNotices([n], total) && n.a.status == "rejected"
    ensures var s', paid := Run(cat, s, Steps([n], id)), Total(s.purchases[id]);
      Collected(s', id) && s'.purchases[id].refunded == Capped(paid, Effective(ParsedUnits(n.a.total), paid))
  {
    var key, paid := ADJUSTMENT + n.a.id, Total(s.purchases[id]);
    OneDecided(n);
    assert key[|ADJUSTMENT|..] == n.a.id && [n][0] == n;
    NoneYet(s, id, AmountOf(total));
    DecidedRefundsCountOnce(cat, s, id, [n], total);
    OwedWithout({key}, key, AmountOf(total), paid);
    assert {key} - {key} == {};
  }

  lemma OneDecided(n: Notice)
    requires n.a.status != "pending_approval"
    ensures Decided([n]) == {ADJUSTMENT + n.a.id}
  {
    assert [n][0] == n;
  }

  lemma SameKeys(notices: seq<Notice>, id: Id, total: string -> string)
    requires RefundNotices(notices, total)
    ensures KeysOf(Steps(notices, id), id) == Decided(notices)
  {
    var steps := Steps(notices, id);
    StepsAt(notices, id);
    forall k | k in Decided(notices) ensures k in KeysOf(steps, id) {
      var i :| 0 <= i < |notices| && notices[i].a.status != "pending_approval" && ADJUSTMENT + notices[i].a.id == k;
      assert RefundStep(steps[i], id) && steps[i].d.key == k;
    }
    forall k | k in KeysOf(steps, id) ensures k in Decided(notices) {
      var i :| 0 <= i < |steps| && RefundStep(steps[i], id) && steps[i].d.key == k;
      assert notices[i].a.status != "pending_approval" && ADJUSTMENT + notices[i].a.id == k;
    }
  }
}

/** The plan registry and the upgrade order (internal/catalog/registry.go, and CheckTransition and
    UpgradeOptions in internal/entitlement/entitlement.go). */
module Catalog {
  import opened Tables
  import opened Sorting

  type PlanCode = string

  const FREE: PlanCode := "free"
  const EXPERIENCE: PlanCode := "experience"

  datatype PlanDefinition = PlanDefinition(code: PlanCode, tierRank: int, sellable: bool, retired: bool)

  datatype Registry = Registry(byCode: map<PlanCode, PlanDefinition>, ordered: seq<PlanDefinition>)

  predicate ValidPlan(reg: Registry, code: PlanCode) { code in reg.byCode }

  /** The plan's position in the upgrade order, -1 for an unknown code. */
  function Rank(reg: Registry, code: PlanCode): int {
    if code in reg.byCode then reg.byCode[code].tierRank else -1
  }

  predicate Sellable(reg: Registry, code: PlanCode) { code in reg.byCode && reg.byCode[code].sellable }

  datatype Transition = Allowed | UnknownPlan | NotUpward

  function CheckTransition(reg: Registry, from: Option<PlanCode>, to: PlanCode): Transition {
    if !ValidPlan(reg, to) then UnknownPlan
    else if from.Some? && Rank(reg, to) <= Rank(reg, from.value) then NotUpward
    else Allowed
  }

  /** The upgrade order: any known plan to start with, and after that only a dearer one. */
  ghost predicate MayMove(reg: Registry, from: Option<PlanCode>, to: PlanCode) {
    && to in reg.byCode
    && (from.Some? ==> reg.byCode[to].tierRank > if from.value in reg.byCode then reg.byCode[from.value].tierRank else -1)
  }

  function CheapestFirst(): (PlanDefinition, PlanDefinition) -> bool {
    (a: PlanDefinition, b: PlanDefinition) => a.tierRank < b.tierRank
  }

  function LivePlan(): PlanDefinition -> bool { (d: PlanDefinition) => !d.retired }

  /** Codes are the plans table's primary key. */
  ghost predicate UniqueCodes(defs: seq<PlanDefinition>) {
    forall i, j :: 0 <= i < j < |defs| ==> defs[i].code != defs[j].code
  }

  /** The live plans, looked up by code and listed cheapest first. */
  method SetRegistry(defs: seq<PlanDefinition>) returns (reg: Registry)
    ensures Ordered(reg.ordered, CheapestFirst())
    ensures forall i, j :: 0 <= i < j < |reg.ordered| ==> reg.ordered[i].tierRank <= reg.ordered[j].tierRank
    ensures multiset(reg.ordered) == multiset(Where(defs, LivePlan()))
    ensures forall d :: d in reg.ordered <==> d in defs && !d.retired
    ensures UniqueCodes(defs) ==> Consistent(reg)
  {
    var byCode: map<PlanCode, PlanDefinition> := map[];
    var live: seq<PlanDefinition> := [];
    for i := 0 to |defs|
      invariant live == Where(defs[..i], LivePlan()) && ByCode(live, byCode)
    {
      var def := defs[i];
      LiveNext(defs, i);
      if def.retired {
        continue;
      }
      AddLive(live, def, byCode);
      byCode := byCode[def.code := def];
      live := live + [def];
    }
    assert defs[..|defs|] == defs;
    LiveSorted(defs);
    RegistryOf(defs, live, byCode);
    reg := Registry(byCode, Sort(live, CheapestFirst()));
  }

  /** The map leads from each code to a plan that carries it, and to that plan if it is the only one. */
  ghost predicate ByCode(live: seq<PlanDefinition>, byCode: map<PlanCode, PlanDefinition>) {
    && (forall c :: c in byCode ==> byCode[c] in live && byCode[c].code == c)
    && (forall d :: d in live ==> d.code in byCode)
    && (UniqueCodes(live) ==> forall d :: d in live ==> byCode[d.code] == d)
  }

  lemma LiveNext(defs: seq<PlanDefinition>, i: nat)
    requires i < |defs|
    ensures var before, after := Where(defs[..i], LivePlan()), Where(defs[..i + 1], LivePlan());
      after == if defs[i].retired then before else before + [defs[i]]
  {
    assert defs[..i + 1] == defs[..i] + [defs[i]];
    WhereAppend(defs[..i], [defs[i]], LivePlan());
    Single(defs[i], LivePlan(), (d: PlanDefinition) => d);
    assert Where(defs[..i], LivePlan()) + [] == Where(defs[..i], LivePlan());
  }

  lemma AddLive(live: seq<PlanDefinition>, def: PlanDefinition, byCode: map<PlanCode, PlanDefinition>)
    requires ByCode(live, byCode)
    ensures ByCode(live + [def], byCode[def.code := def])
  {
    if UniqueCodes(live + [def]) { OtherCodes(live, def); }
  }

  lemma OtherCodes(defs: seq<PlanDefinition>, def: PlanDefinition)
    requires UniqueCodes(defs + [def])
    ensures UniqueCodes(defs) && forall d :: d in defs ==> d.code != def.code
  {
    assert forall i :: 0 <= i < |defs| ==> (defs + [def])[i] == defs[i];
    assert (defs + [def])[|defs|] == def;
  }

  lemma RegistryOf(defs: seq<PlanDefinition>, live: seq<PlanDefinition>, byCode: map<PlanCode, PlanDefinition>)
    requires live == Where(defs, LivePlan()) && ByCode(live, byCode)
    ensures UniqueCodes(defs) ==> Consistent(Registry(byCode, Sort(live, CheapestFirst())))
  {
    if UniqueCodes(defs) { LiveUnique(defs); }
    SortMembers(live, CheapestFirst());
  }

  lemma LiveSorted(defs: seq<PlanDefinition>)
    ensures var sorted := Sort(Where(defs, LivePlan()), CheapestFirst());
      && Ordered(sorted, CheapestFirst()) && (forall d :: d in sorted <==> d in defs && !d.retired)
      && multiset(sorted) == multiset(Where(defs, LivePlan()))
      && forall i, j :: 0 <= i < j < |sorted| ==> sorted[i].tierRank <= sorted[j].tierRank
  {
    SortOrdered(Where(defs, LivePlan()), CheapestFirst());
    SortMembers(Where(defs, LivePlan()), CheapestFirst());
    WhereMembers(defs, LivePlan());
  }

  lemma LiveUnique(defs: seq<PlanDefinition>)
    requires UniqueCodes(defs)
    ensures UniqueCodes(Where(defs, LivePlan()))
  {
    var live := Where(defs, LivePlan());
    forall i, j | 0 <= i < j < |live| ensures live[i].code != live[j].code {
      WhereSplits(defs, LivePlan(), i, j);
    }
  }

  /** Both views of the registry hold the same plans. */
  ghost predicate Consistent(reg: Registry) {
    && (forall d :: d in reg.ordered ==> d.code in reg.byCode && reg.byCode[d.code] == d)
    && (forall c :: c in reg.byCode ==> reg.byCode[c] in reg.ordered && reg.byCode[c].code == c)
  }

  /** The plans an event on this plan may still move to. */
  method UpgradeOptions(reg: Registry, plan: PlanCode) returns (options: seq<PlanCode>)
    requires Consistent(reg) && Ordered(reg.ordered, CheapestFirst())
    ensures forall to :: to in options <==> CheckTransition(reg, Some(plan), to) == Allowed
    ensures forall to :: to in options <==> MayMove(reg, Some(plan), to)
    ensures forall i, j :: 0 <= i < j < |options| ==> Rank(reg, options[i]) <= Rank(reg, options[j])
  {
    options := [];
    for i := 0 to |reg.ordered|
      invariant options == Codes(Where(reg.ordered[..i], Above(Rank(reg, plan))))
    {
      var def := reg.ordered[i];
      NextOption(reg.ordered, i, Rank(reg, plan));
      if def.tierRank > Rank(reg, plan) {
        options := options + [def.code];
      }
    }
    assert reg.ordered[..|reg.ordered|] == reg.ordered;
    OptionsRise(reg, Rank(reg, plan));
    forall to { OptionIff(reg, plan, to); }
  }

  function Above(rank: int): PlanDefinition -> bool { (d: PlanDefinition) => d.tierRank > rank }

  function Codes(defs: seq<PlanDefinition>): (codes: seq<PlanCode>)
    ensures |codes| == |defs| && forall i :: 0 <= i < |defs| ==> codes[i] == defs[i].code
  {
    if defs == [] then [] else Codes(defs[..|defs| - 1]) + [defs[|defs| - 1].code]
  }

  lemma NextOption(defs: seq<PlanDefinition>, i: nat, rank: int)
    requires i < |defs|
    ensures var before, after := Codes(Where(defs[..i], Above(rank))), Codes(Where(defs[..i + 1], Above(rank)));
      after == if defs[i].tierRank > rank then before + [defs[i].code] else before
  {
    var def := defs[i];
    assert defs[..i + 1] == defs[..i] + [def];
    WhereAppend(defs[..i], [def], Above(rank));
    Single(def, Above(rank), (d: PlanDefinition) => d);
    assert Where(defs[..i], Above(rank)) + [] == Where(defs[..i], Above(rank));
  }

  lemma OptionsRise(reg: Registry, rank: int)
    requires Consistent(reg) && Ordered(reg.ordered, CheapestFirst())
    ensures var options := Codes(Where(reg.ordered, Above(rank)));
      forall i, j :: 0 <= i < j < |options| ==> Rank(reg, options[i]) <= Rank(reg, options[j])
  {
    var picked := Where(reg.ordered, Above(rank));
    WhereMembers(reg.ordered, Above(rank));
    forall i, j | 0 <= i < j < |picked| ensures Rank(reg, picked[i].code) <= Rank(reg, picked[j].code) {
      WhereSplits(reg.ordered, Above(rank), i, j);
      assert picked[i] in picked && picked[j] in picked;
      var k, l :| 0 <= k < l < |reg.ordered| && reg.ordered[k] == picked[i] && reg.ordered[l] == picked[j];
      assert !CheapestFirst()(reg.ordered[l], reg.ordered[k]);
    }
  }

  /** A move is allowed exactly when the list holds a plan of that code and a higher rank. */
  lemma OptionIff(reg: Registry, plan: PlanCode, to: PlanCode)
    requires Consistent(reg)
    ensures to in Codes(Where(reg.ordered, Above(Rank(reg, plan)))) <==> CheckTransition(reg, Some(plan), to) == Allowed
  {
    var picked := Where(reg.ordered, Above(Rank(reg, plan)));
    WhereMembers(reg.ordered, Above(Rank(reg, plan)));
    if CheckTransition(reg, Some(plan), to) == Allowed {
      assert reg.byCode[to] in picked;
      var k :| 0 <= k < |picked| && picked[k] == reg.byCode[to];
      assert Codes(picked)[k] == to;
    }
    if to in Codes(picked) {
      var k :| 0 <= k < |picked| && Codes(picked)[k] == to;
      assert picked[k] in picked && picked[k] in reg.ordered;
    }
  }

  /** What a plan version grants; the amounts a grant copies verbatim. */
  datatype Limits = Limits(maxBytes: int, maxItems: nat, maxPhotos: nat, maxVideos: nat, retentionDays: int)

  datatype Version = Version(id: nat, code: PlanCode, limits: Limits)

  /** The registry, the plan versions by id, and which version of a code is the active one. */
  datatype PlanCatalog = PlanCatalog(reg: Registry, versions: map<nat, Version>, active: map<PlanCode, nat>)

  /** The code has a version to sell. */
  ghost predicate OnSale(cat: PlanCatalog, code: PlanCode) {
    code in cat.reg.byCode && code in cat.active && cat.active[code] in cat.versions && cat.versions[cat.active[code]].code == code
  }

  /** New grants of a code are issued from its one active version; an unknown code has none. */
  function ActiveVersion(cat: PlanCatalog, code: PlanCode): (v: Option<Version>)
    ensures v.Some? ==> ValidPlan(cat.reg, code) && v.value in cat.versions.Values && v.value.code == code
  {
    if ValidPlan(cat.reg, code) && code in cat.active && cat.active[code] in cat.versions
       && cat.versions[cat.active[code]].code == code
    then Some(cat.versions[cat.active[code]]) else None
  }
}

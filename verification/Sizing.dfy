/** The hardware menu: internal/device/device.go. */
module Devices {
  import opened Sorting
  import opened Text

  datatype Backend = Nvidia | Neuron

  datatype Tier = Slice | Small | Mid | Large

  datatype Option = Option(backend: Backend, tier: Tier, instanceType: string, gpu: string, memGB: nat)

  /** A provider and whether it is offered at all. */
  datatype Provider = Provider(backend: Backend, enabled: bool, options: seq<Option>)

  const MENU := [
    Option(Nvidia, Slice, "g7e.xlarge", "RTX PRO 6000 (MIG slice)", 24),
    Option(Nvidia, Small, "g7.xlarge", "RTX PRO 4500", 32),
    Option(Nvidia, Mid, "g7e.2xlarge", "RTX PRO 6000", 96),
    Option(Nvidia, Large, "p5e.48xlarge", "H200 x8", 1128)]

  function TierRank(t: Tier): nat {
    match t case Slice => 0 case Small => 1 case Mid => 2 case Large => 3
  }

  predicate NoHigher(a: Option, b: Option) { TierRank(a.tier) <= TierRank(b.tier) }

  function Fitting(os: seq<Option>, minGB: int): seq<Option> {
    if os == [] then []
    else Fitting(os[..|os| - 1], minGB) + (if os[|os| - 1].memGB >= minGB then [os[|os| - 1]] else [])
  }

  function Collected(registry: seq<Provider>, minGB: int): seq<Option> {
    if registry == [] then []
    else
      var p := registry[|registry| - 1];
      Collected(registry[..|registry| - 1], minGB) + (if p.enabled then Fitting(p.options, minGB) else [])
  }

  /** Every enabled tier with the memory, lowest tier first. */
  method Options(registry: seq<Provider>, minGB: int) returns (out: seq<Option>)
    ensures out == Sort(NoHigher, Collected(registry, minGB))
  {
    out := [];
    for i := 0 to |registry|
      invariant out == Collected(registry[..i], minGB)
    {
      var p := registry[i];
      assert registry[..i + 1][..i] == registry[..i];
      if !p.enabled { continue; }
      ghost var before := out;
      for j := 0 to |p.options|
        invariant out == before + Fitting(p.options[..j], minGB)
      {
        var o := p.options[j];
        assert p.options[..j + 1][..j] == p.options[..j];
        if o.memGB >= minGB { out := out + [o]; }
      }
      assert p.options[..|p.options|] == p.options;
    }
    assert registry[..|registry|] == registry;
    out := Sort(NoHigher, out);
  }

  /** The registry as it stands, in either order: one enabled provider, and one registered only. */
  predicate Registered(registry: seq<Provider>, gated: seq<Option>) {
    var nvidia, neuron := Provider(Nvidia, true, MENU), Provider(Neuron, false, gated);
    registry == [nvidia, neuron] || registry == [neuron, nvidia]
  }

  /** How many of the lowest tiers a need rules out. */
  function RuledOut(minGB: int): nat {
    if minGB <= 24 then 0 else if minGB <= 32 then 1 else if minGB <= 96 then 2 else if minGB <= 1128 then 3 else 4
  }

  lemma FittingMenu(minGB: int)
    ensures Fitting(MENU, minGB) == MENU[RuledOut(minGB)..]
  {
    var m := MENU;
    assert m[..3][..2][..1][..0] == [];
    assert m[..3][2] == m[2] && m[..3][..2][1] == m[1] && m[..3][..2][..1][0] == m[0];
    assert Fitting(m[..3][..2][..1], minGB) == if m[0].memGB >= minGB then [m[0]] else [];
    assert Fitting(m[..3][..2], minGB) == Fitting(m[..3][..2][..1], minGB) + if m[1].memGB >= minGB then [m[1]] else [];
    assert Fitting(m[..3], minGB) == Fitting(m[..3][..2], minGB) + if m[2].memGB >= minGB then [m[2]] else [];
    assert Fitting(m, minGB) == Fitting(m[..3], minGB) + if m[3].memGB >= minGB then [m[3]] else [];
  }

  /** What is offered is a suffix of the menu, whatever the gated provider would list. */
  lemma OptionsAreMenuSuffix(registry: seq<Provider>, gated: seq<Option>, minGB: int)
    requires Registered(registry, gated)
    ensures Sort(NoHigher, Collected(registry, minGB)) == MENU[RuledOut(minGB)..]
  {
    FittingMenu(minGB);
    MenuSorted(RuledOut(minGB));
    MenuOnly(MENU, gated, registry, minGB);
  }

  lemma MenuOnly(menu: seq<Option>, gated: seq<Option>, registry: seq<Provider>, minGB: int)
    requires registry == [Provider(Nvidia, true, menu), Provider(Neuron, false, gated)]
             || registry == [Provider(Neuron, false, gated), Provider(Nvidia, true, menu)]
    ensures Collected(registry, minGB) == Fitting(menu, minGB)
  {
    var nvidia, neuron := Provider(Nvidia, true, menu), Provider(Neuron, false, gated);
    CollectedTwo(nvidia, neuron, minGB);
    CollectedTwo(neuron, nvidia, minGB);
    hide Collected, Fitting;
    assert Fitting(menu, minGB) + [] == Fitting(menu, minGB) == [] + Fitting(menu, minGB);
  }

  lemma CollectedTwo(p: Provider, q: Provider, minGB: int)
    ensures Collected([p, q], minGB) ==
            (if p.enabled then Fitting(p.options, minGB) else [])
            + (if q.enabled then Fitting(q.options, minGB) else [])
  {
    hide Fitting;
    assert [p, q][..1] == [p] && [p][..0] == [];
    assert Collected([p], minGB) == if p.enabled then Fitting(p.options, minGB) else [];
  }

  lemma MenuSorted(k: nat)
    requires k <= |MENU|
    ensures Sort(NoHigher, MENU[k..]) == MENU[k..]
  {
    var m := MENU;
    hide Sort;
    forall i, j | 0 <= i < j < |m[k..]| ensures NoHigher(m[k..][i], m[k..][j]) {
      assert m[k..][i] == m[k + i] && m[k..][j] == m[k + j];
    }
    SortedStays(NoHigher, m[k..]);
  }

  /** Resolves an instance type to the enabled tier it belongs to. */
  method ByInstanceType(registry: seq<Provider>, it: string) returns (r: Text.Option<Option>)
    ensures r.Some? ==> r.value.instanceType == it && exists p :: p in registry && p.enabled && r.value in p.options
    ensures r == None ==> forall p, o | p in registry && p.enabled && o in p.options :: o.instanceType != it
  {
    for i := 0 to |registry|
      invariant forall j, o | 0 <= j < i && registry[j].enabled && o in registry[j].options :: o.instanceType != it
    {
      var p := registry[i];
      if !p.enabled { continue; }
      for j := 0 to |p.options|
        invariant forall k | 0 <= k < j :: p.options[k].instanceType != it
      {
        if p.options[j].instanceType == it {
          assert p in registry && p.options[j] in p.options;
          return Some(p.options[j]);
        }
      }
    }
    return None;
  }
}

/** Sizing an experiment: internal/sizing/footprint.go. */
module Sizing {
  import Devices
  import opened Sorting

  datatype Engine = Eager | Vllm

  datatype Model = Model(name: string, paramsB: real, bytesPer: int, layers: int, hiddenDim: int, ctxTokens: int)

  datatype Intervention = Intervention(technique: string, saveAllLayers: bool, gradients: bool, prompts: int)

  datatype Footprint = Footprint(engine: Engine, weights: real, activations: real, kvPool: real, total: real)

  datatype Offer = Offer(device: Devices.Option, utilization: real)

  datatype Plan = Plan(footprint: Footprint, options: seq<Offer>)

  const PROMPT_THRESHOLD := 8
  const OVERHEAD := 2.0

  function BytesToGB(b: real): real { b / 1073741824.0 }

  function ResidualStream(m: Model, allTokens: bool): real {
    var tokens := if allTokens then m.ctxTokens as real else 1.0;
    BytesToGB(m.layers as real * m.hiddenDim as real * tokens * m.bytesPer as real)
  }

  function Weights(m: Model): real { BytesToGB(m.paramsB * 1000000000.0 * m.bytesPer as real) }

  function AtLeastOne(prompts: int): int { if prompts < 1 then 1 else prompts }

  function KvPool(m: Model, prompts: int): real {
    BytesToGB(2.0 * m.layers as real * m.hiddenDim as real * m.ctxTokens as real * AtLeastOne(prompts) as real
              * m.bytesPer as real)
  }

  function RouteEngine(iv: Intervention): Engine {
    if iv.gradients || iv.saveAllLayers then Eager
    else if iv.prompts > PROMPT_THRESHOLD then Vllm
    else Eager
  }

  function Activations(m: Model, iv: Intervention): real {
    if RouteEngine(iv) == Vllm then ResidualStream(m, false) * AtLeastOne(iv.prompts) as real
    else
      var captured := ResidualStream(m, iv.saveAllLayers);
      if iv.gradients then captured * 2.0 + ResidualStream(m, iv.saveAllLayers) else captured
  }

  function FootprintOf(m: Model, iv: Intervention): Footprint {
    var kv := if RouteEngine(iv) == Vllm then KvPool(m, iv.prompts) else 0.0;
    Footprint(RouteEngine(iv), Weights(m), Activations(m, iv), kv, Weights(m) + Activations(m, iv) + kv + OVERHEAD)
  }

  /** The least integer at or above `x`. */
  function Ceil(x: real): (n: int)
    ensures n as real - 1.0 < x <= n as real
  {
    -((-x).Floor)
  }

  function Offered(os: seq<Devices.Option>, total: real): seq<Offer> {
    if os == [] then []
    else
      var o := os[|os| - 1];
      Offered(os[..|os| - 1], total) + [Offer(o, if o.memGB > 0 then total / o.memGB as real * 100.0 else 0.0)]
  }

  /** The enabled tiers that hold the experiment, lowest first. */
  function OptionsOf(registry: seq<Devices.Provider>, m: Model, iv: Intervention): seq<Offer> {
    var total := FootprintOf(m, iv).total;
    Offered(Sort(Devices.NoHigher, Devices.Collected(registry, Ceil(total))), total)
  }

  method Size(registry: seq<Devices.Provider>, m: Model, iv: Intervention) returns (p: Plan)
    ensures p.footprint == FootprintOf(m, iv) && p.options == OptionsOf(registry, m, iv)
  {
    hide ResidualStream, KvPool, Weights;
    var fp := Footprint(RouteEngine(iv), Weights(m), 0.0, 0.0, 0.0);
    if fp.engine == Vllm {
      fp := fp.(kvPool := KvPool(m, iv.prompts));
      fp := fp.(activations := ResidualStream(m, false) * AtLeastOne(iv.prompts) as real);
    } else {
      var captured := ResidualStream(m, iv.saveAllLayers);
      if iv.gradients { captured := captured * 2.0 + ResidualStream(m, iv.saveAllLayers); }
      fp := fp.(activations := captured);
    }
    fp := fp.(total := fp.weights + fp.activations + fp.kvPool + OVERHEAD);
    var fitting := Devices.Options(registry, Ceil(fp.total));
    var opts := OfferAll(fitting, fp.total);
    p := Plan(fp, opts);
  }

  method OfferAll(fitting: seq<Devices.Option>, total: real) returns (opts: seq<Offer>)
    ensures opts == Offered(fitting, total)
  {
    opts := [];
    for i := 0 to |fitting|
      invariant opts == Offered(fitting[..i], total)
    {
      var d := fitting[i];
      assert fitting[..i + 1][..i] == fitting[..i];
      var util := 0.0;
      if d.memGB > 0 { util := total / d.memGB as real * 100.0; }
      opts := opts + [Offer(d, util)];
    }
    assert fitting[..|fitting|] == fitting;
  }

  // ---------------------------------------------------------------- soundness

  lemma {:induction false} OfferedLength(os: seq<Devices.Option>, total: real)
    ensures |Offered(os, total)| == |os|
  {
    if os != [] { OfferedLength(os[..|os| - 1], total); }
  }

  lemma {:induction false} OfferedAt(os: seq<Devices.Option>, total: real, i: nat)
    requires i < |os|
    ensures |Offered(os, total)| == |os|
    ensures Offered(os, total)[i].device == os[i]
    ensures os[i].memGB > 0 ==> Offered(os, total)[i].utilization == total / os[i].memGB as real * 100.0
  {
    OfferedLength(os, total);
    OfferedLength(os[..|os| - 1], total);
    if i < |os| - 1 {
      OfferedAt(os[..|os| - 1], total, i);
    }
  }

  /** Every tier offered holds the whole footprint, and every tier left out does not. */
  lemma OffersHold(total: real, k: nat)
    requires k < |Devices.MENU|
    ensures Devices.MENU[k].memGB as real >= total <==> Devices.RuledOut(Ceil(total)) <= k
  {
  }

  // ---------------------------------------------------------------- monotone

  predicate NonNegative(m: Model) {
    m.paramsB >= 0.0 && m.bytesPer >= 0 && m.layers >= 0 && m.hiddenDim >= 0 && m.ctxTokens >= 0
  }

  /** `n` is `m` with some fields grown. */
  predicate Grows(m: Model, n: Model) {
    m.paramsB <= n.paramsB && m.bytesPer <= n.bytesPer && m.layers <= n.layers && m.hiddenDim <= n.hiddenDim
      && m.ctxTokens <= n.ctxTokens
  }

  lemma MulGrows(a: real, b: real, c: real, d: real)
    requires 0.0 <= a <= b && 0.0 <= c <= d
    ensures 0.0 <= a * c <= b * d
  {
  }

  lemma StreamGrows(m: Model, n: Model, allTokens: bool)
    requires NonNegative(m) && Grows(m, n)
    ensures 0.0 <= ResidualStream(m, allTokens) <= ResidualStream(n, allTokens)
  {
    var tm, tn := if allTokens then m.ctxTokens as real else 1.0, if allTokens then n.ctxTokens as real else 1.0;
    MulGrows(m.layers as real, n.layers as real, m.hiddenDim as real, n.hiddenDim as real);
    MulGrows(m.layers as real * m.hiddenDim as real, n.layers as real * n.hiddenDim as real, tm, tn);
    MulGrows(m.layers as real * m.hiddenDim as real * tm, n.layers as real * n.hiddenDim as real * tn,
             m.bytesPer as real, n.bytesPer as real);
  }

  lemma WeightsGrow(m: Model, n: Model)
    requires NonNegative(m) && Grows(m, n)
    ensures 0.0 <= Weights(m) <= Weights(n)
  {
    MulGrows(m.paramsB * 1000000000.0, n.paramsB * 1000000000.0, m.bytesPer as real, n.bytesPer as real);
  }

  lemma KvGrows(m: Model, n: Model, p: int, q: int)
    requires NonNegative(m) && Grows(m, n) && p <= q
    ensures 0.0 <= KvPool(m, p) <= KvPool(n, q)
  {
    MulGrows(2.0 * m.layers as real, 2.0 * n.layers as real, m.hiddenDim as real, n.hiddenDim as real);
    var a, b := 2.0 * m.layers as real * m.hiddenDim as real, 2.0 * n.layers as real * n.hiddenDim as real;
    MulGrows(a, b, m.ctxTokens as real, n.ctxTokens as real);
    MulGrows(a * m.ctxTokens as real, b * n.ctxTokens as real, AtLeastOne(p) as real, AtLeastOne(q) as real);
    MulGrows(a * m.ctxTokens as real * AtLeastOne(p) as real, b * n.ctxTokens as real * AtLeastOne(q) as real,
             m.bytesPer as real, n.bytesPer as real);
  }

  /** A bigger model or a longer sweep never needs less, across the switch of engine too. */
  lemma TotalGrows(m: Model, n: Model, iv: Intervention, prompts: int)
    requires NonNegative(m) && Grows(m, n) && iv.prompts <= prompts
    ensures FootprintOf(m, iv).total <= FootprintOf(n, iv.(prompts := prompts)).total
  {
    var jv := iv.(prompts := prompts);
    WeightsGrow(m, n);
    StreamGrows(m, n, iv.saveAllLayers);
    StreamGrows(m, n, false);
    KvGrows(m, n, iv.prompts, prompts);
    hide Weights, ResidualStream, KvPool;
    if RouteEngine(jv) == Vllm {
      var p := if RouteEngine(iv) == Vllm then AtLeastOne(iv.prompts) else 1;
      MulGrows(ResidualStream(m, false), ResidualStream(n, false), p as real, AtLeastOne(prompts) as real);
    }
  }

  lemma RuledOutGrows(a: real, b: real)
    requires a <= b
    ensures Devices.RuledOut(Ceil(a)) <= Devices.RuledOut(Ceil(b)) <= |Devices.MENU|
  {
    assert Ceil(a) <= Ceil(b);
  }

  /** What a bigger experiment is offered is a suffix of what the smaller one is, so its tightest tier is never
      a smaller one. */
  lemma BiggerNeedsNoSmallerTier(registry: seq<Devices.Provider>, gated: seq<Devices.Option>,
                                 m: Model, n: Model, iv: Intervention, prompts: int)
    requires Devices.Registered(registry, gated)
    requires NonNegative(m) && Grows(m, n) && iv.prompts <= prompts
    ensures var small, big := OptionsOf(registry, m, iv), OptionsOf(registry, n, iv.(prompts := prompts));
            && |big| <= |small|
            && (forall i | 0 <= i < |big| :: big[i].device == small[|small| - |big| + i].device)
            && (big != [] ==> Devices.NoHigher(small[0].device, big[0].device))
  {
    hide FootprintOf, Ceil, Devices.RuledOut, Devices.Collected, Sort, Offered, OptionsOf, NonNegative, Grows;
    var a, b := FootprintOf(m, iv).total, FootprintOf(n, iv.(prompts := prompts)).total;
    var k, l := Devices.RuledOut(Ceil(a)), Devices.RuledOut(Ceil(b));
    TotalGrows(m, n, iv, prompts);
    RuledOutGrows(a, b);
    OptionsAre(registry, gated, m, iv);
    OptionsAre(registry, gated, n, iv.(prompts := prompts));
    if l < |Devices.MENU| { RanksAscend(k, l); }
  }

  lemma OptionsAre(registry: seq<Devices.Provider>, gated: seq<Devices.Option>, m: Model, iv: Intervention)
    requires Devices.Registered(registry, gated)
    ensures var k := Devices.RuledOut(Ceil(FootprintOf(m, iv).total)); var offers := OptionsOf(registry, m, iv);
            && k <= |Devices.MENU| && |offers| == |Devices.MENU| - k
            && forall i | 0 <= i < |offers| :: offers[i].device == Devices.MENU[k + i]
  {
    hide FootprintOf, Ceil, Devices.Collected, Sort, Offered;
    var total := FootprintOf(m, iv).total;
    var k := Devices.RuledOut(Ceil(total));
    Devices.OptionsAreMenuSuffix(registry, gated, Ceil(total));
    OfferedLength(Devices.MENU[k..], total);
    forall i | 0 <= i < |Devices.MENU| - k ensures Offered(Devices.MENU[k..], total)[i].device == Devices.MENU[k + i] {
      OfferedAt(Devices.MENU[k..], total, i);
    }
  }

  lemma RanksAscend(k: nat, l: nat)
    requires k <= l < |Devices.MENU|
    ensures Devices.NoHigher(Devices.MENU[k], Devices.MENU[l])
    ensures k < l ==> !Devices.NoHigher(Devices.MENU[l], Devices.MENU[k])
  {
  }

  // ---------------------------------------------------------------- what growing one field does, exactly

  /** A sweep of more than eight prompts that keeps neither gradients nor every layer: what vLLM is for. */
  predicate Batched(iv: Intervention) { iv.prompts > 8 && !iv.gradients && !iv.saveAllLayers }

  /** vLLM gets exactly the batched sweeps: never gradients, and never a save of every layer. */
  lemma VllmIff(iv: Intervention)
    ensures RouteEngine(iv) == Vllm <==> Batched(iv)
  {
  }

  /** How many activations of one token and layer the experiment holds at once. */
  function Width(ctxTokens: int, iv: Intervention): int {
    if Batched(iv) then iv.prompts * (1 + 2 * ctxTokens)
    else (if iv.saveAllLayers then ctxTokens else 1) * (if iv.gradients then 3 else 1)
  }

  function Total(m: Model, iv: Intervention): real { FootprintOf(m, iv).total }

  /** How many numbers are held, weights and activations. */
  function Held(m: Model, iv: Intervention): real {
    m.paramsB * 1000000000.0 + (m.layers * m.hiddenDim * Width(m.ctxTokens, iv)) as real
  }

  /** The footprint as one expression, whichever the engine. */
  lemma TotalIs(m: Model, iv: Intervention)
    ensures Total(m, iv) == Held(m, iv) * m.bytesPer as real / 1073741824.0 + 2.0
  {
    hide Width, Activations, FootprintOf, Total;
    TotalSums(m, iv);
    ActivationsAre(m, iv);
    SumOf(Total(m, iv), Activations(m, iv) + FootprintOf(m, iv).kvPool,
          m.paramsB * 1000000000.0, (m.layers * m.hiddenDim * Width(m.ctxTokens, iv)) as real, m.bytesPer as real);
  }

  lemma SumOf(total: real, rest: real, x: real, y: real, b: real)
    requires total == BytesToGB(x * b) + rest + OVERHEAD && rest == BytesToGB(y * b)
    ensures total == BytesToGB((x + y) * b) + OVERHEAD
  {
    Distribute(x, y, b);
    BytesAdd(x * b, y * b);
  }

  lemma TotalSums(m: Model, iv: Intervention)
    ensures Total(m, iv)
            == BytesToGB(m.paramsB * 1000000000.0 * m.bytesPer as real)
               + (Activations(m, iv) + FootprintOf(m, iv).kvPool) + OVERHEAD
  {
    hide ResidualStream, KvPool;
  }

  lemma Distribute(x: real, y: real, z: real)
    ensures (x + y) * z == x * z + y * z
  {
  }

  lemma BytesAdd(x: real, y: real)
    ensures BytesToGB(x) + BytesToGB(y) == BytesToGB(x + y)
  {
  }

  lemma ActivationsAre(m: Model, iv: Intervention)
    ensures Activations(m, iv) + FootprintOf(m, iv).kvPool
            == BytesToGB((m.layers * m.hiddenDim * Width(m.ctxTokens, iv)) as real * m.bytesPer as real)
  {
    var lh, b, c := (m.layers * m.hiddenDim) as real, m.bytesPer as real, m.ctxTokens as real;
    var p := AtLeastOne(iv.prompts) as real;
  }

  lemma SignKept(k: int, x: int)
    requires k > 0
    ensures k * x >= 0 <==> x >= 0
  {
  }

  lemma RealSignKept(k: real, x: real)
    requires k > 0.0
    ensures k * x >= 0.0 <==> x >= 0.0
  {
  }

  /** With the same weights, one experiment needs no less than another exactly when it holds no fewer bytes. */
  lemma NoLessIff(m: Model, iv: Intervention, n: Model, jv: Intervention)
    requires m.paramsB == n.paramsB && m.bytesPer == n.bytesPer
    ensures var x := m.layers * m.hiddenDim * Width(m.ctxTokens, iv);
            var y := n.layers * n.hiddenDim * Width(n.ctxTokens, jv);
            Total(m, iv) <= Total(n, jv) <==> (y - x) * m.bytesPer >= 0
  {
    hide Total, Width;
    TotalIs(m, iv);
    TotalIs(n, jv);
    var x, y := m.layers * m.hiddenDim * Width(m.ctxTokens, iv), n.layers * n.hiddenDim * Width(n.ctxTokens, jv);
    Distribute(m.paramsB * 1000000000.0, x as real, m.bytesPer as real);
    Distribute(m.paramsB * 1000000000.0, y as real, m.bytesPer as real);
    assert ((y - x) * m.bytesPer) as real == y as real * m.bytesPer as real - x as real * m.bytesPer as real;
  }

  /** More parameters never need less exactly when a parameter's bytes are not negative. */
  lemma ParamsGrowIff(m: Model, iv: Intervention, paramsB: real)
    requires m.paramsB < paramsB
    ensures Total(m, iv) <= Total(m.(paramsB := paramsB), iv) <==> m.bytesPer >= 0
  {
    hide Total, Width;
    var n := m.(paramsB := paramsB);
    TotalIs(m, iv);
    TotalIs(n, iv);
    var k := (m.layers * m.hiddenDim * Width(m.ctxTokens, iv)) as real;
    Distribute(m.paramsB * 1000000000.0, k, m.bytesPer as real);
    Distribute(paramsB * 1000000000.0, k, m.bytesPer as real);
    Distribute(paramsB * 1000000000.0 - m.paramsB * 1000000000.0, m.paramsB * 1000000000.0, m.bytesPer as real);
    RealSignKept(paramsB * 1000000000.0 - m.paramsB * 1000000000.0, m.bytesPer as real);
  }

  /** Wider parameters never need less exactly when what is held in them is not negative. */
  lemma BytesGrowIff(m: Model, iv: Intervention, bytesPer: int)
    requires m.bytesPer < bytesPer
    ensures Total(m, iv) <= Total(m.(bytesPer := bytesPer), iv) <==>
            Held(m, iv) >= 0.0
  {
    hide Total, Width;
    TotalIs(m, iv);
    TotalIs(m.(bytesPer := bytesPer), iv);
    RealSignKept(bytesPer as real - m.bytesPer as real, Held(m, iv));
  }

  /** More layers never need less exactly when a layer's bytes are not negative. */
  lemma LayersGrowIff(m: Model, iv: Intervention, layers: int)
    requires m.layers < layers
    ensures Total(m, iv) <= Total(m.(layers := layers), iv) <==> m.hiddenDim * Width(m.ctxTokens, iv) * m.bytesPer >= 0
  {
    hide Total, Width;
    NoLessIff(m, iv, m.(layers := layers), iv);
    var w := Width(m.ctxTokens, iv);
    SignKept(layers - m.layers, m.hiddenDim * w * m.bytesPer);
    assert (layers * m.hiddenDim * w - m.layers * m.hiddenDim * w) * m.bytesPer
           == (layers - m.layers) * (m.hiddenDim * w * m.bytesPer);
  }

  /** The same of the hidden size. */
  lemma HiddenGrowIff(m: Model, iv: Intervention, hiddenDim: int)
    requires m.hiddenDim < hiddenDim
    ensures Total(m, iv) <= Total(m.(hiddenDim := hiddenDim), iv) <==>
              m.layers * Width(m.ctxTokens, iv) * m.bytesPer >= 0
  {
    hide Total, Width;
    NoLessIff(m, iv, m.(hiddenDim := hiddenDim), iv);
    var w := Width(m.ctxTokens, iv);
    SignKept(hiddenDim - m.hiddenDim, m.layers * w * m.bytesPer);
    assert (m.layers * hiddenDim * w - m.layers * m.hiddenDim * w) * m.bytesPer
           == (hiddenDim - m.hiddenDim) * (m.layers * w * m.bytesPer);
  }

  /** A longer context counts only where all tokens are saved or batched, and then never needs less exactly
      when a token's bytes are not negative. */
  lemma ContextGrowsIff(m: Model, iv: Intervention, ctxTokens: int)
    requires m.ctxTokens < ctxTokens
    ensures Total(m, iv) <= Total(m.(ctxTokens := ctxTokens), iv) <==>
            (!Batched(iv) && !iv.saveAllLayers) || m.layers * m.hiddenDim * m.bytesPer >= 0
  {
    hide Total;
    NoLessIff(m, iv, m.(ctxTokens := ctxTokens), iv);
    var x, y, lh := Width(m.ctxTokens, iv), Width(ctxTokens, iv), m.layers * m.hiddenDim;
    WidthGrows(m.ctxTokens, ctxTokens, iv);
    hide Width;
    assert (lh * y - lh * x) * m.bytesPer == (y - x) * (lh * m.bytesPer);
    if y > x { SignKept(y - x, lh * m.bytesPer); }
  }

  lemma WidthGrows(c: int, d: int, iv: Intervention)
    requires c < d
    ensures Width(c, iv) <= Width(d, iv)
    ensures Width(c, iv) == Width(d, iv) <==> !Batched(iv) && !iv.saveAllLayers
  {
    if Batched(iv) {
      SignKept(iv.prompts, 2 * (d - c));
      assert Width(d, iv) - Width(c, iv) == iv.prompts * (2 * (d - c));
    }
  }

  /** A longer sweep counts only where it is batched, the switch of engine included, and then never needs less
      exactly when a prompt's bytes are not negative. */
  lemma SweepGrowsIff(m: Model, iv: Intervention, prompts: int)
    requires iv.prompts < prompts
    ensures Total(m, iv) <= Total(m, iv.(prompts := prompts)) <==>
            !Batched(iv.(prompts := prompts))
              || m.layers * m.hiddenDim * m.bytesPer * (1 + 2 * m.ctxTokens) >= 0
  {
    hide Total, Width;
    var jv := iv.(prompts := prompts);
    NoLessIff(m, iv, m, jv);
    var x, y, lh, c := Width(m.ctxTokens, iv), Width(m.ctxTokens, jv), m.layers * m.hiddenDim, 1 + 2 * m.ctxTokens;
    Regroup(lh, x, y, m.bytesPer);
    if Batched(jv) {
      SweepWidens(m.ctxTokens, iv, prompts);
      SameSign(y - x, c, lh * m.bytesPer);
    } else {
      SweepKeeps(m.ctxTokens, iv, prompts);
    }
  }

  lemma Regroup(k: int, x: int, y: int, b: int)
    ensures (k * y - k * x) * b == (y - x) * (k * b)
  {
  }

  lemma SweepKeeps(ctx: int, iv: Intervention, prompts: int)
    requires iv.prompts < prompts && !Batched(iv.(prompts := prompts))
    ensures Width(ctx, iv.(prompts := prompts)) == Width(ctx, iv)
  {
  }

  lemma SweepWidens(ctx: int, iv: Intervention, prompts: int)
    requires iv.prompts < prompts && Batched(iv.(prompts := prompts))
    ensures var grown := Width(ctx, iv.(prompts := prompts)) - Width(ctx, iv);
            grown != 0 && (grown > 0 <==> 1 + 2 * ctx > 0)
  {
    var c := 1 + 2 * ctx;
    if Batched(iv) {
      assert Width(ctx, iv.(prompts := prompts)) - Width(ctx, iv) == (prompts - iv.prompts) * c;
      SignKept(prompts - iv.prompts, c);
      SignKept(prompts - iv.prompts, -c);
    } else {
      assert c > 0 ==> prompts * c >= prompts by { if c > 0 { SignKept(prompts, c - 1); } }
      assert c < 0 ==> prompts * c < 0;
    }
  }

  lemma SameSign(d: int, c: int, z: int)
    requires d != 0 && c != 0 && (d > 0 <==> c > 0)
    ensures d * z >= 0 <==> z * c >= 0
  {
    if d > 0 {
      SignKept(d, z);
      SignKept(c, z);
    } else {
      SignKept(-d, -z);
      SignKept(-c, -z);
    }
  }
}

/** The ladder and the brain's moves on it: internal/brain/brain.go. */
module Brain {
  import Sizing

  datatype Question = Question(text: string, budget: real)

  datatype Rung = Rung(index: int, technique: string, model: Sizing.Model, modelSource: string, rationale: string,
                       nnsight: string, engine: Sizing.Engine, gradients: bool, options: seq<Sizing.Offer>,
                       chosen: Sizing.Offer, cost: real)

  /** Cursor is the next rung not run yet; spent accumulates the approved cost. */
  datatype Ladder = Ladder(question: Question, rungs: seq<Rung>, cursor: nat, spent: real)

  /** What the brain recommends after a result, and why it stops. */
  datatype Advice = Climb | Complete | NoEffect | OverBudget

  /** Each rung's index is its place in the climb. */
  predicate WellIndexed(rungs: seq<Rung>) {
    forall i | 0 <= i < |rungs| :: rungs[i].index == i
  }

  /** What Approve books once the rung has launched. */
  function Booked(l: Ladder, r: Rung): Ladder {
    l.(cursor := l.cursor + 1, spent := l.spent + r.cost)
  }

  function Assess(l: Ladder, rung: nat, effect: bool): Advice {
    var next := rung + 1;
    if next >= |l.rungs| then Complete
    else if !effect then NoEffect
    else if l.spent + l.rungs[next].cost > l.question.budget then OverBudget
    else Climb
  }

  /** The position of the rung to propose next, if any is left. */
  function NextProposal(l: Ladder): (r: int)
    ensures r == -1 || 0 <= r < |l.rungs|
  {
    if l.cursor >= |l.rungs| then -1 else l.cursor
  }
}

/** The planner: internal/brain/agentcore.go. */
module Planner {
  import opened Text
  import opened Brain
  import opened Sorting
  import Devices
  import Sizing

  datatype Spec = Spec(model: Sizing.Model, modelSource: string, technique: string, saveAllLayers: bool,
                       gradients: bool,
                       prompts: int, rationale: string, nnsight: string)

  /** What the planning model answered. */
  datatype Reply = NoReply | Unparsable | Plan(clarify: string, specs: seq<Spec>)

  datatype Outcome = Failed | Clarify(question: string) | Planned(ladder: Ladder)

  const DEFAULT_BUDGET := 5.0

  function InterventionOf(s: Spec): Sizing.Intervention {
    Sizing.Intervention(s.technique, s.saveAllLayers, s.gradients, s.prompts)
  }

  function Offers(registry: seq<Devices.Provider>, s: Spec): seq<Sizing.Offer> {
    Sizing.OptionsOf(registry, s.model, InterventionOf(s))
  }

  /** A sized, priced rung, not indexed yet; None when no hardware fits or it cannot be priced. */
  function RungOf(registry: seq<Devices.Provider>, price: string -> Option<real>, s: Spec): Option<Rung> {
    var offers := Offers(registry, s);
    if offers == [] then None
    else
      var cost := price(offers[0].device.instanceType);
      if cost == None then None
      else Some(Rung(0, s.technique, s.model, s.modelSource, s.rationale, s.nnsight,
                     Sizing.FootprintOf(s.model, InterventionOf(s)).engine, s.gradients, offers, offers[0], cost.value))
  }

  method BuildRung(registry: seq<Devices.Provider>, price: string -> Option<real>, s: Spec) returns (r: Option<Rung>)
    ensures r == RungOf(registry, price, s)
    // Built exactly when some hardware fits and the tightest of it has a price; the rung takes that option and price.
    ensures var offers := Offers(registry, s);
            && (r.Some? <==> offers != [] && price(offers[0].device.instanceType).Some?)
            && (r.Some? ==> var x := r.value;
                            && x.options == offers && x.chosen == offers[0]
                            && price(x.chosen.device.instanceType) == Some(x.cost)
                            && x.engine == Sizing.RouteEngine(InterventionOf(s)) && x.gradients == s.gradients
                            && x.model == s.model && x.modelSource == s.modelSource && x.technique == s.technique
                            && x.rationale == s.rationale && x.nnsight == s.nnsight)
  {
    hide Sizing.OptionsOf;
    var plan := Sizing.Size(registry, s.model, InterventionOf(s));
    if |plan.options| == 0 { return None; }
    var cost := price(plan.options[0].device.instanceType);
    if cost == None { return None; }
    return Some(Rung(0, s.technique, s.model, s.modelSource, s.rationale, s.nnsight, plan.footprint.engine, s.gradients,
                     plan.options, plan.options[0], cost.value));
  }

  /** Cheaper first; of equal cost, the smaller model first. */
  predicate NoDearer(a: Rung, b: Rung) {
    a.cost < b.cost || (a.cost == b.cost && a.model.paramsB <= b.model.paramsB)
  }

  function Indexed(rungs: seq<Rung>): seq<Rung> {
    seq(|rungs|, i requires 0 <= i < |rungs| => rungs[i].(index := i))
  }

  /** The specs' rungs, in the specs' order. */
  ghost predicate BuiltFrom(registry: seq<Devices.Provider>, price: string -> Option<real>, specs: seq<Spec>,
                            built: seq<Rung>) {
    |built| == |specs| && forall i | 0 <= i < |specs| :: RungOf(registry, price, specs[i]) == Some(built[i])
  }

  method PlanLadder(registry: seq<Devices.Provider>, price: string -> Option<real>, reply: Reply, question: string,
                    budgetSet: real)
    returns (o: Outcome, ghost built: seq<Rung>)
    ensures o.Clarify? <==> reply.Plan? && Trim(reply.clarify) != ""
    ensures o.Clarify? ==> o.question == reply.clarify
    ensures o.Planned? ==>
              && reply.Plan? && BuiltFrom(registry, price, reply.specs, built) && built != []
              && o.ladder == Ladder(Question(question, if budgetSet <= 0.0 then DEFAULT_BUDGET else budgetSet),
                                    Indexed(Sort(NoDearer, built)), 0, 0.0)
    // It fails on no answer, on no rungs, and on a rung that cannot be sized or priced; not otherwise.
    ensures o.Failed? <==>
              !reply.Plan?
                || (Trim(reply.clarify) == ""
                    && (reply.specs == [] || exists s :: s in reply.specs && RungOf(registry, price, s) == None))
  {
    hide RungOf, Trim, Sort;
    built := [];
    if !reply.Plan? { return Failed, built; }
    if Trim(reply.clarify) != "" { return Clarify(reply.clarify), built; }
    if |reply.specs| == 0 { return Failed, built; }
    var rungs: seq<Rung> := [];
    for i := 0 to |reply.specs|
      invariant |rungs| == i && forall j | 0 <= j < i :: RungOf(registry, price, reply.specs[j]) == Some(rungs[j])
    {
      var r := BuildRung(registry, price, reply.specs[i]);
      if r == None { return Failed, built; }
      rungs := rungs + [r.value];
    }
    built := rungs;
    rungs := Sort(NoDearer, rungs);
    ghost var sorted := rungs;
    for i := 0 to |rungs|
      invariant |rungs| == |sorted|
      invariant forall j | 0 <= j < |rungs| :: rungs[j] == if j < i then sorted[j].(index := j) else sorted[j]
    {
      rungs := rungs[i := rungs[i].(index := i)];
    }
    assert rungs == Indexed(sorted);
    var budget := if budgetSet <= 0.0 then DEFAULT_BUDGET else budgetSet;
    o := Planned(Ladder(Question(question, budget), rungs, 0, 0.0));
  }

  // ---------------------------------------------------------------- what a planned ladder is

  /** The rungs of that cost and size, in order. */
  function Priced(rungs: seq<Rung>, cost: real, paramsB: real): seq<Rung> {
    if rungs == [] then []
    else (if rungs[0].cost == cost && rungs[0].model.paramsB == paramsB then [rungs[0]] else [])
         + Priced(rungs[1..], cost, paramsB)
  }

  lemma {:induction false} TiedIsPriced(rungs: seq<Rung>, k: Rung)
    ensures Tied(NoDearer, rungs, k) == Priced(rungs, k.cost, k.model.paramsB)
  {
    if rungs != [] { TiedIsPriced(rungs[1..], k); }
  }

  /** A permutation of the sized rungs, indexed by position, which is what Assess relies on when it indexes by a
      result's rung: no rung is dearer than a later one, nor larger than a later one that costs the same, and
      rungs of one cost and size keep the specs' order. */
  lemma LadderIsSorted(built: seq<Rung>)
    ensures var sorted := Sort(NoDearer, built); var rungs := Indexed(sorted);
            && |rungs| == |built| && WellIndexed(rungs)
            && (forall i | 0 <= i < |rungs| :: rungs[i] == sorted[i].(index := i))
            && multiset(sorted) == multiset(built)
            && (forall i, j | 0 <= i < j < |rungs| ::
                  rungs[i].cost <= rungs[j].cost
                  && (rungs[i].cost == rungs[j].cost ==> rungs[i].model.paramsB <= rungs[j].model.paramsB))
            && (forall cost, paramsB :: Priced(sorted, cost, paramsB) == Priced(built, cost, paramsB))
  {
    var sorted := Sort(NoDearer, built);
    SortAscends(NoDearer, built);
    forall i, j | 0 <= i < j < |sorted|
      ensures sorted[i].cost <= sorted[j].cost
              && (sorted[i].cost == sorted[j].cost ==> sorted[i].model.paramsB <= sorted[j].model.paramsB)
    {
      assert NoDearer(sorted[i], sorted[j]);
    }
    forall cost, paramsB ensures Priced(sorted, cost, paramsB) == Priced(built, cost, paramsB) {
      PricedIsStable(built, cost, paramsB);
    }
  }

  lemma PricedIsStable(built: seq<Rung>, cost: real, paramsB: real)
    ensures Priced(Sort(NoDearer, built), cost, paramsB) == Priced(built, cost, paramsB)
  {
    if built == [] { return; }
    var k := built[0].(cost := cost, model := built[0].model.(paramsB := paramsB));
    SortIsStable(NoDearer, built, k);
    TiedIsPriced(Sort(NoDearer, built), k);
    TiedIsPriced(built, k);
  }

  /** Each rung's chosen tier is the lowest one that holds the footprint of the intervention the spec asks for. */
  lemma ChosenIsTightest(registry: seq<Devices.Provider>, gated: seq<Devices.Option>, price: string -> Option<real>,
                         s: Spec, iv: Sizing.Intervention)
    requires Devices.Registered(registry, gated) && RungOf(registry, price, s).Some?
    requires iv.technique == s.technique && iv.prompts == s.prompts
    requires iv.saveAllLayers == s.saveAllLayers && iv.gradients == s.gradients
    ensures var r := RungOf(registry, price, s).value;
            var total := Sizing.FootprintOf(s.model, iv).total;
            var k := Devices.RuledOut(Sizing.Ceil(total));
            && k < |Devices.MENU| && r.chosen.device == Devices.MENU[k]
            && |r.options| == |Devices.MENU| - k
            && (forall i | 0 <= i < |r.options| :: r.options[i].device == Devices.MENU[k + i])
            && (forall i | 0 <= i < |Devices.MENU| :: Devices.MENU[i].memGB as real >= total <==> k <= i)
  {
    hide Sizing.FootprintOf, Sizing.OptionsOf, Sizing.Ceil, Devices.RuledOut;
    assert iv == InterventionOf(s);
    Sizing.OptionsAre(registry, gated, s.model, iv);
    MenuHolds(Sizing.FootprintOf(s.model, iv).total);
  }

  lemma MenuHolds(total: real)
    ensures Devices.RuledOut(Sizing.Ceil(total)) <= |Devices.MENU|
    ensures forall i | 0 <= i < |Devices.MENU| :: Devices.MENU[i].memGB as real >= total <==>
              Devices.RuledOut(Sizing.Ceil(total)) <= i
  {
  }
}

/** The result-gated ladder as a machine of its own, which both drivers are proved to run. */
module Climbing {
  import opened Text
  import opened Brain

  /** What comes of a rung the human said Go to: it did not launch; it launched and gave no result;
      or its result shows an effect or none. */
  datatype Outcome = NotLaunched | NoResult | Found(effect: bool)

  /** A launched rung, and the ladder and the recommendation once it is over. */
  datatype Stage = Stage(rung: nat, cursor: nat, spent: real, advice: Option<Advice>)

  datatype End = Declined | Denied | Broken | Finished

  datatype Run = Run(stages: seq<Stage>, ladder: Ladder, end: End)

  function RunOf(l: Ladder, go: nat -> bool, outcome: nat -> Outcome): Run
    decreases |l.rungs| - l.cursor
  {
    var k := l.cursor;
    if k >= |l.rungs| then Run([], l, Finished)
    else if !go(k) then Run([], l, Declined)
    else if outcome(k) == NotLaunched then Run([], l, Denied)
    else
      var b := Booked(l, l.rungs[k]);
      if outcome(k) == NoResult then Run([Stage(k, b.cursor, b.spent, None)], b, Broken)
      else
        var advice := Assess(b, k, outcome(k).effect);
        var stage := Stage(k, b.cursor, b.spent, Some(advice));
        if advice != Advice.Climb then Run([stage], b, Finished)
        else
          var rest := RunOf(b, go, outcome);
          rest.(stages := [stage] + rest.stages)
  }

  /** The cost of the rungs from `i` up to `j`. */
  function CostOf(rungs: seq<Rung>, i: nat, j: nat): real
    requires i <= j <= |rungs|
    decreases j - i
  {
    if i == j then 0.0 else rungs[i].cost + CostOf(rungs, i + 1, j)
  }

  lemma {:induction false} CostSnoc(rungs: seq<Rung>, i: nat, j: nat)
    requires i <= j < |rungs|
    ensures CostOf(rungs, i, j + 1) == CostOf(rungs, i, j) + rungs[j].cost
    decreases j - i
  {
    if i < j { CostSnoc(rungs, i + 1, j); }
  }

  /** The stage a launched rung ends with. */
  function StageAt(b: Ladder, k: nat, o: Outcome): Stage {
    Stage(k, b.cursor, b.spent, if o.Found? then Some(Assess(b, k, o.effect)) else None)
  }

  lemma RunUnfolds(l: Ladder, go: nat -> bool, outcome: nat -> Outcome)
    requires l.cursor < |l.rungs|
    ensures var k := l.cursor; var b := Booked(l, l.rungs[k]); var s := StageAt(b, k, outcome(k));
            var r := RunOf(l, go, outcome);
            && (!go(k) ==> r == Run([], l, Declined))
            && (go(k) && outcome(k) == NotLaunched ==> r == Run([], l, Denied))
            && (go(k) && outcome(k) == NoResult ==> r == Run([s], b, Broken))
            && (go(k) && outcome(k).Found? && s.advice != Some(Advice.Climb) ==> r == Run([s], b, Finished))
            && (go(k) && outcome(k).Found? && s.advice == Some(Advice.Climb) ==>
                  var rest := RunOf(b, go, outcome); r == Run([s] + rest.stages, rest.ladder, rest.end))
  {
  }

  /** The i-th stage is the i-th rung from the cursor, after its own Go, with the spend up to it;
      unless it is the last, it recommended climbing. */
  ghost predicate StageInOrder(l: Ladder, go: nat -> bool, outcome: nat -> Outcome, stages: seq<Stage>, i: nat)
    requires i < |stages| && l.cursor + |stages| <= |l.rungs|
  {
    var k := l.cursor + i;
    && stages[i].rung == k && stages[i].cursor == k + 1 && go(k) && outcome(k) != NotLaunched
    && stages[i].spent == l.spent + CostOf(l.rungs, l.cursor, k + 1)
    && (i < |stages| - 1 ==> stages[i].advice == Some(Advice.Climb))
  }

  /** Launched rungs are exactly those up to the cursor, in order, each after its own Go; the spend
      is the sum of their costs; every stage but the last recommended climbing. */
  ghost predicate InOrder(l: Ladder, go: nat -> bool, outcome: nat -> Outcome, r: Run) {
    var n := |r.stages|;
    && l.cursor + n <= |l.rungs|
    && r.ladder == l.(cursor := l.cursor + n, spent := l.spent + CostOf(l.rungs, l.cursor, l.cursor + n))
    && (forall i: nat | i < n :: StageInOrder(l, go, outcome, r.stages, i))
  }

  lemma {:induction false} ClimbIsInOrder(l: Ladder, go: nat -> bool, outcome: nat -> Outcome)
    requires l.cursor <= |l.rungs|
    ensures InOrder(l, go, outcome, RunOf(l, go, outcome))
    decreases |l.rungs| - l.cursor
  {
    var k := l.cursor;
    if k < |l.rungs| && go(k) && outcome(k) != NotLaunched {
      var b := Booked(l, l.rungs[k]);
      var s := StageAt(b, k, outcome(k));
      RunUnfolds(l, go, outcome);
      if outcome(k).Found? && s.advice == Some(Advice.Climb) {
        ClimbIsInOrder(b, go, outcome);
      }
      hide RunOf, InOrder;
      if outcome(k).Found? && s.advice == Some(Advice.Climb) {
        OneMoreInOrder(l, go, outcome, s, RunOf(b, go, outcome));
      } else {
        LastInOrder(l, go, outcome, s, RunOf(l, go, outcome));
      }
    }
  }

  lemma LastInOrder(l: Ladder, go: nat -> bool, outcome: nat -> Outcome, s: Stage, r: Run)
    requires l.cursor < |l.rungs| && go(l.cursor) && outcome(l.cursor) != NotLaunched
    requires var b := Booked(l, l.rungs[l.cursor]);
             s.rung == l.cursor && s.cursor == b.cursor && s.spent == b.spent && r == Run([s], b, r.end)
    ensures InOrder(l, go, outcome, r)
  {
    assert CostOf(l.rungs, l.cursor, l.cursor + 1) == l.rungs[l.cursor].cost;
  }

  lemma OneMoreInOrder(l: Ladder, go: nat -> bool, outcome: nat -> Outcome, s: Stage, rest: Run)
    requires l.cursor < |l.rungs| && go(l.cursor) && outcome(l.cursor) != NotLaunched
    requires var b := Booked(l, l.rungs[l.cursor]);
             InOrder(b, go, outcome, rest) && s == Stage(l.cursor, b.cursor, b.spent, Some(Advice.Climb))
    ensures InOrder(l, go, outcome, Run([s] + rest.stages, rest.ladder, rest.end))
  {
    var k, n, b := l.cursor, |rest.stages| + 1, Booked(l, l.rungs[l.cursor]);
    var stages := [s] + rest.stages;
    assert CostOf(l.rungs, k, k + 1) == l.rungs[k].cost;
    assert CostOf(l.rungs, k, k + n) == l.rungs[k].cost + CostOf(l.rungs, k + 1, k + n);
    forall i: nat | i < n ensures StageInOrder(l, go, outcome, stages, i) {
      if i > 0 {
        assert StageInOrder(b, go, outcome, rest.stages, i - 1);
        assert stages[i] == rest.stages[i - 1] && b.cursor + (i - 1) == k + i;
        assert CostOf(l.rungs, k, k + i + 1) == l.rungs[k].cost + CostOf(l.rungs, k + 1, k + i + 1);
      }
    }
  }

  /** What a stage recommends, in the order the reasons are checked: the ladder is complete; the result shows
      no effect; the next rung passes the envelope; else climb. */
  ghost predicate Advised(l: Ladder, outcome: nat -> Outcome, s: Stage) {
    var next := s.rung + 1;
    && (s.advice == None <==> outcome(s.rung) == NoResult)
    && (s.advice == Some(Complete) <==> outcome(s.rung).Found? && next >= |l.rungs|)
    && (s.advice == Some(NoEffect) <==> outcome(s.rung) == Found(false) && next < |l.rungs|)
    && (s.advice == Some(OverBudget) <==> outcome(s.rung) == Found(true) && next < |l.rungs|
                                          && s.spent + l.rungs[next].cost > l.question.budget)
    && (s.advice == Some(Advice.Climb) <==> outcome(s.rung) == Found(true) && next < |l.rungs|
                                            && s.spent + l.rungs[next].cost <= l.question.budget)
  }

  /** How a run ends, from the rung it stopped before: on a rung the human declines, on one that does not launch,
      on one without a result, and otherwise when there is no rung left or its last stage advised to stop. */
  ghost predicate EndsAs(l: Ladder, go: nat -> bool, outcome: nat -> Outcome, r: Run) {
    var k, n := r.ladder.cursor, |r.stages|;
    var offered := k < |l.rungs| && (n > 0 ==> r.stages[n - 1].advice == Some(Advice.Climb));
    && (r.end == Declined <==> offered && !go(k))
    && (r.end == Denied <==> offered && go(k) && outcome(k) == NotLaunched)
    && (r.end == Broken <==> n > 0 && r.stages[n - 1].advice == None)
    && (offered ==> r.end.Declined? || r.end.Denied?)
  }

  lemma {:induction false} StagesAdvise(l: Ladder, go: nat -> bool, outcome: nat -> Outcome)
    requires l.cursor <= |l.rungs|
    ensures var r := RunOf(l, go, outcome);
            EndsAs(l, go, outcome, r) && forall i | 0 <= i < |r.stages| :: Advised(l, outcome, r.stages[i])
    decreases |l.rungs| - l.cursor
  {
    var k := l.cursor;
    if k < |l.rungs| && go(k) && outcome(k) != NotLaunched {
      var b := Booked(l, l.rungs[k]);
      var s := StageAt(b, k, outcome(k));
      RunUnfolds(l, go, outcome);
      assert Advised(l, outcome, s);
      if outcome(k).Found? && s.advice == Some(Advice.Climb) {
        StagesAdvise(b, go, outcome);
        hide RunOf;
        var rest := RunOf(b, go, outcome);
        var r := RunOf(l, go, outcome);
        assert forall i | 0 < i < |r.stages| :: r.stages[i] == rest.stages[i - 1];
        forall i | 0 <= i < |r.stages| ensures Advised(l, outcome, r.stages[i]) {
          if i > 0 { assert Advised(b, outcome, rest.stages[i - 1]); }
        }
      }
    }
  }

  /** The rung before the i-th stage's showed an effect, and the spend with it is inside the envelope. */
  ghost predicate AfterEffect(l: Ladder, outcome: nat -> Outcome, stages: seq<Stage>, i: nat)
    requires 0 < i < |stages|
  {
    outcome(l.cursor + i - 1) == Found(true) && stages[i].spent <= l.question.budget
  }

  /** Climbing is only ever recommended on a result that shows an effect, inside the envelope; so every rung
      launched after the first comes after one that did. */
  lemma ClimbsOnlyOnEffect(l: Ladder, go: nat -> bool, outcome: nat -> Outcome)
    requires l.cursor <= |l.rungs|
    ensures var r := RunOf(l, go, outcome);
            && EndsAs(l, go, outcome, r)
            && (forall i | 0 <= i < |r.stages| :: Advised(l, outcome, r.stages[i]))
            && (forall i | 0 < i < |r.stages| :: AfterEffect(l, outcome, r.stages, i))
  {
    hide RunOf, EndsAs, Advised, StageInOrder, AfterEffect;
    StagesAdvise(l, go, outcome);
    ClimbIsInOrder(l, go, outcome);
    var r := RunOf(l, go, outcome);
    forall i | 0 < i < |r.stages| ensures AfterEffect(l, outcome, r.stages, i) {
      StagePreceded(l, go, outcome, r.stages, i);
    }
  }

  lemma StagePreceded(l: Ladder, go: nat -> bool, outcome: nat -> Outcome, stages: seq<Stage>, i: nat)
    requires l.cursor + |stages| <= |l.rungs| && 0 < i < |stages|
    requires StageInOrder(l, go, outcome, stages, i - 1) && StageInOrder(l, go, outcome, stages, i)
    requires Advised(l, outcome, stages[i - 1])
    ensures AfterEffect(l, outcome, stages, i)
  {
    CostSnoc(l.rungs, l.cursor, l.cursor + i);
  }

  lemma {:induction false} WithinBudget(l: Ladder, go: nat -> bool, outcome: nat -> Outcome)
    requires l.spent <= l.question.budget
    requires l.cursor < |l.rungs| ==> l.spent + l.rungs[l.cursor].cost <= l.question.budget
    ensures RunOf(l, go, outcome).ladder.spent <= l.question.budget
    decreases |l.rungs| - l.cursor
  {
    var k := l.cursor;
    if k < |l.rungs| && go(k) && outcome(k).Found? {
      var b := Booked(l, l.rungs[k]);
      if Assess(b, k, outcome(k).effect) == Advice.Climb { WithinBudget(b, go, outcome); }
    }
  }

  /** From a fresh ladder the spend never passes the dearer of the first rung and the budget: the
      first rung is the human's choice, and every later one is only recommended inside the envelope. */
  lemma SpendIsBounded(l: Ladder, go: nat -> bool, outcome: nat -> Outcome)
    requires l.cursor == 0 && l.spent == 0.0 && |l.rungs| > 0
    ensures var spent := RunOf(l, go, outcome).ladder.spent;
            spent == 0.0 || spent <= l.rungs[0].cost || spent <= l.question.budget
  {
    if go(0) && outcome(0).Found? {
      var b := Booked(l, l.rungs[0]);
      if Assess(b, 0, outcome(0).effect) == Advice.Climb {
        if b.spent <= l.question.budget {
          WithinBudget(b, go, outcome);
        } else {
          DearFirst(b, go, outcome);
        }
      }
    }
  }

  /** Recommended within the envelope, the next rung can only bring an overspent total back into it. */
  lemma DearFirst(b: Ladder, go: nat -> bool, outcome: nat -> Outcome)
    requires b.cursor < |b.rungs| && b.spent + b.rungs[b.cursor].cost <= b.question.budget
    ensures var spent := RunOf(b, go, outcome).ladder.spent; spent == b.spent || spent <= b.question.budget
  {
    var k := b.cursor;
    if go(k) && outcome(k).Found? {
      var c := Booked(b, b.rungs[k]);
      if Assess(c, k, outcome(k).effect) == Advice.Climb { WithinBudget(c, go, outcome); }
    }
  }

  /** The machine depends on what the human says and what comes of each rung, and on nothing else. */
  lemma {:induction false} SameOutcomesSameRun(l: Ladder, go: nat -> bool, outcome: nat -> Outcome, go': nat -> bool,
                                               outcome': nat -> Outcome)
    requires forall k :: go(k) == go'(k)
    requires forall k :: go(k) ==> outcome(k) == outcome'(k)
    ensures RunOf(l, go, outcome) == RunOf(l, go', outcome')
    decreases |l.rungs| - l.cursor
  {
    var k := l.cursor;
    if k < |l.rungs| {
      assert go(k) == go'(k);
      if go(k) && outcome(k).Found? {
        SameOutcomesSameRun(Booked(l, l.rungs[k]), go, outcome, go', outcome');
      }
    }
  }

  // ---------------------------------------------------------------- running it step by step

  /** What is left to run, once these stages are over. */
  ghost predicate IsRest(whole: Run, stages: seq<Stage>, rest: Run) {
    whole == rest.(stages := stages + rest.stages)
  }

  /** One more Go: how the whole run ends if it ends here, and what is left of it otherwise. */
  lemma RestStep(whole: Run, stages: seq<Stage>, l: Ladder, go: nat -> bool, outcome: nat -> Outcome)
    requires IsRest(whole, stages, RunOf(l, go, outcome)) && l.cursor < |l.rungs|
    ensures var k := l.cursor; var b := Booked(l, l.rungs[k]); var s := StageAt(b, k, outcome(k));
            && (!go(k) ==> whole == Run(stages, l, Declined))
            && (go(k) && outcome(k) == NotLaunched ==> whole == Run(stages, l, Denied))
            && (go(k) && outcome(k) == NoResult ==> whole == Run(stages + [s], b, Broken))
            && (go(k) && outcome(k).Found? && s.advice != Some(Advice.Climb) ==>
                  whole == Run(stages + [s], b, Finished))
            && (go(k) && outcome(k).Found? && s.advice == Some(Advice.Climb) ==>
                  IsRest(whole, stages + [s], RunOf(b, go, outcome)))
  {
    RunUnfolds(l, go, outcome);
    hide RunOf, StageAt, Booked;
    var k := l.cursor;
    var b := Booked(l, l.rungs[k]);
    var s, r, rest := StageAt(b, k, outcome(k)), RunOf(l, go, outcome), RunOf(b, go, outcome);
    RestOf(whole, stages, s, r, rest);
  }

  lemma RestOf(whole: Run, stages: seq<Stage>, s: Stage, r: Run, rest: Run)
    requires IsRest(whole, stages, r)
    ensures r.stages == [] ==> whole == Run(stages, r.ladder, r.end)
    ensures r.stages == [s] ==> whole == Run(stages + [s], r.ladder, r.end)
    ensures r == Run([s] + rest.stages, rest.ladder, rest.end) ==> IsRest(whole, stages + [s], rest)
  {
  }

  lemma RestAtStart(l: Ladder, go: nat -> bool, outcome: nat -> Outcome)
    ensures IsRest(RunOf(l, go, outcome), [], RunOf(l, go, outcome))
  {
    hide RunOf;
  }

  lemma RestAtTop(whole: Run, stages: seq<Stage>, l: Ladder, go: nat -> bool, outcome: nat -> Outcome)
    requires IsRest(whole, stages, RunOf(l, go, outcome)) && l.cursor >= |l.rungs|
    ensures whole == Run(stages, l, Finished)
  {
  }
}

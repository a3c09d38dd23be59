/** Per-question cost receipts and their summary: internal/gateway/receipt.go. */
module Receipts {
  import opened Sorting
  import opened Text

  /** `at` is when the rung was approved, 0 for a time not set. */
  datatype Receipt = Receipt(questionId: string, questionText: string, rung: int, sessionId: string, technique: string,
                             model: string, cost: real, spent: real, budget: real, at: int)

  datatype Summary = Summary(questionId: string, questionText: string, budget: real, spent: real, rungsRun: nat,
                             rungs: seq<Receipt>)

  predicate ByRung(a: Receipt, b: Receipt) { a.rung <= b.rung }

  /** Folding one more row in. */
  function Fold(out: Summary, r: Receipt): Summary {
    var spent := if r.spent > out.spent then r.spent else out.spent;
    var budget := if r.budget > 0.0 then r.budget else out.budget;
    var o := out.(spent := spent, budget := budget);
    if out.questionId == "" then o.(questionId := r.questionId, questionText := r.questionText) else o
  }

  function FoldAll(out: Summary, rs: seq<Receipt>): Summary {
    if rs == [] then out else Fold(FoldAll(out, rs[..|rs| - 1]), rs[|rs| - 1])
  }

  function Summarized(rs: seq<Receipt>): Summary {
    var rungs := Sort(ByRung, rs);
    FoldAll(Summary("", "", 0.0, 0.0, |rungs|, rungs), rungs)
  }

  method SummarizeReceipts(rs: seq<Receipt>) returns (out: Summary)
    ensures out == Summarized(rs)
  {
    hide Sort, Fold;
    var rungs := Sort(ByRung, rs);
    var init := Summary("", "", 0.0, 0.0, |rungs|, rungs);
    out := init;
    for i := 0 to |rungs|
      invariant out == FoldAll(init, rungs[..i])
    {
      assert rungs[..i + 1][..i] == rungs[..i];
      out := FoldOne(out, rungs[i]);
    }
    assert rungs[..|rungs|] == rungs;
  }

  method FoldOne(out: Summary, r: Receipt) returns (o: Summary)
    ensures o == Fold(out, r)
  {
    o := out;
    if r.spent > o.spent { o := o.(spent := r.spent); }
    if r.budget > 0.0 { o := o.(budget := r.budget); }
    if o.questionId == "" { o := o.(questionId := r.questionId, questionText := r.questionText); }
  }

  // ---------------------------------------------------------------- a summary is of a set of rows

  /** One row per rung, as both stores keep them. */
  ghost predicate OnePerRung(rs: seq<Receipt>) {
    forall i, j | 0 <= i < j < |rs| :: rs[i].rung != rs[j].rung
  }

  ghost predicate Climbing(rs: seq<Receipt>) {
    forall i, j | 0 <= i < j < |rs| :: rs[i].rung < rs[j].rung
  }

  ghost predicate SameRows(rs: seq<Receipt>, qs: seq<Receipt>) {
    forall r :: r in rs <==> r in qs
  }

  lemma {:induction false} ClimbingUnique(rs: seq<Receipt>, qs: seq<Receipt>)
    requires Climbing(rs) && Climbing(qs) && SameRows(rs, qs)
    ensures rs == qs
    decreases |rs|
  {
    if rs != [] && qs != [] {
      HeadsAgree(rs, qs);
      forall r ensures r in rs[1..] <==> r in qs[1..] {
        TailRow(rs, r);
        TailRow(qs, r);
      }
      hide Climbing, SameRows;
      assert Climbing(rs[1..]) && Climbing(qs[1..]) by { TailClimbs(rs); TailClimbs(qs); }
      assert SameRows(rs[1..], qs[1..]) by { SameRowsBy(rs[1..], qs[1..]); }
      ClimbingUnique(rs[1..], qs[1..]);
      assert rs == [rs[0]] + rs[1..] && qs == [qs[0]] + qs[1..];
    } else if rs != [] {
      SomeRow(rs, qs);
    } else if qs != [] {
      SomeRow(qs, rs);
    }
  }

  lemma SomeRow(rs: seq<Receipt>, qs: seq<Receipt>)
    requires rs != [] && SameRows(rs, qs)
    ensures qs != []
  {
    assert rs[0] in rs;
  }

  lemma SameRowsBy(rs: seq<Receipt>, qs: seq<Receipt>)
    requires forall r :: r in rs <==> r in qs
    ensures SameRows(rs, qs)
  {
  }

  lemma TailClimbs(rs: seq<Receipt>)
    requires rs != [] && Climbing(rs)
    ensures Climbing(rs[1..])
  {
  }

  lemma HeadsAgree(rs: seq<Receipt>, qs: seq<Receipt>)
    requires rs != [] && qs != [] && Climbing(rs) && Climbing(qs) && SameRows(rs, qs)
    ensures rs[0] == qs[0]
  {
    assert rs[0] in rs && qs[0] in qs;
    var i :| 0 <= i < |qs| && qs[i] == rs[0];
    var j :| 0 <= j < |rs| && rs[j] == qs[0];
  }

  lemma TailRow(rs: seq<Receipt>, r: Receipt)
    requires rs != [] && Climbing(rs)
    ensures r in rs[1..] <==> r in rs && r != rs[0]
  {
  }

  lemma SortClimbs(rs: seq<Receipt>)
    requires OnePerRung(rs)
    ensures Climbing(Sort(ByRung, rs)) && SameRows(rs, Sort(ByRung, rs)) && |Sort(ByRung, rs)| == |rs|
  {
    var q := Sort(ByRung, rs);
    SortAscends(ByRung, rs);
    assert multiset(q) == multiset(rs);
    hide Sort;
    forall r ensures r in rs <==> r in q {
      assert r in multiset(rs) <==> r in rs;
      assert r in multiset(q) <==> r in q;
    }
    forall i, j | 0 <= i < j < |q| ensures q[i].rung < q[j].rung {
      assert ByRung(q[i], q[j]);
      if q[i].rung == q[j].rung { SameRungTwice(rs, q, i, j); }
    }
  }

  lemma {:induction false} OnceAt(rs: seq<Receipt>, rung: int)
    requires OnePerRung(rs)
    ensures |Filter(rs, rung)| <= 1
  {
    if rs != [] {
      OnceAt(rs[1..], rung);
      if rs[0].rung == rung { NoneOf(rs[1..], rung); }
    }
  }

  function Filter(rs: seq<Receipt>, rung: int): multiset<Receipt> {
    if rs == [] then multiset{}
    else Filter(rs[1..], rung) + (if rs[0].rung == rung then multiset{rs[0]} else multiset{})
  }

  lemma {:induction false} NoneOf(rs: seq<Receipt>, rung: int)
    requires forall i | 0 <= i < |rs| :: rs[i].rung != rung
    ensures Filter(rs, rung) == multiset{}
  {
    if rs != [] { NoneOf(rs[1..], rung); }
  }

  lemma {:induction false} FilterCounts(rs: seq<Receipt>, rung: int, r: Receipt)
    ensures Filter(rs, rung)[r] == if r.rung == rung then multiset(rs)[r] else 0
  {
    if rs != [] {
      FilterCounts(rs[1..], rung, r);
      assert rs == [rs[0]] + rs[1..];
    }
  }

  lemma {:induction false} TwiceAt(q: seq<Receipt>, i: nat, j: nat)
    requires i < j < |q| && q[i].rung == q[j].rung
    ensures |Filter(q, q[i].rung)| >= 2
  {
    if i > 0 {
      TwiceAt(q[1..], i - 1, j - 1);
    } else {
      OnceMore(q[1..], j - 1);
    }
  }

  lemma {:induction false} OnceMore(q: seq<Receipt>, j: nat)
    requires j < |q|
    ensures |Filter(q, q[j].rung)| >= 1
  {
    if j > 0 { OnceMore(q[1..], j - 1); }
  }

  lemma SameRungTwice(rs: seq<Receipt>, q: seq<Receipt>, i: nat, j: nat)
    requires OnePerRung(rs) && multiset(q) == multiset(rs) && i < j < |q|
    ensures q[i].rung != q[j].rung
  {
    if q[i].rung == q[j].rung {
      SameFilter(rs, q, q[i].rung);
      OnceAt(rs, q[i].rung);
      TwiceAt(q, i, j);
    }
  }

  lemma SameFilter(rs: seq<Receipt>, q: seq<Receipt>, rung: int)
    requires multiset(q) == multiset(rs)
    ensures Filter(rs, rung) == Filter(q, rung)
  {
    forall r ensures Filter(rs, rung)[r] == Filter(q, rung)[r] {
      FilterCounts(rs, rung, r);
      FilterCounts(q, rung, r);
    }
  }

  /** The order rows come back in does not matter: a summary is of the rows. */
  lemma SummaryIsOfTheRows(rs: seq<Receipt>, qs: seq<Receipt>)
    requires OnePerRung(rs) && OnePerRung(qs) && SameRows(rs, qs)
    ensures Summarized(rs) == Summarized(qs)
  {
    SortClimbs(rs);
    SortClimbs(qs);
    ClimbingUnique(Sort(ByRung, rs), Sort(ByRung, qs));
  }
}

/** What receipts say of a ladder that is gone: internal/webapi/api.go. */
module LadderReceipts {
  import opened Brain
  import opened Climbing
  import opened Receipts
  import Sorting

  /** The receipt one approved rung leaves. */
  function ReceiptFor(l: Ladder, questionId: string, sid: string, at: int, s: Stage): Receipt
    requires s.rung < |l.rungs|
  {
    var r := l.rungs[s.rung];
    Receipt(questionId, l.question.text, r.index, sid, r.technique, r.model.name, r.cost, s.spent, l.question.budget,
            at)
  }

  ghost predicate InLadder(l: Ladder, stages: seq<Stage>) {
    forall i | 0 <= i < |stages| :: stages[i].rung < |l.rungs|
  }

  /** The rows whose write landed; the write is best effort. */
  function Landed(l: Ladder, questionId: string, sids: nat -> string, at: nat -> int, stages: seq<Stage>,
                  landed: nat -> bool): seq<Receipt>
    requires InLadder(l, stages)
  {
    if stages == [] then []
    else
      var s := stages[|stages| - 1];
      assert InLadder(l, stages[..|stages| - 1]);
      Landed(l, questionId, sids, at, stages[..|stages| - 1], landed)
      + (if landed(s.rung) then [ReceiptFor(l, questionId, sids(s.rung), at(s.rung), s)] else [])
  }

  /** Stages of one climb: consecutive rungs from 0, and a spend that never falls. */
  ghost predicate Steps(l: Ladder, stages: seq<Stage>) {
    && InLadder(l, stages) && WellIndexed(l.rungs)
    && (forall i | 0 <= i < |stages| :: stages[i].rung == i && stages[i].spent >= 0.0)
    && (forall i, j | 0 <= i <= j < |stages| :: stages[i].spent <= stages[j].spent)
  }

  /** The rows are those of the landed stages, in order. */
  ghost predicate RowsOf(l: Ladder, stages: seq<Stage>, landed: nat -> bool, rows: seq<Receipt>) {
    && (forall i | 0 <= i < |rows| ::
          0 <= rows[i].rung < |stages| && rows[i].spent == stages[rows[i].rung].spent
          && rows[i].budget == l.question.budget && landed(rows[i].rung))
    && Receipts.Climbing(rows)
    && (forall k | 0 <= k < |stages| && landed(k) :: exists i :: 0 <= i < |rows| && rows[i].rung == k)
    && ((forall k | 0 <= k < |stages| :: landed(k)) ==> |rows| == |stages|)
  }

  lemma {:induction false} LandedRows(l: Ladder, questionId: string, sids: nat -> string, at: nat -> int,
                                      stages: seq<Stage>, landed: nat -> bool)
    requires Steps(l, stages)
    ensures RowsOf(l, stages, landed, Landed(l, questionId, sids, at, stages, landed))
  {
    if stages != [] {
      var head, n := stages[..|stages| - 1], |stages| - 1;
      assert forall i | 0 <= i < n :: head[i] == stages[i];
      LandedRows(l, questionId, sids, at, head, landed);
      var before := Landed(l, questionId, sids, at, head, landed);
      var last := ReceiptFor(l, questionId, sids(n), at(n), stages[n]);
      assert Landed(l, questionId, sids, at, stages, landed) == before + (if landed(n) then [last] else []);
      hide Landed, Steps, WellIndexed;
      RowsSnoc(l, stages, landed, before, last);
    }
  }

  lemma RowsSnoc(l: Ladder, stages: seq<Stage>, landed: nat -> bool, before: seq<Receipt>, last: Receipt)
    requires stages != [] && RowsOf(l, stages[..|stages| - 1], landed, before)
    requires last.rung == |stages| - 1 && last.spent == stages[|stages| - 1].spent && last.budget == l.question.budget
    ensures RowsOf(l, stages, landed, before + (if landed(|stages| - 1) then [last] else []))
  {
    var head, n := stages[..|stages| - 1], |stages| - 1;
    var rows := before + (if landed(n) then [last] else []);
    assert forall i | 0 <= i < n :: head[i] == stages[i];
    assert forall i | 0 <= i < |before| :: rows[i] == before[i];
    forall k | 0 <= k < |stages| && landed(k) ensures exists i :: 0 <= i < |rows| && rows[i].rung == k {
      if k < n {
        var i :| 0 <= i < |before| && before[i].rung == k;
        assert rows[i].rung == k;
      } else {
        assert rows[|before|].rung == n;
      }
    }
    assert Receipts.Climbing(rows) by {
      forall i, j | 0 <= i < j < |rows| ensures rows[i].rung < rows[j].rung {
        if j < |before| { assert before[i].rung < before[j].rung; }
      }
    }
  }

  lemma {:induction false} FoldSpent(init: Summary, rs: seq<Receipt>)
    ensures var out := FoldAll(init, rs);
            && out.rungsRun == init.rungsRun && out.rungs == init.rungs
            && out.spent >= init.spent && (forall i | 0 <= i < |rs| :: out.spent >= rs[i].spent)
            && (out.spent == init.spent || exists i :: 0 <= i < |rs| && out.spent == rs[i].spent)
            && (rs != [] && (forall i | 0 <= i < |rs| :: rs[i].budget == rs[0].budget) ==>
                  out.budget == (if rs[0].budget > 0.0 then rs[0].budget else init.budget))
  {
    if rs != [] {
      var head, last := rs[..|rs| - 1], rs[|rs| - 1];
      FoldSpent(init, head);
      var before, out := FoldAll(init, head), FoldAll(init, rs);
      assert forall i | 0 <= i < |head| :: head[i] == rs[i];
      if out.spent != init.spent {
        if out.spent == before.spent {
          var i :| 0 <= i < |head| && before.spent == head[i].spent;
          assert out.spent == rs[i].spent;
        } else {
          assert out.spent == rs[|rs| - 1].spent;
        }
      }
    }
  }

  /** Sorting rows that already climb changes nothing. */
  lemma ClimbingIsSorted(rs: seq<Receipt>)
    requires Receipts.Climbing(rs)
    ensures Sorting.Sort(ByRung, rs) == rs
  {
    hide Sorting.Sort;
    assert Sorting.Ascending(ByRung, rs);
    Sorting.SortedStays(ByRung, rs);
  }

  /** A budget that is not positive is not taken over. */
  function Positive(budget: real): real { if budget > 0.0 then budget else 0.0 }

  /** What the summary says of the ladder it came from. */
  ghost predicate Agrees(l: Ladder, run: Run, landed: nat -> bool, s: Summary) {
    var n := |run.stages|;
    && s.spent <= run.ladder.spent
    && (n > 0 && landed(n - 1) ==> s.spent == run.ladder.spent)
    && ((forall k | 0 <= k < n :: landed(k)) ==>
          s.rungsRun == run.ladder.cursor && (n > 0 ==> s.budget == Positive(l.question.budget)))
  }

  /** For a fresh question with non-negative costs, whatever receipt writes are lost: the summary's
      spend never exceeds the ladder's, and equals it when the latest write landed; with none lost
      the rungs run are the cursor and the budget matches, unless it is not positive. */
  lemma SummaryAgreesWithLadder(l: Ladder, go: nat -> bool, outcome: nat -> Outcome, questionId: string,
                                sids: nat -> string, at: nat -> int, landed: nat -> bool)
    requires l.cursor == 0 && l.spent == 0.0 && WellIndexed(l.rungs)
    requires forall i | 0 <= i < |l.rungs| :: l.rungs[i].cost >= 0.0
    ensures var run := RunOf(l, go, outcome);
            InLadder(l, run.stages) &&
            Agrees(l, run, landed, Summarized(Landed(l, questionId, sids, at, run.stages, landed)))
  {
    ClimbSteps(l, go, outcome);
    hide RunOf, Landed, Summarized, Steps;
    RowsSummary(l, questionId, sids, at, RunOf(l, go, outcome).stages, landed);
  }

  lemma RowsSummary(l: Ladder, questionId: string, sids: nat -> string, at: nat -> int, stages: seq<Stage>,
                    landed: nat -> bool)
    requires Steps(l, stages)
    ensures InLadder(l, stages)
    ensures var n := |stages|;
            var spent := if n == 0 then 0.0 else stages[n - 1].spent;
            var s := Summarized(Landed(l, questionId, sids, at, stages, landed));
            && s.spent <= spent
            && (n > 0 && landed(n - 1) ==> s.spent == spent)
            && ((forall k | 0 <= k < n :: landed(k)) ==>
                  s.rungsRun == n && (n > 0 ==> s.budget == Positive(l.question.budget)))
  {
    hide Landed, Sorting.Sort, FoldAll, Receipts.Climbing;
    var rows := Landed(l, questionId, sids, at, stages, landed);
    LandedRows(l, questionId, sids, at, stages, landed);
    ClimbingIsSorted(rows);
    FoldAgrees(rows, seq(|stages|, i requires 0 <= i < |stages| => stages[i].spent), l.question.budget);
  }

  lemma FoldAgrees(rows: seq<Receipt>, spends: seq<real>, budget: real)
    requires forall i | 0 <= i < |rows| ::
               0 <= rows[i].rung < |spends| && rows[i].spent == spends[rows[i].rung] && rows[i].budget == budget
    requires forall i | 0 <= i < |spends| :: 0.0 <= spends[i] <= spends[|spends| - 1]
    ensures var s := FoldAll(Summary("", "", 0.0, 0.0, |rows|, rows), rows);
            && s.rungsRun == |rows| && (rows != [] ==> s.budget == Positive(budget))
            && s.spent <= (if spends == [] then 0.0 else spends[|spends| - 1])
            && ((exists i :: 0 <= i < |rows| && rows[i].rung == |spends| - 1) ==> s.spent == spends[|spends| - 1])
  {
    hide FoldAll;
    var init := Summary("", "", 0.0, 0.0, |rows|, rows);
    FoldSpent(init, rows);
    var s := FoldAll(init, rows);
    var top := if spends == [] then 0.0 else spends[|spends| - 1];
    if s.spent != 0.0 {
      var i :| 0 <= i < |rows| && s.spent == rows[i].spent;
      assert spends[rows[i].rung] <= top;
    } else if spends != [] {
      assert spends[|spends| - 1] >= 0.0;
    }
    assert s.spent <= top;
    if exists i :: 0 <= i < |rows| && rows[i].rung == |spends| - 1 {
      var i :| 0 <= i < |rows| && rows[i].rung == |spends| - 1;
      assert s.spent >= rows[i].spent == top;
    }
  }

  // ---------------------------------------------------------------- what the summary lists

  /** The line is the rung's own: what was asked, who ran it and what it cost, and the spend up to it. */
  ghost predicate LineIs(l: Ladder, questionId: string, sids: nat -> string, at: nat -> int, stages: seq<Stage>,
                         r: Receipt) {
    && 0 <= r.rung < |stages| && r.rung < |l.rungs|
    && r.questionId == questionId && r.questionText == l.question.text
    && r.sessionId == sids(r.rung) && r.at == at(r.rung)
    && r.technique == l.rungs[r.rung].technique && r.model == l.rungs[r.rung].model.name
    && r.cost == l.rungs[r.rung].cost && r.spent == stages[r.rung].spent && r.budget == l.question.budget
  }

  function CostSum(rs: seq<Receipt>): real {
    if rs == [] then 0.0 else CostSum(rs[..|rs| - 1]) + rs[|rs| - 1].cost
  }

  /** The summary lists each landed rung once and in order, under the question they share; with none lost what the
      lines cost adds up to the ladder's spend. */
  ghost predicate Itemizes(l: Ladder, stages: seq<Stage>, spent: real, questionId: string, sids: nat -> string,
                           at: nat -> int, landed: nat -> bool, s: Summary) {
    var n := |stages|;
    && |s.rungs| == s.rungsRun && Receipts.Climbing(s.rungs)
    && (forall i | 0 <= i < |s.rungs| :: LineIs(l, questionId, sids, at, stages, s.rungs[i])
                                         && landed(s.rungs[i].rung))
    && (forall k | 0 <= k < n && landed(k) :: exists i :: 0 <= i < |s.rungs| && s.rungs[i].rung == k)
    && (if s.rungs == [] then s.questionId == s.questionText == ""
        else s.questionId == questionId && s.questionText == l.question.text)
    && ((forall k | 0 <= k < n :: landed(k)) ==> CostSum(s.rungs) == spent)
  }

  lemma SummaryItemizes(l: Ladder, go: nat -> bool, outcome: nat -> Outcome, questionId: string,
                        sids: nat -> string, at: nat -> int, landed: nat -> bool)
    requires l.cursor == 0 && l.spent == 0.0 && WellIndexed(l.rungs)
    requires forall i | 0 <= i < |l.rungs| :: l.rungs[i].cost >= 0.0
    ensures var run := RunOf(l, go, outcome);
            InLadder(l, run.stages) &&
            Itemizes(l, run.stages, run.ladder.spent, questionId, sids, at, landed,
                     Summarized(Landed(l, questionId, sids, at, run.stages, landed)))
  {
    ClimbSteps(l, go, outcome);
    ClimbIsInOrder(l, go, outcome);
    hide RunOf, Landed, Summarized, Steps, LineIs;
    RowsItemize(l, RunOf(l, go, outcome).stages, questionId, sids, at, landed);
  }

  lemma RowsItemize(l: Ladder, stages: seq<Stage>, questionId: string, sids: nat -> string, at: nat -> int,
                    landed: nat -> bool)
    requires Steps(l, stages) && |stages| <= |l.rungs|
    ensures InLadder(l, stages)
    ensures Itemizes(l, stages, CostOf(l.rungs, 0, |stages|), questionId, sids, at, landed,
                     Summarized(Landed(l, questionId, sids, at, stages, landed)))
  {
    hide Landed, LineIs, CostSum, CostOf, FoldAll, Sorting.Sort, Receipts.Climbing;
    var rows := Landed(l, questionId, sids, at, stages, landed);
    var init := Summary("", "", 0.0, 0.0, |rows|, rows);
    LandedRows(l, questionId, sids, at, stages, landed);
    LandedAre(l, questionId, sids, at, stages, landed);
    ClimbingIsSorted(rows);
    FoldSpent(init, rows);
    SameQuestion(l, questionId, sids, at, stages, rows);
    FoldQuestion(init, rows, questionId, l.question.text);
    if forall k | 0 <= k < |stages| :: landed(k) { LandedCosts(l, questionId, sids, at, stages, landed); }
    hide Steps;
    assert forall i | 0 <= i < |rows| :: rows[i] in rows;
  }

  lemma SameQuestion(l: Ladder, questionId: string, sids: nat -> string, at: nat -> int, stages: seq<Stage>,
                     rows: seq<Receipt>)
    requires forall r | r in rows :: LineIs(l, questionId, sids, at, stages, r)
    ensures forall r | r in rows :: r.questionId == questionId && r.questionText == l.question.text
  {
  }

  lemma {:induction false} LandedAre(l: Ladder, questionId: string, sids: nat -> string, at: nat -> int,
                                     stages: seq<Stage>, landed: nat -> bool)
    requires Steps(l, stages)
    ensures forall r | r in Landed(l, questionId, sids, at, stages, landed) ::
              LineIs(l, questionId, sids, at, stages, r)
  {
    if stages != [] {
      var head, n := stages[..|stages| - 1], |stages| - 1;
      assert forall i | 0 <= i < n :: head[i] == stages[i];
      LandedAre(l, questionId, sids, at, head, landed);
      assert LineIs(l, questionId, sids, at, stages, ReceiptFor(l, questionId, sids(n), at(n), stages[n]));
      forall r | LineIs(l, questionId, sids, at, head, r) ensures LineIs(l, questionId, sids, at, stages, r) {
      }
    }
  }

  lemma {:induction false} FoldQuestion(init: Summary, rs: seq<Receipt>, questionId: string, text: string)
    requires init.questionId == init.questionText == ""
    requires forall r | r in rs :: r.questionId == questionId && r.questionText == text
    ensures var out := FoldAll(init, rs);
            if rs == [] then out.questionId == out.questionText == ""
            else out.questionId == questionId && out.questionText == text
  {
    if rs != [] { FoldQuestion(init, rs[..|rs| - 1], questionId, text); }
  }

  lemma {:induction false} LandedCosts(l: Ladder, questionId: string, sids: nat -> string, at: nat -> int,
                                       stages: seq<Stage>, landed: nat -> bool)
    requires Steps(l, stages) && |stages| <= |l.rungs| && forall k | 0 <= k < |stages| :: landed(k)
    ensures CostSum(Landed(l, questionId, sids, at, stages, landed)) == CostOf(l.rungs, 0, |stages|)
  {
    if stages != [] {
      var head, n := stages[..|stages| - 1], |stages| - 1;
      assert forall i | 0 <= i < n :: head[i] == stages[i];
      LandedCosts(l, questionId, sids, at, head, landed);
      var before := Landed(l, questionId, sids, at, head, landed);
      var last := ReceiptFor(l, questionId, sids(n), at(n), stages[n]);
      assert (before + [last])[..|before|] == before;
      CostSnoc(l.rungs, 0, n);
    }
  }

  /** A climb's stages are consecutive rungs, with a spend that never falls. */
  lemma ClimbSteps(l: Ladder, go: nat -> bool, outcome: nat -> Outcome)
    requires l.cursor == 0 && l.spent == 0.0 && WellIndexed(l.rungs)
    requires forall i | 0 <= i < |l.rungs| :: l.rungs[i].cost >= 0.0
    ensures var run := RunOf(l, go, outcome); var n := |run.stages|;
            && InLadder(l, run.stages) && Steps(l, run.stages) && run.ladder.cursor == n
            && run.ladder.spent == (if n == 0 then 0.0 else run.stages[n - 1].spent)
  {
    ClimbIsInOrder(l, go, outcome);
    var run := RunOf(l, go, outcome);
    hide RunOf, CostOf;
    forall i: nat | i < |run.stages|
      ensures run.stages[i].rung == i && run.stages[i].spent == CostOf(l.rungs, 0, i + 1)
    {
      assert StageInOrder(l, go, outcome, run.stages, i);
    }
    StepsFromCosts(l, run.stages);
    assert run.stages == [] ==> CostOf(l.rungs, 0, 0) == 0.0 by { NoCost(l.rungs); }
  }

  lemma NoCost(rungs: seq<Rung>)
    ensures CostOf(rungs, 0, 0) == 0.0
  {
  }

  lemma StepsFromCosts(l: Ladder, stages: seq<Stage>)
    requires |stages| <= |l.rungs| && WellIndexed(l.rungs) && forall i | 0 <= i < |l.rungs| :: l.rungs[i].cost >= 0.0
    requires forall i | 0 <= i < |stages| :: stages[i].rung == i && stages[i].spent == CostOf(l.rungs, 0, i + 1)
    ensures InLadder(l, stages) && Steps(l, stages)
  {
    hide CostOf;
    forall i, j | 0 <= i <= j < |stages| ensures 0.0 <= stages[i].spent <= stages[j].spent {
      CostGrows(l.rungs, i + 1, j + 1);
    }
  }

  lemma {:induction false} CostGrows(rungs: seq<Rung>, i: nat, j: nat)
    requires i <= j <= |rungs| && forall k | 0 <= k < |rungs| :: rungs[k].cost >= 0.0
    ensures 0.0 <= CostOf(rungs, 0, i) <= CostOf(rungs, 0, j)
    decreases j
  {
    if i < j {
      CostGrows(rungs, i, j - 1);
      CostSnoc(rungs, 0, j - 1);
    } else if i > 0 {
      CostGrows(rungs, i - 1, i - 1);
      CostSnoc(rungs, 0, i - 1);
    }
  }
}

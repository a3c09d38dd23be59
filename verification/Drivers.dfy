/** The command line's loop over the ladder: cmd/foray/main.go. */
module Cli {
  import opened Text
  import opened Brain
  import opened Climbing

  /** What the human, the policy and the tools do about the rung of each index. An Execute that errs
      has launched nothing; a Stop or Terminate that errs has stopped or terminated nothing. */
  datatype Env = Env(go: nat -> bool, permit: Rung -> bool, execute: nat -> bool, serve: nat -> bool, put: nat -> bool,
                     trace: nat -> bool, stop: nat -> bool, terminate: nat -> bool, interpret: nat -> Option<bool>)

  /** What comes of a rung on this driver. */
  function OutcomeOn(env: Env, rungs: seq<Rung>): nat -> Outcome {
    (k: nat) =>
      if k >= |rungs| || !env.permit(rungs[k]) || !env.execute(k) then NotLaunched
      else if !env.serve(k) || !env.put(k) || !env.trace(k) || env.interpret(k) == None then NoResult
      else Found(env.interpret(k).value)
  }

  function GoOn(env: Env, yes: bool): nat -> bool { (k: nat) => yes || env.go(k) }

  /** What a rung can leave behind: its instance, or its tunnel. */
  datatype Leftover = Instance(keep: bool) | Tunnel

  /** The instance stays when it is kept or its termination fails; the tunnel when its registration
      fails after it was opened, or its stop fails. */
  predicate IsLeft(env: Env, what: Leftover, k: nat) {
    match what
    case Instance(keep) => keep || !env.terminate(k)
    case Tunnel => env.serve(k) && (!env.put(k) || !env.stop(k))
  }

  /** What happens to a session's tunnel and instance. */
  datatype Event = Opened(sid: nat) | Closed(sid: nat) | Terminated(sid: nat)

  /** One rung's events: the tunnel opens and closes inside the instance's life, whatever fails. */
  function RungEvents(env: Env, keep: bool, sid: nat, k: nat): seq<Event> {
    (if env.serve(k) then [Opened(sid)] else [])
    + (if env.serve(k) && env.put(k) && env.stop(k) then [Closed(sid)] else [])
    + (if !keep && env.terminate(k) then [Terminated(sid)] else [])
  }

  /** The events of the `n` launches from rung `k` on, whose ids start at `base`. */
  function EventsOf(env: Env, keep: bool, base: nat, k: nat, n: nat): seq<Event> {
    if n == 0 then [] else EventsOf(env, keep, base, k, n - 1) + RungEvents(env, keep, base + n - 1, k + n - 1)
  }

  /** A session's tunnel opens before it closes, and nothing befalls a session once its instance is terminated. */
  ghost predicate InsideTheInstance(events: seq<Event>) {
    && (forall i, j | 0 <= i < j < |events| :: events[i].Closed? ==> events[j] != Opened(events[i].sid))
    && (forall i, j | 0 <= i < j < |events| :: events[i].Terminated? ==> events[j].sid != events[i].sid)
    && (forall i | 0 <= i < |events| && events[i].Closed? :: Opened(events[i].sid) in events[..i])
  }

  /** So whatever fails, on whichever rung, every tunnel is closed, if at all, before its instance is terminated. */
  lemma {:induction false} TunnelsCloseFirst(env: Env, keep: bool, base: nat, k: nat, n: nat)
    ensures var events := EventsOf(env, keep, base, k, n);
            InsideTheInstance(events) && forall e | e in events :: e.sid < base + n
  {
    hide InsideTheInstance, RungEvents;
    if n == 0 {
      NoEvents();
    } else {
      var before, rung := EventsOf(env, keep, base, k, n - 1), RungEvents(env, keep, base + n - 1, k + n - 1);
      TunnelsCloseFirst(env, keep, base, k, n - 1);
      RungInside(env, keep, base + n - 1, k + n - 1);
      InsideJoin(before, rung, base + n - 1);
    }
  }

  lemma NoEvents()
    ensures InsideTheInstance([])
  {
  }

  lemma RungInside(env: Env, keep: bool, sid: nat, k: nat)
    ensures InsideTheInstance(RungEvents(env, keep, sid, k))
    ensures forall e | e in RungEvents(env, keep, sid, k) :: e.sid == sid
  {
    var events := RungEvents(env, keep, sid, k);
    if env.serve(k) { assert events[0] == Opened(sid); }
  }

  lemma InsideJoin(before: seq<Event>, rung: seq<Event>, sid: nat)
    requires InsideTheInstance(before) && InsideTheInstance(rung)
    requires (forall e | e in before :: e.sid < sid) && forall e | e in rung :: e.sid == sid
    ensures InsideTheInstance(before + rung)
  {
    var all := before + rung;
    forall i | 0 <= i < |all| ensures if i < |before| then all[i].sid < sid else all[i].sid == sid {
      assert i < |before| ==> all[i] in before;
      assert i >= |before| ==> all[i] in rung;
    }
    forall i | 0 <= i < |all| && all[i].Closed? ensures Opened(all[i].sid) in all[..i] {
      if i < |before| {
        assert all[..i] == before[..i];
      } else {
        assert all[..i] == before + rung[..i - |before|];
      }
    }
  }

  /** The ids, from `base` on, of the `n` launches from rung `k` on that leave it behind. */
  function LeftBy(env: Env, what: Leftover, base: nat, k: nat, n: nat): set<nat> {
    if n == 0 then {}
    else LeftBy(env, what, base, k, n - 1) + (if IsLeft(env, what, k + n - 1) then {base + n - 1} else {})
  }

  /** The launches have left exactly that behind, beside what was there at the start. */
  ghost predicate Leaves(env: Env, what: Leftover, base: nat, k: nat, n: nat, start: set<nat>, now: set<nat>) {
    now == start + LeftBy(env, what, base, k, n)
  }

  /** Exactly the launches' events have happened since. */
  ghost predicate Happened(env: Env, keep: bool, base: nat, k: nat, n: nat, start: seq<Event>, now: seq<Event>) {
    now == start + EventsOf(env, keep, base, k, n)
  }

  class Loop {
    const env: Env
    const keep: bool
    const yes: bool

    var ladder: Ladder
    /** Running instances, open tunnels, and the first id not given out yet. */
    var running: set<nat>
    var tunnels: set<nat>
    var next: nat
    /** The current session's tunnel, held between register and close. */
    var svc: Option<nat>
    var stages: seq<Stage>
    var events: seq<Event>

    constructor (env: Env, keep: bool, yes: bool, ladder: Ladder)
      ensures this.env == env && this.keep == keep && this.yes == yes && this.ladder == ladder
      ensures running == {} && tunnels == {} && svc == None && stages == [] && events == []
    {
      this.env, this.keep, this.yes, this.ladder := env, keep, yes, ladder;
      running, tunnels, next, svc, stages, events := {}, {}, 0, None, [], [];
    }

    ghost predicate Valid()
      reads this
    {
      (forall x | x in running :: x < next) && (forall x | x in tunnels :: x < next)
    }

    /** Policy, then launch, then the booking: the only place a rung starts. */
    method Approve(r: Rung, k: nat) returns (sid: Option<nat>)
      modifies this`ladder, this`running, this`next
      ensures sid.Some? <==> env.permit(r) && env.execute(k)
      ensures sid.Some? ==> sid.value == old(next) && next == old(next) + 1
                            && running == old(running) + {sid.value} && ladder == Booked(old(ladder), r)
      ensures sid == None ==> running == old(running) && ladder == old(ladder) && next == old(next)
    {
      if !env.permit(r) { return None; }
      if !env.execute(k) { return None; }
      sid := Some(next);
      running := running + {next};
      next := next + 1;
      ladder := ladder.(cursor := ladder.cursor + 1);
      ladder := ladder.(spent := ladder.spent + r.cost);
    }

    method Register(sid: nat, k: nat) returns (ok: bool)
      modifies this`tunnels, this`svc, this`events
      ensures events == old(events) + (if env.serve(k) then [Opened(sid)] else [])
      ensures ok <==> env.serve(k) && env.put(k)
      ensures env.serve(k) ==> svc == Some(sid) && tunnels == old(tunnels) + {sid}
      ensures !env.serve(k) ==> svc == old(svc) && tunnels == old(tunnels)
    {
      if !env.serve(k) { return false; }
      tunnels := tunnels + {sid};
      events := events + [Opened(sid)];
      svc := Some(sid);
      return env.put(k);
    }

    method Close(k: nat)
      modifies this`tunnels, this`svc, this`events
      ensures events == old(events) + (if old(svc).Some? && env.stop(k) then [Closed(old(svc).value)] else [])
      ensures svc == None
      ensures tunnels == if old(svc).Some? && env.stop(k) then old(tunnels) - {old(svc).value} else old(tunnels)
    {
      if svc == None { return; }
      if env.stop(k) {
        tunnels := tunnels - {svc.value};
        events := events + [Closed(svc.value)];
      }
      svc := None;
    }

    method Reap(sid: nat, k: nat)
      modifies this`running, this`events
      ensures events == old(events) + (if !keep && env.terminate(k) then [Terminated(sid)] else [])
      ensures running == if IsLeft(env, Instance(keep), k) then old(running) else old(running) - {sid}
    {
      if keep { return; }
      if env.terminate(k) {
        running := running - {sid};
        events := events + [Terminated(sid)];
      }
    }

    /** One approved rung's work. The instance is reaped on every way out, after the tunnel is closed;
        the close is only armed once registration has succeeded. */
    method RunRung(sid: nat, k: nat) returns (ok: bool)
      requires sid !in tunnels
      modifies this`tunnels, this`svc, this`running, this`events
      ensures events == old(events) + RungEvents(env, keep, sid, k)
      ensures ok <==> env.serve(k) && env.put(k) && env.trace(k)
      ensures running == if IsLeft(env, Instance(keep), k) then old(running) else old(running) - {sid}
      ensures tunnels == if IsLeft(env, Tunnel, k) then old(tunnels) + {sid} else old(tunnels)
    {
      var registered := Register(sid, k);
      if !registered {
        Reap(sid, k);
        return false;
      }
      ok := env.trace(k);
      Close(k);
      Reap(sid, k);
    }

    /** One approved rung, from its Go to the recommendation; None to climb on. */
    method RunOne(k: nat) returns (end: Option<End>)
      requires Valid() && k < |ladder.rungs| && ladder.rungs[k].index == k
      modifies this
      ensures Valid() && ladder.rungs == old(ladder).rungs
      ensures OutcomeOn(env, ladder.rungs)(k) == NotLaunched ==>
                && end == Some(Denied) && ladder == old(ladder) && stages == old(stages)
                && next == old(next) && running == old(running) && tunnels == old(tunnels) && events == old(events)
      ensures OutcomeOn(env, ladder.rungs)(k) != NotLaunched ==>
                && ladder == Booked(old(ladder), ladder.rungs[k]) && ladder.cursor == old(ladder).cursor + 1
                && stages == old(stages) + [StageAt(ladder, k, OutcomeOn(env, ladder.rungs)(k))]
                && next == old(next) + 1 && events == old(events) + RungEvents(env, keep, old(next), k)
                && running == old(running) + (if IsLeft(env, Instance(keep), k) then {old(next)} else {})
                && tunnels == old(tunnels) + (if IsLeft(env, Tunnel, k) then {old(next)} else {})
                && end == (if OutcomeOn(env, ladder.rungs)(k) == NoResult then Some(Broken)
                           else if stages[|stages| - 1].advice != Some(Advice.Climb) then Some(Finished)
                           else None)
    {
      var r := ladder.rungs[k];
      var sid := Approve(r, r.index);
      if sid == None { return Some(Denied); }
      var ok := RunRung(sid.value, r.index);
      if !ok || env.interpret(r.index) == None {
        stages := stages + [Stage(r.index, ladder.cursor, ladder.spent, None)];
        return Some(Broken);
      }
      var advice := Assess(ladder, r.index, env.interpret(r.index).value);
      stages := stages + [Stage(r.index, ladder.cursor, ladder.spent, Some(advice))];
      return if advice != Advice.Climb then Some(Finished) else None;
    }

    /** Propose, Go, launch, trace, interpret, assess, and climb only on a fresh Go. */
    method RunLoop() returns (end: End)
      requires Valid() && WellIndexed(ladder.rungs) && stages == []
      modifies this
      ensures Run(stages, ladder, end) == RunOf(old(ladder), GoOn(env, yes), OutcomeOn(env, ladder.rungs))
      ensures Leaves(env, Instance(keep), old(next), old(ladder).cursor, |stages|, old(running), running)
      ensures Leaves(env, Tunnel, old(next), old(ladder).cursor, |stages|, old(tunnels), tunnels)
      ensures Happened(env, keep, old(next), old(ladder).cursor, |stages|, old(events), events)
      ensures Valid()
    {
      LeavesNone(env, Instance(keep), next, ladder.cursor, running);
      LeavesNone(env, Tunnel, next, ladder.cursor, tunnels);
      HappenedNone(env, keep, next, ladder.cursor, events);
      RestAtStart(ladder, GoOn(env, yes), OutcomeOn(env, ladder.rungs));
      hide Leaves, IsLeft, Loop.Valid, IsRest, RunOf, OutcomeOn, StageAt, Booked, Assess, Happened, RungEvents;
      var prop := NextProposal(ladder);
      ghost var whole := RunOf(ladder, GoOn(env, yes), OutcomeOn(env, ladder.rungs));
      ghost var first, rungs := ladder.cursor, ladder.rungs;
      while prop != -1
        invariant Valid() && WellIndexed(rungs) && ladder.rungs == rungs
        invariant prop == NextProposal(ladder) && ladder.cursor == first + |stages| && next == old(next) + |stages|
        invariant IsRest(whole, stages, RunOf(ladder, GoOn(env, yes), OutcomeOn(env, rungs)))
        invariant Leaves(env, Instance(keep), old(next), first, |stages|, old(running), running)
        invariant Leaves(env, Tunnel, old(next), first, |stages|, old(tunnels), tunnels)
        invariant Happened(env, keep, old(next), first, |stages|, old(events), events)
        decreases |rungs| - ladder.cursor
      {
        var r := ladder.rungs[prop];
        ghost var before, l := stages, ladder;
        RestStep(whole, stages, l, GoOn(env, yes), OutcomeOn(env, rungs));
        ghost var wasRunning, wasOpen, past := running, tunnels, events;
        if !(yes || env.go(r.index)) { return Declined; }
        var over := RunOne(prop);
        if |stages| > |before| {
          LeavesOneMore(env, Instance(keep), old(next), first, |before|, old(running), wasRunning, running);
          LeavesOneMore(env, Tunnel, old(next), first, |before|, old(tunnels), wasOpen, tunnels);
          HappenedOneMore(env, keep, old(next), first, |before|, old(events), past);
        }
        if over.Some? { return over.value; }
        prop := NextProposal(ladder);
      }
      RestAtTop(whole, stages, ladder, GoOn(env, yes), OutcomeOn(env, rungs));
      return Finished;
    }
  }

  lemma LeavesNone(env: Env, what: Leftover, base: nat, k: nat, start: set<nat>)
    ensures Leaves(env, what, base, k, 0, start, start)
  {
  }

  lemma HappenedNone(env: Env, keep: bool, base: nat, k: nat, start: seq<Event>)
    ensures Happened(env, keep, base, k, 0, start, start)
  {
  }

  lemma HappenedOneMore(env: Env, keep: bool, base: nat, k: nat, n: nat, start: seq<Event>, before: seq<Event>)
    requires Happened(env, keep, base, k, n, start, before)
    ensures Happened(env, keep, base, k, n + 1, start, before + RungEvents(env, keep, base + n, k + n))
  {
  }

  lemma LeavesOneMore(env: Env, what: Leftover, base: nat, k: nat, n: nat, start: set<nat>, before: set<nat>,
                      after: set<nat>)
    requires Leaves(env, what, base, k, n, start, before)
    requires after == before + (if IsLeft(env, what, k + n) then {base + n} else {})
    ensures Leaves(env, what, base, k, n + 1, start, after)
  {
  }

  // ---------------------------------------------------------------- what is left behind

  lemma {:induction false} NothingLeft(env: Env, what: Leftover, base: nat, k: nat, n: nat)
    ensures LeftBy(env, what, base, k, n) == {} <==> forall i | k <= i < k + n :: !IsLeft(env, what, i)
  {
    if n > 0 { NothingLeft(env, what, base, k, n - 1); }
  }

  /** At every exit: without --keep and with every Terminate succeeding no launched instance is left
      running, and only then; no tunnel is left open exactly when no launched rung's registration
      failed after its tunnel opened and no stop failed. */
  lemma CleanExit(env: Env, keep: bool, yes: bool, l: Ladder, base: nat)
    ensures var n := |RunOf(l, GoOn(env, yes), OutcomeOn(env, l.rungs)).stages|;
            && (LeftBy(env, Instance(keep), base, l.cursor, n) == {} <==>
                forall i | l.cursor <= i < l.cursor + n :: !keep && env.terminate(i))
            && (LeftBy(env, Tunnel, base, l.cursor, n) == {} <==>
                forall i | l.cursor <= i < l.cursor + n :: env.serve(i) ==> env.put(i) && env.stop(i))
  {
    var n := |RunOf(l, GoOn(env, yes), OutcomeOn(env, l.rungs)).stages|;
    NothingLeft(env, Instance(keep), base, l.cursor, n);
    NothingLeft(env, Tunnel, base, l.cursor, n);
    hide RunOf, LeftBy;
    forall i | l.cursor <= i < l.cursor + n
      ensures !IsLeft(env, Tunnel, i) <==> (env.serve(i) ==> env.put(i) && env.stop(i))
      ensures !IsLeft(env, Instance(keep), i) <==> !keep && env.terminate(i)
    {
    }
  }

  /** The leak is real: a registration the store refuses leaves the tunnel it had opened. */
  lemma PutFailureLeaks(env: Env, l: Ladder)
    requires |l.rungs| > 0 && l.cursor == 0 && env.go(0) && env.permit(l.rungs[0]) && env.execute(0) && env.serve(0)
             && !env.put(0)
    ensures var r := RunOf(l, GoOn(env, false), OutcomeOn(env, l.rungs));
            r.end == Broken && LeftBy(env, Tunnel, 0, 0, |r.stages|) == {0}
  {
    assert LeftBy(env, Tunnel, 0, 0, 1) == LeftBy(env, Tunnel, 0, 0, 0) + {0};
  }
}

/** The stateless handlers and the page that carries the ladder between them: internal/webapi/api.go
    and web/app.js. */
module WebApi {
  import opened Text
  import opened Brain
  import opened Climbing
  import Cli

  /** What the human, the policy, the tools and the worker do about the rung of each index; `pending`
      is how many polls still find no result. */
  datatype Env = Env(go: nat -> bool, permit: Rung -> bool, execute: nat -> bool, register: nat -> bool,
                     handOff: nat -> bool,
                     pending: nat -> nat, collect: nat -> bool, interpret: nat -> Option<bool>, patience: nat)

  datatype Reply =
    | BadRequest | Forbidden | BadGateway
    | Running(ladder: Ladder)
    | Over(ladder: Ladder, advice: Advice, next: int)

  /** One rung's Go: policy, launch and booking, then the session row and the graph. */
  function HandleApprove(env: Env, l: Ladder, index: int): Reply {
    if index < 0 || index >= |l.rungs| then BadRequest
    else if !env.permit(l.rungs[index]) || !env.execute(index) then Forbidden
    else if !env.register(index) || !env.handOff(index) then BadGateway
    else Running(Booked(l, l.rungs[index]))
  }

  /** The `polls`-th ask for a result. */
  function HandleResult(env: Env, l: Ladder, index: int, polls: nat): Reply {
    if index < 0 || index >= |l.rungs| then BadRequest
    else if polls < env.pending(index) then Running(l)
    else if !env.collect(index) || env.interpret(index) == None || l.rungs[index].index < 0 then BadGateway
    else
      var advice := Assess(l, l.rungs[index].index, env.interpret(index).value);
      Over(l, advice, if advice == Advice.Climb then NextProposal(l) else -1)
  }

  /** Asking changes nothing: whatever the answer, the ladder in it is the one that was sent; and a rung is only
      offered, the one at the cursor, where climbing is recommended and there is one. */
  lemma PollingChangesNothing(env: Env, l: Ladder, index: int, polls: nat)
    ensures var r := HandleResult(env, l, index, polls);
            && ((r.Running? || r.Over?) ==> r.ladder == l)
            && (r.Over? ==> r.next == if r.advice == Advice.Climb && l.cursor < |l.rungs| then l.cursor else -1)
  {
  }

  /** What an approve's answer tells: a bad request names no rung; forbidden, nothing was launched; a bad gateway, it
      was, and what it cost is not in the reply; and running, it was and is booked. */
  lemma ApproveTells(env: Env, l: Ladder, index: int)
    ensures var r := HandleApprove(env, l, index);
            && (r.BadRequest? <==> index < 0 || index >= |l.rungs|)
            && (0 <= index < |l.rungs| ==>
                  && (r.Forbidden? <==> OutcomeOn(env, l.rungs)(index) == NotLaunched)
                  && (r.BadGateway? <==> OutcomeOn(env, l.rungs)(index) != NotLaunched
                                         && OutcomeSeen(env, l.rungs)(index) == NotLaunched)
                  && (r.Running? <==> OutcomeSeen(env, l.rungs)(index) != NotLaunched)
                  && (r.Running? ==>
                        && r.ladder.question == l.question && r.ladder.rungs == l.rungs
                        && r.ladder.cursor == l.cursor + 1 && r.ladder.spent == l.spent + l.rungs[index].cost))
  {
  }

  /** What comes of a rung on this driver. */
  function OutcomeOn(env: Env, rungs: seq<Rung>): nat -> Outcome {
    (k: nat) =>
      if k >= |rungs| || !env.permit(rungs[k]) || !env.execute(k) then NotLaunched
      else if !env.register(k) || !env.handOff(k) then NoResult
      else if env.pending(k) > env.patience || !env.collect(k) || env.interpret(k) == None then NoResult
      else Found(env.interpret(k).value)
  }

  /** What the page sees of it: an approve that fails after its launch looks like one that launched
      nothing, and the ladder it had booked goes with the failed reply. */
  function OutcomeSeen(env: Env, rungs: seq<Rung>): nat -> Outcome {
    (k: nat) =>
      if k >= |rungs| || !env.permit(rungs[k]) || !env.execute(k) then NotLaunched
      else if !env.register(k) || !env.handOff(k) then NotLaunched
      else if env.pending(k) > env.patience || !env.collect(k) || env.interpret(k) == None then NoResult
      else Found(env.interpret(k).value)
  }

  /** The page sees what happened exactly when no approve fails after its launch. */
  lemma SeesWhatHappened(env: Env, rungs: seq<Rung>)
    ensures (forall k: nat :: OutcomeSeen(env, rungs)(k) == OutcomeOn(env, rungs)(k)) <==>
            (forall k: nat | k < |rungs| && env.permit(rungs[k]) && env.execute(k) :: env.register(k) && env.handOff(k))
  {
    if forall k: nat :: OutcomeSeen(env, rungs)(k) == OutcomeOn(env, rungs)(k) {
      forall k: nat | k < |rungs| && env.permit(rungs[k]) && env.execute(k) ensures env.register(k) && env.handOff(k) {
        assert OutcomeSeen(env, rungs)(k) == OutcomeOn(env, rungs)(k);
      }
    }
  }

  /** Polls until the result is there, giving up when out of patience. */
  method PollResult(env: Env, started: Ladder, index: nat) returns (r: Reply)
    requires index < |started.rungs| && started.rungs[index].index == index
    ensures r.Over? <==> env.pending(index) <= env.patience && env.collect(index) && env.interpret(index).Some?
    ensures r.Over? ==> r == HandleResult(env, started, index, env.pending(index))
  {
    var polls := 0;
    while true
      invariant polls <= env.pending(index) && polls <= env.patience
      decreases env.patience - polls
    {
      r := HandleResult(env, started, index, polls);
      if !r.Running? { return; }
      if polls >= env.patience { return BadGateway; }
      polls := polls + 1;
    }
    return;
  }

  /** The page: it carries the ladder, posts a Go for the rung it was given, polls, and offers the
      next rung only when one was returned. */
  method Page(env: Env, proposed: Ladder) returns (run: Run)
    requires WellIndexed(proposed.rungs) && proposed.cursor == 0 && |proposed.rungs| > 0
    ensures run == RunOf(proposed, env.go, OutcomeSeen(env, proposed.rungs))
  {
    var ladder := proposed;
    var stages: seq<Stage> := [];
    var rung := 0;
    ghost var outcome := OutcomeSeen(env, proposed.rungs);
    ghost var whole := RunOf(proposed, env.go, outcome);
    while true
      invariant 0 <= rung < |ladder.rungs| && ladder.rungs == proposed.rungs && ladder.cursor == rung
      invariant IsRest(whole, stages, RunOf(ladder, env.go, outcome))
      decreases |ladder.rungs| - rung
    {
      hide IsRest;
      RestStep(whole, stages, ladder, env.go, outcome);
      hide RunOf;
      if !env.go(rung) { return Run(stages, ladder, Declined); }
      var resp := HandleApprove(env, ladder, rung);
      if !resp.Running? { return Run(stages, ladder, Denied); }
      ladder := resp.ladder;
      resp := PollResult(env, ladder, rung);
      if !resp.Over? {
        return Run(stages + [Stage(rung, ladder.cursor, ladder.spent, None)], ladder, Broken);
      }
      ladder := resp.ladder;
      stages := stages + [Stage(rung, ladder.cursor, ladder.spent, Some(resp.advice))];
      if resp.advice != Advice.Climb || resp.next == -1 { return Run(stages, ladder, Finished); }
      rung := ladder.rungs[resp.next].index;
    }
  }

  /** When no approve fails after its launch, and the same answers and results befall both, the page
      runs exactly what the command line runs: the same rungs in the same order, with the same
      cursor, spend and recommendation at each stage. */
  lemma PageRefinesCli(web: Env, cli: Cli.Env, l: Ladder)
    requires forall k: nat | k < |l.rungs| && web.permit(l.rungs[k]) && web.execute(k) ::
               web.register(k) && web.handOff(k)
    requires forall k :: web.go(k) == cli.go(k)
    requires forall k :: cli.go(k) ==> OutcomeOn(web, l.rungs)(k) == Cli.OutcomeOn(cli, l.rungs)(k)
    ensures RunOf(l, web.go, OutcomeSeen(web, l.rungs)) == RunOf(l, Cli.GoOn(cli, false), Cli.OutcomeOn(cli, l.rungs))
  {
    SeesWhatHappened(web, l.rungs);
    SameOutcomesSameRun(l, web.go, OutcomeSeen(web, l.rungs), Cli.GoOn(cli, false), Cli.OutcomeOn(cli, l.rungs));
  }

  /** When one does, the page ends where it was while the rung runs, unbooked. */
  lemma LostApproveUnbooks(env: Env, l: Ladder)
    requires |l.rungs| > 0 && l.cursor == 0 && env.go(0) && env.permit(l.rungs[0]) && env.execute(0) && !env.handOff(0)
    ensures RunOf(l, env.go, OutcomeSeen(env, l.rungs)) == Run([], l, Denied)
    ensures RunOf(l, env.go, OutcomeOn(env, l.rungs)).ladder == Booked(l, l.rungs[0])
  {
  }
}

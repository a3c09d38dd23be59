/** The launch-time handoff between the control plane and the worker through the session's objects:
    internal/gateway/handoff.go and worker/batch.py, as interleaved steps over one shared state. */
module Handoff {
  import opened Text

  datatype Graph = Graph(engine: string, payload: string)

  /** Every refusal the worker raises says why. */
  type Reason = r: string | r != "" witness "?"

  /** What running a graph comes to: references, a refusal with its reason, or any other exception. */
  datatype Outcome =
    | Traced(saveRef: string, vizRef: string, nnsight: string)
    | Refused(reason: Reason)
    | Crashed(kind: string, message: string)

  /** The document the worker writes back; `error` is set instead of the references on a failure. */
  datatype Doc = Doc(saveRef: string, vizRef: string, nnsight: string, error: string)

  datatype Object = GraphObject(graph: Graph) | ResultObject(doc: Doc)

  /** Running a graph, and the size of a written document, are not part of the protocol. */
  datatype Env = Env(run: Graph -> Outcome, size: Doc -> nat)

  const GRAPH_WAIT := 120
  const GRAPH_POLL := 2

  /** How much of a result object is read. */
  const READ_CAP := 1048576

  /** An object of a session, by what it is rather than by its text. */
  datatype Key = GraphKey(id: string) | ResultKey(id: string)

  function KeyText(k: Key): string {
    match k
    case GraphKey(id) => "sessions/" + id + "/graph.json"
    case ResultKey(id) => "sessions/" + id + "/result.json"
  }

  /** No two objects share a text, whatever the session ids. */
  lemma KeyTextInjective(k: Key, l: Key)
    requires KeyText(k) == KeyText(l)
    ensures k == l
  {
    var s := KeyText(k);
    if k.GraphKey? {
      assert |s| == |k.id| + 20 && s[|s| - 6] == 'h' && s[9..|s| - 11] == k.id;
    } else {
      assert |s| == |k.id| + 21 && s[|s| - 6] == 't' && s[9..|s| - 12] == k.id;
    }
    if l.GraphKey? {
      assert s[|s| - 6] == 'h' && s[9..|s| - 11] == l.id;
    } else {
      assert s[|s| - 6] == 't' && s[9..|s| - 12] == l.id;
    }
  }

  function NoGraph(): string { "no graph: the control plane never handed one over" }

  function DocOf(o: Outcome): Doc {
    match o
    case Traced(save, viz, code) => Doc(save, viz, code, "")
    case Refused(reason) => Doc("", "", "", reason)
    case Crashed(kind, message) => Doc("", "", "", kind + ": " + message)
  }

  function MissingDoc(): Doc { Doc("", "", "", NoGraph()) }

  function FaultDoc(reason: string): Doc { DocOf(Crashed("ClientError", reason)) }

  /** A read that found no graph: when, and by when one must be found. */
  datatype Miss = Miss(deadline: int, readAt: int)

  /** A worker between its actions. `Missed` has just read and found nothing; one `Reporting` that its graph
      is missing remembers its last read. */
  datatype Worker =
    | Booting
    | Waiting(deadline: int)
    | Missed(miss: Miss)
    | Fetched(graph: Graph)
    | Reporting(doc: Doc, last: Option<Miss>)
    | Ended(wrote: bool)

  /** `handed` and `landed` remember which graph was written for a session, and when. */
  datatype State = State(objects: map<Key, Object>, rows: set<string>, workers: map<string, Worker>,
                         handed: map<string, Graph>, landed: map<string, int>, now: int)

  const START := State(map[], {}, map[], map[], map[], 0)

  datatype Step =
    | Launch(id: string)
    | Register(id: string)
    | Boot(id: string)
    | PutGraph(id: string, graph: Graph)
    | Read(id: string)
    | ReadFails(id: string, reason: string)
    | CheckClock(id: string)
    | RunTrace(id: string)
    | WriteResult(id: string, ok: bool)
    | Tick(span: nat)

  function WithWorker(s: State, id: string, w: Worker): State { s.(workers := s.workers[id := w]) }

  /** One step by one of the parties; a step that is not due leaves everything as it is. */
  function Next(env: Env, s: State, step: Step): State {
    match step
    case Launch(id) => if id in s.workers then s else WithWorker(s, id, Booting)
    case Boot(id) =>
      if id !in s.workers || !s.workers[id].Booting? then s else WithWorker(s, id, Waiting(s.now + GRAPH_WAIT))
    case Register(id) => if id in s.workers then s.(rows := s.rows + {id}) else s
    case PutGraph(id, g) =>
      // One trace a session: its graph is written once, after the launch its key is made from.
      if id !in s.workers || id in s.handed then s
      else s.(objects := s.objects[GraphKey(id) := GraphObject(g)], handed := s.handed[id := g],
              landed := s.landed[id := s.now])
    case Read(id) =>
      if id !in s.workers || !s.workers[id].Waiting? then s
      else if GraphKey(id) in s.objects && s.objects[GraphKey(id)].GraphObject? then
        WithWorker(s, id, Fetched(s.objects[GraphKey(id)].graph))
      else WithWorker(s, id, Missed(Miss(s.workers[id].deadline, s.now)))
    case ReadFails(id, reason) =>
      // Anything but a missing object will not fix itself, and is reported at once.
      if id !in s.workers || !s.workers[id].Waiting? then s else WithWorker(s, id, Reporting(FaultDoc(reason), None))
    case CheckClock(id) =>
      if id !in s.workers || !s.workers[id].Missed? then s
      else
        var miss := s.workers[id].miss;
        if s.now >= miss.deadline then WithWorker(s, id, Reporting(MissingDoc(), Some(miss)))
        else WithWorker(s, id, Waiting(miss.deadline))
    case RunTrace(id) =>
      if id !in s.workers || !s.workers[id].Fetched? then s
      else WithWorker(s, id, Reporting(DocOf(env.run(s.workers[id].graph)), None))
    case WriteResult(id, ok) =>
      if id !in s.workers || !s.workers[id].Reporting? then s
      else if ok then
        var result := ResultObject(s.workers[id].doc);
        WithWorker(s.(objects := s.objects[ResultKey(id) := result]), id, Ended(true))
      else WithWorker(s, id, Ended(false))
    case Tick(span) => s.(now := s.now + span)
  }

  function After(env: Env, s: State, steps: seq<Step>): State
    decreases |steps|
  {
    if steps == [] then s else After(env, Next(env, s, steps[0]), steps[1..])
  }

  /** What a poll of the session's result answers. */
  datatype Answer =
    | Unknown
    | Pending
    | Unreadable
    | Failed(message: string)
    | Done(saveRef: string, vizRef: string, nnsight: string)

  function ReadDoc(env: Env, d: Doc): Answer {
    // A longer document is cut, and what is left of it does not parse.
    if env.size(d) > READ_CAP then Unreadable
    else if d.error != "" then Failed(d.error)
    else Done(d.saveRef, d.vizRef, d.nnsight)
  }

  function Collect(env: Env, s: State, id: string): Answer {
    if id !in s.rows then Unknown
    else if ResultKey(id) !in s.objects || !s.objects[ResultKey(id)].ResultObject? then Pending
    else ReadDoc(env, s.objects[ResultKey(id)].doc)
  }

  // ---------------------------------------------------------------- the invariant

  /** The document says what came of the session's own graph, that none was found, or that looking
      for it failed. */
  ghost predicate Explained(env: Env, s: State, id: string, d: Doc) {
    d == MissingDoc() || (exists reason :: d == FaultDoc(reason))
      || (id in s.handed && d == DocOf(env.run(s.handed[id])))
  }

  /** The read came between the boot and now, and no graph had landed by then. */
  ghost predicate MissInv(s: State, id: string, m: Miss) {
    m.deadline - GRAPH_WAIT <= m.readAt <= s.now && (id in s.landed ==> s.landed[id] >= m.readAt)
  }

  ghost predicate WorkerInv(env: Env, s: State, id: string)
    requires id in s.workers
  {
    match s.workers[id]
    case Booting => true
    case Waiting(deadline) => deadline - GRAPH_WAIT <= s.now
    case Missed(m) => MissInv(s, id, m)
    case Fetched(g) => id in s.handed && s.handed[id] == g
    case Reporting(d, last) => Explained(env, s, id, d)
         && (last.Some? ==> d == MissingDoc() && MissInv(s, id, last.value))
    case Ended(wrote) => wrote ==> ResultKey(id) in s.objects
  }

  /** A graph object is there exactly when one was handed over, and is that one. */
  ghost predicate GraphsInv(s: State) {
    && (forall id :: GraphKey(id) in s.objects <==> id in s.handed)
    && (forall id | id in s.handed :: s.objects[GraphKey(id)] == GraphObject(s.handed[id]))
    && (forall id | id in s.handed :: id in s.workers && id in s.landed && s.landed[id] <= s.now)
    && (forall id | id in s.landed :: id in s.handed)
  }

  ghost predicate WorkersInv(env: Env, s: State) {
    forall id | id in s.workers :: WorkerInv(env, s, id)
  }

  /** A result object is one its worker wrote before it ended. */
  ghost predicate ResultsInv(env: Env, s: State) {
    forall id :: ResultKey(id) in s.objects ==>
      && id in s.workers && s.workers[id] == Ended(true)
      && s.objects[ResultKey(id)].ResultObject? && Explained(env, s, id, s.objects[ResultKey(id)].doc)
  }

  /** Only what was launched is registered. */
  ghost predicate RowsInv(s: State) { forall id | id in s.rows :: id in s.workers }

  ghost predicate Inv(env: Env, s: State) {
    GraphsInv(s) && WorkersInv(env, s) && ResultsInv(env, s) && RowsInv(s)
  }

  lemma GraphsFrame(s: State, t: State)
    requires GraphsInv(s) && t.handed == s.handed && t.landed == s.landed && s.workers.Keys <= t.workers.Keys
             && s.now <= t.now
    requires forall i :: (GraphKey(i) in t.objects <==> GraphKey(i) in s.objects)
                         && (GraphKey(i) in s.objects ==> t.objects[GraphKey(i)] == s.objects[GraphKey(i)])
    ensures GraphsInv(t)
  {
  }

  lemma GraphsPut(s: State, id: string, g: Graph)
    requires GraphsInv(s) && id in s.workers && id !in s.handed
    ensures GraphsInv(s.(objects := s.objects[GraphKey(id) := GraphObject(g)], handed := s.handed[id := g],
                         landed := s.landed[id := s.now]))
  {
  }

  lemma StepKeepsGraphs(env: Env, s: State, step: Step)
    requires GraphsInv(s)
    ensures GraphsInv(Next(env, s, step))
  {
    var t := Next(env, s, step);
    if step.PutGraph? && step.id in s.workers && step.id !in s.handed {
      GraphsPut(s, step.id, step.graph);
    } else {
      hide GraphsInv, DocOf, FaultDoc, MissingDoc;
      NextFrame(env, s, step);
      GraphsStay(env, s, step);
      hide Next;
      GraphsFrame(s, t);
    }
  }

  lemma GraphsStay(env: Env, s: State, step: Step)
    requires !step.PutGraph? || step.id !in s.workers || step.id in s.handed
    ensures var t := Next(env, s, step);
            && t.handed == s.handed && t.landed == s.landed
            && forall i :: (GraphKey(i) in t.objects <==> GraphKey(i) in s.objects)
                           && (GraphKey(i) in s.objects ==> t.objects[GraphKey(i)] == s.objects[GraphKey(i)])
  {
    hide DocOf, FaultDoc, MissingDoc;
    var t := Next(env, s, step);
    if step.WriteResult? && t != s && step.ok {
      var d := s.workers[step.id].doc;
      assert t.objects == s.objects[ResultKey(step.id) := ResultObject(d)] && t.handed == s.handed
             && t.landed == s.landed;
      hide Next;
    } else {
      assert t.objects == s.objects && t.handed == s.handed && t.landed == s.landed;
      hide Next;
    }
  }

  /** What no step takes back. */
  lemma NextFrame(env: Env, s: State, step: Step)
    ensures var t := Next(env, s, step);
            && s.now <= t.now && s.objects.Keys <= t.objects.Keys && s.workers.Keys <= t.workers.Keys
            && (forall i | i in s.handed :: i in t.handed && t.handed[i] == s.handed[i])
            && (forall i | i in t.landed :: t.landed[i] == s.now || (i in s.landed && t.landed[i] == s.landed[i]))
  {
    hide Next;
    KeysGrow(env, s, step);
    HandedStays(env, s, step);
  }

  lemma KeysGrow(env: Env, s: State, step: Step)
    ensures var t := Next(env, s, step);
            s.now <= t.now && s.objects.Keys <= t.objects.Keys && s.workers.Keys <= t.workers.Keys
  {
    hide DocOf, FaultDoc, MissingDoc;
    match step
    case PutGraph(_, _) =>
    case WriteResult(_, _) =>
    case _ =>
  }

  lemma HandedStays(env: Env, s: State, step: Step)
    ensures var t := Next(env, s, step);
            || (t.handed == s.handed && t.landed == s.landed)
            || (step.PutGraph? && step.id !in s.handed
                && t.handed == s.handed[step.id := step.graph] && t.landed == s.landed[step.id := s.now])
  {
    hide DocOf, FaultDoc, MissingDoc;
  }

  lemma StepKeepsResults(env: Env, s: State, step: Step)
    requires ResultsInv(env, s)
    requires step.WriteResult? && step.id in s.workers ==> WorkerInv(env, s, step.id)
    ensures ResultsInv(env, Next(env, s, step))
  {
    hide DocOf, FaultDoc, MissingDoc;
  }

  /** What a worker's phase claims is not disturbed by what the others do. */
  lemma WorkerFrame(env: Env, s: State, t: State, i: string)
    requires i in s.workers && i in t.workers && t.workers[i] == s.workers[i] && WorkerInv(env, s, i)
    requires s.now <= t.now && s.objects.Keys <= t.objects.Keys
    requires i in s.handed ==> i in t.handed && t.handed[i] == s.handed[i]
    requires i in t.landed ==> t.landed[i] == s.now || (i in s.landed && t.landed[i] == s.landed[i])
    ensures WorkerInv(env, t, i)
  {
    hide DocOf, FaultDoc, MissingDoc;
  }

  lemma StepKeepsWorker(env: Env, s: State, step: Step, i: string)
    requires GraphsInv(s) && i in Next(env, s, step).workers
    requires i in s.workers ==> WorkerInv(env, s, i)
    ensures WorkerInv(env, Next(env, s, step), i)
  {
    OnlyOwnStep(env, s, step, i);
    hide Next;
    var t := Next(env, s, step);
    if i in s.workers && t.workers[i] == s.workers[i] {
      NextFrame(env, s, step);
      hide GraphsInv, WorkerInv;
      WorkerFrame(env, s, t, i);
    } else {
      ReadMeans(s, i);
      hide GraphsInv, WorkerInv;
      OwnStep(env, s, step);
    }
  }

  /** A worker's phase is changed by its own steps only. */
  lemma OnlyOwnStep(env: Env, s: State, step: Step, i: string)
    requires i in Next(env, s, step).workers
    ensures (i in s.workers && Next(env, s, step).workers[i] == s.workers[i]) || (!step.Tick? && step.id == i)
  {
    hide DocOf, FaultDoc, MissingDoc;
  }

  /** A worker's own step leads to a phase that keeps its claim. */
  lemma OwnStep(env: Env, s: State, step: Step)
    requires !step.Tick? && step.id in Next(env, s, step).workers
             && (step.id in s.workers ==> WorkerInv(env, s, step.id))
    requires step.id !in s.workers || Next(env, s, step).workers[step.id] != s.workers[step.id]
    requires if GraphKey(step.id) in s.objects
             then step.id in s.handed && s.objects[GraphKey(step.id)] == GraphObject(s.handed[step.id])
             else step.id !in s.landed
    ensures WorkerInv(env, Next(env, s, step), step.id)
  {
    hide DocOf, FaultDoc, MissingDoc;
    match step
    case Launch(_) =>
    case Boot(_) =>
    case Register(_) =>
    case PutGraph(_, _) =>
    case Read(_) =>
    case ReadFails(_, _) =>
    case CheckClock(_) =>
    case RunTrace(_) =>
    case WriteResult(_, _) =>
  }

  /** A read finds the graph that was handed over, or none was. */
  lemma ReadMeans(s: State, id: string)
    requires GraphsInv(s)
    ensures if GraphKey(id) in s.objects then id in s.handed && s.objects[GraphKey(id)] == GraphObject(s.handed[id])
            else id !in s.handed && id !in s.landed
  {
  }

  lemma StepKeepsRows(env: Env, s: State, step: Step)
    requires RowsInv(s)
    ensures RowsInv(Next(env, s, step))
  {
    hide DocOf, FaultDoc, MissingDoc;
  }

  /** Every step of every party keeps the invariant. */
  lemma StepKeepsInv(env: Env, s: State, step: Step)
    requires Inv(env, s)
    ensures Inv(env, Next(env, s, step))
  {
    if !step.Tick? && step.id in s.workers { assert WorkerInv(env, s, step.id); }
    forall i | i in Next(env, s, step).workers ensures WorkerInv(env, Next(env, s, step), i) {
      hide Next, ResultsInv;
      StepKeepsWorker(env, s, step, i);
    }
    StepKeepsRows(env, s, step);
    hide Next, GraphsInv, ResultsInv, WorkerInv, RowsInv;
    StepKeepsGraphs(env, s, step);
    StepKeepsResults(env, s, step);
  }

  lemma {:induction false} RunKeepsInv(env: Env, s: State, steps: seq<Step>)
    requires Inv(env, s)
    ensures Inv(env, After(env, s, steps))
    decreases |steps|
  {
    if steps != [] {
      hide Inv;
      StepKeepsInv(env, s, steps[0]);
      RunKeepsInv(env, Next(env, s, steps[0]), steps[1..]);
    }
  }

  lemma StartInv(env: Env)
    ensures Inv(env, START)
  {
  }

  /** What any interleaving of the parties' steps leads to. */
  function Reached(env: Env, steps: seq<Step>): State { After(env, START, steps) }

  lemma ReachedInv(env: Env, steps: seq<Step>)
    ensures Inv(env, Reached(env, steps))
  {
    StartInv(env);
    RunKeepsInv(env, START, steps);
  }

  // ---------------------------------------------------------------- what is promised

  /** How an outcome reads. */
  function AnswerOf(o: Outcome): Answer {
    match o
    case Traced(save, viz, code) => Done(save, viz, code)
    case Refused(reason) => Failed(reason)
    case Crashed(kind, message) => Failed(kind + ": " + message)
  }

  /** A document that is read in full reads as the outcome it was written for: a failure is never read as a
      success, nor a success as a failure. */
  lemma ReadsAs(env: Env, o: Outcome)
    ensures ReadDoc(env, DocOf(o)) == if env.size(DocOf(o)) > READ_CAP then Unreadable else AnswerOf(o)
    ensures ReadDoc(env, DocOf(o)).Done? ==> o.Traced?
    ensures !ReadDoc(env, MissingDoc()).Done? && forall reason :: !ReadDoc(env, FaultDoc(reason)).Done?
    // A failure's document names no result.
    ensures forall d | d in {DocOf(o), MissingDoc()} && d.error != "" :: d.saveRef == d.vizRef == d.nnsight == ""
  {
    CrashHasMessage(o);
    forall reason ensures FaultDoc(reason).error != "" { CrashHasMessage(Crashed("ClientError", reason)); }
    assert MissingDoc().error != "";
  }

  /** Under every interleaving, a result returned for a session comes from running exactly the graph
      handed to that session, and a failure is never returned as one. */
  lemma ResultIsOfItsOwnGraph(env: Env, steps: seq<Step>, id: string)
    requires Collect(env, Reached(env, steps), id).Done?
    ensures var s := Reached(env, steps); var a := Collect(env, s, id);
            id in s.handed && env.run(s.handed[id]) == Traced(a.saveRef, a.vizRef, a.nnsight)
  {
    hide DocOf, FaultDoc, MissingDoc, GraphsInv, WorkersInv, After;
    var s := Reached(env, steps);
    ReachedInv(env, steps);
    var d := s.objects[ResultKey(id)].doc;
    assert Explained(env, s, id, d);
    ReadsAs(env, Crashed("", ""));
    assert d == DocOf(env.run(s.handed[id]));
    ReadsAs(env, env.run(s.handed[id]));
  }

  lemma CrashHasMessage(o: Outcome)
    ensures o.Crashed? ==> DocOf(o).error != ""
  {
    if o.Crashed? { assert |DocOf(o).error| >= 2; }
  }

  /** Once a poll has answered, every later poll answers the same, whatever else happens. */
  lemma {:induction false} AnswerIsFinal(env: Env, s: State, id: string, steps: seq<Step>)
    requires Inv(env, s) && Collect(env, s, id) != Unknown && Collect(env, s, id) != Pending
    ensures Collect(env, After(env, s, steps), id) == Collect(env, s, id)
    decreases |steps|
  {
    if steps != [] {
      StepKeepsInv(env, s, steps[0]);
      ResultStays(env, s, id, steps[0]);
      hide Inv, Next;
      AnswerIsFinal(env, Next(env, s, steps[0]), id, steps[1..]);
    }
  }

  lemma ResultStays(env: Env, s: State, id: string, step: Step)
    requires Inv(env, s) && ResultKey(id) in s.objects
    ensures var t := Next(env, s, step);
            && ResultKey(id) in t.objects && t.objects[ResultKey(id)] == s.objects[ResultKey(id)]
            && (id in s.rows ==> id in t.rows)
  {
    assert s.workers[id] == Ended(true);
    hide GraphsInv, WorkersInv, ResultsInv, DocOf, FaultDoc, MissingDoc;
  }

  /** A worker that ends with its write succeeding leaves an outcome its session's poll can see, and
      read unless it is longer than what is read. */
  lemma EndedIsSeen(env: Env, s: State, id: string)
    requires Inv(env, s) && id in s.rows && id in s.workers && s.workers[id] == Ended(true)
    ensures var a := Collect(env, s, id);
            && a != Pending && a != Unknown
            && (a == Unreadable <==> env.size(s.objects[ResultKey(id)].doc) > READ_CAP)
  {
    assert WorkerInv(env, s, id);
  }

  /** What a worker can come to write: what running a graph came to, that none was there, or why the read of
      one failed. */
  ghost predicate Writable(env: Env, d: Doc) {
    d == MissingDoc() || (exists reason :: d == FaultDoc(reason)) || (exists g :: d == DocOf(env.run(g)))
  }

  /** A poll finds its session's result unreadable in some run if and only if something a worker can write is
      longer than what is read. */
  lemma UnreadableIff(env: Env, id: string)
    ensures (exists steps :: Collect(env, Reached(env, steps), id) == Unreadable) <==>
              exists d :: Writable(env, d) && env.size(d) > READ_CAP
  {
    hide Writable, Reached;
    if d :| Writable(env, d) && env.size(d) > READ_CAP {
      var steps := WrittenReached(env, id, d);
      assert Collect(env, Reached(env, steps), id) == Unreadable;
    }
    if steps :| Collect(env, Reached(env, steps), id) == Unreadable {
      var d := UnreadableDoc(env, steps, id);
      assert Writable(env, d) && env.size(d) > READ_CAP;
    }
  }

  lemma UnreadableDoc(env: Env, steps: seq<Step>, id: string) returns (d: Doc)
    requires Collect(env, Reached(env, steps), id) == Unreadable
    ensures Writable(env, d) && env.size(d) > READ_CAP
  {
    hide Reached, DocOf, MissingDoc, FaultDoc, GraphsInv, WorkersInv;
    var s := Reached(env, steps);
    ReachedInv(env, steps);
    d := s.objects[ResultKey(id)].doc;
    assert Explained(env, s, id, d);
  }

  /** Every such document is what some run leaves, and a poll then answers as it reads. */
  lemma WrittenReached(env: Env, id: string, d: Doc) returns (steps: seq<Step>)
    requires Writable(env, d)
    ensures Collect(env, Reached(env, steps), id) == ReadDoc(env, d)
  {
    hide Next, DocOf, MissingDoc, FaultDoc, Collect, ReadDoc;
    var s := Next(env, Next(env, Next(env, START, Launch(id)), Register(id)), Boot(id));
    var w := WriteResult(id, true);
    var start := [Launch(id), Register(id), Boot(id)];
    var rest: seq<Step>;
    if d == MissingDoc() {
      rest := [Tick(GRAPH_WAIT), Read(id), CheckClock(id), w];
      MissingWritten(env, id);
      AfterTwo(env, s, rest[0], rest[1], [CheckClock(id), w]);
      assert rest == [rest[0], rest[1]] + [CheckClock(id), w];
      AfterTwo(env, Next(env, Next(env, s, rest[0]), rest[1]), CheckClock(id), w, []);
      assert [CheckClock(id), w] == [CheckClock(id), w] + [];
    } else if reason :| d == FaultDoc(reason) {
      rest := [ReadFails(id, reason), w];
      FaultWritten(env, id, reason);
      AfterTwo(env, s, rest[0], w, []);
      assert rest == [rest[0], w] + [];
    } else {
      var g :| d == DocOf(env.run(g));
      rest := [PutGraph(id, g), Read(id), RunTrace(id), w];
      TraceWritten(env, id, g);
      AfterTwo(env, s, rest[0], rest[1], [RunTrace(id), w]);
      assert rest == [rest[0], rest[1]] + [RunTrace(id), w];
      AfterTwo(env, Next(env, Next(env, s, rest[0]), rest[1]), RunTrace(id), w, []);
      assert [RunTrace(id), w] == [RunTrace(id), w] + [];
    }
    steps := start + rest;
    assert steps == [Launch(id), Register(id)] + ([Boot(id)] + rest);
    AfterTwo(env, START, Launch(id), Register(id), [Boot(id)] + rest);
    AfterOne(env, Next(env, Next(env, START, Launch(id)), Register(id)), Boot(id), rest);
  }

  lemma AfterOne(env: Env, s: State, a: Step, rest: seq<Step>)
    ensures After(env, s, [a] + rest) == After(env, Next(env, s, a), rest)
  {
  }

  /** A registered session's worker, just booted. */
  function Booted(id: string): State { State(map[], {id}, map[id := Waiting(GRAPH_WAIT)], map[], map[], 0) }

  lemma BootedIs(env: Env, id: string)
    ensures Next(env, Next(env, Next(env, START, Launch(id)), Register(id)), Boot(id)) == Booted(id)
  {
    assert Next(env, Next(env, START, Launch(id)), Register(id)) == START.(workers := map[id := Booting], rows := {id});
  }

  lemma MissingWritten(env: Env, id: string)
    ensures var s := Next(env, Next(env, Next(env, START, Launch(id)), Register(id)), Boot(id));
            var t := Next(env, Next(env, Next(env, s, Tick(GRAPH_WAIT)), Read(id)), CheckClock(id));
            Collect(env, Next(env, t, WriteResult(id, true)), id) == ReadDoc(env, MissingDoc())
  {
    hide MissingDoc;
    BootedIs(env, id);
    var miss := Miss(GRAPH_WAIT, GRAPH_WAIT);
    var s := Next(env, Next(env, Booted(id), Tick(GRAPH_WAIT)), Read(id));
    assert s == Booted(id).(workers := map[id := Missed(miss)], now := GRAPH_WAIT);
    assert Next(env, s, CheckClock(id)) == s.(workers := map[id := Reporting(MissingDoc(), Some(miss))]);
  }

  lemma FaultWritten(env: Env, id: string, reason: string)
    ensures var s := Next(env, Next(env, Next(env, START, Launch(id)), Register(id)), Boot(id));
            var t := Next(env, s, ReadFails(id, reason));
            Collect(env, Next(env, t, WriteResult(id, true)), id) == ReadDoc(env, FaultDoc(reason))
  {
    hide FaultDoc;
    BootedIs(env, id);
    assert Next(env, Booted(id), ReadFails(id, reason)).workers == map[id := Reporting(FaultDoc(reason), None)];
  }

  lemma TraceWritten(env: Env, id: string, g: Graph)
    ensures var s := Next(env, Next(env, Next(env, START, Launch(id)), Register(id)), Boot(id));
            var t := Next(env, Next(env, Next(env, s, PutGraph(id, g)), Read(id)), RunTrace(id));
            Collect(env, Next(env, t, WriteResult(id, true)), id) == ReadDoc(env, DocOf(env.run(g)))
  {
    hide Next, DocOf, ReadDoc;
    BootedIs(env, id);
    FetchedIs(env, id, g);
    TraceReports(env, id, g);
  }

  lemma TraceReports(env: Env, id: string, g: Graph)
    ensures var t := Next(env, FetchedState(id, g), RunTrace(id));
            Collect(env, Next(env, t, WriteResult(id, true)), id) == ReadDoc(env, DocOf(env.run(g)))
  {
    hide DocOf, ReadDoc, FaultDoc, MissingDoc;
    var s := FetchedState(id, g);
    assert Next(env, s, RunTrace(id)) == s.(workers := map[id := Reporting(DocOf(env.run(g)), None)]);
  }

  function FetchedState(id: string, g: Graph): State {
    State(map[GraphKey(id) := GraphObject(g)], {id}, map[id := Fetched(g)], map[id := g], map[id := 0], 0)
  }

  lemma FetchedIs(env: Env, id: string, g: Graph)
    ensures Next(env, Next(env, Booted(id), PutGraph(id, g)), Read(id)) == FetchedState(id, g)
  {
    hide DocOf, FaultDoc, MissingDoc;
    var s := Next(env, Booted(id), PutGraph(id, g));
    assert s == FetchedState(id, g).(workers := map[id := Waiting(GRAPH_WAIT)]);
  }

  // ---------------------------------------------------------------- when a graph is missed

  /** A read finds the graph exactly when it has landed: no graph landed before a read is missed by it. */
  lemma ReadFindsLanded(env: Env, steps: seq<Step>, id: string)
    requires var s := Reached(env, steps); id in s.workers && s.workers[id].Waiting?
    ensures var s := Reached(env, steps);
            && (id in s.landed <==> id in s.handed)
            && Next(env, s, Read(id)).workers[id]
               == if id in s.handed then Fetched(s.handed[id]) else Missed(Miss(s.workers[id].deadline, s.now))
  {
    hide DocOf, FaultDoc, MissingDoc, WorkersInv, ResultsInv, After;
    ReachedInv(env, steps);
  }

  /** The session's graph landed before the worker's deadline and is reported missing all the same, by a
      worker that last read `t` seconds after its boot. */
  ghost predicate MissedInTime(s: State, id: string, t: int) {
    && id in s.workers && s.workers[id].Reporting? && s.workers[id].last.Some? && s.workers[id].doc == MissingDoc()
    && var m := s.workers[id].last.value;
    && id in s.landed && s.landed[id] < m.deadline
    && m.readAt == m.deadline - GRAPH_WAIT + t
  }

  /** Some run misses a graph landed in time if and only if the worker's last read came before its deadline. */
  lemma MissedInTimeIff(env: Env, id: string, t: int)
    ensures (exists steps :: MissedInTime(Reached(env, steps), id, t)) <==> 0 <= t < GRAPH_WAIT
  {
    hide MissedInTime, Reached, MissingDoc;
    if 0 <= t < GRAPH_WAIT {
      var steps := LandsAfterLastRead(env, id, t, Graph("", ""));
    }
    forall steps | MissedInTime(Reached(env, steps), id, t) ensures 0 <= t < GRAPH_WAIT {
      MissedReadEarly(env, steps, id, t);
    }
  }

  /** In every reached state: a graph reported missing had landed in time exactly when it landed between the
      worker's last read and the deadline. */
  lemma ReportedMissingIff(env: Env, steps: seq<Step>, id: string)
    requires var s := Reached(env, steps); id in s.workers && s.workers[id].Reporting? && s.workers[id].last.Some?
    ensures var s := Reached(env, steps); var m := s.workers[id].last.value;
            id in s.landed && s.landed[id] < m.deadline <==> id in s.landed && m.readAt <= s.landed[id] < m.deadline
  {
    hide Reached, MissingDoc, Explained, GraphsInv, ResultsInv;
    ReachedInv(env, steps);
    assert WorkerInv(env, Reached(env, steps), id);
  }

  /** The clock is never looked at, nor anything else done, more than `p` seconds after a read that found nothing
      and before its look at the clock. */
  ghost predicate Prompt(env: Env, steps: seq<Step>, id: string, p: nat) {
    forall i | 0 <= i <= |steps| ::
      var s := Reached(env, steps[..i]);
      id in s.workers && s.workers[id].Missed? ==> s.now <= s.workers[id].miss.readAt + p
  }

  /** Of a worker that prompt, a graph that landed more than `p` seconds before its deadline is never reported
      missing: the last read came no earlier. */
  lemma PromptReadsFind(env: Env, steps: seq<Step>, id: string, p: nat)
    requires Prompt(env, steps, id, p)
    requires var s := Reached(env, steps); id in s.workers && s.workers[id].Reporting? && s.workers[id].last.Some?
    ensures var s := Reached(env, steps); id in s.landed ==> s.landed[id] >= s.workers[id].last.value.deadline - p
  {
    hide Reached, Prompt, MissingDoc, Explained, GraphsInv, ResultsInv;
    LastReadIsLate(env, steps, id, p);
    ReachedInv(env, steps);
    assert WorkerInv(env, Reached(env, steps), id);
  }

  lemma {:induction false} LastReadIsLate(env: Env, steps: seq<Step>, id: string, p: nat)
    requires Prompt(env, steps, id, p)
    ensures var s := Reached(env, steps);
            id in s.workers && s.workers[id].Reporting? && s.workers[id].last.Some? ==>
              s.workers[id].last.value.readAt >= s.workers[id].last.value.deadline - p
    decreases |steps|
  {
    if steps != [] {
      hide Next, MissingDoc, Reached, After;
      var n := |steps| - 1;
      assert forall i | 0 <= i <= n :: steps[..n][..i] == steps[..i];
      LastReadIsLate(env, steps[..n], id, p);
      AfterSnoc(env, START, steps[..n], steps[n]);
      assert steps == steps[..n] + [steps[n]];
      ReachedIs(env, steps);
      ReachedIs(env, steps[..n]);
      LateStep(env, Reached(env, steps[..n]), steps[n], id, p);
    }
  }

  lemma ReachedIs(env: Env, steps: seq<Step>)
    ensures Reached(env, steps) == After(env, START, steps) && Reached(env, []) == START
  {
  }

  lemma LateStep(env: Env, s: State, step: Step, id: string, p: nat)
    requires id in s.workers && s.workers[id].Missed? ==> s.now <= s.workers[id].miss.readAt + p
    requires id in s.workers && s.workers[id].Reporting? && s.workers[id].last.Some? ==>
               s.workers[id].last.value.readAt >= s.workers[id].last.value.deadline - p
    ensures var t := Next(env, s, step);
            id in t.workers && t.workers[id].Reporting? && t.workers[id].last.Some? ==>
              t.workers[id].last.value.readAt >= t.workers[id].last.value.deadline - p
  {
    hide DocOf, FaultDoc, MissingDoc;
  }

  lemma {:induction false} AfterSnoc(env: Env, s: State, steps: seq<Step>, step: Step)
    ensures After(env, s, steps + [step]) == Next(env, After(env, s, steps), step)
    decreases |steps|
  {
    hide Next;
    if steps == [] {
      assert [step] == [step] + [];
      AfterOne(env, s, step, []);
    } else {
      AfterSnoc(env, Next(env, s, steps[0]), steps[1..], step);
      assert (steps + [step])[1..] == steps[1..] + [step];
    }
  }

  lemma MissedReadEarly(env: Env, steps: seq<Step>, id: string, t: int)
    requires MissedInTime(Reached(env, steps), id, t)
    ensures 0 <= t < GRAPH_WAIT
  {
    hide Reached, MissingDoc, Explained, GraphsInv, ResultsInv;
    ReachedInv(env, steps);
    assert WorkerInv(env, Reached(env, steps), id);
  }

  /** Such a run: the graph lands right after that read, and the clock is looked at past the deadline. */
  lemma LandsAfterLastRead(env: Env, id: string, t: nat, g: Graph) returns (steps: seq<Step>)
    requires t < GRAPH_WAIT
    ensures MissedInTime(Reached(env, steps), id, t)
  {
    hide Next, MissingDoc, MissedInTime;
    var rest := GRAPH_WAIT - t;
    var s2 := Next(env, Next(env, Next(env, START, Launch(id)), Boot(id)), Tick(t));
    var s4 := Next(env, Next(env, s2, Read(id)), PutGraph(id, g));
    steps := [Launch(id), Boot(id), Tick(t), Read(id), PutGraph(id, g), Tick(rest), CheckClock(id)];
    var middle := [Read(id), PutGraph(id, g), Tick(rest), CheckClock(id)];
    assert steps[1..] == [Boot(id), Tick(t)] + middle;
    assert middle == [Read(id), PutGraph(id, g)] + [Tick(rest), CheckClock(id)];
    assert [Tick(rest), CheckClock(id)] == [Tick(rest), CheckClock(id)] + [];
    AfterTwo(env, Next(env, START, Launch(id)), Boot(id), Tick(t), middle);
    AfterTwo(env, s2, Read(id), PutGraph(id, g), [Tick(rest), CheckClock(id)]);
    AfterTwo(env, s4, Tick(rest), CheckClock(id), []);
    MissStates(env, id, t, g);
  }

  lemma MissStates(env: Env, id: string, t: nat, g: Graph)
    requires t < GRAPH_WAIT
    ensures var s2 := Next(env, Next(env, Next(env, START, Launch(id)), Boot(id)), Tick(t));
            var s4 := Next(env, Next(env, s2, Read(id)), PutGraph(id, g));
            MissedInTime(Next(env, Next(env, s4, Tick(GRAPH_WAIT - t)), CheckClock(id)), id, t)
  {
    hide MissingDoc, FaultDoc, DocOf;
    var s2 := Next(env, Next(env, Next(env, START, Launch(id)), Boot(id)), Tick(t));
    assert s2 == START.(workers := map[id := Waiting(GRAPH_WAIT)], now := t);
    var s4 := Next(env, Next(env, s2, Read(id)), PutGraph(id, g));
    assert s4.workers == map[id := Missed(Miss(GRAPH_WAIT, t))] && s4.landed == map[id := t] && s4.now == t;
  }

  lemma AfterTwo(env: Env, s: State, a: Step, b: Step, rest: seq<Step>)
    ensures After(env, s, [a, b] + rest) == After(env, Next(env, Next(env, s, a), b), rest)
  {
  }
}

/** The two programs of the handoff, each action of theirs interleaved with whatever the others do. */
module HandoffPrograms {
  import opened Text
  import opened Handoff

  /** The step is not the worker's of this session. */
  predicate Foreign(id: string, step: Step) {
    var own := step.Launch? || step.Boot? || step.Read? || step.ReadFails? || step.CheckClock? || step.RunTrace?
               || step.WriteResult?;
    own ==> step.id != id
  }

  ghost predicate Keeps(m: map<string, Graph>, m': map<string, Graph>) {
    forall i | i in m :: i in m' && m'[i] == m[i]
  }

  lemma {:induction false} ForeignKeepsWorker(env: Env, s: State, id: string, steps: seq<Step>)
    requires id in s.workers && forall i | 0 <= i < |steps| :: Foreign(id, steps[i])
    ensures var t := After(env, s, steps);
            id in t.workers && t.workers[id] == s.workers[id] && t.now >= s.now && Keeps(s.handed, t.handed)
    decreases |steps|
  {
    if steps != [] {
      hide Next, Foreign;
      var t := Next(env, s, steps[0]);
      ForeignStep(env, s, id, steps[0]);
      NextFrame(env, s, steps[0]);
      assert forall i | 0 <= i < |steps[1..]| :: Foreign(id, steps[1..][i]) by {
        assert forall i | 0 <= i < |steps[1..]| :: steps[1..][i] == steps[i + 1];
      }
      ForeignKeepsWorker(env, t, id, steps[1..]);
    }
  }

  lemma ForeignStep(env: Env, s: State, id: string, step: Step)
    requires id in s.workers && Foreign(id, step)
    ensures var t := Next(env, s, step); id in t.workers && t.workers[id] == s.workers[id]
  {
    hide DocOf, FaultDoc, MissingDoc;
  }

  /** A read finds the graph exactly when it has landed, and then the one handed over. */
  lemma ReadMoves(env: Env, s: State, id: string)
    requires Inv(env, s) && id in s.workers && s.workers[id].Waiting?
    ensures var t := Next(env, s, Read(id));
            && id in t.workers && t.now == s.now && (id in s.landed <==> id in s.handed)
            && t.workers[id] == if id in s.handed then Fetched(s.handed[id])
                                else Missed(Miss(s.workers[id].deadline, s.now))
  {
    hide MissingDoc, DocOf, FaultDoc, WorkersInv, ResultsInv;
  }

  lemma ClockMoves(env: Env, s: State, id: string)
    requires id in s.workers && s.workers[id].Missed?
    ensures var t := Next(env, s, CheckClock(id)); var m := s.workers[id].miss;
            && id in t.workers && t.now == s.now
            && t.workers[id] == if s.now >= m.deadline then Reporting(MissingDoc(), Some(m)) else Waiting(m.deadline)
  {
    hide MissingDoc;
  }

  lemma SleepMoves(env: Env, s: State)
    ensures forall span :: var t := Next(env, s, Tick(span)); t.workers == s.workers && t.now == s.now + span
  {
  }

  lemma FaultMoves(env: Env, s: State, id: string, reason: string)
    requires id in s.workers && s.workers[id].Waiting?
    ensures var t := Next(env, s, ReadFails(id, reason));
            id in t.workers && t.workers[id] == Reporting(FaultDoc(reason), None)
  {
    hide FaultDoc;
  }

  datatype Exit = ExitOk | ExitFailed | Crash

  /** An action of the program, and the state it found. */
  datatype Entry = Entry(at: State, step: Step)

  /** What the waiting loop does next: a read after the boot and after every sleep, which fails exactly when its fault
      says so; a look at the clock after a miss; and a sleep. */
  predicate Follows(id: string, fault: Option<string>, done: Step, step: Step) {
    if done.Boot? || done.Tick? then step == if fault.Some? then ReadFails(id, fault.value) else Read(id)
    else if done.Read? then step == CheckClock(id)
    else done.CheckClock? && step == Tick(GRAPH_POLL)
  }

  /** The program's actions from its `from`-th on are those of the waiting loop. */
  ghost predicate Loops(id: string, faults: nat -> Option<string>, log: seq<Entry>, from: nat) {
    && from < |log| && log[from].step == Boot(id)
    && forall n: nat | from < n < |log| :: Follows(id, faults(n), log[n - 1].step, log[n].step)
  }

  /** The actions from the `from`-th on really happened: each was taken after the others' steps, in the state the one
      before left, and the last one leads to `s`. */
  ghost predicate Ran(env: Env, others: nat -> seq<Step>, start: State, log: seq<Entry>, from: nat, s: State) {
    && from <= |log|
    && (forall n: nat | from <= n < |log| :: log[n].at == After(env, Left(env, start, log, from, n), others(n)))
    && s == Left(env, start, log, from, |log|)
  }

  /** The state this program's actions before the `n`-th leave. */
  function Left(env: Env, start: State, log: seq<Entry>, from: nat, n: nat): State
    requires n <= |log|
  {
    if n <= from then start else Next(env, log[n - 1].at, log[n - 1].step)
  }

  /** A read that did not find the graph, or a look at the clock before the deadline, or a sleep. */
  predicate Waits(id: string, e: Entry, deadline: int) {
    && !e.step.ReadFails? && (e.step.Read? ==> id !in e.at.landed) && (e.step.CheckClock? ==> e.at.now < deadline)
  }

  ghost predicate NothingYet(id: string, log: seq<Entry>, from: nat, to: nat)
    requires from < |log| && to <= |log|
  {
    forall n: nat | from < n < to :: Waits(id, log[n], log[from].at.now + GRAPH_WAIT)
  }

  /** How the waiting ends: at a read that found the graph, with that graph; at one that failed, with its reason; or
      at a look at the clock past the deadline, with none. */
  ghost predicate Stopped(id: string, last: Entry, deadline: int, w: Worker, g: Option<Graph>) {
    match last.step
    case Read(_) =>
      id in last.at.landed && id in last.at.handed && g == Some(last.at.handed[id]) && w == Fetched(g.value)
    case ReadFails(_, reason) => g == None && w == Reporting(FaultDoc(reason), None)
    case CheckClock(_) => last.at.now >= deadline && g == None && w.Reporting? && w.doc == MissingDoc()
    case _ => false
  }

  class System {
    const env: Env
    /** What the other parties do before this program's n-th action. */
    const others: nat -> seq<Step>
    /** Why the read that is this program's n-th action fails, if it does. */
    const faults: nat -> Option<string>
    var s: State
    var turn: nat
    /** What this program has done: its n-th action is `log[n]`. */
    ghost var log: seq<Entry>

    constructor (env: Env, others: nat -> seq<Step>, faults: nat -> Option<string>, s: State)
      ensures this.env == env && this.others == others && this.faults == faults && this.s == s
      ensures turn == 0 && log == []
    {
      this.env, this.others, this.faults, this.s, turn, log := env, others, faults, s, 0, [];
    }

    ghost predicate Alone(id: string) {
      forall n: nat, i | 0 <= i < |others(n)| :: Foreign(id, others(n)[i])
    }

    /** The others take their steps, and then this one is taken. */
    method Act(id: string, step: Step) returns (ghost t: State)
      requires Inv(env, s) && Alone(id) && id in s.workers && (step.Tick? || step.id == id) && |log| == turn
      modifies this
      ensures Inv(env, s) && id in s.workers
      ensures Inv(env, t) && id in t.workers && t.workers[id] == old(s).workers[id]
      ensures t == After(env, old(s), others(old(turn))) && t.now >= old(s).now && s == Next(env, t, step)
      ensures log == old(log) + [Entry(t, step)] && |log| == turn
      ensures forall start, from ::
                Ran(env, others, start, old(log), from, old(s)) ==> Ran(env, others, start, log, from, s)
      ensures Keeps(old(s).handed, s.handed)
    {
      hide Inv, After, Next, Foreign, Ran;
      RunKeepsInv(env, s, others(turn));
      ForeignKeepsWorker(env, s, id, others(turn));
      t := After(env, s, others(turn));
      StepKeepsInv(env, t, step);
      s := Next(env, After(env, s, others(turn)), step);
      turn := turn + 1;
      log := log + [Entry(t, step)];
      forall start, from | Ran(env, others, start, old(log), from, old(s))
        ensures Ran(env, others, start, log, from, s)
      {
        RanOn(env, others, start, old(log), from, old(s), t, step);
      }
      NextFrame(env, t, step);
    }

    /** The waiting loop's next action. */
    method ActOn(id: string, step: Step, ghost start: State, ghost from: nat) returns (ghost t: State)
      requires Inv(env, s) && Alone(id) && id in s.workers && (step.Tick? || step.id == id) && |log| == turn
      requires Loops(id, faults, log, from) && NothingYet(id, log, from, turn)
      requires Ran(env, others, start, log, from, s) && Follows(id, faults(turn), log[turn - 1].step, step)
      modifies this
      ensures Inv(env, s) && Inv(env, t) && id in s.workers && id in t.workers
      ensures |log| == turn == old(turn) + 1 > from + 1
      ensures t.workers[id] == old(s).workers[id] && t.now >= old(s).now && s == Next(env, t, step)
      ensures log[turn - 1] == Entry(t, step) && log[from] == old(log)[from]
      ensures Loops(id, faults, log, from) && NothingYet(id, log, from, turn - 1)
      ensures Ran(env, others, start, log, from, s)
      ensures Waits(id, Entry(t, step), log[from].at.now + GRAPH_WAIT) ==> NothingYet(id, log, from, turn)
    {
      hide Inv, After, Next, Foreign, Ran, Waits, NothingYet, Alone;
      ghost var before := log;
      t := Act(id, step);
      LoopGoesOn(id, faults, before, from, Entry(t, step));
    }

    /** The program is about to read again, having found nothing so far. */
    ghost predicate Polling(id: string, start: State, from: nat, deadline: int)
      reads this
    {
      && Inv(env, s) && id in s.workers && s.workers[id] == Waiting(deadline)
      && Loops(id, faults, log, from) && Ran(env, others, start, log, from, s)
      && log[from].at.now + GRAPH_WAIT == deadline
      && |log| == turn && NothingYet(id, log, from, turn) && (log[turn - 1].step.Boot? || log[turn - 1].step.Tick?)
    }

    /** The program has stopped waiting, and that with `g`. */
    ghost predicate Over(id: string, start: State, from: nat, g: Option<Graph>)
      reads this
    {
      && Inv(env, s) && id in s.workers && |log| == turn > from + 1
      && Loops(id, faults, log, from) && Ran(env, others, start, log, from, s) && NothingYet(id, log, from, turn - 1)
      && Stopped(id, log[turn - 1], log[from].at.now + GRAPH_WAIT, s.workers[id], g)
    }

    /** One round of the waiting loop; None to go on. */
    method Poll(id: string, ghost start: State, ghost from: nat, ghost deadline: int)
      returns (over: Option<Option<Graph>>)
      requires Alone(id) && Polling(id, start, from, deadline)
      modifies this
      ensures over == None ==> Polling(id, start, from, deadline) && s.now >= old(s).now + GRAPH_POLL
                               && old(s).now < deadline
      ensures over.Some? ==> Over(id, start, from, over.value)
    {
      hide Inv, MissingDoc, FaultDoc, DocOf, Alone, After, Next, Loops, NothingYet, Ran;
      ghost var t;
      if faults(turn).Some? {
        var reason := faults(turn).value;
        t := ActOn(id, ReadFails(id, reason), start, from);
        FaultMoves(env, t, id, reason);
        return Some(None);
      }
      t := ActOn(id, Read(id), start, from);
      ReadMoves(env, t, id);
      if s.workers[id].Fetched? { return Some(Some(s.workers[id].graph)); }
      t := ActOn(id, CheckClock(id), start, from);
      ClockMoves(env, t, id);
      if s.workers[id].Reporting? { return Some(None); }
      t := ActOn(id, Tick(GRAPH_POLL), start, from);
      SleepMoves(env, t);
      return None;
    }

    /** Reads until the graph is there, looking at the clock only after a miss: it stops at the first read that finds
        the graph or fails, or the first look at the clock past the deadline. */
    method FetchGraph(id: string) returns (g: Option<Graph>)
      requires Inv(env, s) && Alone(id) && id in s.workers && s.workers[id].Booting? && |log| == turn
      modifies this
      ensures Over(id, old(s), old(turn), g)
      // So a graph is returned exactly when one had landed before a read; with none, a read failed, or time is up.
      ensures FaultsFit(id, faults, log, old(turn))
      ensures g.Some? <==> FoundIn(id, log, old(turn))
      ensures g.Some? ==> s.workers[id] == Fetched(g.value)
      ensures g == None ==> s.workers[id].Reporting? && NotFoundAs(id, log, old(turn), s.workers[id].doc)
    {
      hide Inv, Alone, Foreign, After, Loops, NothingYet, Ran, Stopped, FaultsFit, FoundIn, NotFoundAs;
      ghost var from, start := turn, s;
      RanNone(env, others, log, s);
      ghost var t := Act(id, Boot(id));
      BootMoves(env, t, id);
      hide Next;
      ghost var deadline := s.workers[id].deadline;
      LoopStarts(id, faults, log, from);
      while true
        invariant Polling(id, start, from, deadline)
        decreases deadline + GRAPH_POLL - s.now
      {
        var over := Poll(id, start, from, deadline);
        if over.Some? {
          Waited(id, faults, log, from, s.workers[id], over.value);
          return over.value;
        }
      }
      return None;
    }

    /** The worker's whole life: fetch, run, report. Only a success whose write fails is not caught. */
    method Work(id: string, writes: bool) returns (exit: Exit)
      requires Inv(env, s) && Alone(id) && id in s.workers && s.workers[id].Booting? && |log| == turn
      modifies this
      ensures Inv(env, s) && id in s.workers && s.workers[id] == Ended(writes)
      ensures Ran(env, others, old(s), log, old(turn), s) && FaultsFit(id, faults, log, old(turn))
      // It exits well, or crashes, exactly when a read found the graph and running it gave a trace.
      ensures FoundIn(id, log, old(turn)) ==> id in s.handed
      ensures exit == ExitOk <==> writes && FoundIn(id, log, old(turn)) && env.run(s.handed[id]).Traced?
      ensures exit == Crash <==> !writes && FoundIn(id, log, old(turn)) && env.run(s.handed[id]).Traced?
      // Ended with its write succeeding, it has left what came of that as the session's result.
      ensures writes ==> ResultKey(id) in s.objects && s.objects[ResultKey(id)].ResultObject?
                         && ReportIs(env, id, log, old(turn), s, s.objects[ResultKey(id)].doc)
    {
      hide MissingDoc, FaultDoc, DocOf, Inv, Ran, After, Alone, Loops, NothingYet, FoundIn, NotFoundAs, FaultsFit;
      hide Stopped, Next, Foreign;
      ghost var from, t := turn, s;
      var g := FetchGraph(id);
      ghost var waited := log;
      if g == None {
        ghost var doc := s.workers[id].doc;
        t := Act(id, WriteResult(id, writes));
        WriteMoves(env, t, id, writes);
        MoreFits(id, faults, waited, from, Entry(t, WriteResult(id, writes)));
        assert NotFoundAs(id, log, from, doc);
        return ExitFailed;
      }
      FetchedIsHanded(env, s, id);
      t := Act(id, RunTrace(id));
      RunMoves(env, t, id);
      ghost var ran := log;
      MoreFits(id, faults, waited, from, Entry(t, RunTrace(id)));
      t := Act(id, WriteResult(id, writes));
      WriteMoves(env, t, id, writes);
      MoreFits(id, faults, ran, from, Entry(t, WriteResult(id, writes)));
      if !env.run(g.value).Traced? { return ExitFailed; }
      return if writes then ExitOk else Crash;
    }
  }

  /** A read among the actions found the session's graph. */
  ghost predicate FoundIn(id: string, log: seq<Entry>, from: nat) {
    exists n: nat :: from < n < |log| && log[n].step == Read(id) && id in log[n].at.landed
  }

  ghost predicate FailedIn(id: string, log: seq<Entry>, from: nat, reason: string) {
    exists n: nat :: from < n < |log| && log[n].step == ReadFails(id, reason)
  }

  /** The clock was looked at past the deadline. */
  ghost predicate TimedOutIn(id: string, log: seq<Entry>, from: nat) {
    exists n: nat :: from < n < |log| && log[n].step == CheckClock(id) && log[n].at.now >= log[from].at.now + GRAPH_WAIT
  }

  /** Reads fail exactly when their fault says so. */
  ghost predicate FaultsFit(id: string, faults: nat -> Option<string>, log: seq<Entry>, from: nat) {
    forall n: nat | from < n < |log| ::
      && (log[n].step.Read? ==> faults(n) == None)
      && (log[n].step.ReadFails? ==> log[n].step.id == id && faults(n) == Some(log[n].step.reason))
  }

  /** No read found the graph, and the document says why: the failure of a read, or that none was found in time. */
  ghost predicate NotFoundAs(id: string, log: seq<Entry>, from: nat, d: Doc) {
    && !FoundIn(id, log, from)
    && (forall reason | FailedIn(id, log, from, reason) :: d == FaultDoc(reason))
    && ((exists reason :: FailedIn(id, log, from, reason)) || (TimedOutIn(id, log, from) && d == MissingDoc()))
  }

  /** The document reports what came of the wait, or of running the graph it found. */
  ghost predicate ReportIs(env: Env, id: string, log: seq<Entry>, from: nat, s: State, d: Doc) {
    if FoundIn(id, log, from) then id in s.handed && d == DocOf(env.run(s.handed[id])) else NotFoundAs(id, log, from, d)
  }

  /** What the end of the wait says of all of it. */
  lemma Waited(id: string, faults: nat -> Option<string>, log: seq<Entry>, from: nat, w: Worker, g: Option<Graph>)
    requires Loops(id, faults, log, from) && |log| > from + 1 && NothingYet(id, log, from, |log| - 1)
    requires Stopped(id, log[|log| - 1], log[from].at.now + GRAPH_WAIT, w, g)
    ensures FaultsFit(id, faults, log, from)
    ensures g.Some? <==> FoundIn(id, log, from)
    ensures g.Some? ==> w == Fetched(g.value)
    ensures g == None ==> w.Reporting? && NotFoundAs(id, log, from, w.doc)
  {
    hide MissingDoc, FaultDoc;
    var last := |log| - 1;
    forall n: nat | from < n < |log|
      ensures log[n].step.ReadFails? ==> n == last && log[n].step.id == id && faults(n) == Some(log[n].step.reason)
      ensures log[n].step.Read? ==> faults(n) == None
    {
      assert Follows(id, faults(n), log[n - 1].step, log[n].step);
      if n < last { assert Waits(id, log[n], log[from].at.now + GRAPH_WAIT); }
    }
    assert FaultsFit(id, faults, log, from);
    assert Follows(id, faults(last), log[last - 1].step, log[last].step);
    assert log[last].step == Read(id) && id in log[last].at.landed ==> FoundIn(id, log, from);
    assert log[last].step.ReadFails? ==> FailedIn(id, log, from, log[last].step.reason);
    assert log[last].step.CheckClock? ==> TimedOutIn(id, log, from);
  }

  /** What is done after the wait does not change what came of it. */
  lemma MoreFits(id: string, faults: nat -> Option<string>, log: seq<Entry>, from: nat, e: Entry)
    requires from < |log| && (e.step.RunTrace? || e.step.WriteResult?) && FaultsFit(id, faults, log, from)
    ensures FaultsFit(id, faults, log + [e], from)
    ensures FoundIn(id, log + [e], from) <==> FoundIn(id, log, from)
    ensures forall d | NotFoundAs(id, log, from, d) :: NotFoundAs(id, log + [e], from, d)
  {
    hide MissingDoc, FaultDoc;
    var more := log + [e];
    assert forall n: nat | n < |log| :: more[n] == log[n];
    forall n: nat | from < n < |more| ensures n < |log| || more[n] == e {
    }
    forall reason ensures FailedIn(id, more, from, reason) <==> FailedIn(id, log, from, reason) {
      StillFailed(id, log, from, e, reason);
    }
    StillFound(id, log, from, e);
    hide FoundIn, FailedIn, TimedOutIn;
  }

  lemma StillFailed(id: string, log: seq<Entry>, from: nat, e: Entry, reason: string)
    requires from < |log| && (e.step.RunTrace? || e.step.WriteResult?)
    ensures FailedIn(id, log + [e], from, reason) <==> FailedIn(id, log, from, reason)
  {
    if n: nat :| from < n < |log| && log[n].step == ReadFails(id, reason) {
      assert (log + [e])[n].step == ReadFails(id, reason);
    }
  }

  lemma StillFound(id: string, log: seq<Entry>, from: nat, e: Entry)
    requires from < |log| && (e.step.RunTrace? || e.step.WriteResult?)
    ensures FoundIn(id, log + [e], from) <==> FoundIn(id, log, from)
    ensures TimedOutIn(id, log, from) ==> TimedOutIn(id, log + [e], from)
  {
    var more := log + [e];
    if n: nat :| from < n < |log| && log[n].step == Read(id) && id in log[n].at.landed {
      assert more[n].step == Read(id);
    }
    if n: nat :| from < n < |log| && log[n].step == CheckClock(id) && log[n].at.now >= log[from].at.now + GRAPH_WAIT {
      assert more[n].step == CheckClock(id);
    }
  }

  lemma FetchedIsHanded(env: Env, s: State, id: string)
    requires Inv(env, s) && id in s.workers && s.workers[id].Fetched?
    ensures id in s.handed && s.handed[id] == s.workers[id].graph
  {
    assert WorkerInv(env, s, id);
  }

  lemma RunMoves(env: Env, s: State, id: string)
    requires id in s.workers && s.workers[id].Fetched?
    ensures var t := Next(env, s, RunTrace(id));
            && id in t.workers && t.workers[id] == Reporting(DocOf(env.run(s.workers[id].graph)), None)
            && t.handed == s.handed
  {
    hide DocOf;
  }

  lemma WriteMoves(env: Env, s: State, id: string, writes: bool)
    requires id in s.workers && s.workers[id].Reporting?
    ensures var t := Next(env, s, WriteResult(id, writes));
            && id in t.workers && t.workers[id] == Ended(writes) && t.handed == s.handed
            && (writes ==> ResultKey(id) in t.objects && t.objects[ResultKey(id)] == ResultObject(s.workers[id].doc))
  {
  }

  lemma RanOn(env: Env, others: nat -> seq<Step>, start: State, log: seq<Entry>, from: nat, s: State, t: State,
              step: Step)
    requires Ran(env, others, start, log, from, s) && t == After(env, s, others(|log|))
    ensures Ran(env, others, start, log + [Entry(t, step)], from, Next(env, t, step))
  {
    hide After, Next;
    var more := log + [Entry(t, step)];
    forall n: nat | n <= |log| ensures Left(env, start, more, from, n) == Left(env, start, log, from, n) {
      if n > from { assert more[n - 1] == log[n - 1]; }
    }
    hide Left;
    forall n: nat | from <= n < |more| ensures more[n].at == After(env, Left(env, start, more, from, n), others(n)) {
      if n < |log| {
        assert more[n] == log[n];
      } else {
        assert more[n] == Entry(t, step) && Left(env, start, more, from, n) == s;
      }
    }
    LeftLast(env, start, more, from);
  }

  lemma LeftLast(env: Env, start: State, log: seq<Entry>, from: nat)
    requires from < |log|
    ensures Left(env, start, log, from, |log|) == Next(env, log[|log| - 1].at, log[|log| - 1].step)
  {
  }

  lemma RanNone(env: Env, others: nat -> seq<Step>, log: seq<Entry>, s: State)
    ensures Ran(env, others, s, log, |log|, s)
  {
  }

  lemma LoopStarts(id: string, faults: nat -> Option<string>, log: seq<Entry>, from: nat)
    requires |log| == from + 1 && log[from].step == Boot(id)
    ensures Loops(id, faults, log, from) && NothingYet(id, log, from, |log|)
  {
  }

  /** One more action of the loop. */
  lemma LoopGoesOn(id: string, faults: nat -> Option<string>, log: seq<Entry>, from: nat, e: Entry)
    requires Loops(id, faults, log, from) && NothingYet(id, log, from, |log|)
    requires Follows(id, faults(|log|), log[|log| - 1].step, e.step)
    ensures Loops(id, faults, log + [e], from) && NothingYet(id, log + [e], from, |log|)
    ensures Waits(id, e, log[from].at.now + GRAPH_WAIT) ==> NothingYet(id, log + [e], from, |log| + 1)
  {
    hide Follows, Waits;
  }

  lemma BootMoves(env: Env, s: State, id: string)
    requires id in s.workers && s.workers[id].Booting?
    ensures var t := Next(env, s, Boot(id)); id in t.workers && t.workers[id] == Waiting(s.now + GRAPH_WAIT)
  {
    hide FaultDoc, MissingDoc, DocOf;
  }
}

/** The control plane's side: internal/gateway/handoff.go over a session store and a bucket. */
module HandoffGateway {
  import opened Text
  import opened Handoff
  import Stores

  class Gateway {
    const env: Env
    const store: Stores.MemStore
    var objects: map<Key, Object>

    constructor (env: Env, store: Stores.MemStore)
      ensures this.env == env && this.store == store && objects == map[]
    {
      this.env, this.store, objects := env, store, map[];
    }

    /** The shared state as a poll sees it. */
    ghost function Seen(): State
      reads this, store
    {
      State(objects, store.model.sessions.Keys, map[], map[], map[], 0)
    }

    /** Writes the graph where the worker looks, then stamps the session as active; a write that
        fails stamps nothing. */
    method HandOff(id: string, g: Graph, now: int, lands: bool) returns (ok: bool)
      requires store.Valid()
      modifies this, store
      ensures store.Valid()
      ensures ok <==> id != "" && lands && id in old(store.model).sessions
      ensures objects == if id != "" && lands then old(objects)[GraphKey(id) := GraphObject(g)] else old(objects)
      ensures store.model == if id != "" && lands then Stores.Touched(old(store.model), id, now) else old(store.model)
    {
      if id == "" { return false; }
      if !lands { return false; }
      objects := objects[GraphKey(id) := GraphObject(g)];
      ok := store.Touch(id, now);
    }

    /** None when the read fails for another reason than that nothing is there. */
    method GetResult(id: string, answers: bool) returns (r: Option<Answer>)
      ensures r.Some? <==> answers
      ensures r == Some(Pending) <==> answers && (ResultKey(id) !in objects || !objects[ResultKey(id)].ResultObject?)
      ensures r.Some? && r != Some(Pending) ==> r == Some(ReadDoc(env, objects[ResultKey(id)].doc))
      // What the worker wrote for an outcome is answered as that outcome, unless it is too long to be read.
      ensures forall o | r.Some? && r != Some(Pending) && objects[ResultKey(id)].doc == DocOf(o) ::
                r == Some(if env.size(DocOf(o)) > READ_CAP then Unreadable else AnswerOf(o))
    {
      forall o ensures ReadDoc(env, DocOf(o)) == if env.size(DocOf(o)) > READ_CAP then Unreadable else AnswerOf(o) {
        ReadsAs(env, o);
      }
      hide DocOf;
      if !answers { return None; }
      if ResultKey(id) !in objects || !objects[ResultKey(id)].ResultObject? { return Some(Pending); }
      var d := objects[ResultKey(id)].doc;
      if env.size(d) > READ_CAP { return Some(Unreadable); }
      if d.error != "" { return Some(Failed(d.error)); }
      return Some(Done(d.saveRef, d.vizRef, d.nnsight));
    }

    /** Answers what the protocol's poll answers, or nothing when the result could not be read; only a pending
        one touches anything, and only to keep the session warm. */
    method Collect(id: string, now: int, answers: bool) returns (r: Option<Answer>)
      requires store.Valid()
      modifies store
      ensures store.Valid()
      ensures r == None <==> !answers && id in old(store.model).sessions
      ensures r.Some? ==> r.value == Handoff.Collect(env, old(Seen()), id)
      ensures store.model == if r == Some(Pending) then Stores.Touched(old(store.model), id, now) else old(store.model)
    {
      var row := store.Get(id);
      if row == None { return Some(Unknown); }
      r := GetResult(row.value.id, answers);
      if r == Some(Pending) {
        var known := store.Touch(id, now);
      }
    }
  }
}

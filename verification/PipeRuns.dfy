/** Every interleaving of the threads on which nng delivers pipe events: callback rounds run
without the lock, a remove event waits for the running rounds of its pipe, and events of one pipe
can arrive out of order. */
module PipeRuns {
  import opened Wrappers
  import opened PipeTable

  // One call of `_handle_pipe_event`.
  datatype Handler = Waiting(thread: ThreadId, rec: RecordId) | InRound(thread: ThreadId, rec: RecordId) | Finished

  datatype Round = PreRound | PostRound | RemoveRound

  datatype State = State(
    table: Table,
    handlers: map<(PipeId, Event), Handler>,  // nng delivers each event at most once per pipe id
    closed: set<PipeObject>,                  // pipes on which close() has returned
    log: map<PipeId, seq<Round>>,             // the callback rounds started, by pipe id
    // What happened, apart from the tables.
    made: map<PipeId, PipeObject>,            // the object that ADD_PRE came with
    rejected: set<PipeId>,                    // that object was closed when the pre callbacks ended
    overtaken: set<PipeId>,                   // REM_POST came before ADD_PRE
    late: set<PipeId>,                        // ADD_POST came after REM_POST
    remembered: seq<PipeId>,                  // see Remembers
    forgotten: set<PipeId>)                   // see Forgets

  datatype Step =
    | Deliver(id: PipeId, event: Event, thread: ThreadId, rec: RecordId, pipe: PipeObject)
    | Proceed(id: PipeId)
    | Finish(id: PipeId, event: Event)
    | ClosePipe(pipe: PipeObject)

  function HandlerOf(s: State, id: PipeId, event: Event): Option<Handler> {
    if (id, event) in s.handlers then Some(s.handlers[(id, event)]) else None
  }

  function LogOf(s: State, id: PipeId): seq<Round> {
    if id in s.log then s.log[id] else []
  }

  predicate Runs(h: Option<Handler>, thread: ThreadId) {
    h.Some? && h.value.InRound? && h.value.thread == thread
  }

  /** nng delivers ADD_POST after the dispatch of ADD_PRE returned, and REM_POST on a thread that is
  not running a callback of that pipe; `rec` and `pipe` name new objects. */
  predicate Enabled(s: State, step: Step) {
    match step
    case Deliver(id, event, thread, rec, pipe) =>
      && HandlerOf(s, id, event).None?
      && (event.AddPost? ==> HandlerOf(s, id, AddPre) == Some(Finished))
      && (event.RemPost? ==> !Runs(HandlerOf(s, id, AddPre), thread) && !Runs(HandlerOf(s, id, AddPost), thread))
      && rec !in s.table.records && pipe !in s.closed
    case Proceed(id) =>
      && HandlerOf(s, id, RemPost).Some? && s.handlers[(id, RemPost)].Waiting?
      && s.handlers[(id, RemPost)].rec in s.table.records
      && !MustWait(s.table, s.handlers[(id, RemPost)].rec, s.handlers[(id, RemPost)].thread)
    case Finish(id, event) =>
      && HandlerOf(s, id, event).Some? && s.handlers[(id, event)].InRound?
      && s.handlers[(id, event)].rec in s.table.records
    case ClosePipe(_) => true
  }

  function RoundOf(event: Event): Round {
    match event
    case AddPre => PreRound
    case AddPost => PostRound
    case RemPost => RemoveRound
  }

  function Recent(ids: seq<PipeId>): seq<PipeId> {
    if |ids| > MAX_REMOVED_PIPE_IDS then ids[|ids| - MAX_REMOVED_PIPE_IDS..] else ids
  }

  /** A late connect event of a pipe that is already removed, and whose id is not among the 1024
  remembered last. */
  predicate Forgets(s: State, step: Step) {
    && step.Deliver? && !step.event.RemPost?
    && HandlerOf(s, step.id, RemPost) == Some(Finished) && step.id !in Recent(s.remembered)
  }

  /** A connect event of a removed pipe can still come, and must be dropped, unless the post round began. */
  predicate Remembers(s: State, step: Step) {
    && step.Deliver? && step.event.RemPost?
    && (HandlerOf(s, step.id, AddPost).None? || step.id in s.rejected)
  }

  function Apply(s: State, step: Step): State
    requires Enabled(s, step)
  {
    match step
    case Deliver(id, event, thread, rec, pipe) =>
      var (table, entry) := Begin(s.table, id, event, thread, rec, pipe);
      var handler := match entry
        case Return => Finished
        case Wait(r) => Waiting(thread, r)
        case Run(r) => InRound(thread, r);
      s.(table := table,
         handlers := s.handlers[(id, event) := handler],
         log := if entry.Run? then s.log[id := LogOf(s, id) + [RoundOf(event)]] else s.log,
         made := if event.AddPre? then s.made[id := pipe] else s.made,
         overtaken := if event.RemPost? && HandlerOf(s, id, AddPre).None? then s.overtaken + {id} else s.overtaken,
         late := if event.AddPost? && HandlerOf(s, id, RemPost).Some? then s.late + {id} else s.late,
         remembered := if Remembers(s, step) then s.remembered + [id] else s.remembered,
         forgotten := if Forgets(s, step) then s.forgotten + {id} else s.forgotten)
    case Proceed(id) =>
      var h := s.handlers[(id, RemPost)];
      s.(table := StartRunning(s.table, h.rec, h.thread),
         handlers := s.handlers[(id, RemPost) := InRound(h.thread, h.rec)],
         log := if s.table.records[h.rec].rejected then s.log else s.log[id := LogOf(s, id) + [RemoveRound]])
    case Finish(id, event) =>
      var h := s.handlers[(id, event)];
      var closed := s.table.records[h.rec].pipe in s.closed;
      var table := End(s.table, id, event, h.thread, h.rec, closed);
      s.(table := table,
         handlers := s.handlers[(id, event) := Finished],
         rejected := if event.AddPre? && id in s.made && s.made[id] in s.closed then s.rejected + {id} else s.rejected)
    case ClosePipe(pipe) => s.(closed := s.closed + {pipe})
  }

  predicate Initial(s: State) {
    s == State(Table(map[], map[], map[], []), map[], {}, map[], map[], {}, {}, {}, [], {})
  }

  // ---------- what is promised for one pipe id ----------

  /** Pre, post, remove, each at most once and in this order; post may be missing. */
  predicate WellOrdered(log: seq<Round>) {
    || log == [] || log == [PreRound] || log == [PreRound, PostRound]
    || log == [PreRound, RemoveRound] || log == [PreRound, PostRound, RemoveRound]
  }

  /** A pipe closed in its pre callbacks gets no later round, and a pipe whose REM_POST overtook
  ADD_PRE gets none at all. */
  predicate Promised(s: State, id: PipeId) {
    && WellOrdered(LogOf(s, id))
    && (id in s.rejected ==> LogOf(s, id) == [PreRound])
    && (id in s.overtaken ==> LogOf(s, id) == [])
  }

  /** The rounds that the arrival of the events, the close of the pipe and the end of the wait call
  for: a pre round unless the removal came first, a post round if it came in time and the pipe was
  not closed in its pre callbacks, and then, the wait being over, a remove round. */
  function Expected(pre: Option<Handler>, post: Option<Handler>, rem: Option<Handler>,
                    rejected: bool, overtaken: bool, late: bool): seq<Round> {
    if pre.None? || overtaken then []
    else
      [PreRound] + (if post.Some? && !late && !rejected then [PostRound] else [])
      + (if rem.Some? && !rem.value.Waiting? && !rejected then [RemoveRound] else [])
  }

  function ExpectedLog(s: State, id: PipeId): seq<Round> {
    Expected(HandlerOf(s, id, AddPre), HandlerOf(s, id, AddPost), HandlerOf(s, id, RemPost),
             id in s.rejected, id in s.overtaken, id in s.late)
  }

  // ---------- the invariant of one pipe id ----------

  // Everything that the dispatcher and the history hold about one pipe id.
  datatype Snap = Snap(
    pre: Option<Handler>, post: Option<Handler>, rem: Option<Handler>,
    rec: Option<RecordId>, record: Option<Record>, listed: Option<PipeObject>,
    inRemoved: bool, log: seq<Round>, made: Option<PipeObject>,
    rejected: bool, overtaken: bool, late: bool, remembered: bool, forgotten: bool)

  function SnapOf(s: State, id: PipeId): Snap {
    Snap(HandlerOf(s, id, AddPre), HandlerOf(s, id, AddPost), HandlerOf(s, id, RemPost),
         if id in s.table.states then Some(s.table.states[id]) else None,
         if Tracked(s.table, id) then Some(RecordOf(s.table, id)) else None,
         if id in s.table.pipes then Some(s.table.pipes[id]) else None,
         id in s.table.removed, LogOf(s, id), if id in s.made then Some(s.made[id]) else None,
         id in s.rejected, id in s.overtaken, id in s.late, id in s.remembered, id in s.forgotten)
  }

  function Count(h: Option<Handler>, thread: ThreadId): nat {
    if Runs(h, thread) then 1 else 0
  }

  predicate Active(h: Option<Handler>) {
    h.Some? && !h.value.Finished?
  }

  predicate IsInRound(h: Option<Handler>) {
    h.Some? && h.value.InRound?
  }

  /** The handlers of a pipe work on its current record, and a remove round runs alone. */
  predicate Exclusive(p: Snap) {
    && (p.rec.Some? <==> p.record.Some?)
    && (Active(p.pre) ==> p.pre.value.InRound? && p.rec == Some(p.pre.value.rec))
    && (Active(p.post) ==> p.post.value.InRound? && p.rec == Some(p.post.value.rec) && p.pre == Some(Finished))
    && (Active(p.rem) ==> p.rec == Some(p.rem.value.rec) && p.record.value.removing)
    && (p.record.Some? ==>
          && (p.record.value.removing ==> Active(p.rem))
          && (p.record.value.added ==> p.post.Some?))
    && (IsInRound(p.rem) ==> !Active(p.pre) && !Active(p.post))
    && (Active(p.rem) ==> !Runs(p.pre, p.rem.value.thread) && !Runs(p.post, p.rem.value.thread))
    && (p.post.Some? ==> p.pre == Some(Finished))
    && (IsInRound(p.pre) ==> p.made == Some(p.record.value.pipe) && p.log != [])
  }

  /** `running` holds the threads of the running rounds. */
  ghost predicate Counted(p: Snap) {
    p.record.Some? ==>
      forall t :: p.record.value.running[t] == Count(p.pre, t) + Count(p.post, t) + Count(p.rem, t)
  }

  /** The socket's pipes are the tracked and not rejected ones. */
  predicate Listed(p: Snap) {
    if p.record.Some? && !p.record.value.rejected then p.listed == Some(p.record.value.pipe) else p.listed.None?
  }

  /** As long as no late event found its id forgotten. */
  predicate Clean(p: Snap) {
    && (if p.record.Some? then CleanTracked(p, p.record.value) else CleanUntracked(p))
    && (p.inRemoved ==> p.rem.Some? && (p.record.Some? ==> !p.record.value.added))
    && p.log == Expected(p.pre, p.post, p.rem, p.rejected, p.overtaken, p.late)
  }

  predicate CleanTracked(p: Snap, r: Record) {
    && p.pre.Some? && !p.overtaken && p.rejected == r.rejected && p.made == Some(r.pipe)
    && (p.rem.Some? ==> r.removing && (r.added || p.remembered))
    && (r.rejected ==> !r.added && p.pre == Some(Finished))
    && (r.added <==> p.post.Some? && !p.late && !p.rejected)
  }

  predicate CleanUntracked(p: Snap) {
    && (p.rem.None? ==> p.pre.None? && p.post.None? && !p.rejected)
    && (p.rem.Some? ==> p.rem == Some(Finished))
    && (p.rem.Some? && (p.pre.None? || p.post.None?) ==> p.remembered)
    && (p.pre.None? && p.rem.Some? ==> p.overtaken)
    && (p.rejected ==> !p.overtaken)
  }

  /** How the history of a pipe hangs together. */
  predicate History(p: Snap) {
    && (p.overtaken || p.late || p.remembered ==> p.rem.Some?)
    && (p.late ==> p.post.Some?)
    && (p.rem.Some? ==> (p.remembered <==> p.post.None? || p.late || p.rejected))
    && (p.rejected ==> p.pre.Some? && p.log != [])
  }

  /** Once a late event is forgotten the promise is broken for good. */
  predicate Broken(p: Snap) {
    && ((p.overtaken && p.log != []) || (p.late && PostRound in p.log))
    && (!WellOrdered(p.log) || (p.rejected && p.log != [PreRound]) || (p.overtaken && p.log != []))
  }

  ghost predicate IdOk(p: Snap) {
    && Exclusive(p) && Counted(p) && Listed(p)
    && History(p)
    && (if p.forgotten then Broken(p) else Clean(p))
  }

  predicate TableOk(s: State) {
    && s.table.removed == Recent(s.remembered)
    && (forall i, j :: 0 <= i < j < |s.remembered| ==> s.remembered[i] != s.remembered[j])
    && (forall id :: id in s.remembered ==> HandlerOf(s, id, RemPost).Some?)
    && (forall x, y :: x in s.table.states && y in s.table.states && x != y ==> s.table.states[x] != s.table.states[y])
  }

  ghost predicate Inv(s: State) {
    TableOk(s) && forall id :: IdOk(SnapOf(s, id))
  }

  // ---------- every step keeps the invariant ----------

  lemma Facts(s: State, id: PipeId)
    requires Inv(s)
    ensures IdOk(SnapOf(s, id))
    ensures id in s.table.states ==> Tracked(s.table, id)
  {
  }

  /** A step concerns one pipe id; another id can at most be dropped from the remembered ones. */
  predicate SameButForgotten(s: State, s': State, x: PipeId) {
    && SnapOf(s', x) == SnapOf(s, x).(inRemoved := x in s'.table.removed)
    && (x in s'.table.removed ==> x in s.table.removed)
  }

  lemma BeginOther(t: Table, id: PipeId, event: Event, me: ThreadId, rec: RecordId, pipe: PipeObject, x: PipeId)
    requires x != id && rec !in t.records
    requires x in t.states ==> Tracked(t, x) && (id in t.states ==> t.states[id] != t.states[x])
    ensures var t' := Begin(t, id, event, me, rec, pipe).0;
      && (x in t'.states <==> x in t.states) && (x in t.states ==> t'.states[x] == t.states[x])
      && (Tracked(t', x) <==> Tracked(t, x)) && (Tracked(t, x) ==> RecordOf(t', x) == RecordOf(t, x))
      && (x in t'.pipes <==> x in t.pipes) && (x in t.pipes ==> t'.pipes[x] == t.pipes[x])
      && (x in t'.removed ==> x in t.removed)
  {
  }

  lemma EndOther(t: Table, id: PipeId, event: Event, me: ThreadId, rec: RecordId, closed: bool, x: PipeId)
    requires x != id && rec in t.records
    requires x in t.states ==> Tracked(t, x) && t.states[x] != rec
    ensures var t' := End(t, id, event, me, rec, closed);
      && (x in t'.states <==> x in t.states) && (x in t.states ==> t'.states[x] == t.states[x])
      && (Tracked(t', x) <==> Tracked(t, x)) && (Tracked(t, x) ==> RecordOf(t', x) == RecordOf(t, x))
      && (x in t'.pipes <==> x in t.pipes) && (x in t.pipes ==> t'.pipes[x] == t.pipes[x])
      && t'.removed == t.removed
  {
  }

  lemma OtherIdsDeliver(s: State, step: Step, x: PipeId)
    requires Inv(s) && Enabled(s, step) && step.Deliver? && x != step.id
    ensures SameButForgotten(s, Apply(s, step), x)
  {
    Facts(s, x);
    BeginOther(s.table, step.id, step.event, step.thread, step.rec, step.pipe, x);
  }

  lemma OtherIdsProceed(s: State, id: PipeId, x: PipeId)
    requires Inv(s) && Enabled(s, Proceed(id)) && x != id
    ensures SameButForgotten(s, Apply(s, Proceed(id)), x)
  {
    Facts(s, x);
    Facts(s, id);
    assert SnapOf(s, id).rec == Some(s.handlers[(id, RemPost)].rec);
  }

  lemma OtherIdsFinish(s: State, id: PipeId, event: Event, x: PipeId)
    requires Inv(s) && Enabled(s, Finish(id, event)) && x != id
    ensures SameButForgotten(s, Apply(s, Finish(id, event)), x)
  {
    Facts(s, x);
    Facts(s, id);
    var h := s.handlers[(id, event)];
    var s' := Apply(s, Finish(id, event));
    assert SnapOf(s, id).rec == Some(h.rec);
    EndOther(s.table, id, event, h.thread, h.rec, s.table.records[h.rec].pipe in s.closed, x);
    FinishOtherFields(s, id, event, x);
  }

  lemma FinishOtherFields(s: State, id: PipeId, event: Event, x: PipeId)
    requires Enabled(s, Finish(id, event)) && x != id
    ensures var s' := Apply(s, Finish(id, event));
      && (forall e :: HandlerOf(s', x, e) == HandlerOf(s, x, e))
      && LogOf(s', x) == LogOf(s, x) && (x in s'.rejected <==> x in s.rejected)
      && s'.overtaken == s.overtaken && s'.remembered == s.remembered && s'.forgotten == s.forgotten
  {
  }

  lemma OtherIdsKept(s: State, step: Step, x: PipeId)
    requires Inv(s) && Enabled(s, step) && (step.ClosePipe? || x != step.id)
    ensures IdOk(SnapOf(Apply(s, step), x))
  {
    Facts(s, x);
    if step.ClosePipe? {
      assert SnapOf(Apply(s, step), x) == SnapOf(s, x);
    } else {
      match step
      case Deliver(_, _, _, _, _) => OtherIdsDeliver(s, step, x);
      case Proceed(id) => OtherIdsProceed(s, id, x);
      case Finish(id, event) => OtherIdsFinish(s, id, event, x);
    }
  }

  lemma BrokenForGood(p: Snap, p': Snap)
    requires Broken(p) && (p.rejected ==> p.log != [])
    requires p'.log == p.log || (|p'.log| == |p.log| + 1 && p'.log[..|p.log|] == p.log)
    requires p.rejected ==> p'.rejected
    requires (p.overtaken ==> p'.overtaken) && (p.late ==> p'.late)
    ensures Broken(p')
  {
    if p'.log != p.log && !WellOrdered(p.log) && WellOrdered(p'.log) {
      assert p.log == p'.log[..|p'.log| - 1];
    }
  }

  // ---------- what a step does to its own pipe id ----------

  function SetHandler(p: Snap, event: Event, h: Handler): Snap {
    match event
    case AddPre => p.(pre := Some(h))
    case AddPost => p.(post := Some(h))
    case RemPost => p.(rem := Some(h))
  }

  function HandlerIn(p: Snap, event: Event): Option<Handler> {
    match event
    case AddPre => p.pre
    case AddPost => p.post
    case RemPost => p.rem
  }

  function Running(r: Record, thread: ThreadId): Record {
    r.(running := r.running + multiset{thread})
  }

  /** What the history keeps of a remove event. */
  function RemPostSeen(p: Snap, h: Handler): Snap {
    p.(rem := Some(h), overtaken := p.overtaken || p.pre.None?,
       remembered := p.remembered || p.post.None? || p.rejected)
  }

  function BeginRemove(p: Snap, thread: ThreadId, rec: RecordId, r: Record): Snap {
    RemPostSeen(p, Waiting(thread, rec)).(record := Some(r.(removing := true)), inRemoved := p.inRemoved || !r.added)
  }

  function RemPostOn(p: Snap, thread: ThreadId): Snap {
    if p.inRemoved || (p.record.Some? && p.record.value.removing) then RemPostSeen(p, Finished)
    else if p.record.None? || p.rec.None? then RemPostSeen(p, Finished).(inRemoved := true)
    else BeginRemove(p, thread, p.rec.value, p.record.value)
  }

  function IsLate(p: Snap): bool {
    p.forgotten || (p.rem == Some(Finished) && !p.inRemoved)
  }

  function AddPreSeen(p: Snap, h: Handler, pipe: PipeObject): Snap {
    p.(pre := Some(h), made := Some(pipe), forgotten := IsLate(p))
  }

  function TrackPre(p: Snap, thread: ThreadId, rec: RecordId, pipe: PipeObject): Snap {
    AddPreSeen(p, InRound(thread, rec), pipe)
      .(rec := Some(rec), record := Some(Running(NewRecord(pipe), thread)), listed := Some(pipe),
        log := p.log + [PreRound])
  }

  function AddPreOn(p: Snap, thread: ThreadId, rec: RecordId, pipe: PipeObject): Snap {
    if p.inRemoved || p.record.Some? then AddPreSeen(p, Finished, pipe) else TrackPre(p, thread, rec, pipe)
  }

  function AddPostSeen(p: Snap, h: Handler): Snap {
    p.(post := Some(h), late := p.late || p.rem.Some?, forgotten := IsLate(p))
  }

  function RunPost(p: Snap, thread: ThreadId, rec: RecordId, r: Record): Snap {
    AddPostSeen(p, InRound(thread, rec))
      .(rec := Some(rec), record := Some(Running(r.(added := true), thread)),
        listed := Some(r.pipe), log := p.log + [PostRound])
  }

  function AddPostOn(p: Snap, thread: ThreadId, rec: RecordId, pipe: PipeObject): Snap {
    if p.inRemoved then AddPostSeen(p, Finished)
    else if p.record.None? || p.rec.None? then RunPost(p, thread, rec, NewRecord(pipe))
    else
      var r := p.record.value;
      if r.removing || r.added || r.rejected then AddPostSeen(p, Finished)
      else RunPost(p, thread, p.rec.value, r)
  }

  function ProceedOn(p: Snap): Snap
    requires p.rem.Some? && p.rem.value.Waiting? && p.record.Some?
  {
    var h, r := p.rem.value, p.record.value;
    p.(rem := Some(InRound(h.thread, h.rec)), record := Some(Running(r, h.thread)),
       log := if r.rejected then p.log else p.log + [RemoveRound])
  }

  function FinishOn(p: Snap, event: Event, closed: bool): Snap
    requires IsInRound(HandlerIn(p, event)) && p.record.Some?
  {
    var r := p.record.value.(running := p.record.value.running - multiset{HandlerIn(p, event).value.thread});
    var p' := SetHandler(p, event, Finished);
    if event.RemPost? then
      p'.(rec := None, record := None, listed := None)
    else if event.AddPre? && !r.added && closed then
      p'.(record := Some(r.(rejected := true)), listed := None, rejected := true)
    else
      p'.(record := Some(r), rejected := p.rejected || (event.AddPre? && closed))
  }

  lemma RemPostSnap(s: State, id: PipeId, thread: ThreadId, rec: RecordId, pipe: PipeObject)
    requires Inv(s) && Enabled(s, Deliver(id, RemPost, thread, rec, pipe))
    ensures SnapOf(Apply(s, Deliver(id, RemPost, thread, rec, pipe)), id) == RemPostOn(SnapOf(s, id), thread)
  {
    Facts(s, id);
    RemembersIt(s.table.removed, id);
  }

  lemma RemembersIt(removed: seq<PipeId>, id: PipeId)
    ensures id in Remember(removed, id) || id in removed
  {
    if id !in removed {
      var ids := removed + [id];
      assert ids[|removed|] == id;
      if |ids| > MAX_REMOVED_PIPE_IDS { assert ids[1..][|removed| - 1] == id; }
    }
  }

  lemma AddPreSnap(s: State, id: PipeId, thread: ThreadId, rec: RecordId, pipe: PipeObject)
    requires (id in s.table.states ==> Tracked(s.table, id)) && Enabled(s, Deliver(id, AddPre, thread, rec, pipe))
    requires s.table.removed == Recent(s.remembered)
    ensures SnapOf(Apply(s, Deliver(id, AddPre, thread, rec, pipe)), id) == AddPreOn(SnapOf(s, id), thread, rec, pipe)
  {
  }

  lemma BeginKnownPost(t: Table, id: PipeId, thread: ThreadId, rec: RecordId, pipe: PipeObject)
    requires Tracked(t, id) && id !in t.removed
    ensures var (t', entry) := Begin(t, id, AddPost, thread, rec, pipe); var r := RecordOf(t, id);
      && t'.removed == t.removed
      && (if r.removing || r.added || r.rejected then t' == t && entry == Return
          else
            && entry == Run(t.states[id])
            && Tracked(t', id) && t'.states[id] == t.states[id]
            && RecordOf(t', id) == Running(r.(added := true), thread)
            && id in t'.pipes && t'.pipes[id] == r.pipe)
  {
  }

  lemma KnownPostSnap(s: State, id: PipeId, thread: ThreadId, rec: RecordId, pipe: PipeObject)
    requires Tracked(s.table, id) && Enabled(s, Deliver(id, AddPost, thread, rec, pipe))
    requires s.table.removed == Recent(s.remembered)
    ensures SnapOf(Apply(s, Deliver(id, AddPost, thread, rec, pipe)), id) == AddPostOn(SnapOf(s, id), thread, rec, pipe)
  {
    if id !in s.table.removed {
      BeginKnownPost(s.table, id, thread, rec, pipe);
    }
  }

  lemma UnknownPostSnap(s: State, id: PipeId, thread: ThreadId, rec: RecordId, pipe: PipeObject)
    requires id !in s.table.states && Enabled(s, Deliver(id, AddPost, thread, rec, pipe))
    requires s.table.removed == Recent(s.remembered)
    ensures SnapOf(Apply(s, Deliver(id, AddPost, thread, rec, pipe)), id) == AddPostOn(SnapOf(s, id), thread, rec, pipe)
  {
  }

  lemma ProceedSnap(s: State, id: PipeId)
    requires Inv(s) && Enabled(s, Proceed(id))
    ensures var p := SnapOf(s, id);
      && p.rem.Some? && p.rem.value.Waiting? && p.record.Some?
      && (forall x :: x in p.record.value.running ==> x == p.rem.value.thread)
      && SnapOf(Apply(s, Proceed(id)), id) == ProceedOn(p)
  {
    Facts(s, id);
    assert SnapOf(s, id).rec == Some(s.handlers[(id, RemPost)].rec);
  }

  lemma FinishSnap(s: State, id: PipeId, event: Event) returns (closed: bool)
    requires Inv(s) && Enabled(s, Finish(id, event))
    ensures var p := SnapOf(s, id);
      && IsInRound(HandlerIn(p, event)) && p.record.Some?
      && SnapOf(Apply(s, Finish(id, event)), id) == FinishOn(p, event, closed)
  {
    Facts(s, id);
    var h := s.handlers[(id, event)];
    assert HandlerIn(SnapOf(s, id), event) == Some(h);
    assert SnapOf(s, id).rec == Some(h.rec);
    closed := s.table.records[h.rec].pipe in s.closed;
  }

  lemma RemPostKeepsExclusive(p: Snap, thread: ThreadId)
    requires Exclusive(p) && Counted(p) && Listed(p)
    requires p.rem.None? && !Runs(p.pre, thread) && !Runs(p.post, thread)
    ensures Exclusive(RemPostOn(p, thread)) && Counted(RemPostOn(p, thread)) && Listed(RemPostOn(p, thread))
  {
  }

  lemma RemPostKeepsClean(p: Snap, thread: ThreadId)
    requires IdOk(p) && p.rem.None? && !p.forgotten
    ensures Clean(RemPostOn(p, thread))
  {
  }

  lemma RemPostKeeps(p: Snap, thread: ThreadId)
    requires IdOk(p) && p.rem.None? && !Runs(p.pre, thread) && !Runs(p.post, thread)
    ensures IdOk(RemPostOn(p, thread))
  {
    RemPostKeepsExclusive(p, thread);
    if p.forgotten {
      BrokenForGood(p, RemPostOn(p, thread));
    } else {
      RemPostKeepsClean(p, thread);
    }
  }

  lemma AddPreKeeps(p: Snap, thread: ThreadId, rec: RecordId, pipe: PipeObject)
    requires IdOk(p) && p.pre.None?
    ensures IdOk(AddPreOn(p, thread, rec, pipe))
  {
    if p.forgotten {
      BrokenForGood(p, AddPreOn(p, thread, rec, pipe));
    }
  }

  /** A forgotten post event breaks the order, because the remove round, or nothing, came before it. */
  lemma AddPostForgotten(p: Snap, p': Snap)
    requires Clean(p) && p.record.None? && p.pre == Some(Finished) && p.post.None? && p.rem == Some(Finished)
    requires p'.log == p.log + [PostRound] && p'.rejected == p.rejected && p'.overtaken == p.overtaken && p'.late
    ensures Broken(p')
  {
    assert p'.log[|p.log|] == PostRound;
    assert |p.log| > 1 ==> p'.log[1] == p.log[1];
  }

  lemma AddPostKeepsExclusive(p: Snap, thread: ThreadId, rec: RecordId, pipe: PipeObject)
    requires Exclusive(p) && Listed(p) && p.post.None? && p.pre == Some(Finished)
    ensures Exclusive(AddPostOn(p, thread, rec, pipe)) && Listed(AddPostOn(p, thread, rec, pipe))
  {
  }

  lemma RunPostKeepsCounted(p: Snap, thread: ThreadId, rec: RecordId, r: Record)
    requires p.post.None? && (forall t :: r.running[t] == Count(p.pre, t) + Count(p.post, t) + Count(p.rem, t))
    ensures Counted(RunPost(p, thread, rec, r))
  {
  }

  lemma AddPostKeepsCounted(p: Snap, thread: ThreadId, rec: RecordId, pipe: PipeObject)
    requires Exclusive(p) && Counted(p) && p.post.None? && p.pre == Some(Finished)
    ensures Counted(AddPostOn(p, thread, rec, pipe))
  {
    if p.record.None? {
      RunPostKeepsCounted(p, thread, rec, NewRecord(pipe));
    } else {
      RunPostKeepsCounted(p, thread, p.rec.value, p.record.value);
    }
  }

  lemma AddPostKeepsClean(p: Snap, thread: ThreadId, rec: RecordId, pipe: PipeObject)
    requires IdOk(p) && p.post.None? && p.pre == Some(Finished) && !AddPostOn(p, thread, rec, pipe).forgotten
    ensures Clean(AddPostOn(p, thread, rec, pipe))
  {
  }

  lemma AddPostKeeps(p: Snap, thread: ThreadId, rec: RecordId, pipe: PipeObject)
    requires IdOk(p) && p.post.None? && p.pre == Some(Finished)
    ensures IdOk(AddPostOn(p, thread, rec, pipe))
  {
    var p' := AddPostOn(p, thread, rec, pipe);
    AddPostKeepsExclusive(p, thread, rec, pipe);
    AddPostKeepsCounted(p, thread, rec, pipe);
    if p.forgotten {
      BrokenForGood(p, p');
    } else if p'.forgotten {
      AddPostForgotten(p, p');
    } else {
      AddPostKeepsClean(p, thread, rec, pipe);
    }
  }

  lemma ActiveCounts(h: Option<Handler>)
    ensures IsInRound(h) ==> Count(h, h.value.thread) == 1
  {
  }

  lemma ProceedKeeps(p: Snap)
    requires IdOk(p) && p.rem.Some? && p.rem.value.Waiting? && p.record.Some?
    requires forall x :: x in p.record.value.running ==> x == p.rem.value.thread
    ensures IdOk(ProceedOn(p))
  {
    forall t ensures Count(p.pre, t) == 0 && Count(p.post, t) == 0 {
      assert t in p.record.value.running <==> p.record.value.running[t] > 0;
    }
    ActiveCounts(p.pre);
    ActiveCounts(p.post);
    if p.forgotten {
      BrokenForGood(p, ProceedOn(p));
    }
  }

  lemma FinishKeepsExclusive(p: Snap, event: Event, closed: bool)
    requires Exclusive(p) && Counted(p) && Listed(p) && IsInRound(HandlerIn(p, event)) && p.record.Some?
    ensures var p' := FinishOn(p, event, closed);
      Exclusive(p') && Counted(p') && Listed(p')
  {
  }

  lemma FinishKeeps(p: Snap, event: Event, closed: bool)
    requires IdOk(p) && IsInRound(HandlerIn(p, event)) && p.record.Some?
    ensures IdOk(FinishOn(p, event, closed))
  {
    FinishKeepsExclusive(p, event, closed);
    var p' := FinishOn(p, event, closed);
    assert p'.log == p.log;
    if p.forgotten {
      BrokenForGood(p, p');
    }
  }

  lemma RememberKeepsRecent(ids: seq<PipeId>, id: PipeId)
    requires id !in Recent(ids)
    ensures Remember(Recent(ids), id) == Recent(ids + [id])
  {
  }

  /** The dispatcher remembers an id in `_removed_pipe_ids` exactly when the history calls for it. */
  lemma RemembersAsCalledFor(s: State, step: Step)
    requires Inv(s) && Enabled(s, step) && step.Deliver?
    ensures Apply(s, step).table.removed
      == if Remembers(s, step) then Remember(s.table.removed, step.id) else s.table.removed
    ensures Remembers(s, step) ==> step.id !in s.remembered && step.id !in s.table.removed
  {
    Facts(s, step.id);
  }

  lemma DeliverKeepsRemembered(s: State, step: Step)
    requires Inv(s) && Enabled(s, step) && step.Deliver?
    ensures var s' := Apply(s, step);
      && s'.table.removed == Recent(s'.remembered)
      && (forall i, j :: 0 <= i < j < |s'.remembered| ==> s'.remembered[i] != s'.remembered[j])
      && (forall id :: id in s'.remembered ==> HandlerOf(s', id, RemPost).Some?)
  {
    RemembersAsCalledFor(s, step);
    if Remembers(s, step) {
      RememberKeepsRecent(s.remembered, step.id);
    }
  }

  lemma DeliverKeepsRecords(s: State, step: Step)
    requires Inv(s) && Enabled(s, step) && step.Deliver?
    ensures var t' := Apply(s, step).table;
      forall x, y :: x in t'.states && y in t'.states && x != y ==> t'.states[x] != t'.states[y]
  {
    var s' := Apply(s, step);
    Facts(s, step.id);
    forall x | x in s.table.states ensures s.table.states[x] != step.rec {
      Facts(s, x);
    }
    assert forall x :: x in s'.table.states && x != step.id ==>
      x in s.table.states && s'.table.states[x] == s.table.states[x];
  }

  lemma KeepsInv(s: State, step: Step)
    requires Inv(s) && Enabled(s, step)
    ensures Inv(Apply(s, step))
  {
    if step.Deliver? {
      DeliverKeepsRemembered(s, step);
      DeliverKeepsRecords(s, step);
    }
    forall x ensures IdOk(SnapOf(Apply(s, step), x)) {
      Facts(s, x);
      if step.ClosePipe? || x != step.id {
        OtherIdsKept(s, step, x);
      } else {
        match step
        case Deliver(id, AddPre, thread, rec, pipe) =>
          AddPreSnap(s, id, thread, rec, pipe);
          AddPreKeeps(SnapOf(s, id), thread, rec, pipe);
        case Deliver(id, AddPost, thread, rec, pipe) =>
          if Tracked(s.table, id) {
            KnownPostSnap(s, id, thread, rec, pipe);
          } else {
            UnknownPostSnap(s, id, thread, rec, pipe);
          }
          AddPostKeeps(SnapOf(s, id), thread, rec, pipe);
        case Deliver(id, RemPost, thread, rec, pipe) =>
          RemPostSnap(s, id, thread, rec, pipe);
          RemPostKeeps(SnapOf(s, id), thread);
        case Proceed(id) =>
          ProceedSnap(s, id);
          ProceedKeeps(SnapOf(s, id));
        case Finish(id, event) =>
          var closed := FinishSnap(s, id, event);
          FinishKeeps(SnapOf(s, id), event, closed);
      }
    }
  }

  // ---------- whole runs ----------

  predicate IsRun(s: State, run: seq<Step>)
    decreases |run|
  {
    run == [] || (Enabled(s, run[0]) && IsRun(Apply(s, run[0]), run[1..]))
  }

  function After(s: State, run: seq<Step>): State
    requires IsRun(s, run)
    decreases |run|
  {
    if run == [] then s else After(Apply(s, run[0]), run[1..])
  }

  /** Some late event of `id` in the run found the pipe removed and its id forgotten. */
  predicate EverForgets(s: State, run: seq<Step>, id: PipeId)
    requires IsRun(s, run)
    decreases |run|
  {
    run != [] && ((Forgets(s, run[0]) && run[0].id == id) || EverForgets(Apply(s, run[0]), run[1..], id))
  }

  lemma {:induction false} RunKeepsInv(s: State, run: seq<Step>)
    requires Inv(s) && IsRun(s, run)
    ensures Inv(After(s, run))
    decreases |run|
  {
    if run != [] {
      KeepsInv(s, run[0]);
      RunKeepsInv(Apply(s, run[0]), run[1..]);
    }
  }

  lemma {:induction false} ForgottenIff(s: State, run: seq<Step>, id: PipeId)
    requires IsRun(s, run)
    ensures id in After(s, run).forgotten <==> id in s.forgotten || EverForgets(s, run, id)
    decreases |run|
  {
    if run != [] {
      ForgottenIff(Apply(s, run[0]), run[1..], id);
    }
  }

  lemma Reached(s: State, run: seq<Step>)
    requires Initial(s) && IsRun(s, run)
    ensures Inv(After(s, run))
  {
    assert Inv(s);
    RunKeepsInv(s, run);
  }

  /** The callback rounds of a pipe come in order, none follows a close in the pre callbacks, and
  none runs for a pipe whose removal came first, if and only if no late connect event of that pipe
  arrives after its id was dropped from the remembered ones. */
  lemma RoundsInOrder(s: State, run: seq<Step>, id: PipeId)
    requires Initial(s) && IsRun(s, run)
    ensures Promised(After(s, run), id) <==> !EverForgets(s, run, id)
  {
    Reached(s, run);
    ForgottenIff(s, run, id);
    Facts(After(s, run), id);
  }

  /** The rounds that were started are exactly those that the events call for, under the same condition. */
  lemma RoundsAreExact(s: State, run: seq<Step>, id: PipeId)
    requires Initial(s) && IsRun(s, run)
    ensures LogOf(After(s, run), id) == ExpectedLog(After(s, run), id) <==> !EverForgets(s, run, id)
  {
    Reached(s, run);
    ForgottenIff(s, run, id);
    Facts(After(s, run), id);
  }

  /** A pipe is among the socket's pipes from its ADD_PRE until its remove round is over, unless its
  removal came first or it was closed in its pre callbacks; and then its record goes. */
  lemma ListedExactly(s: State, run: seq<Step>, id: PipeId)
    requires Initial(s) && IsRun(s, run) && !EverForgets(s, run, id)
    ensures var t := After(s, run);
      && (Tracked(t.table, id) <==>
            HandlerOf(t, id, AddPre).Some? && id !in t.overtaken && HandlerOf(t, id, RemPost) != Some(Finished))
      && (id in t.table.pipes <==> Tracked(t.table, id) && id !in t.rejected)
  {
    Reached(s, run);
    ForgottenIff(s, run, id);
    Facts(After(s, run), id);
  }

  /** A pipe that was closed when its pre callbacks ended is not among the socket's pipes any more, and
  no other pipe is rejected. */
  lemma RejectedIffClosed(s: State, run: seq<Step>, id: PipeId)
    requires Initial(s) && IsRun(s, run) && !EverForgets(s, run, id)
    ensures var t := After(s, run);
      && (id in t.rejected ==> id !in t.table.pipes)
      && (Tracked(t.table, id) ==> (RecordOf(t.table, id).rejected <==> id in t.rejected))
      && (id in t.rejected ==> id in t.made && t.made[id] in t.closed)
      && (id in t.table.pipes ==> id in t.made && t.table.pipes[id] == t.made[id])
  {
    Reached(s, run);
    ForgottenIff(s, run, id);
    Facts(After(s, run), id);
    RejectedAreClosed(s, run, id);
  }

  lemma {:induction false} RejectedAreClosed(s: State, run: seq<Step>, id: PipeId)
    requires IsRun(s, run) && (id in s.rejected ==> id in s.made && s.made[id] in s.closed)
    requires id in s.rejected ==> HandlerOf(s, id, AddPre).Some?
    ensures var t := After(s, run); id in t.rejected ==> id in t.made && t.made[id] in t.closed
    decreases |run|
  {
    if run != [] {
      RejectedAreClosed(Apply(s, run[0]), run[1..], id);
    }
  }

  /** Forgetting takes 1024 removals of other pipes after that of this one. */
  lemma ForgettingTakes1024(s: State, run: seq<Step>, step: Step) returns (k: nat)
    requires Initial(s) && IsRun(s, run)
    requires Enabled(After(s, run), step) && Forgets(After(s, run), step) && step.id !in After(s, run).forgotten
    ensures var ids := After(s, run).remembered;
      && k < |ids| && ids[k] == step.id && |ids| - k > MAX_REMOVED_PIPE_IDS
      && (forall i :: k < i < |ids| ==> ids[i] != step.id)
      && (forall i, j :: k < i < j < |ids| ==> ids[i] != ids[j])
  {
    Reached(s, run);
    var t := After(s, run);
    Facts(t, step.id);
    assert step.id in t.remembered;
    k :| 0 <= k < |t.remembered| && t.remembered[k] == step.id;
  }

  /** While remove callbacks of a pipe run, no connect callback of that pipe runs on any thread. */
  lemma RemoveRunsAlone(s: State, run: seq<Step>, id: PipeId)
    requires Initial(s) && IsRun(s, run)
    requires IsInRound(HandlerOf(After(s, run), id, RemPost))
    ensures !IsInRound(HandlerOf(After(s, run), id, AddPre)) && !IsInRound(HandlerOf(After(s, run), id, AddPost))
  {
    Reached(s, run);
    Facts(After(s, run), id);
  }

  function RunningCount(s: State, id: PipeId): nat {
    if Tracked(s.table, id) then |RecordOf(s.table, id).running| else 0
  }

  predicate RemoveWaits(s: State, id: PipeId) {
    HandlerOf(s, id, RemPost).Some? && HandlerOf(s, id, RemPost).value.Waiting?
  }

  lemma OthersLeaveWaiting(s: State, id: PipeId, step: Step)
    requires Inv(s) && Enabled(s, step) && (step.ClosePipe? || step.id != id)
    ensures HandlerOf(Apply(s, step), id, RemPost) == HandlerOf(s, id, RemPost)
    ensures RunningCount(Apply(s, step), id) == RunningCount(s, id)
  {
    var s' := Apply(s, step);
    if !step.ClosePipe? {
      match step
      case Deliver(_, _, _, _, _) => OtherIdsDeliver(s, step, id);
      case Proceed(x) => OtherIdsProceed(s, x, id);
      case Finish(x, event) => OtherIdsFinish(s, x, event, id);
      assert HandlerOf(s', id, RemPost) == SnapOf(s', id).rem;
      assert SnapOf(s', id).record == SnapOf(s, id).record;
    }
  }

  /** Once a remove event waits, later connect events of that pipe are dropped. */
  lemma LateEventsDropped(s: State, id: PipeId, event: Event, thread: ThreadId, rec: RecordId, pipe: PipeObject)
    requires Inv(s) && RemoveWaits(s, id) && Enabled(s, Deliver(id, event, thread, rec, pipe))
    ensures var s' := Apply(s, Deliver(id, event, thread, rec, pipe));
      HandlerOf(s', id, event) == Some(Finished) && RemoveWaits(s', id) && s'.table == s.table
  {
    Facts(s, id);
  }

  lemma RoundEnds(s: State, id: PipeId, event: Event)
    requires Inv(s) && RemoveWaits(s, id) && Enabled(s, Finish(id, event))
    ensures RemoveWaits(Apply(s, Finish(id, event)), id)
    ensures RunningCount(Apply(s, Finish(id, event)), id) < RunningCount(s, id)
  {
    Facts(s, id);
  }

  lemma WaitIsNotStuck(s: State, id: PipeId)
    requires Inv(s) && RemoveWaits(s, id)
    ensures RunningCount(s, id) == 0 ==> Enabled(s, Proceed(id))
    ensures RunningCount(s, id) > 0 ==> Enabled(s, Finish(id, AddPre)) || Enabled(s, Finish(id, AddPost))
  {
    Facts(s, id);
  }

  /** A waiting remove event gets its turn: no step adds a running callback round, each end of one
  takes one away, and when none is left the wait is over. */
  lemma WaitMakesProgress(s: State, run: seq<Step>, id: PipeId, step: Step)
    requires Initial(s) && IsRun(s, run) && RemoveWaits(After(s, run), id)
    requires Enabled(After(s, run), step) && step != Proceed(id)
    ensures var t := After(s, run);
      && RemoveWaits(Apply(t, step), id)
      && RunningCount(Apply(t, step), id) <= RunningCount(t, id)
      && (step.Finish? && step.id == id ==> RunningCount(Apply(t, step), id) < RunningCount(t, id))
      && (RunningCount(t, id) == 0 ==> Enabled(t, Proceed(id)))
      && (RunningCount(t, id) > 0 ==> Enabled(t, Finish(id, AddPre)) || Enabled(t, Finish(id, AddPost)))
  {
    Reached(s, run);
    var t := After(s, run);
    WaitIsNotStuck(t, id);
    if step.ClosePipe? || step.id != id {
      OthersLeaveWaiting(t, id, step);
    } else if step.Deliver? {
      LateEventsDropped(t, id, step.event, step.thread, step.rec, step.pipe);
    } else {
      RoundEnds(t, id, step.event);
    }
  }

  /** The sockets' pipes are exactly the tracked, not rejected ones, and the remembered ids are the
  most recent 1024 at most. */
  lemma TablesAgree(s: State, run: seq<Step>, id: PipeId)
    requires Initial(s) && IsRun(s, run)
    ensures var t := After(s, run).table;
      && (id in t.pipes <==> Tracked(t, id) && !RecordOf(t, id).rejected)
      && (id in t.pipes ==> t.pipes[id] == RecordOf(t, id).pipe)
      && t.removed == Recent(After(s, run).remembered)
      && |t.removed| <= MAX_REMOVED_PIPE_IDS
  {
    Reached(s, run);
    Facts(After(s, run), id);
    var p := SnapOf(After(s, run), id);
    assert Listed(p);
  }

  // ---------- a run in which an id is forgotten ----------

  lemma {:induction false} ExtendRun(s: State, run: seq<Step>, step: Step)
    requires IsRun(s, run) && Enabled(After(s, run), step)
    ensures IsRun(s, run + [step]) && After(s, run + [step]) == Apply(After(s, run), step)
    decreases |run|
  {
    if run == [] {
      assert run + [step] == [step];
      assert [step][1..] == [];
    } else {
      assert (run + [step])[1..] == run[1..] + [step];
      ExtendRun(Apply(s, run[0]), run[1..], step);
    }
  }

  /** `n` pipes were removed before they were seen, and nothing else happened. */
  ghost predicate Unseen(s: State, n: nat) {
    && s.table.states == map[] && s.table.records == map[] && s.log == map[] && s.closed == {} && s.made == map[]
    && |s.remembered| == n && (forall i :: 0 <= i < n ==> s.remembered[i] == i)
    && s.table.removed == Recent(s.remembered)
    && (forall id: PipeId, event: Event :: n <= id || !event.RemPost? ==> HandlerOf(s, id, event).None?)
    && (forall id: PipeId :: id < n ==> id in s.overtaken && HandlerOf(s, id, RemPost) == Some(Finished))
  }

  lemma RemoveOneUnseen(s: State, n: nat)
    requires Unseen(s, n)
    ensures Enabled(s, Deliver(n, RemPost, 0, 0, 0)) && Unseen(Apply(s, Deliver(n, RemPost, 0, 0, 0)), n + 1)
  {
    assert n !in s.table.removed;
    RememberKeepsRecent(s.remembered, n);
    var s' := Apply(s, Deliver(n, RemPost, 0, 0, 0));
    assert HandlerOf(s, n, RemPost).None?;
    assert s'.handlers == s.handlers[(n, RemPost) := Finished];
    assert s'.overtaken == s.overtaken + {n} && s'.table == s.table.(removed := Remember(s.table.removed, n));
    assert s'.remembered == s.remembered + [n];
    forall id: PipeId, event: Event | n + 1 <= id || !event.RemPost? ensures HandlerOf(s', id, event).None? {
      assert HandlerOf(s, id, event).None?;
    }
    forall id: PipeId | id < n + 1 ensures id in s'.overtaken && HandlerOf(s', id, RemPost) == Some(Finished) {
      assert id < n ==> id in s.overtaken && HandlerOf(s, id, RemPost) == Some(Finished);
    }
  }

  lemma NoneUnseen(s: State)
    requires Initial(s)
    ensures Unseen(s, 0)
  {
  }

  lemma ExtendUnseen(s: State, run: seq<Step>, n: nat) returns (run': seq<Step>)
    requires IsRun(s, run) && Unseen(After(s, run), n)
    ensures IsRun(s, run') && Unseen(After(s, run'), n + 1)
  {
    var step := Deliver(n, RemPost, 0, 0, 0);
    RemoveOneUnseen(After(s, run), n);
    ExtendRun(s, run, step);
    run' := run + [step];
  }

  lemma {:induction false} RemoveUnseen(s: State, n: nat) returns (run: seq<Step>)
    requires Initial(s)
    ensures IsRun(s, run) && Unseen(After(s, run), n)
  {
    if n == 0 {
      run := [];
      NoneUnseen(s);
    } else {
      run := RemoveUnseen(s, n - 1);
      run := ExtendUnseen(s, run, n - 1);
    }
  }

  /** After 1025 such removals the first id is forgotten: its late ADD_PRE runs callbacks for a pipe
  that is gone, and the socket lists that pipe. */
  lemma LateEventResurrects(s: State) returns (run: seq<Step>, id: PipeId)
    requires Initial(s)
    ensures IsRun(s, run) && EverForgets(s, run, id)
    ensures id in After(s, run).overtaken && LogOf(After(s, run), id) == [PreRound]
    ensures id in After(s, run).table.pipes
  {
    run := RemoveUnseen(s, MAX_REMOVED_PIPE_IDS + 1);
    id := 0;
    var t := After(s, run);
    var step := Deliver(id, AddPre, 1, 0, 0);
    assert id !in Recent(t.remembered);
    ExtendRun(s, run, step);
    assert Forgets(t, step);
    run := run + [step];
    ForgottenIff(s, run, id);
  }
}

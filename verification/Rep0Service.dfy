/** Rep0Service of pynng/service.py: worker coroutines that receive a request on their own context,
queue it, and wait for its event before they receive again; and the user who takes requests from
the queue and replies to them, leaves them, or drops them. */
module Rep0Service {
  import opened Wrappers

  // A worker and its context.
  type WorkerId = nat
  // A Request and its own event.
  type RequestId = nat

  datatype Request = Request(worker: WorkerId, replied: bool, eventSet: bool)

  datatype Phase =
    | Receiving
    | Putting(r: RequestId)      // in `put` or `send` of the queue
    | Waiting(r: RequestId)      // in `replied_event.wait()`
    | Stopped

  // `pending` is the request that nng would send a reply to.
  datatype Worker = Worker(phase: Phase, last: Option<RequestId>, pending: Option<RequestId>)

  // One reply, and the request that nng sent it for.
  datatype Answer = Answer(r: RequestId, to: Option<RequestId>)

  datatype State = State(
    running: bool,
    workers: map<WorkerId, Worker>,
    capacity: Option<nat>,            // trio's channel; asyncio's queue has no bound
    queue: seq<RequestId>,
    requests: map<RequestId, Request>,
    held: set<RequestId>,             // requests the user has
    replying: set<RequestId>,         // requests whose reply is being sent
    put: seq<RequestId>,              // all requests ever queued
    yielded: seq<RequestId>,          // all requests the iterator ever returned
    answers: seq<Answer>,
    strayed: bool)                    // see Strays

  datatype Step =
    | Receive(w: WorkerId, r: RequestId)
    | ReceiveCloses(w: WorkerId)
    | Put(w: WorkerId)
    | Resume(w: WorkerId)
    | Next
    | ReplyStart(r: RequestId)
    | ReplyEnd(r: RequestId)
    | Exit(r: RequestId)
    | Drop(r: RequestId)
    | Stop
    | CancelWorker(w: WorkerId)

  predicate HasPhase(s: State, w: WorkerId, phase: Phase) {
    w in s.workers && s.workers[w].phase == phase
  }

  predicate QueueHasRoom(s: State) {
    s.capacity.None? || |s.queue| < s.capacity.value
  }

  predicate Enabled(s: State, step: Step) {
    match step
    case Receive(w, r) => HasPhase(s, w, Receiving) && r !in s.requests
    case ReceiveCloses(w) => HasPhase(s, w, Receiving)
    case Put(w) => w in s.workers && s.workers[w].phase.Putting? && QueueHasRoom(s)
    case Resume(w) =>
      w in s.workers && s.workers[w].phase.Waiting?
      && s.workers[w].phase.r in s.requests && s.requests[s.workers[w].phase.r].eventSet
    case Next => s.queue != []
    case ReplyStart(r) => r in s.held && r in s.requests && !s.requests[r].replied
    case ReplyEnd(r) => r in s.replying && r in s.requests
    case Exit(r) => r in s.held && r in s.requests
    case Drop(r) => r in s.held && r in s.requests && r !in s.replying
    case Stop => s.running
    case CancelWorker(w) => !s.running && w in s.workers
  }

  /** A reply to a request whose context has received another one since: the request's event was set
  without a reply, and the user replies after that. */
  predicate Strays(s: State, step: Step) {
    && step.ReplyStart? && step.r in s.requests && s.requests[step.r].worker in s.workers
    && s.workers[s.requests[step.r].worker].last != Some(step.r)
  }

  function SetWorker(s: State, w: WorkerId, worker: Worker): State {
    s.(workers := s.workers[w := worker])
  }

  function SetRequest(s: State, r: RequestId, q: Request): State {
    s.(requests := s.requests[r := q])
  }

  /** `__exit__` and `__del__` release the worker of a request that has no reply. */
  function Left(q: Request): Request {
    if q.replied then q else q.(eventSet := true)
  }

  /** The send of a reply goes to the request that the context has pending, if any. */
  function ReplyStep(s: State, r: RequestId): State
    requires r in s.requests
  {
    var w := s.requests[r].worker;
    var to := if w in s.workers then s.workers[w].pending else None;
    s.(requests := s.requests[r := s.requests[r].(replied := true)],
       workers := if w in s.workers then s.workers[w := s.workers[w].(pending := None)] else s.workers,
       replying := s.replying + {r},
       answers := s.answers + [Answer(r, to)],
       strayed := s.strayed || Strays(s, ReplyStart(r)))
  }

  function Apply(s: State, step: Step): State
    requires Enabled(s, step)
  {
    match step
    case Receive(w, r) =>
      SetWorker(s, w, Worker(Putting(r), Some(r), Some(r))).(requests := s.requests[r := Request(w, false, false)])
    case ReceiveCloses(w) => SetWorker(s, w, s.workers[w].(phase := Stopped))
    case Put(w) =>
      var r := s.workers[w].phase.r;
      SetWorker(s, w, s.workers[w].(phase := Waiting(r))).(queue := s.queue + [r], put := s.put + [r])
    case Resume(w) => SetWorker(s, w, s.workers[w].(phase := if s.running then Receiving else Stopped))
    case Next => s.(queue := s.queue[1..], yielded := s.yielded + [s.queue[0]], held := s.held + {s.queue[0]})
    case ReplyStart(r) => ReplyStep(s, r)
    case ReplyEnd(r) => SetRequest(s, r, s.requests[r].(eventSet := true)).(replying := s.replying - {r})
    case Exit(r) => SetRequest(s, r, Left(s.requests[r]))
    case Drop(r) => SetRequest(s, r, Left(s.requests[r])).(held := s.held - {r})
    case Stop => s.(running := false)
    case CancelWorker(w) => SetWorker(s, w, s.workers[w].(phase := Stopped))
  }

  /** `workers` coroutines that receive; under trio the channel holds twice as many requests. */
  predicate Initial(s: State) {
    && s.running
    && (forall w :: w in s.workers ==> s.workers[w] == Worker(Receiving, None, None))
    && (s.capacity == None || s.capacity == Some(2 * |s.workers|))
    && s.queue == [] && s.requests == map[] && s.held == {} && s.replying == {}
    && s.put == [] && s.yielded == [] && s.answers == [] && !s.strayed
  }

  // ---------- the invariant ----------

  /** Only the last request of a worker can have its event unset. */
  predicate RequestOk(s: State, r: RequestId)
    requires r in s.requests
  {
    var q := s.requests[r];
    && q.worker in s.workers
    && (!q.eventSet ==> s.workers[q.worker].last == Some(r))
    && (!s.strayed && !q.replied && s.workers[q.worker].last == Some(r) ==> s.workers[q.worker].pending == Some(r))
  }

  predicate WorkerOk(s: State, w: WorkerId)
    requires w in s.workers
  {
    var k := s.workers[w];
    && (k.last.Some? ==> k.last.value in s.requests && s.requests[k.last.value].worker == w)
    && (k.pending.Some? ==> k.pending == k.last)
    && match k.phase
       case Receiving => k.last.Some? ==> s.requests[k.last.value].eventSet
       case Putting(r) =>
         && k.last == Some(r) && r !in s.put
         && r in s.requests && !s.requests[r].eventSet && !s.requests[r].replied
       case Waiting(r) => k.last == Some(r) && r in s.put
       case Stopped => true
  }

  predicate QueuedOk(s: State, r: RequestId) {
    r in s.requests && !s.requests[r].eventSet && !s.requests[r].replied && r !in s.held && r in s.put
  }

  ghost predicate Inv(s: State) {
    && (forall r {:trigger RequestOk(s, r)} :: r in s.requests ==> RequestOk(s, r))
    && (forall w {:trigger WorkerOk(s, w)} :: w in s.workers ==> WorkerOk(s, w))
    && (forall i {:trigger QueuedOk(s, s.queue[i])} :: 0 <= i < |s.queue| ==> QueuedOk(s, s.queue[i]))
    && s.yielded + s.queue == s.put
    && (forall i, j :: 0 <= i < j < |s.put| ==> s.put[i] != s.put[j])
    && (forall r :: r in s.put ==> r in s.requests)
    && (forall r :: r in s.held || r in s.replying ==> r in s.yielded && r in s.requests)
    && (forall r :: r in s.replying ==> s.requests[r].replied)
    && (s.capacity == None || s.capacity == Some(2 * |s.workers|))
    && (s.strayed <==> exists i :: 0 <= i < |s.answers| && s.answers[i].to != Some(s.answers[i].r))
  }

  /** A queued request is not one that was already yielded. */
  lemma QueuedIsNew(s: State, i: nat)
    requires Inv(s) && i < |s.queue|
    ensures s.queue[i] !in s.yielded
  {
    var n := |s.yielded|;
    assert s.put[n + i] == s.queue[i];
    forall j | 0 <= j < n ensures s.yielded[j] != s.queue[i] {
      assert s.put[j] == s.yielded[j];
    }
  }

  lemma KeepsReceive(s: State, w: WorkerId, r: RequestId)
    requires Inv(s) && Enabled(s, Receive(w, r))
    ensures Inv(Apply(s, Receive(w, r)))
  {
    var s' := Apply(s, Receive(w, r));
    assert s'.workers.Keys == s.workers.Keys;
    forall x | x in s'.requests ensures RequestOk(s', x) {
      assert x != r ==> RequestOk(s, x);
      assert WorkerOk(s, w);
    }
    forall x | x in s'.workers ensures WorkerOk(s', x) {
      assert WorkerOk(s, x);
    }
    forall i | 0 <= i < |s'.queue| ensures QueuedOk(s', s'.queue[i]) {
      assert QueuedOk(s, s.queue[i]);
    }
  }

  lemma KeepsWorkerStep(s: State, w: WorkerId, step: Step)
    requires Inv(s) && Enabled(s, step)
    requires step == ReceiveCloses(w) || step == Resume(w) || step == CancelWorker(w) || step == Stop
    ensures Inv(Apply(s, step))
  {
    var s' := Apply(s, step);
    assert s'.workers.Keys == s.workers.Keys;
    forall x | x in s'.requests ensures RequestOk(s', x) {
      assert RequestOk(s, x);
    }
    forall x | x in s'.workers ensures WorkerOk(s', x) {
      assert WorkerOk(s, x);
    }
    forall i | 0 <= i < |s'.queue| ensures QueuedOk(s', s'.queue[i]) {
      assert QueuedOk(s, s.queue[i]);
    }
  }

  lemma KeepsPut(s: State, w: WorkerId)
    requires Inv(s) && Enabled(s, Put(w))
    ensures Inv(Apply(s, Put(w)))
  {
    var s' := Apply(s, Put(w));
    assert s'.workers.Keys == s.workers.Keys;
    assert WorkerOk(s, w);
    var r := s.workers[w].phase.r;
    forall x | x in s'.requests ensures RequestOk(s', x) {
      assert RequestOk(s, x);
    }
    forall x | x in s'.workers ensures WorkerOk(s', x) {
      assert WorkerOk(s, x);
    }
    assert r !in s.yielded;
    forall i | 0 <= i < |s'.queue| ensures QueuedOk(s', s'.queue[i]) {
      assert i < |s.queue| ==> QueuedOk(s, s.queue[i]);
    }
  }

  lemma KeepsNext(s: State)
    requires Inv(s) && Enabled(s, Next)
    ensures Inv(Apply(s, Next))
  {
    var s' := Apply(s, Next);
    var r := s.queue[0];
    assert QueuedOk(s, r);
    forall x | x in s'.requests ensures RequestOk(s', x) { assert RequestOk(s, x); }
    forall x | x in s'.workers ensures WorkerOk(s', x) { assert WorkerOk(s, x); }
    forall i | 0 <= i < |s'.queue| ensures QueuedOk(s', s'.queue[i]) {
      assert QueuedOk(s, s.queue[i+1]);
      var n := |s.yielded|;
      assert s.put[n] == r && s.put[n + i + 1] == s.queue[i+1];
    }
    assert s'.yielded + s'.queue == s.put;
  }

  /** The user's steps on a request that he has. */
  predicate IsUserStep(step: Step, r: RequestId) {
    step == ReplyStart(r) || step == ReplyEnd(r) || step == Exit(r) || step == Drop(r)
  }

  lemma UserKeepsRequests(s: State, r: RequestId, step: Step)
    requires Inv(s) && Enabled(s, step) && IsUserStep(step, r)
    ensures var s' := Apply(s, step);
      s'.workers.Keys == s.workers.Keys && forall x :: x in s'.requests ==> RequestOk(s', x)
  {
    var s' := Apply(s, step);
    assert RequestOk(s, r);
    forall x | x in s'.requests ensures RequestOk(s', x) {
      assert RequestOk(s, x);
    }
  }

  lemma UserKeepsWorkers(s: State, r: RequestId, step: Step)
    requires Inv(s) && Enabled(s, step) && IsUserStep(step, r)
    ensures forall x :: x in Apply(s, step).workers ==> WorkerOk(Apply(s, step), x)
  {
    var s' := Apply(s, step);
    assert RequestOk(s, r);
    forall x | x in s'.workers ensures WorkerOk(s', x) {
      assert WorkerOk(s, x);
    }
  }

  lemma UserKeepsQueue(s: State, r: RequestId, step: Step)
    requires Inv(s) && Enabled(s, step) && IsUserStep(step, r)
    ensures var s' := Apply(s, step);
      s'.queue == s.queue && forall i :: 0 <= i < |s'.queue| ==> QueuedOk(s', s'.queue[i])
  {
    var s' := Apply(s, step);
    forall i | 0 <= i < |s'.queue| ensures QueuedOk(s', s'.queue[i]) {
      assert QueuedOk(s, s.queue[i]);
      QueuedIsNew(s, i);
    }
  }

  lemma UserKeepsHistory(s: State, r: RequestId, step: Step)
    requires Inv(s) && Enabled(s, step) && IsUserStep(step, r)
    ensures var s' := Apply(s, step);
      && s'.yielded == s.yielded && s'.queue == s.queue && s'.put == s.put && s'.capacity == s.capacity
      && s'.requests.Keys == s.requests.Keys && s'.held <= s.held
      && (forall x :: x in s'.replying ==> x in s'.yielded && x in s'.requests && s'.requests[x].replied)
  {
  }

  lemma KeepsUserStep(s: State, r: RequestId, step: Step)
    requires Inv(s) && Enabled(s, step) && IsUserStep(step, r)
    ensures Inv(Apply(s, step))
  {
    UserKeepsRequests(s, r, step);
    UserKeepsWorkers(s, r, step);
    UserKeepsQueue(s, r, step);
    UserKeepsHistory(s, r, step);
    KeepsAnswers(s, r, step);
  }

  lemma KeepsAnswers(s: State, r: RequestId, step: Step)
    requires Inv(s) && Enabled(s, step) && IsUserStep(step, r)
    ensures var s' := Apply(s, step);
      s'.strayed <==> exists i :: 0 <= i < |s'.answers| && s'.answers[i].to != Some(s'.answers[i].r)
  {
    var s' := Apply(s, step);
    if step.ReplyStart? {
      assert RequestOk(s, r);
      assert WorkerOk(s, s.requests[r].worker);
      var n := |s.answers|;
      assert Strays(s, step) ==> s'.answers[n].to != Some(s'.answers[n].r);
      if exists i :: 0 <= i < n && s.answers[i].to != Some(s.answers[i].r) {
        var i :| 0 <= i < n && s.answers[i].to != Some(s.answers[i].r);
        assert s'.answers[i] == s.answers[i];
      }
    }
  }

  lemma KeepsInv(s: State, step: Step)
    requires Inv(s) && Enabled(s, step)
    ensures Inv(Apply(s, step))
  {
    match step
    case Receive(w, r) => KeepsReceive(s, w, r);
    case Put(w) => KeepsPut(s, w);
    case Next => KeepsNext(s);
    case ReplyStart(r) => KeepsUserStep(s, r, step);
    case ReplyEnd(r) => KeepsUserStep(s, r, step);
    case Exit(r) => KeepsUserStep(s, r, step);
    case Drop(r) => KeepsUserStep(s, r, step);
    case Stop => KeepsWorkerStep(s, 0, step);
    case _ => KeepsWorkerStep(s, step.w, step);
  }

  // ---------- whole runs ----------

  predicate IsRun(s: State, run: seq<Step>)
    decreases |run|
  {
    run == [] || (Enabled(s, run[0]) && IsRun(Apply(s, run[0]), run[1..]))
  }

  function After(s: State, run: seq<Step>): State
    requires IsRun(s, run)
    decreases |run|
  {
    if run == [] then s else After(Apply(s, run[0]), run[1..])
  }

  predicate EverStrays(s: State, run: seq<Step>)
    requires IsRun(s, run)
    decreases |run|
  {
    run != [] && (Strays(s, run[0]) || EverStrays(Apply(s, run[0]), run[1..]))
  }

  lemma {:induction false} RunKeepsInv(s: State, run: seq<Step>)
    requires Inv(s) && IsRun(s, run)
    ensures Inv(After(s, run)) && After(s, run).workers.Keys == s.workers.Keys
    ensures After(s, run).strayed <==> s.strayed || EverStrays(s, run)
    ensures s.put <= After(s, run).put && s.yielded <= After(s, run).yielded
    decreases |run|
  {
    if run != [] {
      KeepsInv(s, run[0]);
      KeepsHistory(s, run[0]);
      RunKeepsInv(Apply(s, run[0]), run[1..]);
    }
  }

  lemma KeepsHistory(s: State, step: Step)
    requires Inv(s) && Enabled(s, step)
    ensures var s' := Apply(s, step);
      && s'.workers.Keys == s.workers.Keys && s.put <= s'.put && s.yielded <= s'.yielded
      && (s'.strayed <==> s.strayed || Strays(s, step))
  {
    if step.ReplyStart? {
      assert RequestOk(s, step.r);
    }
  }

  // The worker of a request.
  function WorkerOf(s: State, r: RequestId): WorkerId {
    if r in s.requests then s.requests[r].worker else 0
  }

  lemma {:induction false} DistinctFit(rs: seq<RequestId>, f: RequestId -> WorkerId, ws: set<WorkerId>)
    requires forall i :: 0 <= i < |rs| ==> f(rs[i]) in ws
    requires forall i, j :: 0 <= i < j < |rs| ==> f(rs[i]) != f(rs[j])
    ensures |rs| <= |ws|
    decreases |rs|
  {
    if rs != [] {
      var n := |rs| - 1;
      DistinctFit(rs[..n], f, ws - {f(rs[n])});
    }
  }

  lemma {:induction false} QueueFits(s: State, extra: seq<RequestId>)
    requires Inv(s)
    requires extra == [] || exists w :: w in s.workers && s.workers[w].phase.Putting? && extra == [s.workers[w].phase.r]
    ensures |s.queue| + |extra| <= |s.workers|
  {
    var rs := s.queue + extra;
    forall i | 0 <= i < |rs|
      ensures rs[i] in s.requests && WorkerOf(s, rs[i]) in s.workers
      ensures s.workers[WorkerOf(s, rs[i])].last == Some(rs[i])
    {
      if i < |s.queue| {
        assert QueuedOk(s, s.queue[i]);
      } else {
        var w :| w in s.workers && s.workers[w].phase.Putting? && extra == [s.workers[w].phase.r];
        assert WorkerOk(s, w);
      }
      assert RequestOk(s, rs[i]);
    }
    forall i, j | 0 <= i < j < |rs| ensures WorkerOf(s, rs[i]) != WorkerOf(s, rs[j]) {
      if j < |s.queue| {
        assert s.put[|s.yielded| + i] == s.queue[i] && s.put[|s.yielded| + j] == s.queue[j];
      } else {
        var w :| w in s.workers && s.workers[w].phase.Putting? && extra == [s.workers[w].phase.r];
        assert WorkerOk(s, w) && QueuedOk(s, s.queue[i]);
      }
    }
    DistinctFit(rs, r => WorkerOf(s, r), s.workers.Keys);
  }

  /** The queue never holds more requests than there are workers, and a worker that puts a request
  into trio's channel never waits for room. */
  lemma QueueIsBounded(s: State, run: seq<Step>, w: WorkerId)
    requires Initial(s) && IsRun(s, run)
    ensures |After(s, run).queue| <= |s.workers|
    ensures w in After(s, run).workers && After(s, run).workers[w].phase.Putting? ==> Enabled(After(s, run), Put(w))
  {
    RunKeepsInv(s, run);
    var t := After(s, run);
    QueueFits(t, []);
    assert |t.workers.Keys| == |s.workers.Keys|;
    if w in t.workers && t.workers[w].phase.Putting? {
      QueueFits(t, [t.workers[w].phase.r]);
    }
  }

  /** A context has at most one request whose event is unset, the last that it received. */
  lemma OneOpenRequest(s: State, run: seq<Step>, r: RequestId, r': RequestId)
    requires Initial(s) && IsRun(s, run)
    requires var t := After(s, run);
      && r in t.requests && r' in t.requests && t.requests[r].worker == t.requests[r'].worker
      && !t.requests[r].eventSet && !t.requests[r'].eventSet
    ensures r == r'
  {
    RunKeepsInv(s, run);
    assert RequestOk(After(s, run), r) && RequestOk(After(s, run), r');
  }

  /** Requests come out in the order in which they were queued, each once. */
  lemma YieldedInOrder(s: State, run: seq<Step>)
    requires Initial(s) && IsRun(s, run)
    ensures var t := After(s, run);
      && t.yielded + t.queue == t.put
      && forall i, j :: 0 <= i < j < |t.yielded| ==> t.yielded[i] != t.yielded[j]
  {
    RunKeepsInv(s, run);
    var t := After(s, run);
    forall i, j | 0 <= i < j < |t.yielded| ensures t.yielded[i] != t.yielded[j] {
      assert t.put[i] == t.yielded[i] && t.put[j] == t.yielded[j];
    }
  }

  predicate IsSet(s: State, r: RequestId) {
    r in s.requests && s.requests[r].eventSet
  }

  /** The end of a reply to `r`, or leaving or dropping `r` without one. */
  predicate Sets(s: State, step: Step, r: RequestId) {
    || step == ReplyEnd(r)
    || ((step == Exit(r) || step == Drop(r)) && r in s.requests && !s.requests[r].replied)
  }

  predicate EverSets(s: State, run: seq<Step>, r: RequestId)
    requires IsRun(s, run)
    decreases |run|
  {
    run != [] && (Sets(s, run[0], r) || EverSets(Apply(s, run[0]), run[1..], r))
  }

  lemma {:induction false} SetSinceThen(s: State, run: seq<Step>, r: RequestId)
    requires IsRun(s, run)
    ensures IsSet(After(s, run), r) <==> IsSet(s, r) || EverSets(s, run, r)
    decreases |run|
  {
    if run != [] {
      SetSinceThen(Apply(s, run[0]), run[1..], r);
    }
  }

  /** A worker goes on to receive again if and only if the user replied to, left or dropped the very
  request that it waits for; no event of an earlier request, however late, does that. */
  lemma ResumesByItsOwnRequest(s: State, run: seq<Step>, w: WorkerId)
    requires Initial(s) && IsRun(s, run)
    requires w in After(s, run).workers && After(s, run).workers[w].phase.Waiting?
    ensures Enabled(After(s, run), Resume(w)) <==> EverSets(s, run, After(s, run).workers[w].phase.r)
  {
    SetSinceThen(s, run, After(s, run).workers[w].phase.r);
  }

  /** Once the service stops no worker comes back to receive. */
  lemma {:induction false} StoppedStaysStopped(s: State, run: seq<Step>, w: WorkerId)
    requires !s.running && IsRun(s, run)
    ensures !After(s, run).running
    ensures HasPhase(After(s, run), w, Receiving) ==> HasPhase(s, w, Receiving)
    decreases |run|
  {
    if run != [] {
      StoppedStaysStopped(Apply(s, run[0]), run[1..], w);
    }
  }

  predicate AnsweredOnce(s: State) {
    && (forall i, j :: 0 <= i < j < |s.answers| && s.answers[i].to.Some? ==> s.answers[i].to != s.answers[j].to)
    && (forall i :: 0 <= i < |s.answers| && s.answers[i].to.Some? ==> s.answers[i].to.value in s.requests)
    && (forall i, w :: 0 <= i < |s.answers| && s.answers[i].to.Some? && w in s.workers ==>
          s.workers[w].pending != s.answers[i].to)
  }

  lemma KeepsAnsweredOnce(s: State, step: Step)
    requires Inv(s) && Enabled(s, step) && AnsweredOnce(s)
    ensures AnsweredOnce(Apply(s, step))
  {
    if step.ReplyStart? {
      var v := s.requests[step.r].worker;
      assert RequestOk(s, step.r) && WorkerOk(s, v);
      forall w | w in s.workers && w != v && s.workers[v].pending.Some?
        ensures s.workers[w].pending != s.workers[v].pending
      {
        assert WorkerOk(s, w);
      }
    }
  }

  lemma {:induction false} RunKeepsAnsweredOnce(s: State, run: seq<Step>)
    requires Inv(s) && AnsweredOnce(s) && IsRun(s, run)
    ensures AnsweredOnce(After(s, run))
    decreases |run|
  {
    if run != [] {
      KeepsInv(s, run[0]);
      KeepsAnsweredOnce(s, run[0]);
      RunKeepsAnsweredOnce(Apply(s, run[0]), run[1..]);
    }
  }

  /** nng sends at most one reply for each request that a context received, whatever the user does. */
  lemma RepliesAreSentOnce(s: State, run: seq<Step>, i: nat, j: nat)
    requires Initial(s) && IsRun(s, run)
    requires i < j < |After(s, run).answers| && After(s, run).answers[i].to.Some?
    ensures After(s, run).answers[i].to != After(s, run).answers[j].to
  {
    RunKeepsAnsweredOnce(s, run);
  }

  lemma HeldStep(s: State, step: Step, r: RequestId)
    requires Inv(s) && Enabled(s, step)
    ensures var s' := Apply(s, step);
      && s.yielded <= s'.yielded && (r in s.held ==> r in s.yielded)
      && (r in s'.held <==> step != Drop(r) && (r in s.held || (r in s'.yielded && r !in s.yielded)))
  {
    KeepsHistory(s, step);
    if step.Next? { QueuedIsNew(s, 0); }
  }

  /** The user has exactly the requests that the iterator returned and that he has not dropped. */
  lemma {:induction false} HeldUntilDropped(s: State, run: seq<Step>, r: RequestId)
    requires Inv(s) && IsRun(s, run)
    ensures var t := After(s, run);
      r in t.held <==> Drop(r) !in run && (r in s.held || (r in t.yielded && r !in s.yielded))
    decreases |run|
  {
    if run != [] {
      KeepsInv(s, run[0]);
      HeldStep(s, run[0], r);
      HeldUntilDropped(Apply(s, run[0]), run[1..], r);
      RunKeepsInv(Apply(s, run[0]), run[1..]);
    }
  }

  /** The three ways in which a worker's loop ends. */
  predicate Ends(s: State, step: Step, w: WorkerId) {
    step == ReceiveCloses(w) || step == CancelWorker(w) || (step == Resume(w) && !s.running)
  }

  predicate EverEnds(s: State, run: seq<Step>, w: WorkerId)
    requires IsRun(s, run)
    decreases |run|
  {
    run != [] && (Ends(s, run[0], w) || EverEnds(Apply(s, run[0]), run[1..], w))
  }

  /** A worker ends if and only if its receive found the context closed, it was cancelled, or it was
  released after the service stopped. */
  lemma {:induction false} WorkerEndsIff(s: State, run: seq<Step>, w: WorkerId)
    requires IsRun(s, run)
    ensures After(s, run).running <==> s.running && Stop !in run
    ensures HasPhase(After(s, run), w, Stopped) <==> HasPhase(s, w, Stopped) || EverEnds(s, run, w)
    decreases |run|
  {
    if run != [] {
      WorkerEndsIff(Apply(s, run[0]), run[1..], w);
    }
  }

  /** Every reply is sent for its own request, if and only if no reply was made to a request whose
  context had gone on to another. */
  lemma RepliesAnswerTheirOwn(s: State, run: seq<Step>)
    requires Initial(s) && IsRun(s, run)
    ensures (forall i :: 0 <= i < |After(s, run).answers| ==>
               After(s, run).answers[i].to == Some(After(s, run).answers[i].r))
      <==> !EverStrays(s, run)
  {
    RunKeepsInv(s, run);
  }

  lemma Cons(s: State, step: Step, rest: seq<Step>)
    requires Enabled(s, step) && IsRun(Apply(s, step), rest)
    ensures IsRun(s, [step] + rest) && After(s, [step] + rest) == After(Apply(s, step), rest)
  {
    assert ([step] + rest)[1..] == rest;
  }

  /** Leaving a request without a reply and replying later sends the reply to the next requester. */
  lemma ReplyAfterExitStrays(s: State, w: WorkerId) returns (run: seq<Step>)
    requires Initial(s) && w in s.workers
    ensures IsRun(s, run) && After(s, run).answers == [Answer(1, Some(2))]
  {
    var s3 := Apply(Apply(Apply(s, Receive(w, 1)), Put(w)), Next);
    var s5 := Apply(Apply(s3, Exit(1)), Resume(w));
    var s6 := Apply(s5, Receive(w, 2));
    Cons(s6, ReplyStart(1), []);
    run := [ReplyStart(1)] + [];
    Cons(s5, Receive(w, 2), run);
    run := [Receive(w, 2)] + run;
    Cons(Apply(s3, Exit(1)), Resume(w), run);
    run := [Resume(w)] + run;
    Cons(s3, Exit(1), run);
    run := [Exit(1)] + run;
    Cons(Apply(Apply(s, Receive(w, 1)), Put(w)), Next, run);
    run := [Next] + run;
    Cons(Apply(s, Receive(w, 1)), Put(w), run);
    run := [Put(w)] + run;
    Cons(s, Receive(w, 1), run);
    run := [Receive(w, 1)] + run;
  }

  // ---------- the object ----------

  /** A Request, as its methods change it. */
  class RequestObject {
    const worker: WorkerId
    var replied: bool
    var eventSet: bool

    function View(): Request
      reads this
    {
      Request(worker, replied, eventSet)
    }

    constructor (worker: WorkerId)
      ensures View() == Request(worker, false, false)
    {
      this.worker, replied, eventSet := worker, false, false;
    }

    /** `reply`: a second one raises and sends nothing, and the first one releases the worker
    whether the send succeeds or not. */
    method Reply(sendFails: bool) returns (sends: nat, raised: bool)
      modifies this
      ensures raised <==> old(replied) || sendFails
      ensures sends == if old(replied) then 0 else 1
      ensures View() == if old(replied) then old(View()) else old(View()).(replied := true).(eventSet := true)
    {
      if replied { return 0, true; }
      replied := true;
      sends, raised := 1, sendFails;
      eventSet := true;
    }

    /** `__exit__` and `__aexit__`. */
    method Exit()
      modifies this
      ensures View() == Left(old(View()))
    {
      if !replied {
        eventSet := true;
      }
    }

    /** `__del__`. */
    method Del() returns (warned: bool)
      modifies this
      ensures View() == Left(old(View())) && warned == !old(replied)
    {
      warned := !replied;
      if !replied {
        eventSet := true;
      }
    }
  }
}

/** The pipe event dispatcher of pynng/_base.py: what `_handle_pipe_event` does to its tables in
each region that it runs with the pipe lock held. */
module PipeTable {

  type PipeId = nat
  type ThreadId = nat
  // A `_PipeState` object, by identity.
  type RecordId = nat
  // A `Pipe` object, by identity.
  type PipeObject = nat

  datatype Event = AddPre | AddPost | RemPost

  datatype Record = Record(pipe: PipeObject, running: multiset<ThreadId>, added: bool, rejected: bool, removing: bool)

  datatype Table = Table(
    states: map<PipeId, RecordId>,
    records: map<RecordId, Record>,
    pipes: map<PipeId, PipeObject>,
    removed: seq<PipeId>)

  const MAX_REMOVED_PIPE_IDS: nat := 1024

  // What the first region decides: return at once, wait for running callbacks, or run a round.
  datatype Entry = Return | Wait(rec: RecordId) | Run(rec: RecordId)

  /** `_remember_removed_pipe_id` on an insertion-ordered dict. */
  function Remember(removed: seq<PipeId>, id: PipeId): seq<PipeId> {
    var ids := if id in removed then removed else removed + [id];
    if |ids| > MAX_REMOVED_PIPE_IDS then ids[1..] else ids
  }

  function NewRecord(pipe: PipeObject): Record {
    Record(pipe, multiset{}, false, false, false)
  }

  predicate Tracked(t: Table, id: PipeId) {
    id in t.states && t.states[id] in t.records
  }

  function RecordOf(t: Table, id: PipeId): Record
    requires Tracked(t, id)
  {
    t.records[t.states[id]]
  }

  function SetRecord(t: Table, rec: RecordId, r: Record): Table {
    t.(records := t.records[rec := r])
  }

  function StartRunning(t: Table, rec: RecordId, me: ThreadId): Table
    requires rec in t.records
  {
    SetRecord(t, rec, t.records[rec].(running := t.records[rec].running + multiset{me}))
  }

  /** The first locked region, up to the wait. `rec` and `pipe` name the objects it makes if it
  makes any. */
  function Begin(t: Table, id: PipeId, event: Event, me: ThreadId, rec: RecordId, pipe: PipeObject): (Table, Entry) {
    if id in t.removed then (t, Return)
    else match event
    case RemPost =>
      if !Tracked(t, id) then (t.(removed := Remember(t.removed, id)), Return)
      else if RecordOf(t, id).removing then (t, Return)
      else
        var t' := SetRecord(t, t.states[id], RecordOf(t, id).(removing := true));
        (if RecordOf(t, id).added then t' else t'.(removed := Remember(t.removed, id)), Wait(t.states[id]))
    case AddPre =>
      if Tracked(t, id) then (t, Return)
      else
        (StartRunning(Track(t, id, rec, NewRecord(pipe)), rec, me), Run(rec))
    case AddPost =>
      if !Tracked(t, id) then
        (StartRunning(Track(t, id, rec, NewRecord(pipe).(added := true)), rec, me), Run(rec))
      else
        var r := RecordOf(t, id);
        if r.removing || r.added || r.rejected then (t, Return)
        else
          (StartRunning(Track(t, id, t.states[id], r.(added := true)), t.states[id], me), Run(t.states[id]))
  }

  function Track(t: Table, id: PipeId, rec: RecordId, r: Record): Table {
    t.(states := t.states[id := rec], records := t.records[rec := r], pipes := t.pipes[id := r.pipe])
  }

  /** The condition of `while any(t != me for t in state.running)`. */
  predicate MustWait(t: Table, rec: RecordId, me: ThreadId)
    requires rec in t.records
  {
    exists x :: x in t.records[rec].running && x != me
  }

  /** The last locked region: a callback round is over. */
  function End(t: Table, id: PipeId, event: Event, me: ThreadId, rec: RecordId, closed: bool): Table
    requires rec in t.records
  {
    var r := t.records[rec].(running := t.records[rec].running - multiset{me});
    var t' := SetRecord(t, rec, r);
    var current := id in t.states && t.states[id] == rec;
    if event.RemPost? then
      if current then t'.(states := t.states - {id}, pipes := t.pipes - {id}) else t'
    else if event.AddPre? && current && !r.added && closed then
      SetRecord(t', rec, r.(rejected := true)).(pipes := t.pipes - {id})
    else t'
  }

  /** The tables as `_handle_pipe_event` updates them in place. */
  class Dispatcher {
    var states: map<PipeId, RecordId>
    var records: map<RecordId, Record>
    var pipes: map<PipeId, PipeObject>
    var removed: seq<PipeId>

    function View(): Table
      reads this
    {
      Table(states, records, pipes, removed)
    }

    constructor ()
      ensures View() == Table(map[], map[], map[], [])
    {
      states, records, pipes, removed := map[], map[], map[], [];
    }

    method RememberRemoved(id: PipeId)
      modifies this`removed
      ensures removed == Remember(old(removed), id)
    {
      if id !in removed {
        removed := removed + [id];
      }
      if |removed| > MAX_REMOVED_PIPE_IDS {
        removed := removed[1..];
      }
    }

    method Enter(id: PipeId, event: Event, me: ThreadId, rec: RecordId, pipe: PipeObject) returns (entry: Entry)
      modifies this
      ensures (View(), entry) == Begin(old(View()), id, event, me, rec, pipe)
    {
      if id in removed { return Return; }
      var known := id in states && states[id] in records;
      var state := rec;
      if known {
        state := states[id];
      }
      match event {
        case RemPost =>
          if !known {
            RememberRemoved(id);
            return Return;
          }
          if records[state].removing { return Return; }
          records := records[state := records[state].(removing := true)];
          if !records[state].added {
            RememberRemoved(id);
          }
          return Wait(state);
        case AddPre =>
          if known { return Return; }
          records := records[state := NewRecord(pipe)];
          states := states[id := state];
          pipes := pipes[id := pipe];
        case AddPost =>
          if !known {
            records := records[state := NewRecord(pipe)];
            states := states[id := state];
          } else if records[state].removing || records[state].added || records[state].rejected {
            return Return;
          }
          records := records[state := records[state].(added := true)];
          pipes := pipes[id := records[state].pipe];
      }
      records := records[state := records[state].(running := records[state].running + multiset{me})];
      entry := Run(state);
      assert states == Begin(old(View()), id, event, me, rec, pipe).0.states;
      assert records == Begin(old(View()), id, event, me, rec, pipe).0.records;
    }

    /** `cond.wait()`: the lock is released, and other threads leave the tables as `t`. */
    method CondWait(t: Table)
      modifies this
      ensures View() == t
    {
      states, records, pipes, removed := t.states, t.records, t.pipes, t.removed;
    }

    /** The wait of a remove event, up to its callbacks.  `wakes` are the tables that it finds at each
    wake-up: it goes on at the first one without a running callback of another thread, and as long
    as there is none it keeps waiting and changes nothing. */
    method AwaitTurn(me: ThreadId, rec: RecordId, wakes: seq<Table>) returns (used: nat, waiting: bool, run: bool)
      requires rec in records && forall i :: 0 <= i < |wakes| ==> rec in wakes[i].records
      modifies this
      ensures used <= |wakes|
      ensures var seen := [old(View())] + wakes;
        && (forall i :: 0 <= i < used ==> MustWait(seen[i], rec, me))
        && (waiting <==> MustWait(seen[used], rec, me))
        && (waiting ==> used == |wakes| && View() == seen[used])
        && (!waiting ==> View() == StartRunning(seen[used], rec, me) && run == !seen[used].records[rec].rejected)
    {
      ghost var seen := [View()] + wakes;
      used := 0;
      while used < |wakes| && MustWait(View(), rec, me)
        invariant used <= |wakes| && View() == seen[used]
        invariant forall i :: 0 <= i < used ==> MustWait(seen[i], rec, me)
      {
        CondWait(wakes[used]);
        used := used + 1;
      }
      waiting, run := MustWait(View(), rec, me), false;
      if !waiting {
        run := WaitOver(me, rec);
      }
    }

    /** The region between the end of the wait and the remove callbacks; `run` tells whether there
    are any to run. */
    method WaitOver(me: ThreadId, rec: RecordId) returns (run: bool)
      requires rec in records && !MustWait(View(), rec, me)
      modifies this`records
      ensures View() == StartRunning(old(View()), rec, me)
      ensures run == !old(records)[rec].rejected
    {
      run := !records[rec].rejected;
      records := records[rec := records[rec].(running := records[rec].running + multiset{me})];
    }

    method Leave(id: PipeId, event: Event, me: ThreadId, rec: RecordId, closed: bool)
      requires rec in records
      modifies this
      ensures View() == End(old(View()), id, event, me, rec, closed)
    {
      records := records[rec := records[rec].(running := records[rec].running - multiset{me})];
      if event.RemPost? {
        if id in states && states[id] == rec {
          states := states - {id};
          pipes := pipes - {id};
        }
      } else if event.AddPre? && id in states && states[id] == rec && !records[rec].added && closed {
        records := records[rec := records[rec].(rejected := true)];
        pipes := pipes - {id};
      }
    }
  }
}

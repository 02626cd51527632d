/** The hotplug event queue (interface-event.c).

    One handler process runs at a time. Events of an interface wait in a first-in first-out
    list of interfaces; an interface has at most one waiting event, and a new event may
    overwrite it or be dropped.
 */
module HotplugQueue {
  import opened Lists
  import opened Options

  datatype Event = Down | Up | UpFailed | Update | LinkUp

  /** The events that say what state an interface is in. */
  predicate IsState(ev: Event)
  {
    ev.Down? || ev.Up? || ev.UpFailed?
  }

  /** One attempt to start the handler, and whether the fork succeeded. */
  datatype Dispatch = Dispatch(iface: nat, ev: Event, forked: bool)

  /** The globals `current`, `current_ev`, `task.pending` and `pending`, the field
      `hotplug_ev` of each interface, and the attempts made so far. */
  datatype Queue = Queue(
    current: Option<nat>,
    currentEv: Event,
    running: bool,
    pending: seq<nat>,
    ev: map<nat, Event>,
    log: seq<Dispatch>)

  const EMPTY := Queue(None, Down, false, [], map[], [])

  /** The interface at the head, taken off the list and handed to the handler. */
  function Pop(q: Queue, forked: bool): Queue
    requires q.pending != []
  {
    var i := q.pending[0];
    var ev := if i in q.ev then q.ev[i] else Down;
    q.(current := if forked then Some(i) else None, currentEv := ev, running := forked,
       pending := q.pending[1..], log := q.log + [Dispatch(i, ev, forked)])
  }

  /** call_hotplug: starts the handler for the head of the list. When the fork fails the event
      counts as handled and the next one is tried. `forks` are the outcomes of the forks. */
  function CallHotplug(q: Queue, forks: seq<bool>): Queue
    decreases |q.pending|
  {
    if q.pending == [] then q
    else if forks == [] || forks[0] then Pop(q, true)
    else CallHotplug(Pop(q, false), forks[1..])
  }

  /** task_complete, after the handler process has ended */
  function TaskComplete(q: Queue, forks: seq<bool>): Queue
  {
    CallHotplug(q.(current := None, running := false), forks)
  }

  function Enqueue(q: Queue, i: nat, ev: Event): Queue
  {
    q.(ev := q.ev[i := ev], pending := q.pending + [i])
  }

  /** The list after interface_queue_event, before the handler may be started. */
  function Merge(q: Queue, i: nat, ev: Event): Queue
  {
    if q.current == Some(i) then
      if i in q.pending then (if ev != Update then q.(ev := q.ev[i := ev]) else q)
      else if ev != q.currentEv || ev == Update then Enqueue(q, i, ev)
      else q
    else if i in q.pending then
      if i in q.ev && q.ev[i] == Up && ev == Update then q else q.(ev := q.ev[i := ev])
    else Enqueue(q, i, ev)
  }

  /** interface_queue_event */
  function QueueEvent(q: Queue, i: nat, ev: Event, forks: seq<bool>): Queue
  {
    if ev == LinkUp then q
    else
      var q' := Merge(q, i, ev);
      if !q'.running && q'.current.None? then CallHotplug(q', forks) else q'
  }

  /** interface_dequeue_event */
  function DequeueEvent(q: Queue, i: nat): Queue
  {
    q.(current := if q.current == Some(i) then None else q.current, pending := Without(q.pending, i))
  }

  // ----- runs

  /** What happens to the queue: an interface raises an event, the handler process ends, or an
      interface is freed. */
  datatype Step = Raise(i: nat, ev: Event, forks: seq<bool>) | Ended(forks: seq<bool>) | Freed(i: nat)

  function Apply(q: Queue, s: Step): Queue
  {
    match s
    case Raise(i, ev, forks) => QueueEvent(q, i, ev, forks)
    case Ended(forks) => TaskComplete(q, forks)
    case Freed(i) => DequeueEvent(q, i)
  }

  function Run(steps: seq<Step>): Queue
  {
    if steps == [] then EMPTY else Apply(Run(steps[..|steps| - 1]), steps[|steps| - 1])
  }

  /** The handler process only ends while it runs. */
  ghost predicate Possible(steps: seq<Step>)
  {
    forall k :: 0 <= k < |steps| && steps[k].Ended? ==> Run(steps[..k]).running
  }

  /** The last state event raised by interface `i`, since it was created. */
  function LastRaised(steps: seq<Step>, i: nat): Option<Event>
  {
    if steps == [] then None
    else
      var s := steps[|steps| - 1];
      if s.Raise? && s.i == i && IsState(s.ev) then Some(s.ev)
      else if s == Freed(i) then None
      else LastRaised(steps[..|steps| - 1], i)
  }

  /** The last state event of `i` that a handler was to be started for. */
  function LastTried(log: seq<Dispatch>, i: nat): Option<Event>
  {
    if log == [] then None
    else
      var d := log[|log| - 1];
      if d.iface == i && IsState(d.ev) then Some(d.ev) else LastTried(log[..|log| - 1], i)
  }

  /** How an interface behaves: it raises updates only while its last state event is "up". */
  ghost predicate Disciplined(steps: seq<Step>, i: nat)
  {
    forall k :: 0 <= k < |steps| && steps[k].Raise? && steps[k].i == i && steps[k].ev == Update ==>
      LastRaised(steps[..k], i) == Some(Up)
  }

  /** The last state event of `i` that waits, or else that a handler was to be started for. */
  function Latest(q: Queue, i: nat): Option<Event>
  {
    if i in q.pending && i in q.ev && IsState(q.ev[i]) then Some(q.ev[i]) else LastTried(q.log, i)
  }

  // ----- what the handler is told

  /** The last state event of `i` that a handler was started for: a failed fork tells nobody. */
  function LastTold(log: seq<Dispatch>, i: nat): Option<Event>
  {
    if log == [] then None
    else
      var d := log[|log| - 1];
      if d.iface == i && d.forked && IsState(d.ev) then Some(d.ev) else LastTold(log[..|log| - 1], i)
  }

  predicate Waits(q: Queue, i: nat)
  {
    i in q.pending && i in q.ev && IsState(q.ev[i])
  }

  /** What the handler was last told, or is about to be told, about `i`. */
  function Told(q: Queue, i: nat): Option<Event>
  {
    if Waits(q, i) then Some(q.ev[i]) else LastTold(q.log, i)
  }

  /** The last attempt to start a handler for a state event of `i`. */
  function LastTry(log: seq<Dispatch>, i: nat): Option<Dispatch>
  {
    if log == [] then None
    else
      var d := log[|log| - 1];
      if d.iface == i && IsState(d.ev) then Some(d) else LastTry(log[..|log| - 1], i)
  }

  /** That attempt failed, and the handler was not told the same event before. */
  predicate Missed(log: seq<Dispatch>, i: nat)
  {
    var d := LastTry(log, i);
    d.Some? && !d.value.forked && LastTold(log, i) != Some(d.value.ev)
  }

  ghost predicate AllForked(log: seq<Dispatch>)
  {
    forall k :: 0 <= k < |log| ==> log[k].forked
  }

  lemma {:induction false} TriedIsTold(log: seq<Dispatch>, i: nat)
    ensures LastTried(log, i) == (match LastTry(log, i) case Some(d) => Some(d.ev) case None => None)
    ensures LastTry(log, i).None? ==> LastTold(log, i).None?
    ensures LastTry(log, i).Some? && LastTry(log, i).value.forked ==> LastTold(log, i) == LastTried(log, i)
    ensures AllForked(log) ==> !Missed(log, i)
  {
    if log != [] {
      TriedIsTold(log[..|log| - 1], i);
    }
  }

  /** The handler is up to date about `i` exactly if an event of `i` waits or the last one was not
      missed. */
  lemma ToldUnlessMissed(q: Queue, i: nat)
    ensures Told(q, i) == Latest(q, i) <==> Waits(q, i) || !Missed(q.log, i)
  {
    hide LastTried, LastTold, LastTry;
    TriedIsTold(q.log, i);
  }

  // ----- the invariant

  /** Every interface waits at most once, and nothing waits while no handler runs. */
  ghost predicate QueueOk(q: Queue)
  {
    && NoDup(q.pending)
    && (forall i :: i in q.pending ==> i in q.ev && q.ev[i] != LinkUp)
    && (q.pending != [] ==> q.running)
    && (q.current.Some? ==> q.running && q.currentEv != LinkUp)
    && (q.current.Some? && IsState(q.currentEv) ==> LastTried(q.log, q.current.value) == Some(q.currentEv))
  }

  /** `QueueOk`, except that the handler may be idle with interfaces waiting. */
  ghost predicate ListOk(q: Queue)
  {
    NoDup(q.pending) && forall i :: i in q.pending ==> i in q.ev && q.ev[i] != LinkUp
  }

  lemma PopOk(q: Queue, forked: bool)
    requires ListOk(q) && q.pending != []
    ensures ListOk(Pop(q, forked)) && Pop(q, forked).currentEv != LinkUp
    ensures forall i :: Latest(Pop(q, forked), i) == Latest(q, i)
    ensures forked ==> QueueOk(Pop(q, forked))
  {
    var p, h := Pop(q, forked), q.pending[0];
    assert p.log[..|p.log| - 1] == q.log;
    forall i ensures Latest(p, i) == Latest(q, i) {
      assert i in q.pending <==> i == h || i in p.pending;
    }
  }

  /** Starting handlers, with any fork failures, tells the handler nothing but what was waiting. */
  lemma {:induction false} CallHotplugOk(q: Queue, forks: seq<bool>)
    requires ListOk(q) && q.current.None? && !q.running
    ensures QueueOk(CallHotplug(q, forks))
    ensures forall i :: Latest(CallHotplug(q, forks), i) == Latest(q, i)
    decreases |q.pending|
  {
    if q.pending != [] {
      if forks == [] || forks[0] {
        PopOk(q, true);
      } else {
        PopOk(q, false);
        CallHotplugOk(Pop(q, false), forks[1..]);
      }
    }
  }

  /** Merging an event into the queue makes it the latest known, unless it is an update. */
  lemma MergeOk(q: Queue, i: nat, ev: Event)
    requires QueueOk(q) && ev != LinkUp
    ensures ListOk(Merge(q, i, ev)) && (q.running ==> QueueOk(Merge(q, i, ev)))
    ensures Merge(q, i, ev).current == q.current && Merge(q, i, ev).running == q.running
    ensures forall j :: j != i ==> Latest(Merge(q, i, ev), j) == Latest(q, j)
    ensures IsState(ev) ==> Latest(Merge(q, i, ev), i) == Some(ev)
    ensures ev == Update ==>
              (Latest(Merge(q, i, ev), i) == Latest(q, i)
               <==> !Overwrites(q, i) || LastTried(q.log, i) == Some(q.ev[i]))
  {
  }

  /** An update of `i` would replace a waiting state event. */
  predicate Overwrites(q: Queue, i: nat)
  {
    q.current != Some(i) && i in q.pending && i in q.ev && IsState(q.ev[i]) && q.ev[i] != Up
  }

  lemma QueueEventOk(q: Queue, i: nat, ev: Event, forks: seq<bool>)
    requires QueueOk(q)
    ensures QueueOk(QueueEvent(q, i, ev, forks))
    ensures forall j :: j != i ==> Latest(QueueEvent(q, i, ev, forks), j) == Latest(q, j)
    ensures IsState(ev) ==> Latest(QueueEvent(q, i, ev, forks), i) == Some(ev)
    ensures ev == LinkUp ==> Latest(QueueEvent(q, i, ev, forks), i) == Latest(q, i)
  {
    if ev != LinkUp {
      MergeOk(q, i, ev);
      var q' := Merge(q, i, ev);
      if !q'.running && q'.current.None? {
        CallHotplugOk(q', forks);
      }
    }
  }

  /** An interface that raises a state event is up to date afterwards exactly if the event waits or
      was not missed. */
  lemma EventToldIff(q: Queue, i: nat, ev: Event, forks: seq<bool>)
    requires QueueOk(q) && IsState(ev)
    ensures var r := QueueEvent(q, i, ev, forks);
            Told(r, i) == Some(ev) <==> Waits(r, i) || !Missed(r.log, i)
  {
    hide QueueEvent, Told, Latest, Waits, Missed;
    QueueEventOk(q, i, ev, forks);
    ToldUnlessMissed(QueueEvent(q, i, ev, forks), i);
  }

  /** An update is harmless exactly when it does not replace a waiting "down" or "up failed"
      that a handler was not already to be started for. */
  lemma UpdateHarmlessIff(q: Queue, i: nat, forks: seq<bool>)
    requires QueueOk(q)
    ensures Latest(QueueEvent(q, i, Update, forks), i) == Latest(q, i)
            <==> !Overwrites(q, i) || LastTried(q.log, i) == Some(q.ev[i])
  {
    MergeOk(q, i, Update);
    var q' := Merge(q, i, Update);
    if !q'.running && q'.current.None? {
      CallHotplugOk(q', forks);
    }
  }

  // ----- what becomes of each event

  /** An event says nothing new: an update while any event of the running interface waits, or while an
      "up" of another one does, or a repetition of the running event, if nothing waits. */
  predicate Absorbed(q: Queue, i: nat, ev: Event)
  {
    if q.current == Some(i) then (if i in q.pending then ev == Update else ev == q.currentEv && ev != Update)
    else i in q.pending && i in q.ev && q.ev[i] == Up && ev == Update
  }

  function Fork(forks: seq<bool>, k: nat): bool
  {
    k < |forks| ==> forks[k]
  }

  /** Every event is handed on, unless it is absorbed: while a handler runs the interface waits with that
      event, in its place if it waited already and at the end of the list otherwise; when none runs the
      handler is to be started for it at once. Nothing else changes. */
  lemma EventIsHandedOn(q: Queue, i: nat, ev: Event, forks: seq<bool>)
    requires QueueOk(q) && ev != LinkUp
    ensures var r := QueueEvent(q, i, ev, forks);
            if Absorbed(q, i, ev) then r == q && q.running
            else if q.running then
              && i in r.pending && r.ev == q.ev[i := ev]
              && r.pending == (if i in q.pending then q.pending else q.pending + [i])
              && r.log == q.log && r.running && r.current == q.current && r.currentEv == q.currentEv
            else
              && r.log == q.log + [Dispatch(i, ev, Fork(forks, 0))] && r.pending == [] && r.running == Fork(forks, 0)
              && r.current == (if Fork(forks, 0) then Some(i) else None) && r.currentEv == ev
  {
    if !q.running {
      var p := Enqueue(q, i, ev);
      assert p.pending == [i];
      if !Fork(forks, 0) {
        assert CallHotplug(Pop(p, false), forks[1..]) == Pop(p, false);
      }
    }
  }

  /** How many handlers are tried for, with `n` interfaces waiting: up to the first fork that succeeds. */
  function Tries(forks: seq<bool>, n: nat): (k: nat)
    ensures k <= n && (n > 0 ==> k > 0)
  {
    if n == 0 then 0 else if Fork(forks, 0) then 1 else 1 + Tries(forks[1..], n - 1)
  }

  lemma {:induction false} TriesUntilOne(forks: seq<bool>, n: nat)
    ensures var k := Tries(forks, n);
            && (forall j :: 0 <= j < k - 1 ==> !Fork(forks, j)) && (k < n ==> k > 0 && Fork(forks, k - 1))
  {
    if n > 0 && !Fork(forks, 0) {
      TriesUntilOne(forks[1..], n - 1);
      var k := Tries(forks[1..], n - 1);
      forall j | 0 <= j < k ensures !Fork(forks, j) {
        assert j > 0 ==> Fork(forks[1..], j - 1) == Fork(forks, j);
      }
      assert k == 0 || Fork(forks[1..], k - 1) == Fork(forks, k);
    }
  }

  /** Attempts for the first `k` interfaces that wait, in their order */
  function Attempts(pending: seq<nat>, ev: map<nat, Event>, forks: seq<bool>, k: nat): seq<Dispatch>
    requires k <= |pending|
  {
    if k == 0 then []
    else
      [Dispatch(pending[0], if pending[0] in ev then ev[pending[0]] else Down, Fork(forks, 0))]
      + Attempts(pending[1..], ev, if forks == [] then [] else forks[1..], k - 1)
  }

  /** Starting handlers goes through the list in order, with the events that wait, until a fork
      succeeds. */
  lemma {:induction false} DispatchedInOrder(q: Queue, forks: seq<bool>)
    ensures var k, r := Tries(forks, |q.pending|), CallHotplug(q, forks);
            && r.pending == q.pending[k..] && r.ev == q.ev && r.log == q.log + Attempts(q.pending, q.ev, forks, k)
            && (k > 0 ==> r.running == Fork(forks, k - 1)
                          && r.current == if r.running then Some(q.pending[k - 1]) else None)
            && (k == 0 ==> r == q)
    decreases |q.pending|
  {
    if q.pending != [] {
      var p := Pop(q, Fork(forks, 0));
      if Fork(forks, 0) {
        assert Attempts(q.pending[1..], q.ev, if forks == [] then [] else forks[1..], 0) == [];
      } else {
        DispatchedInOrder(p, forks[1..]);
        var k := Tries(forks, |q.pending|);
        assert p.log + Attempts(q.pending[1..], q.ev, forks[1..], k - 1) == q.log + Attempts(q.pending, q.ev, forks, k);
        assert k > 1 ==> Fork(forks[1..], k - 2) == Fork(forks, k - 1);
      }
    }
  }

  /** When a handler ends, the next one is to be started for the interface that waits first, with the
      event it waits with, and none is if nobody waits. */
  lemma EndStartsNext(q: Queue, forks: seq<bool>)
    requires QueueOk(q)
    ensures var r := TaskComplete(q, forks);
            if q.pending == [] then r == q.(current := None, running := false)
            else |r.log| > |q.log| && q.log <= r.log && q.pending[0] in q.ev
                 && r.log[|q.log|] == Dispatch(q.pending[0], q.ev[q.pending[0]], Fork(forks, 0))
                 && (r.running || r.pending == [])
  {
    DispatchedInOrder(q.(current := None, running := false), forks);
    TriesUntilOne(forks, |q.pending|);
  }

  /** An interface that is freed does not wait any more, and the others keep their order. */
  lemma FreedIsForgotten(q: Queue, i: nat, k: nat)
    requires QueueOk(q) && k <= |q.pending| && if k < |q.pending| then q.pending[k] == i else i !in q.pending
    ensures var r := DequeueEvent(q, i);
            && r == q.(pending := r.pending, current := if q.current == Some(i) then None else q.current)
            && r.pending == q.pending[..k] + (if k < |q.pending| then q.pending[k + 1..] else [])
  {
    WithoutAt(q.pending, i, k);
  }

  lemma TaskCompleteOk(q: Queue, forks: seq<bool>)
    requires QueueOk(q)
    ensures QueueOk(TaskComplete(q, forks))
    ensures forall j :: Latest(TaskComplete(q, forks), j) == Latest(q, j)
  {
    var p := q.(current := None, running := false);
    assert forall j :: Latest(p, j) == Latest(q, j);
    CallHotplugOk(p, forks);
  }

  lemma DequeueEventOk(q: Queue, i: nat)
    requires QueueOk(q)
    ensures QueueOk(DequeueEvent(q, i))
    ensures forall j :: j != i ==> Latest(DequeueEvent(q, i), j) == Latest(q, j)
  {
    WithoutIs(q.pending, i);
  }

  lemma Prefixes(steps: seq<Step>)
    requires steps != [] && Possible(steps)
    ensures Possible(steps[..|steps| - 1])
    ensures forall i :: Disciplined(steps, i) ==> Disciplined(steps[..|steps| - 1], i)
  {
    var n := |steps| - 1;
    forall k | 0 <= k < n ensures steps[..n][..k] == steps[..k] {
    }
  }

  /** Queue safety over every run. */
  lemma {:induction false} RunOk(steps: seq<Step>)
    requires Possible(steps)
    ensures QueueOk(Run(steps))
  {
    if steps != [] {
      var n := |steps| - 1;
      Prefixes(steps);
      RunOk(steps[..n]);
      match steps[n]
      case Raise(i, ev, forks) => QueueEventOk(Run(steps[..n]), i, ev, forks);
      case Ended(forks) => TaskCompleteOk(Run(steps[..n]), forks);
      case Freed(i) => DequeueEventOk(Run(steps[..n]), i);
    }
  }

  /** Interface `i` has not been freed. */
  ghost predicate Live(steps: seq<Step>, i: nat)
  {
    forall k :: 0 <= k < |steps| ==> steps[k] != Freed(i)
  }

  /** Coalescing loses nothing: over every run, whatever is dropped or overwritten, the last state
      event of a live interface that waits, or that a handler was to be started for, is the last
      one it raised. */
  lemma {:induction false} CoalescingLosesNothing(steps: seq<Step>, i: nat)
    requires Possible(steps) && Disciplined(steps, i) && Live(steps, i)
    ensures Latest(Run(steps), i) == LastRaised(steps, i)
  {
    if steps != [] {
      var n := |steps| - 1;
      var q, s := Run(steps[..n]), steps[n];
      Prefixes(steps);
      RunOk(steps[..n]);
      CoalescingLosesNothing(steps[..n], i);
      match s
      case Raise(j, ev, forks) =>
        QueueEventOk(q, j, ev, forks);
        if j == i && ev == Update {
          UpdateHarmlessIff(q, i, forks);
        }
      case Ended(forks) => TaskCompleteOk(q, forks);
      case Freed(j) => DequeueEventOk(q, j);
    }
  }

  /** Coalescing is faithful exactly as far as the forks are: over every run, what the handler was
      last told about a live interface, or is about to be told, is the last state event it raised
      if and only if a state event of it waits, or the last attempt to tell one did not fail, or the
      handler had been told the same event before. */
  lemma CoalescingFaithfulIff(steps: seq<Step>, i: nat)
    requires Possible(steps) && Disciplined(steps, i) && Live(steps, i)
    ensures Told(Run(steps), i) == LastRaised(steps, i) <==> Waits(Run(steps), i) || !Missed(Run(steps).log, i)
    ensures AllForked(Run(steps).log) ==> Told(Run(steps), i) == LastRaised(steps, i)
  {
    hide Run, LastRaised, Told, Latest;
    CoalescingLosesNothing(steps, i);
    ToldUnlessMissed(Run(steps), i);
    TriedIsTold(Run(steps).log, i);
  }

  /** A failed fork leaves the handler with an older state, and nothing makes up for it: "up" is
      told, "down" is not, and the queue is empty. */
  lemma FailedForkLosesDown()
    ensures var steps := [Raise(1, Up, []), Ended([]), Raise(1, Down, [false])];
            && Possible(steps) && Live(steps, 1) && Disciplined(steps, 1)
            && LastRaised(steps, 1) == Some(Down) && Told(Run(steps), 1) == Some(Up)
            && Run(steps).pending == [] && !Run(steps).running
  {
    hide Run, Told, LastTold, Apply;
    var s1, s2, s3 := Raise(1, Up, []), Ended([]), Raise(1, Down, [false]);
    var steps := [s1, s2, s3];
    RunAppend([], s1);
    RunAppend([s1], s2);
    RunAppend([s1, s2], s3);
    RunEmpty();
    assert [] + [s1] == [s1] && [s1] + [s2] == [s1, s2] && [s1, s2] + [s3] == steps;
    assert steps[..0] == [] && steps[..1] == [s1] && steps[..2] == [s1, s2];
    assert Run([]) == EMPTY && Run([s1]) == Apply(EMPTY, s1);
    var q := MissedSteps();
    assert Run(steps) == q;
    ToldBefore(q);
  }

  lemma MissedSteps() returns (q: Queue)
    ensures Apply(EMPTY, Raise(1, Up, [])).running
    ensures q == Apply(Apply(Apply(EMPTY, Raise(1, Up, [])), Ended([])), Raise(1, Down, [false]))
    ensures q.log == [Dispatch(1, Up, true), Dispatch(1, Down, false)] && q.pending == [] && !q.running
  {
    var q1 := Queue(Some(1), Up, true, [], map[1 := Up], [Dispatch(1, Up, true)]);
    assert QueueEvent(EMPTY, 1, Up, []) == q1 by {
      assert Enqueue(EMPTY, 1, Up).pending == [1];
    }
    var q2 := q1.(current := None, running := false);
    assert TaskComplete(q1, []) == q2;
    q := q2.(currentEv := Down, ev := map[1 := Down], log := q1.log + [Dispatch(1, Down, false)]);
    assert QueueEvent(q2, 1, Down, [false]) == q by {
      var p := Enqueue(q2, 1, Down);
      assert p.pending == [1] && p.ev == map[1 := Down];
      assert CallHotplug(p, [false]) == CallHotplug(Pop(p, false), []) == Pop(p, false);
    }
  }

  lemma ToldBefore(q: Queue)
    requires q.log == [Dispatch(1, Up, true), Dispatch(1, Down, false)] && q.pending == []
    ensures Told(q, 1) == Some(Up)
  {
    var before := q.log[..|q.log| - 1];
    assert before == [Dispatch(1, Up, true)] && LastTold(before, 1) == Some(Up);
  }

  /** Without that discipline the queue can lose the last state: down, then an update, while
      another interface's handler runs. */
  lemma UpdateCanLoseDown()
    ensures exists steps :: Possible(steps) && Live(steps, 1) && Latest(Run(steps), 1) != LastRaised(steps, 1)
  {
    hide Run, Latest, LastTried, Apply;
    var s1, s2, s3 := Raise(0, Up, []), Raise(1, Down, []), Raise(1, Update, []);
    RunAppend([], s1);
    RunAppend([s1], s2);
    RunAppend([s1, s2], s3);
    assert [] + [s1] == [s1] && [s1] + [s2] == [s1, s2] && [s1, s2] + [s3] == [s1, s2, s3];
    RunEmpty();
    var q := LostSteps();
    assert Run([s1, s2, s3]) == q;
    UnheardOf(q);
    assert [s1, s2, s3][..2] == [s1, s2];
    assert LastRaised([s1, s2], 1) == Some(Down);
  }

  lemma LostSteps() returns (q: Queue)
    ensures q == Apply(Apply(Apply(EMPTY, Raise(0, Up, [])), Raise(1, Down, [])), Raise(1, Update, []))
    ensures q.log == [Dispatch(0, Up, true)] && 1 in q.ev && q.ev[1] == Update
  {
    var q1 := Queue(Some(0), Up, true, [], map[0 := Up], [Dispatch(0, Up, true)]);
    assert QueueEvent(EMPTY, 0, Up, []) == q1 by {
      assert Enqueue(EMPTY, 0, Up).pending == [0];
    }
    var q2 := q1.(ev := map[0 := Up, 1 := Down], pending := [1]);
    assert QueueEvent(q1, 1, Down, []) == q2;
    q := q2.(ev := q2.ev[1 := Update]);
    assert QueueEvent(q2, 1, Update, []) == q;
  }

  lemma RunEmpty()
    ensures Run([]) == EMPTY
  {
  }

  lemma UnheardOf(q: Queue)
    requires q.log == [Dispatch(0, Up, true)] && 1 in q.ev && q.ev[1] == Update
    ensures Latest(q, 1) == None
  {
    var log := q.log[..|q.log| - 1];
    assert log == [] && LastTried(log, 1) == None;
  }

  lemma RunAppend(steps: seq<Step>, s: Step)
    ensures Run(steps + [s]) == Apply(Run(steps), s)
  {
    assert (steps + [s])[..|steps|] == steps;
  }

  // ----- one handler at a time

  function Forks(log: seq<Dispatch>): nat
  {
    if log == [] then 0 else Forks(log[..|log| - 1]) + (if log[|log| - 1].forked then 1 else 0)
  }

  function Ends(steps: seq<Step>): nat
  {
    if steps == [] then 0 else Ends(steps[..|steps| - 1]) + (if steps[|steps| - 1].Ended? then 1 else 0)
  }

  lemma {:induction false} CallHotplugForks(q: Queue, forks: seq<bool>)
    requires !q.running
    ensures Forks(CallHotplug(q, forks).log) == Forks(q.log) + (if CallHotplug(q, forks).running then 1 else 0)
    decreases |q.pending|
  {
    if q.pending != [] {
      var forked := forks == [] || forks[0];
      assert Pop(q, forked).log[..|q.log|] == q.log;
      if !forked {
        CallHotplugForks(Pop(q, false), forks[1..]);
      }
    }
  }

  lemma MergeKeepsHandler(q: Queue, i: nat, ev: Event)
    ensures var m := Merge(q, i, ev); m.log == q.log && m.running == q.running
  {
  }

  /** Over every run, the handlers started are exactly those that ended plus the one that runs
      now: two never run at once. */
  lemma {:induction false} OneHandlerAtATime(steps: seq<Step>)
    requires Possible(steps)
    ensures Forks(Run(steps).log) == Ends(steps) + (if Run(steps).running then 1 else 0)
  {
    hide Merge, CallHotplug;
    if steps != [] {
      var n := |steps| - 1;
      var q := Run(steps[..n]);
      Prefixes(steps);
      OneHandlerAtATime(steps[..n]);
      match steps[n]
      case Raise(i, ev, forks) =>
        MergeKeepsHandler(q, i, ev);
        if ev != LinkUp && !q.running {
          CallHotplugForks(Merge(q, i, ev), forks);
        }
      case Ended(forks) => CallHotplugForks(q.(current := None, running := false), forks);
      case Freed(i) =>
    }
  }

  // ----- how long an entry waits

  function Position(s: seq<nat>, i: nat): (k: nat)
    requires i in s
    ensures k < |s| && s[k] == i
  {
    if s[0] == i then 0 else 1 + Position(s[1..], i)
  }

  predicate Tried(log: seq<Dispatch>, i: nat)
  {
    exists k :: 0 <= k < |log| && log[k].iface == i
  }

  /** `i` waits at position at most `k`, or a handler was to be started for it since the log was `from`. */
  ghost predicate WaitsAtMost(q: Queue, from: nat, i: nat, k: int)
  {
    from <= |q.log| && (Tried(q.log[from..], i) || (i in q.pending && Position(q.pending, i) <= k))
  }

  lemma {:induction false} PositionKept(s: seq<nat>, t: seq<nat>, i: nat)
    requires i in s
    ensures i in s + t && Position(s + t, i) == Position(s, i)
  {
    if s[0] != i {
      assert (s + t)[1..] == s[1..] + t;
      PositionKept(s[1..], t, i);
    }
  }

  lemma {:induction false} PositionWithout(s: seq<nat>, i: nat, j: nat)
    requires i in s && i != j
    ensures Position(Without(s, j), i) <= Position(s, i)
  {
    if s[0] != i {
      PositionWithout(s[1..], i, j);
      if s[0] != j {
        assert ([s[0]] + Without(s[1..], j))[1..] == Without(s[1..], j);
      }
    }
  }

  lemma {:induction false} CallHotplugWaits(q: Queue, forks: seq<bool>, from: nat, i: nat, k: int)
    requires WaitsAtMost(q, from, i, k)
    ensures WaitsAtMost(CallHotplug(q, forks), from, i, k)
    ensures q.pending != [] ==> WaitsAtMost(CallHotplug(q, forks), from, i, k - 1)
    decreases |q.pending|
  {
    if q.pending != [] {
      var forked := forks == [] || forks[0];
      var p := Pop(q, forked);
      PopWaits(q, forked, from, i, k);
      if !forked {
        CallHotplugWaits(p, forks[1..], from, i, k - 1);
      }
    }
  }

  lemma PopWaits(q: Queue, forked: bool, from: nat, i: nat, k: int)
    requires q.pending != [] && WaitsAtMost(q, from, i, k)
    ensures WaitsAtMost(Pop(q, forked), from, i, k - 1)
  {
    var p := Pop(q, forked);
    assert p.log[from..] == q.log[from..] + [p.log[|q.log|]];
    if Tried(q.log[from..], i) {
      var j :| 0 <= j < |q.log[from..]| && q.log[from..][j].iface == i;
      assert p.log[from..][j].iface == i;
    } else if q.pending[0] == i {
      assert p.log[from..][|q.log| - from].iface == i;
    }
  }

  lemma MergeWaits(q: Queue, j: nat, ev: Event, from: nat, i: nat, k: int)
    requires WaitsAtMost(q, from, i, k)
    ensures WaitsAtMost(Merge(q, j, ev), from, i, k)
  {
    if i in q.pending {
      PositionKept(q.pending, [j], i);
    }
  }

  lemma StepWaits(q: Queue, s: Step, from: nat, i: nat, k: int)
    requires WaitsAtMost(q, from, i, k) && s != Freed(i)
    ensures WaitsAtMost(Apply(q, s), from, i, k)
    ensures s.Ended? ==> WaitsAtMost(Apply(q, s), from, i, k - 1)
  {
    match s
    case Raise(j, ev, forks) =>
      MergeWaits(q, j, ev, from, i, k);
      CallHotplugWaits(Merge(q, j, ev), forks, from, i, k);
    case Ended(forks) =>
      var p := q.(current := None, running := false);
      assert WaitsAtMost(p, from, i, k);
      CallHotplugWaits(p, forks, from, i, k);
    case Freed(j) =>
      if i in q.pending {
        PositionWithout(q.pending, i, j);
      }
  }

  /** Overwriting keeps the place in the queue: for an entry at position k a handler is to be
      started after at most k + 1 ends of handlers (the one running and those before it), unless
      its interface is freed; and one is started then unless its fork fails. */
  lemma {:induction false} BoundedWait(before: seq<Step>, after: seq<Step>, i: nat)
    requires i in Run(before).pending && Live(after, i)
    ensures Run(before).log <= Run(before + after).log
    ensures WaitsAtMost(Run(before + after), |Run(before).log|, i, Position(Run(before).pending, i) - Ends(after))
    ensures Ends(after) > Position(Run(before).pending, i) ==>
              Tried(Run(before + after).log[|Run(before).log|..], i)
    ensures Ends(after) > Position(Run(before).pending, i)
            && AllForked(Run(before + after).log[|Run(before).log|..]) ==>
              exists d :: d in Run(before + after).log[|Run(before).log|..] && d.iface == i && d.forked
  {
    var from, k := |Run(before).log|, Position(Run(before).pending, i);
    if after == [] {
      assert before + after == before;
    } else {
      var n := |after| - 1;
      BoundedWait(before, after[..n], i);
      assert (before + after)[..|before + after| - 1] == before + after[..n];
      var q := Run(before + after[..n]);
      StepWaits(q, after[n], from, i, k - Ends(after[..n]));
      LogGrows(q, after[n]);
    }
  }

  lemma LogGrows(q: Queue, s: Step)
    ensures q.log <= Apply(q, s).log
  {
    match s
    case Raise(j, ev, forks) => CallHotplugLog(Merge(q, j, ev), forks);
    case Ended(forks) => CallHotplugLog(q.(current := None, running := false), forks);
    case Freed(j) =>
  }

  lemma {:induction false} CallHotplugLog(q: Queue, forks: seq<bool>)
    ensures q.log <= CallHotplug(q, forks).log
    decreases |q.pending|
  {
    if q.pending != [] && forks != [] && !forks[0] {
      CallHotplugLog(Pop(q, false), forks[1..]);
    }
  }

  // ----- the code

  /** The module-level state of interface-event.c. Process forks and process ends come from
      outside: `forks` holds the outcomes of the forks one call may make. */
  class EventQueue {
    var current: Option<nat>
    var currentEv: Event
    var taskPending: bool
    var pending: seq<nat>
    var hotplugEv: map<nat, Event>
    ghost var log: seq<Dispatch>

    ghost function State(): Queue
      reads this
    {
      Queue(current, currentEv, taskPending, pending, hotplugEv, log)
    }

    constructor ()
      ensures State() == EMPTY
    {
      current, currentEv, taskPending, pending, hotplugEv, log := None, Down, false, [], map[], [];
    }

    /** call_hotplug with run_cmd */
    method CallHotplugNext(forks: seq<bool>)
      modifies this
      ensures State() == CallHotplug(old(State()), forks)
      decreases |pending|, 0
    {
      if pending == [] {
        return;
      }
      var i := pending[0];
      current := Some(i);
      currentEv := if i in hotplugEv then hotplugEv[i] else Down;
      pending := pending[1..];
      if forks == [] || forks[0] {
        log := log + [Dispatch(i, currentEv, true)];
        taskPending := true;
      } else {
        log := log + [Dispatch(i, currentEv, false)];
        taskPending := false;
        TaskEnded(forks[1..]);
      }
    }

    /** task_complete */
    method TaskEnded(forks: seq<bool>)
      modifies this
      ensures State() == TaskComplete(old(State()), forks)
      decreases |pending|, 1
    {
      taskPending := false;
      current := None;
      CallHotplugNext(forks);
    }

    /** interface_queue_event */
    method QueueInterfaceEvent(i: nat, ev: Event, forks: seq<bool>)
      modifies this
      ensures State() == QueueEvent(old(State()), i, ev, forks)
    {
      if ev == LinkUp {
        return;
      }
      if current == Some(i) {
        if i in pending {
          if ev != Update {
            hotplugEv := hotplugEv[i := ev];
          }
        } else if ev != currentEv || ev == Update {
          hotplugEv := hotplugEv[i := ev];
          pending := pending + [i];
        }
      } else if i in pending {
        if !(i in hotplugEv && hotplugEv[i] == Up && ev == Update) {
          hotplugEv := hotplugEv[i := ev];
        }
      } else {
        hotplugEv := hotplugEv[i := ev];
        pending := pending + [i];
      }
      if !taskPending && current.None? {
        CallHotplugNext(forks);
      }
    }

    /** interface_dequeue_event */
    method DequeueInterfaceEvent(i: nat)
      modifies this
      ensures State() == DequeueEvent(old(State()), i)
    {
      if current == Some(i) {
        current := None;
      }
      pending := Without(pending, i);
    }

    /** The daemon over a whole run. */
    method Serve(steps: seq<Step>)
      requires State() == EMPTY
      modifies this
      ensures State() == Run(steps)
    {
      assert steps[..0] == [];
      for k := 0 to |steps|
        invariant State() == Run(steps[..k])
      {
        assert steps[..k + 1][..k] == steps[..k];
        match steps[k]
        case Raise(i, ev, forks) => QueueInterfaceEvent(i, ev, forks);
        case Ended(forks) => TaskEnded(forks);
        case Freed(i) => DequeueInterfaceEvent(i);
      }
      assert steps[..|steps|] == steps;
    }
  }
}

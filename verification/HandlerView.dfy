/** The hotplug handler's view of a shell-protocol interface: the event discipline of the
    interface is what the queue needs to stay faithful. */
module HandlerView {
  import opened HotplugQueue
  import L = Lifecycle
  import opened Options

  /** The events that interface `i` raised. */
  function Raised(steps: seq<Step>, i: nat): seq<Event>
  {
    if steps == [] then []
    else
      var s := steps[|steps| - 1];
      Raised(steps[..|steps| - 1], i) + (if s.Raise? && s.i == i then [s.ev] else [])
  }

  lemma {:induction false} RaisedPrefix(steps: seq<Step>, i: nat, k: nat)
    requires k < |steps| && steps[k].Raise? && steps[k].i == i
    ensures Raised(steps[..k], i) + [steps[k].ev] <= Raised(steps, i)
  {
    var n := |steps| - 1;
    if k < n {
      RaisedPrefix(steps[..n], i, k);
      assert steps[..n][..k] == steps[..k];
    }
  }

  lemma {:induction false} LastRaisedIsLastState(steps: seq<Step>, i: nat)
    requires Live(steps, i)
    ensures LastRaised(steps, i) == L.LastState(Raised(steps, i))
  {
    if steps != [] {
      var n := |steps| - 1;
      LastRaisedIsLastState(steps[..n], i);
      var before, s := Raised(steps[..n], i), steps[n];
      if s.Raise? && s.i == i {
        assert Raised(steps, i)[..|before|] == before;
      } else {
        assert Raised(steps, i) == before;
      }
    }
  }

  lemma DisciplineFollows(steps: seq<Step>, i: nat)
    requires Live(steps, i) && L.WellRaised(Raised(steps, i))
    ensures Disciplined(steps, i)
  {
    forall k | 0 <= k < |steps| && steps[k].Raise? && steps[k].i == i && steps[k].ev == Update
      ensures LastRaised(steps[..k], i) == Some(Up)
    {
      RaisedPrefix(steps, i, k);
      var before := Raised(steps[..k], i);
      assert Raised(steps, i)[|before|] == Update;
      assert Raised(steps, i)[..|before|] == before;
      LastRaisedIsLastState(steps[..k], i);
    }
  }

  /** End to end: take any run of a shell-protocol interface and any interleaving of its events
      with those of other interfaces, with handlers ending and forks failing at any time. What the
      handler was last told about the interface, or is about to be told, is the interface's last
      state event if and only if an event waits or the last one was not missed for a failed fork. */
  lemma HandlerSeesLastStateIff(steps: seq<Step>, i: nat, flags: L.Flags, es: seq<L.Happening>)
    requires Possible(steps) && Live(steps, i)
    requires Raised(steps, i) == L.RunFrom(L.Initial(flags), es).trace.events
    ensures Told(Run(steps), i) == L.LastState(L.RunFrom(L.Initial(flags), es).trace.events)
            <==> Waits(Run(steps), i) || !Missed(Run(steps).log, i)
    ensures AllForked(Run(steps).log) ==>
              Told(Run(steps), i) == L.LastState(L.RunFrom(L.Initial(flags), es).trace.events)
  {
    hide Run, Told, Waits, Missed, LastRaised;
    L.RunSafe(flags, es);
    DisciplineFollows(steps, i);
    CoalescingFaithfulIff(steps, i);
    LastRaisedIsLastState(steps, i);
  }
}

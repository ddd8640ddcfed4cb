/** The queue between the kernel event reader and the watcher: coalesced removals, one
    wake-up token, a sticky stop. Each critical section and each signal is one step. */
module UeventQueue {
  import opened Bytes
  import opened Discovery

  type Thread = nat

  datatype Fault = NoFault | Fault(reason: string)

  /** deviceUeventBatch. */
  datatype Batch = Batch(removals: seq<Uevent>, rescan: bool, stopped: bool, err: Fault)

  /** Where the one consumer is: about to look, asleep on the channel, or told to take. */
  datatype Consumer = Looking | Asleep | Holding | Gone

  /** owing are the threads between their critical section and their signal; pushed are the
      names of the removals pushed before the stop since the last take. */
  datatype State = State(
    removals: seq<Uevent>, removalNames: set<string>, rescan: bool, stopped: bool, err: Fault,
    token: bool, owing: set<Thread>, consumer: Consumer,
    pushed: set<string>, taken: seq<Batch>)

  const INIT: State := State([], {}, false, false, NoFault, false, {}, Looking, {}, [])

  datatype Step =
    | Push(t: Thread, event: Uevent)
    | Stop(t: Thread, reason: Fault)
    | Signal(t: Thread)
    | Look
    | Wake
    | Cancel
    | Take

  /** The name a push has to report, if any. */
  function Reported(e: Uevent): Option<string> {
    if RemovesControlNode(e) && Named(ControlNodeName(e)) then Some(ControlNodeName(e)) else None
  }

  predicate Ready(s: State) { s.rescan || |s.removals| > 0 || s.stopped }

  /** The critical section of push. */
  function Pushed(s: State, e: Uevent): State {
    if s.stopped then s
    else
      match Reported(e)
      case None => s.(rescan := true)
      case Some(name) =>
        if name in s.removalNames then s.(rescan := true, pushed := s.pushed + {name})
        else s.(rescan := true, removalNames := s.removalNames + {name}, removals := s.removals + [e], pushed := s.pushed + {name})
  }

  function Stopped(s: State, reason: Fault): State {
    if s.stopped then s else s.(stopped := true, err := reason)
  }

  function BatchOf(s: State): Batch { Batch(s.removals, s.rescan, s.stopped, s.err) }

  function Taken(s: State): State {
    s.(removals := [], removalNames := {}, rescan := false, pushed := {}, taken := s.taken + [BatchOf(s)])
  }

  function Apply(s: State, step: Step): State {
    match step
    case Push(t, e) => if t in s.owing then s else if s.stopped then s else Pushed(s, e).(owing := s.owing + {t})
    case Stop(t, reason) => if t in s.owing then s else Stopped(s, reason).(owing := s.owing + {t})
    case Signal(t) => if t in s.owing then s.(token := true, owing := s.owing - {t}) else s
    case Look => if s.consumer != Looking then s else s.(consumer := if Ready(s) then Holding else Asleep)
    case Wake => if s.consumer == Asleep && s.token then s.(token := false, consumer := Looking) else s
    case Cancel => if s.consumer == Asleep then s.(consumer := Gone) else s
    case Take => if s.consumer == Holding then Taken(s).(consumer := Looking) else s
  }

  function Run(s: State, steps: seq<Step>): State
    decreases steps
  {
    if steps == [] then s else Run(Apply(s, steps[0]), steps[1..])
  }

  // ---- invariant ----

  ghost predicate NamesOf(removals: seq<Uevent>, names: set<string>) {
    && (forall i :: 0 <= i < |removals| ==> Reported(removals[i]).Some? && Reported(removals[i]).value in names)
    && (forall n :: n in names ==> exists i :: 0 <= i < |removals| && Reported(removals[i]) == Some(n))
    && (forall i, j :: 0 <= i < j < |removals| ==> Reported(removals[i]) != Reported(removals[j]))
  }

  ghost predicate Inv(s: State) {
    && NamesOf(s.removals, s.removalNames) && s.pushed == s.removalNames
    && (|s.removals| > 0 ==> s.rescan)
    && (s.consumer == Asleep && Ready(s) ==> s.token || s.owing != {})
    && (s.err != NoFault ==> s.stopped)
  }

  lemma NamesAdd(removals: seq<Uevent>, names: set<string>, e: Uevent, name: string)
    requires NamesOf(removals, names) && Reported(e) == Some(name) && name !in names
    ensures NamesOf(removals + [e], names + {name})
  {
    hide Reported;
    var rs, ns := removals + [e], names + {name};
    forall n | n in ns ensures exists i :: 0 <= i < |rs| && Reported(rs[i]) == Some(n) {
      if n == name {
        assert Reported(rs[|removals|]) == Some(n);
      } else {
        var i :| 0 <= i < |removals| && Reported(removals[i]) == Some(n);
        assert Reported(rs[i]) == Some(n);
      }
    }
  }

  lemma ApplyKeeps(s: State, step: Step)
    requires Inv(s)
    ensures Inv(Apply(s, step))
  {
    hide Reported;
    match step
    case Push(t, e) =>
      assert t in s.owing + {t};
      if Reported(e).Some? && Reported(e).value !in s.removalNames {
        NamesAdd(s.removals, s.removalNames, e, Reported(e).value);
      }
      hide NamesOf;
    case Stop(t, reason) => assert t in s.owing + {t}; hide NamesOf;
    case Take => assert NamesOf([], {});
    case _ => hide NamesOf;
  }

  lemma {:induction false} RunKeeps(s: State, steps: seq<Step>)
    requires Inv(s)
    ensures Inv(Run(s, steps))
    decreases steps
  {
    if steps != [] {
      ApplyKeeps(s, steps[0]);
      RunKeeps(Apply(s, steps[0]), steps[1..]);
    }
  }

  lemma {:induction false} RunAppend(s: State, a: seq<Step>, b: seq<Step>)
    ensures Run(s, a + b) == Run(Run(s, a), b)
    decreases a
  {
    hide Apply;
    if a == [] {
      assert a + b == b;
    } else {
      assert (a + b)[1..] == a[1..] + b;
      RunAppend(Apply(s, a[0]), a[1..], b);
    }
  }

  // ---- theorems ----

  function After(steps: seq<Step>): State { Run(INIT, steps) }

  lemma Reached(steps: seq<Step>)
    ensures Inv(After(steps))
  {
    RunKeeps(INIT, steps);
  }

  /** Whenever the consumer sleeps though the queue is ready, it will be woken: a token is
      there, or any thread that still owes its signal puts one there. */
  lemma NoLostWakeup(steps: seq<Step>)
    requires After(steps).consumer == Asleep && Ready(After(steps))
    ensures var s := After(steps);
      || Apply(s, Wake).consumer == Looking
      || (s.owing != {} && forall t :: t in s.owing ==> Apply(Apply(s, Signal(t)), Wake).consumer == Looking)
  {
    Reached(steps);
  }

  /** The set of names is the names of the removals, each once. */
  lemma NamesMatchRemovals(steps: seq<Step>)
    ensures NamesOf(After(steps).removals, After(steps).removalNames)
    ensures |After(steps).removals| > 0 ==> After(steps).rescan
  {
    Reached(steps);
  }

  /** The batch taken next represents exactly the names pushed before the stop since the
      last take, and asks for a rescan if there are any. */
  lemma RemovalsRepresented(steps: seq<Step>)
    requires After(steps).consumer == Holding
    ensures var s, s' := After(steps), Apply(After(steps), Take);
      && s'.taken == s.taken + [BatchOf(s)] && NamesOf(BatchOf(s).removals, s.pushed)
      && (s.pushed != {} ==> BatchOf(s).rescan) && s'.pushed == {} && s'.removals == []
  {
    Reached(steps);
    var s := After(steps);
    if s.pushed != {} {
      var n: string :| n in s.pushed;
      var i :| 0 <= i < |s.removals| && Reported(s.removals[i]) == Some(n);
    }
  }

  /** A push before the stop is remembered until the next take. */
  lemma PushRemembered(s: State, t: Thread, e: Uevent)
    requires !s.stopped && t !in s.owing && Reported(e).Some?
    ensures Reported(e).value in Apply(s, Push(t, e)).pushed
  {
    hide Reported;
  }

  lemma {:induction false} RememberedUntilTaken(s: State, name: string, steps: seq<Step>)
    requires name in s.pushed && forall i :: 0 <= i < |steps| ==> steps[i] != Take
    ensures name in Run(s, steps).pushed
    decreases steps
  {
    hide Reported;
    if steps != [] {
      assert steps[0] != Take;
      RememberedUntilTaken(Apply(s, steps[0]), name, steps[1..]);
    }
  }

  /** Once stopped, always stopped, with the error of the first stop. */
  lemma {:induction false} StopIsSticky(s: State, steps: seq<Step>)
    requires s.stopped
    ensures Run(s, steps).stopped && Run(s, steps).err == s.err
    decreases steps
  {
    hide Reported;
    if steps != [] { StopIsSticky(Apply(s, steps[0]), steps[1..]); }
  }

  /** The consumer is on its way to the batch: it holds it, it will when it next looks, or
      it sleeps and a token, or the signal of any thread that owes one, makes it look. */
  ghost predicate WillTake(s: State) {
    match s.consumer
    case Holding => true
    case Looking => Apply(s, Look).consumer == Holding
    case Asleep =>
      || Apply(Apply(s, Wake), Look).consumer == Holding
      || (s.owing != {} && forall t :: t in s.owing ==> Apply(Apply(Apply(s, Signal(t)), Wake), Look).consumer == Holding)
    case Gone => true
  }

  lemma ReadyIsTaken(s: State)
    requires Inv(s) && (s.stopped || s.rescan)
    ensures WillTake(s)
  {
    hide NamesOf;
  }

  lemma ThenRun(before: seq<Step>, step: Step, after: seq<Step>)
    ensures After(before + [step] + after) == Run(Apply(After(before), step), after)
  {
    hide Apply;
    RunAppend(INIT, before + [step], after);
    RunAppend(INIT, before, [step]);
    assert [step][1..] == [];
    assert Run(After(before), [step]) == Apply(After(before), step);
  }

  /** A stop ends the wait: from then on the consumer is on its way to a batch that says
      stopped and carries the reason of that stop, however often it has taken before. */
  lemma StopIsReported(before: seq<Step>, t: Thread, reason: Fault, after: seq<Step>)
    requires !After(before).stopped && t !in After(before).owing
    ensures var s := After(before + [Stop(t, reason)] + after);
      && WillTake(s)
      && (s.consumer == Holding ==>
            var s' := Apply(s, Take);
            |s'.taken| == |s.taken| + 1 && s'.taken[|s.taken|].stopped && s'.taken[|s.taken|].err == reason && s'.consumer == Looking)
  {
    ThenRun(before, Stop(t, reason), after);
    StopIsSticky(Apply(After(before), Stop(t, reason)), after);
    Reached(before + [Stop(t, reason)] + after);
    hide Inv, Run, WillTake;
    ReadyIsTaken(After(before + [Stop(t, reason)] + after));
  }

  lemma {:induction false} RescanStays(s: State, steps: seq<Step>)
    requires s.rescan && forall i :: 0 <= i < |steps| ==> steps[i] != Take
    ensures Run(s, steps).rescan
    decreases steps
  {
    hide Reported;
    if steps != [] {
      assert steps[0] != Take;
      RescanStays(Apply(s, steps[0]), steps[1..]);
    }
  }

  /** Any event pushed before the stop, named or not, ends the wait too: until the next
      take the consumer is on its way to a batch that asks for a rescan. */
  lemma PushIsReported(before: seq<Step>, t: Thread, e: Uevent, after: seq<Step>)
    requires !After(before).stopped && t !in After(before).owing
    requires forall i :: 0 <= i < |after| ==> after[i] != Take
    ensures var s := After(before + [Push(t, e)] + after);
      && WillTake(s)
      && (s.consumer == Holding ==>
            var s' := Apply(s, Take);
            |s'.taken| == |s.taken| + 1 && s'.taken[|s.taken|].rescan && s'.consumer == Looking)
  {
    hide Reported;
    ThenRun(before, Push(t, e), after);
    RescanStays(Apply(After(before), Push(t, e)), after);
    Reached(before + [Push(t, e)] + after);
    hide Inv, Run, WillTake;
    ReadyIsTaken(After(before + [Push(t, e)] + after));
  }

  /** A consumer that looks goes to sleep exactly when nothing was pushed or stopped, a
      cancelled sleeper leaves, and an event pushed after the stop changes nothing. */
  lemma LookSleepsIff(steps: seq<Step>, t: Thread, e: Uevent)
    ensures var s := After(steps);
      && (s.consumer == Looking ==> Apply(s, Look).consumer == if s.rescan || s.stopped then Holding else Asleep)
      && (s.consumer == Asleep ==> Apply(s, Cancel).consumer == Gone)
      && (s.stopped ==> Apply(s, Push(t, e)) == s)
  {
    Reached(steps);
    hide NamesOf, Reported;
  }

  // ---- the queue object ----

  class DeviceUeventQueue {
    var removals: seq<Uevent>
    var removalNames: set<string>
    var rescan: bool
    var stopped: bool
    var err: Fault
    var notify: bool
    ghost var owing: set<Thread>
    ghost var consumer: Consumer
    ghost var pushed: set<string>
    ghost var taken: seq<Batch>

    ghost function View(): State
      reads this
    {
      State(removals, removalNames, rescan, stopped, err, notify, owing, consumer, pushed, taken)
    }

    constructor ()
      ensures View() == INIT
    {
      removals, removalNames, rescan, stopped, err, notify := [], {}, false, false, NoFault, false;
      owing, consumer, pushed, taken := {}, Looking, {}, [];
    }

    /** The critical section of push; the caller signals if it is told to. */
    method Push(ghost t: Thread, event: Uevent) returns (signal: bool)
      requires t !in owing
      modifies this
      ensures View() == Apply(old(View()), Step.Push(t, event))
      ensures signal <==> t in owing
    {
      if stopped { return false; }
      hide ControlNodeName, RemovesControlNode;
      if RemovesControlNode(event) {
        var name := ControlNodeName(event);
        if name != "" && name != "." {
          if name !in removalNames {
            removalNames := removalNames + {name};
            removals := removals + [event];
          }
          pushed := pushed + {name};
        }
      }
      rescan := true;
      owing := owing + {t};
      return true;
    }

    method Stop(ghost t: Thread, reason: Fault)
      requires t !in owing
      modifies this
      ensures View() == Apply(old(View()), Step.Stop(t, reason))
    {
      if !stopped {
        stopped := true;
        err := reason;
      }
      owing := owing + {t};
    }

    /** A send that is dropped when the channel already holds its one token. */
    method Signal(ghost t: Thread)
      requires t in owing
      modifies this
      ensures View() == Apply(old(View()), Step.Signal(t))
    {
      notify := true;
      owing := owing - {t};
    }

    /** One pass of wait under the lock. */
    method Poll() returns (ready: bool)
      requires consumer == Looking
      modifies this
      ensures View() == Apply(old(View()), Step.Look) && (ready <==> consumer == Holding)
    {
      ready := rescan || |removals| > 0 || stopped;
      consumer := if ready then Holding else Asleep;
    }

    method Take() returns (batch: Batch)
      requires consumer == Holding
      modifies this
      ensures View() == Apply(old(View()), Step.Take) && batch == BatchOf(old(View()))
    {
      batch := Batch(removals, rescan, stopped, err);
      removals := [];
      removalNames := {};
      rescan := false;
      taken := taken + [batch];
      pushed := {};
      consumer := Looking;
    }
  }
}

/** What the desktop's process manager does when it is asked: a start launches and reaches running, a
    stop ends it, and each change of hands happens exactly on its own occasion. */
module DesktopOutcomes {
  import opened Prelude
  import opened DesktopRuntime

  // ---------------------------------------------------------------------------
  // Occasions
  // ---------------------------------------------------------------------------

  /** The endpoint answers as the very child the current lifecycle waits for. */
  predicate AnswersAsChild(m: Manager, e: Event) {
    && e.Poll? && e.generation == m.generation && m.child.Some?
    && Get(m.lifecycles, e.generation) == Some(Watching(m.child.value))
    && e.probe == Identified(true, m.child.value.instance)
  }

  /** The status becomes running exactly when the held child answers as itself to the current lifecycle. */
  lemma RunsExactly(m: Manager, e: Event)
    requires Inv(m) && Enabled(m, e) && m.status.state != Running
    ensures Step(m, e).status.state == Running <==> AnswersAsChild(m, e)
    ensures AnswersAsChild(m, e) ==>
      Step(m, e) == m.(status := Status(Running, Desktop, Some(m.child.value.instance)),
                       lifecycles := m.lifecycles[e.generation := Settled])
  {
    hide Inv;
    if Step(m, e).status.state == Running {
      OnlyCurrentRuns(m, e);
      WatchedIsHeld(m, e);
    }
  }

  lemma WatchedIsHeld(m: Manager, e: Event)
    requires Inv(m) && Enabled(m, e) && e.Poll? && m.status.state != Running && Step(m, e).status.state == Running
    ensures m.child.Some? && m.lifecycles[e.generation] == Watching(m.child.value)
  {
  }

  /** A process is launched exactly when the current lifecycle finds the endpoint free, with a control
      token that is long enough; it is then held, and the token is its own. */
  lemma SpawnsExactly(m: Manager, e: Event)
    requires Inv(m) && Enabled(m, e)
    ensures Step(m, e).spawned != m.spawned <==>
      && e.FirstProbe? && e.generation == m.generation && e.probe == Unreachable
      && e.launch.Spawns? && |e.launch.token| >= 32
    ensures Step(m, e).spawned != m.spawned ==>
      var c := Child(m.issued, m.generation, m.issued, e.launch.token);
      && Step(m, e).spawned == m.spawned + {c} && Step(m, e).child == Some(c) && Step(m, e).token == Some(c.token)
      && Step(m, e).status == Status(Starting, Desktop, m.status.instance)
  {
    hide Inv, NoneLost, PhaseSound, FirstProbeStep;
    Facts(m);
    if e.FirstProbe? {
      ProbeSpawnsExactly(m, e.generation, e.probe, e.launch);
    } else if Step(m, e).spawned != m.spawned {
      OnlyProbesSpawn(m, e);
      assert false;
    }
  }

  lemma ProbeSpawnsExactly(m: Manager, g: nat, probe: Probe, launch: Launch)
    requires NoneLost(m)
    ensures var m' := FirstProbeStep(m, g, probe, launch);
      var c := Child(m.issued, m.generation, m.issued, launch.token);
      && (m'.spawned != m.spawned <==> g == m.generation && probe == Unreachable && launch.Spawns? && |launch.token| >= 32)
      && (m'.spawned != m.spawned ==>
           && m'.spawned == m.spawned + {c} && m'.child == Some(c) && m'.token == Some(c.token)
           && m'.status == Status(Starting, Desktop, m.status.instance))
  {
    assert Child(m.issued, g, m.issued, launch.token) !in m.spawned;
  }

  /** A Runtime somebody else runs on the endpoint is reported by its instance id and left alone. */
  lemma OthersAreReported(m: Manager, g: nat, compatible: bool, instance: nat, launch: Launch)
    requires Enabled(m, FirstProbe(g, Identified(compatible, instance), launch)) && g == m.generation
    ensures Step(m, FirstProbe(g, Identified(compatible, instance), launch))
      == m.(status := Status(Error, if compatible then External else Collision, Some(instance)), lifecycles := m.lifecycles[g := Settled])
  {
  }

  /** The call or event after which the held child is known to have ended. */
  predicate EndsHeld(m: Manager, e: Event)
    requires m.child.Some? && Enabled(m, e)
  {
    match e
    case Cleaned(g, confirmed) => confirmed && m.lifecycles[g].child == m.child.value
    case StopSettled(confirmed) => confirmed && m.stopper == m.child
    case Resume => m.pending[|m.pending| - 1].DropChild?
    case _ => false
  }

  /** A held child is let go exactly when it is known to have ended: a termination of it was confirmed, or
      its exit was handled. */
  lemma LetsGoExactly(m: Manager, e: Event)
    requires Inv(m) && Enabled(m, e) && m.child.Some?
    ensures Step(m, e).child == if EndsHeld(m, e) then None else m.child
    ensures EndsHeld(m, e) ==> m.child.value in Step(m, e).gone
  {
    hide NoneLost, PhaseSound, StackShape, TokenMatches, RunningHeld;
    match e
    case FirstProbe(g, probe, launch) => ProbingHoldsNone(m, g);
    case Resume => DroppedIsGone(m);
    case _ =>
  }

  lemma ProbingHoldsNone(m: Manager, g: nat)
    requires Inv(m) && Get(m.lifecycles, g) == Some(Probing) && m.child.Some?
    ensures g != m.generation
  {
    assert PhaseSound(m, g);
  }

  lemma DroppedIsGone(m: Manager)
    requires Inv(m) && m.pending != []
    ensures var p := m.pending[|m.pending| - 1]; p.DropChild? ==> m.child == Some(p.child) && p.child in m.gone
  {
    assert PendingSound(m, m.pending[|m.pending| - 1]);
  }

  /** An exit is taken note of exactly for the held child unless it is being stopped. */
  lemma ExitsExactly(m: Manager, c: Child, clean: bool)
    requires Enabled(m, ChildExit(c, clean))
    ensures Step(m, ChildExit(c, clean)) ==
      if m.child == Some(c) && m.stoppingChild != Some(c)
      then m.(status := Status(if clean then Stopped else Error, NoOwner, None), gone := m.gone + {c}, pending := [DropChild(c)])
      else m
  {
  }

  // ---------------------------------------------------------------------------
  // From rest to running and back
  // ---------------------------------------------------------------------------

  /** Nothing held, nothing starting, nothing stopping, no callback running. */
  predicate AtRest(m: Manager) {
    m.child.None? && m.startPending.None? && m.stopper.None? && m.pending == []
  }

  /** Start is refused exactly while a child is held or a start or a stop is under way. */
  lemma StartsExactly(m: Manager)
    ensures Start(m) != m <==> m.child.None? && m.startPending.None? && m.stopper.None?
    ensures Start(m) != m ==> Start(m).generation == m.generation + 1 && Start(m).status == Status(Starting, NoOwner, None)
  {
  }

  /** The steps a start goes through when the endpoint is free and the child comes up. */
  function Launched(m: Manager, token: string): seq<Event> {
    var g := m.generation + 1;
    [StartCall, Resume, FirstProbe(g, Unreachable, Spawns(token)), Resume, Poll(g, Identified(true, m.issued))]
  }

  /** The events can happen one after the other, and lead there. */
  ghost predicate Reaches(m: Manager, events: seq<Event>, m': Manager)
    decreases |events|
  {
    if events == [] then m' == m
    else Enabled(m, events[0]) && Reaches(Step(m, events[0]), events[1..], m')
  }

  /** What a manager at rest becomes when a start goes through. */
  function Up(m: Manager, token: string): Manager {
    var g := m.generation + 1;
    var c := Child(m.issued, g, m.issued, token);
    m.(generation := g, child := Some(c), token := Some(token), status := Status(Running, Desktop, Some(m.issued)),
       startPending := Some(g), lifecycles := m.lifecycles[g := Settled], spawned := m.spawned + {c}, issued := m.issued + 1)
  }

  /** It begins its lifecycle, */
  function Begun(m: Manager): Manager {
    var g := m.generation + 1;
    m.(generation := g, token := None, status := Status(Starting, NoOwner, None), startPending := Some(g),
       lifecycles := m.lifecycles[g := Probing])
  }

  /** launches its child, and watches it. */
  function Watched(m: Manager, token: string): Manager {
    var g := m.generation + 1;
    var c := Child(m.issued, g, m.issued, token);
    m.(generation := g, child := Some(c), token := Some(token), status := Status(Starting, Desktop, None), startPending := Some(g),
       lifecycles := m.lifecycles[g := Watching(c)], spawned := m.spawned + {c}, issued := m.issued + 1)
  }

  lemma Begins(m: Manager)
    requires AtRest(m)
    ensures Enabled(m, StartCall) && Enabled(Step(m, StartCall), Resume) && Step(Step(m, StartCall), Resume) == Begun(m)
  {
    var m1 := Step(m, StartCall);
    assert m1.pending == [BeginLifecycle(m.generation + 1)] && m1.pending[..0] == [];
  }

  lemma Launches(m: Manager, token: string)
    requires AtRest(m) && |token| >= 32
    ensures var probe, m2 := FirstProbe(m.generation + 1, Unreachable, Spawns(token)), Begun(m);
      Enabled(m2, probe) && Enabled(Step(m2, probe), Resume) && Step(Step(m2, probe), Resume) == Watched(m, token)
  {
    var g, m2 := m.generation + 1, Begun(m);
    var m3 := Step(m2, FirstProbe(g, Unreachable, Spawns(token)));
    assert m3.pending == [CheckSpawned(g, Child(m.issued, g, m.issued, token))] && m3.pending[..0] == [];
    assert m2.lifecycles[g := Launching][g := Watching(m3.child.value)] == m.lifecycles[g := Watching(m3.child.value)];
  }

  lemma ComesUp(m: Manager, token: string)
    requires AtRest(m)
    ensures var poll := Poll(m.generation + 1, Identified(true, m.issued));
      Enabled(Watched(m, token), poll) && Step(Watched(m, token), poll) == Up(m, token)
  {
    var g := m.generation + 1;
    assert Watched(m, token).lifecycles[g := Settled] == m.lifecycles[g := Settled];
  }

  lemma ReachesFirst(m: Manager, e: Event, rest: seq<Event>, m': Manager)
    requires Enabled(m, e) && Reaches(Step(m, e), rest, m')
    ensures Reaches(m, [e] + rest, m')
  {
    assert ([e] + rest)[1..] == rest;
  }

  /** A start from rest, on a free endpoint, ends with the launched child running and its control token
      handed out. */
  lemma StartReachesRunning(m: Manager, token: string)
    requires AtRest(m) && |token| >= 32
    ensures Reaches(m, Launched(m, token), Up(m, token))
    ensures ControlToken(Up(m, token)) == Some(token)
  {
    hide Step, Enabled, Begun, Watched;
    var g := m.generation + 1;
    var probe, poll := FirstProbe(g, Unreachable, Spawns(token)), Poll(g, Identified(true, m.issued));
    Begins(m);
    Launches(m, token);
    ComesUp(m, token);
    assert Reaches(Up(m, token), [], Up(m, token));
    ReachesFirst(Watched(m, token), poll, [], Up(m, token));
    ReachesFirst(Step(Begun(m), probe), Resume, [poll], Up(m, token));
    ReachesFirst(Begun(m), probe, [Resume] + [poll], Up(m, token));
    ReachesFirst(Step(m, StartCall), Resume, [probe] + ([Resume] + [poll]), Up(m, token));
    ReachesFirst(m, StartCall, [Resume] + ([probe] + ([Resume] + [poll])), Up(m, token));
    assert [StartCall] + ([Resume] + ([probe] + ([Resume] + [poll]))) == Launched(m, token);
    assert [poll] + [] == [poll];
  }

  /** A stop, once the termination is confirmed, ends with nothing held, the status stopped and no token;
      unconfirmed it keeps the child and reports an error. */
  lemma StopEnds(m: Manager, confirmed: bool)
    requires m.pending == [] && m.stopper.None? && m.child.Some?
    ensures Reaches(m, [StopCall, StopSettled(confirmed)],
      if confirmed
      then m.(generation := m.generation + 1, child := None, gone := m.gone + {m.child.value}, token := None,
              status := Status(Stopped, NoOwner, None), stoppingChild := None)
      else m.(generation := m.generation + 1, status := m.status.(state := Error, ownership := Desktop), stoppingChild := None))
  {
    var m1 := Step(m, StopCall);
    var m2 := Step(m1, StopSettled(confirmed));
    assert Reaches(m2, [], m2);
    ReachesFirst(m1, StopSettled(confirmed), [], m2);
    ReachesFirst(m, StopCall, [StopSettled(confirmed)] + [], m2);
    assert [StopCall] + ([StopSettled(confirmed)] + []) == [StopCall, StopSettled(confirmed)];
  }

  /** A stop changes nothing exactly while another one is under way; without a child it is done at once. */
  lemma StopsExactly(m: Manager)
    ensures Stop(m) != m <==> m.stopper.None?
    ensures m.stopper.None? ==>
      Stop(m) == if m.child.Some? then m.(generation := m.generation + 1, stoppingChild := m.child, stopper := m.child)
                 else m.(generation := m.generation + 1, token := None, status := Status(Stopped, NoOwner, None))
  {
    assert m.stopper.None? ==> Stop(m).generation == m.generation + 1;
  }

  // ---------------------------------------------------------------------------
  // Starts that fail
  // ---------------------------------------------------------------------------

  /** The current lifecycle waits for the held child to come up. */
  predicate Awaits(m: Manager, g: nat, c: Child) {
    m.pending == [] && Get(m.lifecycles, g) == Some(Watching(c)) && g == m.generation && m.child == Some(c)
  }

  /** What is left of a start that failed: nothing of the child once its termination is confirmed, and
      otherwise the child, under an error. */
  function AfterFailure(m: Manager, g: nat, c: Child, ownership: Ownership, confirmed: bool): Manager {
    var settled := m.(lifecycles := m.lifecycles[g := Settled], stoppingChild := None);
    if confirmed
    then settled.(child := None, gone := m.gone + {c}, token := None, status := Status(Error, ownership, None))
    else settled.(status := m.status.(state := Error, ownership := Desktop))
  }

  lemma FailingEnds(m: Manager, g: nat, c: Child, ownership: Ownership, confirmed: bool)
    requires Awaits(m, g, c)
    ensures var failing := m.(lifecycles := m.lifecycles[g := Failing(c, ownership)], stoppingChild := Some(c));
      Reaches(failing, [Cleaned(g, confirmed), Continue(g)], AfterFailure(m, g, c, ownership, confirmed))
  {
    var failing := m.(lifecycles := m.lifecycles[g := Failing(c, ownership)], stoppingChild := Some(c));
    var m1 := Step(failing, Cleaned(g, confirmed));
    var m2 := Step(m1, Continue(g));
    assert m2.lifecycles == m.lifecycles[g := Settled];
    assert m2 == AfterFailure(m, g, c, ownership, confirmed);
    assert Reaches(m2, [], m2);
    ReachesFirst(m1, Continue(g), [], m2);
    ReachesFirst(failing, Cleaned(g, confirmed), [Continue(g)] + [], m2);
    assert [Cleaned(g, confirmed)] + ([Continue(g)] + []) == [Cleaned(g, confirmed), Continue(g)];
  }

  /** A child that does not come up in time is terminated. */
  lemma LateStartFails(m: Manager, g: nat, c: Child, confirmed: bool)
    requires Awaits(m, g, c)
    ensures Reaches(m, [Expire(g), Cleaned(g, confirmed), Continue(g)], AfterFailure(m, g, c, NoOwner, confirmed))
  {
    hide AfterFailure;
    FailingEnds(m, g, c, NoOwner, confirmed);
    ReachesFirst(m, Expire(g), [Cleaned(g, confirmed), Continue(g)], AfterFailure(m, g, c, NoOwner, confirmed));
    assert [Expire(g)] + [Cleaned(g, confirmed), Continue(g)] == [Expire(g), Cleaned(g, confirmed), Continue(g)];
  }

  /** So is one in whose place something else answers, which is reported as a collision. */
  lemma CollidingStartFails(m: Manager, g: nat, c: Child, probe: Probe, confirmed: bool)
    requires Awaits(m, g, c)
    requires probe == Unidentified || (probe.Identified? && probe != Identified(true, c.instance))
    ensures Reaches(m, [Poll(g, probe), Cleaned(g, confirmed), Continue(g)], AfterFailure(m, g, c, Collision, confirmed))
  {
    hide AfterFailure;
    FailingEnds(m, g, c, Collision, confirmed);
    ReachesFirst(m, Poll(g, probe), [Cleaned(g, confirmed), Continue(g)], AfterFailure(m, g, c, Collision, confirmed));
    assert [Poll(g, probe)] + [Cleaned(g, confirmed), Continue(g)] == [Poll(g, probe), Cleaned(g, confirmed), Continue(g)];
  }

  /** A child that was stopped from within the callback of its own launch is terminated by the lifecycle
      that launched it, which leaves neither child nor token once that is confirmed. */
  lemma OvertakenStartIsCleanedUp(m: Manager, c: Child)
    requires m.pending == [CheckSpawned(m.generation, c)] && m.child == Some(c) && m.stopper.None?
    requires Get(m.lifecycles, m.generation) == Some(Launching)
    ensures Reaches(m, [StopCall, Resume, Cleaned(m.generation, true), Continue(m.generation)],
      m.(generation := m.generation + 1, child := None, gone := m.gone + {c}, token := None, stopper := Some(c),
         stoppingChild := None, pending := [], lifecycles := m.lifecycles[m.generation := Settled]))
  {
    var g := m.generation;
    var m1 := Step(m, StopCall);
    assert m.pending[..0] == [];
    var m2 := Step(m1, Resume);
    var m3 := Step(m2, Cleaned(g, true));
    var m4 := Step(m3, Continue(g));
    assert m4.lifecycles == m.lifecycles[g := Settled];
    assert Reaches(m4, [], m4);
    ReachesFirst(m3, Continue(g), [], m4);
    ReachesFirst(m2, Cleaned(g, true), [Continue(g)] + [], m4);
    ReachesFirst(m1, Resume, [Cleaned(g, true)] + ([Continue(g)] + []), m4);
    ReachesFirst(m, StopCall, [Resume] + ([Cleaned(g, true)] + ([Continue(g)] + [])), m4);
    assert [StopCall] + ([Resume] + ([Cleaned(g, true)] + ([Continue(g)] + []))) == [StopCall, Resume, Cleaned(g, true), Continue(g)];
  }

  /** A probe that throws ends the lifecycle; if it is still the current one it reports an error, and what
      is held stays held. */
  lemma ThrownStartReports(m: Manager, e: Event)
    requires Enabled(m, e) && ((e.FirstProbe? && e.probe == ProbeThrows) || (e.Poll? && e.probe == ProbeThrows))
    ensures var settled := m.(lifecycles := m.lifecycles[e.generation := Settled]);
      Reaches(m, [e, Continue(e.generation)],
        if e.generation == m.generation then settled.(status := m.status.(state := Error, ownership := NoOwner)) else settled)
  {
    var g := e.generation;
    var m1 := Step(m, e);
    var m2 := Step(m1, Continue(g));
    assert m2.lifecycles == m.lifecycles[g := Settled];
    assert Reaches(m2, [], m2);
    ReachesFirst(m1, Continue(g), [], m2);
    ReachesFirst(m, e, [Continue(g)] + [], m2);
    assert [e] + ([Continue(g)] + []) == [e, Continue(g)];
  }

  /** A settled lifecycle goes, and with it the start promise exactly if that is its own. */
  lemma SettlesExactly(m: Manager, g: nat)
    requires Enabled(m, Settle(g))
    ensures var m' := Step(m, Settle(g));
      && m' == m.(lifecycles := m'.lifecycles, startPending := m'.startPending)
      && g !in m'.lifecycles && (forall h :: h in m.lifecycles && h != g ==> h in m'.lifecycles && m'.lifecycles[h] == m.lifecycles[h])
      && (m'.startPending == None <==> m.startPending == None || m.startPending == Some(g))
      && (m'.startPending.Some? ==> m'.startPending == m.startPending)
  {
  }
}

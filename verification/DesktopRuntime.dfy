/** The desktop's runtime process manager. Code between two awaits runs without interruption, except
    that publishing a status calls back into the application, which may call start or stop right
    there; what is left to do after such a callback waits on a stack. */
module DesktopRuntime {
  import opened Prelude

  /** A spawned process: the lifecycle it belongs to, the instance id and the control token it was
      given. */
  datatype Child = Child(number: nat, generation: nat, instance: nat, token: string)

  datatype State = Stopped | Starting | Running | Error

  datatype Ownership = NoOwner | Desktop | External | Collision

  datatype Status = Status(state: State, ownership: Ownership, instance: Option<nat>)

  /** Where a start lifecycle is waiting. */
  datatype Phase =
    | Probing
    | Launching
    | Watching(child: Child)
    | CleaningStale(child: Child)
    | CleanedStale
    | Failing(child: Child, ownership: Ownership)
    | Failed(child: Child, confirmed: bool, ownership: Ownership)
    | Threw
    | Settled

  /** Work interrupted by a status callback. */
  datatype Pending =
    | BeginLifecycle(generation: nat)
    | CheckSpawned(generation: nat, child: Child)
    | SpawnFailed(generation: nat)
    | DropChild(child: Child)

  /** `spawned` are all processes ever launched, `gone` those known to have ended: an exit or error
      event was handled, or a termination was confirmed. */
  datatype Manager = Manager(
    child: Option<Child>,
    status: Status,
    token: Option<string>,
    stoppingChild: Option<Child>,
    stopper: Option<Child>,
    startPending: Option<nat>,
    generation: nat,
    lifecycles: map<nat, Phase>,
    pending: seq<Pending>,
    spawned: set<Child>,
    gone: set<Child>,
    issued: nat)

  const INITIAL := Manager(None, Status(Stopped, NoOwner, None), None, None, None, None, 0, map[], [], {}, {}, 0)

  const MIN_TOKEN: nat := 32

  /** What a health probe finds. `instance` is what a WebFA runtime claims to be. */
  datatype Probe = Unreachable | Unidentified | Identified(compatible: bool, instance: nat) | ProbeThrows

  /** What launching the process with the given control token does. */
  datatype Launch = Spawns(token: string) | SpawnThrows(token: string)

  datatype Event =
    | StartCall
    | StopCall
    | Resume
    | FirstProbe(generation: nat, probe: Probe, launch: Launch)
    | Poll(generation: nat, probe: Probe)
    | Expire(generation: nat)
    | Cleaned(generation: nat, confirmed: bool)
    | Continue(generation: nat)
    | Settle(generation: nat)
    | StopSettled(confirmed: bool)
    | ChildExit(child: Child, clean: bool)
    | ChildError(child: Child)

  // ---------------------------------------------------------------------------
  // Steps
  // ---------------------------------------------------------------------------

  function Start(m: Manager): Manager {
    if m.child.Some? || m.startPending.Some? || m.stopper.Some? then m
    else m.(generation := m.generation + 1, token := None, status := Status(Starting, NoOwner, None),
            pending := m.pending + [BeginLifecycle(m.generation + 1)])
  }

  function Stop(m: Manager): Manager {
    if m.stopper.Some? then m
    else if m.child.None? then m.(generation := m.generation + 1, token := None, status := Status(Stopped, NoOwner, None))
    else m.(generation := m.generation + 1, stoppingChild := m.child, stopper := m.child)
  }

  function WithPhase(m: Manager, g: nat, phase: Phase): Manager {
    m.(lifecycles := m.lifecycles[g := phase])
  }

  /** The token is dropped unless a child is held. */
  function TokenUnlessHeld(m: Manager): Manager {
    if m.child.None? then m.(token := None) else m
  }

  function ClearStopping(m: Manager, c: Child): Manager {
    if m.stoppingChild == Some(c) then m.(stoppingChild := None) else m
  }

  /** A confirmed termination of c. */
  function Terminated(m: Manager, c: Child): Manager {
    m.(child := if m.child == Some(c) then None else m.child, gone := m.gone + {c})
  }

  function ResumeTop(m: Manager): Manager
    requires m.pending != []
  {
    var n := |m.pending| - 1;
    var rest := m.(pending := m.pending[..n]);
    match m.pending[n]
    case BeginLifecycle(g) => WithPhase(rest, g, Probing).(startPending := Some(g))
    case CheckSpawned(g, c) =>
      if g == m.generation then WithPhase(rest, g, Watching(c))
      else if m.child == Some(c) then WithPhase(rest, g, CleaningStale(c)).(stoppingChild := Some(c))
      else WithPhase(TokenUnlessHeld(rest), g, Settled)
    case SpawnFailed(g) => WithPhase(TokenUnlessHeld(rest), g, Settled)
    case DropChild(_) => rest.(child := None, token := None)
  }

  /** The endpoint is free: a token is made and the process launched. */
  function LaunchStep(m: Manager, g: nat, launch: Launch): Manager {
    if |launch.token| < MIN_TOKEN then WithPhase(m, g, Threw)
    else
      var c := Child(m.issued, g, m.issued, launch.token);
      match launch
      case Spawns(token) =>
        WithPhase(m, g, Launching).(
          issued := m.issued + 1, token := Some(token), child := Some(c), spawned := m.spawned + {c},
          status := m.status.(state := Starting, ownership := Desktop), pending := m.pending + [CheckSpawned(g, c)])
      case SpawnThrows(token) =>
        WithPhase(m, g, Launching).(
          issued := m.issued + 1, token := Some(token), status := m.status.(state := Error, ownership := NoOwner),
          pending := m.pending + [SpawnFailed(g)])
  }

  function FirstProbeStep(m: Manager, g: nat, probe: Probe, launch: Launch): Manager {
    if probe.ProbeThrows? then WithPhase(m, g, Threw)
    else if g != m.generation then WithPhase(m, g, Settled)
    else match probe
      case Identified(compatible, instance) =>
        WithPhase(m, g, Settled).(status := Status(Error, if compatible then External else Collision, Some(instance)))
      case Unidentified => WithPhase(m, g, Settled).(status := Status(Error, Collision, None))
      case _ => LaunchStep(m, g, launch)
  }

  /** The lifecycle still owns the manager and its child is still held. */
  predicate Current(m: Manager, g: nat, c: Child) {
    g == m.generation && m.child == Some(c)
  }

  function PollStep(m: Manager, g: nat, c: Child, probe: Probe): Manager {
    if probe.ProbeThrows? then WithPhase(m, g, Threw)
    else if !Current(m, g, c) then WithPhase(m, g, Settled)
    else match probe
      case Identified(compatible, instance) =>
        if compatible && instance == c.instance
        then WithPhase(m, g, Settled).(status := Status(Running, Desktop, Some(instance)))
        else WithPhase(m, g, Failing(c, Collision)).(stoppingChild := Some(c))
      case Unidentified => WithPhase(m, g, Failing(c, Collision)).(stoppingChild := Some(c))
      case _ => m
  }

  function ExpireStep(m: Manager, g: nat, c: Child): Manager {
    if Current(m, g, c) then WithPhase(m, g, Failing(c, NoOwner)).(stoppingChild := Some(c)) else WithPhase(m, g, Settled)
  }

  function CleanedStep(m: Manager, g: nat, phase: Phase, confirmed: bool): Manager
    requires phase.CleaningStale? || phase.Failing?
  {
    var after := ClearStopping(if confirmed then Terminated(m, phase.child) else m, phase.child);
    match phase
    case CleaningStale(c) => WithPhase(after, g, if confirmed then CleanedStale else Threw)
    case Failing(c, ownership) => WithPhase(after, g, Failed(c, confirmed, ownership))
  }

  function ContinueStep(m: Manager, g: nat, phase: Phase): Manager
    requires phase.CleanedStale? || phase.Failed? || phase.Threw?
  {
    var done := WithPhase(m, g, Settled);
    match phase
    case CleanedStale => TokenUnlessHeld(done)
    case Failed(_, confirmed, ownership) =>
      if confirmed then done.(token := None, status := Status(Error, ownership, None))
      else done.(status := m.status.(state := Error, ownership := Desktop))
    case Threw => if g == m.generation then done.(status := m.status.(state := Error, ownership := NoOwner)) else done
  }

  function SettleStep(m: Manager, g: nat): Manager {
    m.(lifecycles := m.lifecycles - {g}, startPending := if m.startPending == Some(g) then None else m.startPending)
  }

  function StopSettledStep(m: Manager, c: Child, confirmed: bool): Manager {
    var after :=
      if confirmed then Terminated(m, c).(token := None, status := Status(Stopped, NoOwner, None))
      else m.(status := m.status.(state := Error, ownership := Desktop));
    ClearStopping(after, c).(stopper := None)
  }

  /** Events of a child that is not held, or is being stopped, are ignored. */
  predicate Heeded(m: Manager, c: Child) {
    m.child == Some(c) && m.stoppingChild != Some(c)
  }

  function ExitStep(m: Manager, c: Child, clean: bool): Manager {
    if !Heeded(m, c) then m
    else m.(status := Status(if clean then Stopped else Error, NoOwner, None), gone := m.gone + {c}, pending := m.pending + [DropChild(c)])
  }

  function ErrorStep(m: Manager, c: Child): Manager {
    if !Heeded(m, c) then m
    else m.(status := m.status.(state := Error, ownership := NoOwner), gone := m.gone + {c}, pending := m.pending + [DropChild(c)])
  }

  /** While a callback is running only its own calls and the interrupted work can happen. */
  predicate Enabled(m: Manager, e: Event) {
    match e
    case StartCall => true
    case StopCall => true
    case Resume => m.pending != []
    case FirstProbe(g, _, _) => m.pending == [] && Get(m.lifecycles, g) == Some(Probing)
    case Poll(g, _) => m.pending == [] && g in m.lifecycles && m.lifecycles[g].Watching?
    case Expire(g) => m.pending == [] && g in m.lifecycles && m.lifecycles[g].Watching?
    case Cleaned(g, _) => m.pending == [] && g in m.lifecycles && (m.lifecycles[g].CleaningStale? || m.lifecycles[g].Failing?)
    case Continue(g) =>
      m.pending == [] && g in m.lifecycles && (m.lifecycles[g].CleanedStale? || m.lifecycles[g].Failed? || m.lifecycles[g].Threw?)
    case Settle(g) => m.pending == [] && Get(m.lifecycles, g) == Some(Settled)
    case StopSettled(_) => m.pending == [] && m.stopper.Some?
    case ChildExit(c, _) => m.pending == [] && c in m.spawned
    case ChildError(c) => m.pending == [] && c in m.spawned
  }

  function Step(m: Manager, e: Event): Manager
    requires Enabled(m, e)
  {
    match e
    case StartCall => Start(m)
    case StopCall => Stop(m)
    case Resume => ResumeTop(m)
    case FirstProbe(g, probe, launch) => FirstProbeStep(m, g, probe, launch)
    case Poll(g, probe) => PollStep(m, g, m.lifecycles[g].child, probe)
    case Expire(g) => ExpireStep(m, g, m.lifecycles[g].child)
    case Cleaned(g, confirmed) => CleanedStep(m, g, m.lifecycles[g], confirmed)
    case Continue(g) => ContinueStep(m, g, m.lifecycles[g])
    case Settle(g) => SettleStep(m, g)
    case StopSettled(confirmed) => StopSettledStep(m, m.stopper.value, confirmed)
    case ChildExit(c, clean) => ExitStep(m, c, clean)
    case ChildError(c) => ErrorStep(m, c)
  }

  /** The control token handed out, if any. */
  function ControlToken(m: Manager): Option<string> {
    if m.status.state == Running && m.status.ownership == Desktop && m.status.instance.Some? then m.token else None
  }

  // ---------------------------------------------------------------------------
  // The invariant
  // ---------------------------------------------------------------------------

  /** Every process ever launched is known to have ended or is the one held. */
  ghost predicate NoneLost(m: Manager) {
    && (forall c :: c in m.spawned ==> c in m.gone || m.child == Some(c))
    && (m.child.Some? ==> m.child.value in m.spawned)
    && (forall c :: c in m.spawned ==> c.number < m.issued && c.instance == c.number)
  }

  /** The token, if there is one, is the held child's. */
  predicate TokenMatches(m: Manager) {
    m.child.Some? && m.token.Some? ==> m.token.value == m.child.value.token
  }

  /** Running means a held child whose probed instance id is the one it was launched with. */
  predicate RunningHeld(m: Manager) {
    m.status.state == Running ==> m.child.Some? && m.status.instance == Some(m.child.value.instance)
  }

  predicate HasChild(phase: Phase) {
    phase.Watching? || phase.CleaningStale? || phase.Failing? || phase.Failed?
  }

  predicate PhaseSound(m: Manager, g: nat)
    requires g in m.lifecycles
  {
    var phase := m.lifecycles[g];
    && 0 < g <= m.generation
    && (phase.Probing? && g == m.generation ==> m.child.None? && m.stopper.None?)
    && (HasChild(phase) ==>
         && phase.child in m.spawned && phase.child.generation == g
         && (m.child == Some(phase.child) ==> m.status.state != Running))
  }

  predicate PendingSound(m: Manager, p: Pending) {
    match p
    case BeginLifecycle(g) => 0 < g <= m.generation && g !in m.lifecycles && (g == m.generation ==> m.child.None? && m.stopper.None?)
    case CheckSpawned(g, c) =>
      Get(m.lifecycles, g) == Some(Launching) && m.child == Some(c) && c.generation == g && m.status.state != Running
    case SpawnFailed(g) => Get(m.lifecycles, g) == Some(Launching)
    case DropChild(c) => m.child == Some(c) && m.status.state != Running && c in m.gone
  }

  /** Interrupted work on a child is alone on the stack: holding the child makes start refuse. */
  predicate StackShape(pending: seq<Pending>) {
    && (forall i :: 0 < i < |pending| ==> pending[i].BeginLifecycle?)
    && (pending != [] && (pending[0].CheckSpawned? || pending[0].DropChild?) ==> |pending| == 1)
    && (forall i, j :: 0 <= i < j < |pending| ==> !SameBegin(pending[i], pending[j]))
  }

  predicate SameBegin(p: Pending, q: Pending) {
    p.BeginLifecycle? && q.BeginLifecycle? && p.generation == q.generation
  }

  ghost predicate Inv(m: Manager) {
    && NoneLost(m) && TokenMatches(m) && RunningHeld(m) && StackShape(m.pending)
    && (forall g :: g in m.lifecycles ==> PhaseSound(m, g))
    && (forall i :: 0 <= i < |m.pending| ==> PendingSound(m, m.pending[i]))
  }

  lemma InitialInv()
    ensures Inv(INITIAL)
  {
  }

  lemma Facts(m: Manager)
    requires Inv(m)
    ensures NoneLost(m) && TokenMatches(m) && RunningHeld(m) && StackShape(m.pending)
    ensures forall g :: g in m.lifecycles ==> PhaseSound(m, g)
    ensures forall p :: p in m.pending ==> PendingSound(m, p)
  {
  }

  // ---------------------------------------------------------------------------
  // Calls
  // ---------------------------------------------------------------------------

  lemma StartKeepsInv(m: Manager)
    requires Inv(m)
    ensures Inv(Start(m))
  {
    var m' := Start(m);
    if m' != m {
      forall i | 0 <= i < |m'.pending| ensures PendingSound(m', m'.pending[i]) {
        if i < |m.pending| {
          assert PendingSound(m, m.pending[i]);
          assert m'.pending[i] == m.pending[i];
        } else {
          NewGeneration(m);
        }
      }
      forall g | g in m'.lifecycles ensures PhaseSound(m', g) {
        assert PhaseSound(m, g);
      }
      PushBegin(m);
    }
  }

  lemma NewGeneration(m: Manager)
    requires Inv(m)
    ensures m.generation + 1 !in m.lifecycles
  {
  }

  lemma PushBegin(m: Manager)
    requires Inv(m) && m.child.None?
    ensures StackShape(m.pending + [BeginLifecycle(m.generation + 1)])
  {
    var pending := m.pending + [BeginLifecycle(m.generation + 1)];
    if m.pending != [] {
      assert PendingSound(m, m.pending[0]);
    }
    forall i, j | 0 <= i < j < |pending| ensures !SameBegin(pending[i], pending[j]) {
      assert PendingSound(m, m.pending[i]);
      assert pending[i] == m.pending[i];
    }
  }

  lemma StopKeepsInv(m: Manager)
    requires Inv(m)
    ensures Inv(Stop(m))
  {
    var m' := Stop(m);
    forall i | 0 <= i < |m'.pending| ensures PendingSound(m', m'.pending[i]) {
      assert PendingSound(m, m.pending[i]);
    }
    forall g | g in m'.lifecycles ensures PhaseSound(m', g) {
      assert PhaseSound(m, g);
    }
  }

  // ---------------------------------------------------------------------------
  // Steps of one lifecycle
  // ---------------------------------------------------------------------------

  /** A step with no callback running that changes one phase. */
  lemma PhaseChange(m: Manager, m': Manager, g: nat)
    requires Inv(m) && g in m.lifecycles && NoneLost(m') && TokenMatches(m') && RunningHeld(m')
    requires m'.generation == m.generation && m'.pending == m.pending == [] && m.spawned <= m'.spawned
    requires g in m'.lifecycles && PhaseSound(m', g) && m'.lifecycles == m.lifecycles[g := m'.lifecycles[g]]
    requires m'.child == m.child || m'.child.None?
    requires m.stopper.None? ==> m'.stopper.None?
    requires m'.status.state == Running ==> m.status.state == Running || (m'.child.Some? && m'.child.value.generation == g)
    ensures Inv(m')
  {
    forall h | h in m'.lifecycles ensures PhaseSound(m', h) {
      if h != g {
        assert PhaseSound(m, h);
      }
    }
  }

  lemma LaunchedPhases(m: Manager, m': Manager, g: nat, p: Pending)
    requires Inv(m) && g in m.lifecycles && m.pending == [] && m'.pending == [p] && !p.BeginLifecycle? && PendingSound(m', p)
    requires m'.generation == m.generation == g && m'.lifecycles == m.lifecycles[g := Launching]
    requires NoneLost(m') && TokenMatches(m') && m.spawned <= m'.spawned && m'.status.state != Running
    ensures Inv(m')
  {
    assert PhaseSound(m, g);
    forall h | h in m'.lifecycles ensures PhaseSound(m', h) {
      assert PhaseSound(m, h);
    }
  }

  lemma LaunchKeepsInv(m: Manager, g: nat, launch: Launch)
    requires Inv(m) && Get(m.lifecycles, g) == Some(Probing) && g == m.generation && m.pending == []
    ensures Inv(LaunchStep(m, g, launch))
  {
    hide Inv;
    Facts(m);
    var m' := LaunchStep(m, g, launch);
    assert PhaseSound(m, g);
    if |launch.token| < MIN_TOKEN {
      PhaseChange(m, m', g);
    } else {
      LaunchedPhases(m, m', g, m'.pending[0]);
    }
  }

  lemma FirstProbeKeepsInv(m: Manager, g: nat, probe: Probe, launch: Launch)
    requires Inv(m) && Get(m.lifecycles, g) == Some(Probing) && m.pending == []
    ensures Inv(FirstProbeStep(m, g, probe, launch))
  {
    hide Inv, LaunchStep;
    Facts(m);
    assert PhaseSound(m, g);
    var m' := FirstProbeStep(m, g, probe, launch);
    if !probe.ProbeThrows? && g == m.generation && probe.Unreachable? {
      LaunchKeepsInv(m, g, launch);
    } else {
      PhaseChange(m, m', g);
    }
  }

  lemma SameProcesses(m: Manager, m': Manager)
    requires NoneLost(m) && m'.child == m.child && m'.spawned == m.spawned && m'.gone == m.gone && m'.issued == m.issued
    ensures NoneLost(m')
  {
  }

  lemma PollKeepsInv(m: Manager, e: Event)
    requires Inv(m) && Enabled(m, e) && (e.Poll? || e.Expire?)
    ensures Inv(Step(m, e))
  {
    hide Inv, NoneLost;
    Facts(m);
    assert PhaseSound(m, e.generation);
    var m' := Step(m, e);
    SameProcesses(m, m');
    if m' != m {
      PhaseChange(m, m', e.generation);
    }
  }

  lemma TerminatedNoneLost(m: Manager, c: Child)
    requires NoneLost(m)
    ensures NoneLost(Terminated(m, c))
  {
  }

  lemma CleanedKeepsInv(m: Manager, e: Event)
    requires Inv(m) && Enabled(m, e) && e.Cleaned?
    ensures Inv(Step(m, e))
  {
    hide Inv, NoneLost;
    Facts(m);
    assert PhaseSound(m, e.generation);
    var c := m.lifecycles[e.generation].child;
    TerminatedNoneLost(m, c);
    SameProcesses(if e.confirmed then Terminated(m, c) else m, Step(m, e));
    PhaseChange(m, Step(m, e), e.generation);
  }

  lemma ContinueKeepsInv(m: Manager, e: Event)
    requires Inv(m) && Enabled(m, e) && e.Continue?
    ensures Inv(Step(m, e))
  {
    hide Inv, NoneLost;
    Facts(m);
    assert PhaseSound(m, e.generation);
    var m' := Step(m, e);
    SameProcesses(m, m');
    PhaseChange(m, m', e.generation);
  }

  // ---------------------------------------------------------------------------
  // Interrupted work, settling and child events
  // ---------------------------------------------------------------------------

  lemma PoppedShape(pending: seq<Pending>)
    requires StackShape(pending) && pending != []
    ensures StackShape(pending[..|pending| - 1])
  {
  }

  lemma BeginKeepsInv(m: Manager)
    requires Inv(m) && m.pending != [] && m.pending[|m.pending| - 1].BeginLifecycle?
    ensures Inv(ResumeTop(m))
  {
    hide NoneLost;
    var m' := ResumeTop(m);
    var n := |m.pending| - 1;
    PoppedShape(m.pending);
    assert PendingSound(m, m.pending[n]);
    forall i | 0 <= i < |m'.pending| ensures PendingSound(m', m'.pending[i]) {
      assert m'.pending[i] == m.pending[i];
      assert PendingSound(m, m.pending[i]) && !SameBegin(m.pending[i], m.pending[n]);
    }
    forall g | g in m'.lifecycles ensures PhaseSound(m', g) {
      assert g in m.lifecycles ==> PhaseSound(m, g);
    }
    SameProcesses(m, m');
  }

  lemma LastResumeKeepsInv(m: Manager)
    requires Inv(m) && |m.pending| == 1 && !m.pending[0].BeginLifecycle?
    ensures Inv(ResumeTop(m))
  {
    var m' := ResumeTop(m);
    assert PendingSound(m, m.pending[0]);
    assert m.pending[..0] == [];
    forall g | g in m'.lifecycles ensures PhaseSound(m', g) {
      assert g in m.lifecycles ==> PhaseSound(m, g);
    }
  }

  /** What else can be on top: the first entry, with nothing above it. */
  lemma ResumeKeepsInv(m: Manager)
    requires Inv(m) && m.pending != []
    ensures Inv(ResumeTop(m))
  {
    hide Inv, ResumeTop;
    Facts(m);
    if m.pending[|m.pending| - 1].BeginLifecycle? {
      BeginKeepsInv(m);
    } else {
      LastResumeKeepsInv(m);
    }
  }

  lemma SettleKeepsInv(m: Manager, g: nat)
    requires Inv(m) && m.pending == []
    ensures Inv(SettleStep(m, g))
  {
    var m' := SettleStep(m, g);
    forall h | h in m'.lifecycles ensures PhaseSound(m', h) {
      assert PhaseSound(m, h);
    }
  }

  lemma StopSettledKeepsInv(m: Manager, confirmed: bool)
    requires Inv(m) && m.pending == [] && m.stopper.Some?
    ensures Inv(StopSettledStep(m, m.stopper.value, confirmed))
  {
    var m' := StopSettledStep(m, m.stopper.value, confirmed);
    forall h | h in m'.lifecycles ensures PhaseSound(m', h) {
      assert PhaseSound(m, h);
    }
  }

  lemma ChildEventKeepsInv(m: Manager, e: Event)
    requires Inv(m) && Enabled(m, e) && (e.ChildExit? || e.ChildError?)
    ensures Inv(Step(m, e))
  {
    var m' := Step(m, e);
    if m' != m {
      assert m'.pending == [DropChild(e.child)];
      forall h | h in m'.lifecycles ensures PhaseSound(m', h) {
        assert PhaseSound(m, h);
      }
    }
  }

  lemma StepKeepsInv(m: Manager, e: Event)
    requires Inv(m) && Enabled(m, e)
    ensures Inv(Step(m, e))
  {
    hide Inv, Start, Stop, ResumeTop, FirstProbeStep, PollStep, ExpireStep, CleanedStep, ContinueStep, SettleStep, StopSettledStep,
      ExitStep, ErrorStep;
    match e
    case StartCall => StartKeepsInv(m);
    case StopCall => StopKeepsInv(m);
    case Resume => ResumeKeepsInv(m);
    case FirstProbe(g, probe, launch) => FirstProbeKeepsInv(m, g, probe, launch);
    case Poll(_, _) => PollKeepsInv(m, e);
    case Expire(_) => PollKeepsInv(m, e);
    case Cleaned(_, _) => CleanedKeepsInv(m, e);
    case Continue(_) => ContinueKeepsInv(m, e);
    case Settle(g) => SettleKeepsInv(m, g);
    case StopSettled(confirmed) => StopSettledKeepsInv(m, confirmed);
    case ChildExit(_, _) => ChildEventKeepsInv(m, e);
    case ChildError(_) => ChildEventKeepsInv(m, e);
  }

  // ---------------------------------------------------------------------------
  // Runs
  // ---------------------------------------------------------------------------

  ghost predicate Run(states: seq<Manager>, events: seq<Event>) {
    && |states| == |events| + 1 && states[0] == INITIAL
    && forall i :: 0 <= i < |events| ==> Enabled(states[i], events[i]) && states[i + 1] == Step(states[i], events[i])
  }

  lemma {:induction false} RunKeepsInv(states: seq<Manager>, events: seq<Event>, n: nat)
    requires Run(states, events) && n < |states|
    ensures Inv(states[n])
  {
    hide Inv, Enabled, Step;
    if n == 0 {
      InitialInv();
    } else {
      RunKeepsInv(states, events, n - 1);
      StepKeepsInv(states[n - 1], events[n - 1]);
    }
  }

  /** In every interleaving: no process launched is forgotten before it is known to have ended, so
      at most one can be alive; running means the held child answered under its own instance id; and
      a control token is handed out only then, and only the one that child was given. */
  lemma DesktopSafe(states: seq<Manager>, events: seq<Event>, n: nat)
    requires Run(states, events) && n < |states|
    ensures var m := states[n];
      && (forall c :: c in m.spawned - m.gone ==> m.child == Some(c))
      && (m.status.state == Running ==> m.child.Some? && m.status.instance == Some(m.child.value.instance))
      && (ControlToken(m).Some? ==> m.status.state == Running && m.child.Some? && ControlToken(m) == Some(m.child.value.token))
  {
    RunKeepsInv(states, events, n);
  }

  lemma OnlyProbesSpawn(m: Manager, e: Event)
    requires Enabled(m, e) && !e.FirstProbe?
    ensures Step(m, e).spawned == m.spawned
  {
  }

  lemma ProbeSpawns(m: Manager, g: nat, probe: Probe, launch: Launch)
    requires NoneLost(m) && FirstProbeStep(m, g, probe, launch).spawned != m.spawned
    ensures var m' := FirstProbeStep(m, g, probe, launch);
      && g == m.generation && m'.child.Some? && m'.spawned == m.spawned + {m'.child.value}
      && m'.child.value !in m.spawned && m'.child.value.generation == g
  {
  }

  lemma ProbingFree(m: Manager, g: nat)
    requires Get(m.lifecycles, g) == Some(Probing) && PhaseSound(m, g) && g == m.generation
    ensures m.child.None? && m.stopper.None?
  {
  }

  /** Only the lifecycle of the current generation launches a process, and only into an empty slot
      with no stop under way. */
  lemma OnlyCurrentSpawns(m: Manager, e: Event)
    requires Inv(m) && Enabled(m, e) && Step(m, e).spawned != m.spawned
    ensures e.FirstProbe? && e.generation == m.generation && m.child.None? && m.stopper.None?
    ensures Step(m, e).child.Some? && Step(m, e).spawned == m.spawned + {Step(m, e).child.value}
    ensures Step(m, e).child.value !in m.spawned && Step(m, e).child.value.generation == m.generation
  {
    hide Inv, NoneLost, PhaseSound, FirstProbeStep;
    Facts(m);
    if !e.FirstProbe? {
      OnlyProbesSpawn(m, e);
      assert false;
    }
    assert PhaseSound(m, e.generation);
    ProbeSpawns(m, e.generation, e.probe, e.launch);
    ProbingFree(m, e.generation);
  }

  lemma OnlyPollsRun(m: Manager, e: Event)
    requires Enabled(m, e) && !e.Poll? && Step(m, e).status.state == Running
    ensures m.status.state == Running
  {
  }

  lemma PollRuns(m: Manager, g: nat, c: Child, probe: Probe)
    requires m.status.state != Running && PollStep(m, g, c, probe).status.state == Running
    ensures Current(m, g, c) && probe == Identified(true, c.instance)
  {
  }

  /** Running is only ever reached by the current generation, for the child it launched itself. */
  lemma OnlyCurrentRuns(m: Manager, e: Event)
    requires Inv(m) && Enabled(m, e) && m.status.state != Running && Step(m, e).status.state == Running
    ensures e.Poll? && e.generation == m.generation
    ensures m.child.Some? && m.child.value.generation == m.generation
    ensures e.probe == Identified(true, m.child.value.instance)
  {
    hide Inv, NoneLost, PollStep;
    Facts(m);
    if !e.Poll? {
      OnlyPollsRun(m, e);
      assert false;
    }
    assert PhaseSound(m, e.generation);
    PollRuns(m, e.generation, m.lifecycles[e.generation].child, e.probe);
  }

  /** A stop bumps the generation: no lifecycle begun before it launches anything or reaches running
      afterwards. */
  lemma {:induction false} NothingStaleAfterStop(states: seq<Manager>, events: seq<Event>, i: nat, j: nat)
    requires Run(states, events) && i < j < |events| && events[i].StopCall? && states[i].stopper.None?
    requires Step(states[j], events[j]).spawned != states[j].spawned
      || (states[j].status.state != Running && Step(states[j], events[j]).status.state == Running)
    ensures events[j].FirstProbe? || events[j].Poll?
    ensures events[j].generation > states[i].generation
  {
    hide Inv;
    RunKeepsInv(states, events, j);
    GenerationGrows(states, events, i + 1, j);
    assert states[i + 1] == Step(states[i], events[i]);
    if Step(states[j], events[j]).spawned != states[j].spawned {
      OnlyCurrentSpawns(states[j], events[j]);
    } else {
      OnlyCurrentRuns(states[j], events[j]);
    }
  }

  lemma GenerationSteps(m: Manager, e: Event)
    requires Enabled(m, e)
    ensures m.generation <= Step(m, e).generation
  {
  }

  lemma {:induction false} GenerationGrows(states: seq<Manager>, events: seq<Event>, i: nat, j: nat)
    requires Run(states, events) && i <= j < |states|
    ensures states[i].generation <= states[j].generation
  {
    hide Step, Enabled;
    if i < j {
      GenerationGrows(states, events, i, j - 1);
      GenerationSteps(states[j - 1], events[j - 1]);
    }
  }

  // ---------------------------------------------------------------------------
  // The manager object
  // ---------------------------------------------------------------------------

  class RuntimeProcessManager {
    var child: Option<Child>
    var status: Status
    var visualizerControlToken: Option<string>
    var stoppingChild: Option<Child>
    var stopPromise: Option<Child>
    var startPromise: Option<nat>
    var lifecycleGeneration: nat
    var lifecycles: map<nat, Phase>
    var interrupted: seq<Pending>
    ghost var spawned: set<Child>
    ghost var gone: set<Child>
    var issued: nat

    ghost function Model(): Manager
      reads this
    {
      Manager(child, status, visualizerControlToken, stoppingChild, stopPromise, startPromise, lifecycleGeneration,
              lifecycles, interrupted, spawned, gone, issued)
    }

    constructor ()
      ensures Model() == INITIAL && Inv(Model())
    {
      child, status, visualizerControlToken := None, Status(Stopped, NoOwner, None), None;
      stoppingChild, stopPromise, startPromise, lifecycleGeneration := None, None, None, 0;
      lifecycles, interrupted, spawned, gone, issued := map[], [], {}, {}, 0;
      new;
      InitialInv();
    }

    method GetControlToken() returns (token: Option<string>)
      requires Inv(Model())
      ensures token == ControlToken(Model())
      ensures token.Some? ==> child.Some? && token == Some(child.value.token) && status.instance == Some(child.value.instance)
    {
      Facts(Model());
      if status.state == Running && status.ownership == Desktop && status.instance.Some? {
        return visualizerControlToken;
      }
      token := None;
    }

    method StartNow()
      requires Inv(Model())
      modifies this
      ensures Inv(Model()) && Model() == Start(old(Model()))
    {
      hide Inv;
      StartKeepsInv(Model());
      if child.Some? || startPromise.Some? || stopPromise.Some? {
        return;
      }
      lifecycleGeneration := lifecycleGeneration + 1;
      visualizerControlToken := None;
      status := Status(Starting, NoOwner, None);
      interrupted := interrupted + [BeginLifecycle(lifecycleGeneration)];
    }

    method StopNow()
      requires Inv(Model())
      modifies this
      ensures Inv(Model()) && Model() == Stop(old(Model()))
    {
      hide Inv;
      StopKeepsInv(Model());
      if stopPromise.Some? {
        return;
      }
      lifecycleGeneration := lifecycleGeneration + 1;
      if child.None? {
        visualizerControlToken := None;
        status := Status(Stopped, NoOwner, None);
        return;
      }
      stoppingChild := child;
      stopPromise := child;
    }

    /** What was left to do when a status callback returns. */
    method ResumeInterrupted()
      requires Inv(Model()) && interrupted != []
      modifies this
      ensures Inv(Model()) && Model() == ResumeTop(old(Model()))
    {
      hide Inv;
      ResumeKeepsInv(Model());
      var top := interrupted[|interrupted| - 1];
      interrupted := interrupted[..|interrupted| - 1];
      match top
      case BeginLifecycle(g) =>
        lifecycles := lifecycles[g := Probing];
        startPromise := Some(g);
      case CheckSpawned(g, c) =>
        if g == lifecycleGeneration {
          lifecycles := lifecycles[g := Watching(c)];
        } else if child == Some(c) {
          stoppingChild := Some(c);
          lifecycles := lifecycles[g := CleaningStale(c)];
        } else {
          if child.None? {
            visualizerControlToken := None;
          }
          lifecycles := lifecycles[g := Settled];
        }
      case SpawnFailed(g) =>
        if child.None? {
          visualizerControlToken := None;
        }
        lifecycles := lifecycles[g := Settled];
      case DropChild(_) =>
        child := None;
        visualizerControlToken := None;
    }

    /** The first probe of a lifecycle came back. */
    method AfterFirstProbe(g: nat, probe: Probe, launch: Launch)
      requires Inv(Model()) && Enabled(Model(), FirstProbe(g, probe, launch))
      modifies this
      ensures Inv(Model()) && Model() == FirstProbeStep(old(Model()), g, probe, launch)
    {
      hide Inv, LaunchStep;
      FirstProbeKeepsInv(Model(), g, probe, launch);
      if probe.ProbeThrows? {
        lifecycles := lifecycles[g := Threw];
        return;
      }
      if g != lifecycleGeneration {
        lifecycles := lifecycles[g := Settled];
        return;
      }
      if !probe.Unreachable? {
        status := if probe.Unidentified? then Status(Error, Collision, None)
          else Status(Error, if probe.compatible then External else Collision, Some(probe.instance));
        lifecycles := lifecycles[g := Settled];
        return;
      }
      LaunchRuntime(g, launch);
    }

    /** Makes the control token and launches the process. */
    method LaunchRuntime(g: nat, launch: Launch)
      modifies this
      ensures Model() == LaunchStep(old(Model()), g, launch)
    {
      if |launch.token| < MIN_TOKEN {
        lifecycles := lifecycles[g := Threw];
        return;
      }
      visualizerControlToken := Some(launch.token);
      var c := Child(issued, g, issued, launch.token);
      issued := issued + 1;
      lifecycles := lifecycles[g := Launching];
      if launch.SpawnThrows? {
        status := status.(state := Error, ownership := NoOwner);
        interrupted := interrupted + [SpawnFailed(g)];
        return;
      }
      child := Some(c);
      spawned := spawned + {c};
      status := status.(state := Starting, ownership := Desktop);
      interrupted := interrupted + [CheckSpawned(g, c)];
    }

    /** One probe of the startup loop came back. */
    method AfterPoll(g: nat, probe: Probe)
      requires Inv(Model()) && Enabled(Model(), Poll(g, probe))
      modifies this
      ensures Inv(Model()) && Model() == Step(old(Model()), Poll(g, probe))
    {
      hide Inv;
      PollKeepsInv(Model(), Poll(g, probe));
      var c := lifecycles[g].child;
      if probe.ProbeThrows? {
        lifecycles := lifecycles[g := Threw];
        return;
      }
      if g != lifecycleGeneration || child != Some(c) {
        lifecycles := lifecycles[g := Settled];
        return;
      }
      if probe.Unreachable? {
        return;
      }
      if probe.Identified? && probe.compatible && probe.instance == c.instance {
        status := Status(Running, Desktop, Some(probe.instance));
        lifecycles := lifecycles[g := Settled];
        return;
      }
      stoppingChild := Some(c);
      lifecycles := lifecycles[g := Failing(c, Collision)];
    }

    /** The startup deadline passed. */
    method AfterDeadline(g: nat)
      requires Inv(Model()) && Enabled(Model(), Expire(g))
      modifies this
      ensures Inv(Model()) && Model() == Step(old(Model()), Expire(g))
    {
      hide Inv;
      PollKeepsInv(Model(), Expire(g));
      var c := lifecycles[g].child;
      if g == lifecycleGeneration && child == Some(c) {
        stoppingChild := Some(c);
        lifecycles := lifecycles[g := Failing(c, NoOwner)];
      } else {
        lifecycles := lifecycles[g := Settled];
      }
    }

    /** Terminating a child after a failed start was confirmed, or not. */
    method AfterCleanup(g: nat, confirmed: bool)
      requires Inv(Model()) && Enabled(Model(), Cleaned(g, confirmed))
      modifies this
      ensures Inv(Model()) && Model() == Step(old(Model()), Cleaned(g, confirmed))
    {
      hide Inv;
      CleanedKeepsInv(Model(), Cleaned(g, confirmed));
      var phase := lifecycles[g];
      var c := phase.child;
      if confirmed {
        if child == Some(c) {
          child := None;
        }
        gone := gone + {c};
      }
      if stoppingChild == Some(c) {
        stoppingChild := None;
      }
      lifecycles := lifecycles[g :=
        if phase.Failing? then Failed(c, confirmed, phase.ownership) else if confirmed then CleanedStale else Threw];
    }

    method ContinueLifecycle(g: nat)
      requires Inv(Model()) && Enabled(Model(), Continue(g))
      modifies this
      ensures Inv(Model()) && Model() == Step(old(Model()), Continue(g))
    {
      hide Inv;
      ContinueKeepsInv(Model(), Continue(g));
      var phase := lifecycles[g];
      lifecycles := lifecycles[g := Settled];
      match phase
      case CleanedStale =>
        if child.None? {
          visualizerControlToken := None;
        }
      case Failed(_, confirmed, ownership) =>
        if confirmed {
          visualizerControlToken := None;
          status := Status(Error, ownership, None);
        } else {
          status := status.(state := Error, ownership := Desktop);
        }
      case Threw =>
        if g == lifecycleGeneration {
          status := status.(state := Error, ownership := NoOwner);
        }
    }

    /** The start promise's own cleanup. */
    method SettleLifecycle(g: nat)
      requires Inv(Model()) && Enabled(Model(), Settle(g))
      modifies this
      ensures Inv(Model()) && Model() == SettleStep(old(Model()), g)
    {
      hide Inv;
      SettleKeepsInv(Model(), g);
      if startPromise == Some(g) {
        startPromise := None;
      }
      lifecycles := lifecycles - {g};
    }

    /** The termination a stop waits for was confirmed, or not. */
    method AfterStop(confirmed: bool)
      requires Inv(Model()) && Enabled(Model(), StopSettled(confirmed))
      modifies this
      ensures Inv(Model()) && Model() == Step(old(Model()), StopSettled(confirmed))
    {
      hide Inv;
      StopSettledKeepsInv(Model(), confirmed);
      var c := stopPromise.value;
      if confirmed {
        if child == Some(c) {
          child := None;
        }
        gone := gone + {c};
        visualizerControlToken := None;
        status := Status(Stopped, NoOwner, None);
      } else {
        status := status.(state := Error, ownership := Desktop);
      }
      if stoppingChild == Some(c) {
        stoppingChild := None;
      }
      stopPromise := None;
    }

    method OnChildExit(c: Child, clean: bool)
      requires Inv(Model()) && Enabled(Model(), ChildExit(c, clean))
      modifies this
      ensures Inv(Model()) && Model() == ExitStep(old(Model()), c, clean)
    {
      hide Inv;
      ChildEventKeepsInv(Model(), ChildExit(c, clean));
      if child != Some(c) || stoppingChild == Some(c) {
        return;
      }
      status := Status(if clean then Stopped else Error, NoOwner, None);
      gone := gone + {c};
      interrupted := interrupted + [DropChild(c)];
    }

    method OnChildError(c: Child)
      requires Inv(Model()) && Enabled(Model(), ChildError(c))
      modifies this
      ensures Inv(Model()) && Model() == ErrorStep(old(Model()), c)
    {
      hide Inv;
      ChildEventKeepsInv(Model(), ChildError(c));
      if child != Some(c) || stoppingChild == Some(c) {
        return;
      }
      status := status.(state := Error, ownership := NoOwner);
      gone := gone + {c};
      interrupted := interrupted + [DropChild(c)];
    }
  }
}

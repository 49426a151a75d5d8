/** When a client that finds a Runtime joins it, and what a leaving one leaves behind. A client is left
    without a lease only on a Runtime the file did not name or whose process could not be identified;
    so nobody who found a recorded Runtime has it stopped under them while identities can be read. */
module RuntimeJoining {
  import opened Prelude
  import opened RuntimeOwnership

  // ---------------------------------------------------------------------------
  // One call
  // ---------------------------------------------------------------------------

  /** The file names the instance and the recorded process is alive. */
  predicate RecordedAlive(w: World, instance: nat) {
    w.file.Some? && w.file.value.instance == instance && IsAlive(w.file.value.process, w.alive)
  }

  /** The section can also identify the recorded process. */
  predicate RecordedSeen(w: World, e: Event, instance: nat) {
    RecordedAlive(w, instance) && w.file.value.process.pid !in Unread(e)
  }

  /** Nothing answered and a new Runtime came up. */
  predicate StartsRuntime(w: World, e: Event)
    requires e.Ensure?
  {
    e.health.Unreachable? && e.autoStart && e.childPid !in w.alive && e.outcome.Started?
  }

  /** Nothing answered, and the new Runtime did not come up. */
  predicate FailsToStart(w: World, e: Event)
    requires e.Ensure?
  {
    e.health.Unreachable? && e.autoStart && e.childPid !in w.alive && !e.outcome.Started?
  }

  /** The Runtime that answered is the recorded one, and both its process and the client are identified. */
  predicate JoinsRuntime(w: World, e: Event)
    requires e.Ensure?
  {
    e.health.Healthy? && RecordedSeen(w, e, e.health.instance) && e.clientPid !in e.unread
  }

  /** A Runtime answered that the file does not record, or whose process cannot be identified. */
  predicate UsesUnmanaged(w: World, e: Event)
    requires e.Ensure?
  {
    e.health.Healthy? && !RecordedSeen(w, e, e.health.instance)
  }

  /** The handle on `instance`, managed or not, is the client's new one. */
  predicate NewHandle(w: World, w': World, client: Process, instance: nat, managed: bool) {
    && |w'.handles| == |w.handles| + 1 && w'.handles[..|w.handles|] == w.handles
    && var h := w'.handles[|w.handles|];
       h.client == client && h.instance == instance && h.lease.Some? == managed && !h.closed
  }

  /** A client gets a lease exactly when it starts a Runtime or joins the recorded one, and then the
      file holds that lease; it gets a handle without a lease exactly on an unmanaged Runtime. */
  lemma JoinsExactly(w: World, e: Event)
    requires e.Ensure? && e.clientPid in w.alive
    ensures var w', client := Step(w, e), Process(e.clientPid, w.alive[e.clientPid]);
      && (StartsRuntime(w, e) ==>
            NewHandle(w, w', client, w.stamp + 1, true) && w'.alive == w.alive[e.childPid := w.stamp] &&
            w'.file == Some(Metadata(w.stamp + 1, Process(e.childPid, w.stamp), [Lease(w.stamp + 2, client)])))
      && (JoinsRuntime(w, e) ==>
            NewHandle(w, w', client, e.health.instance, true) && w'.alive == w.alive &&
            w'.file == Some(w.file.value.(leases :=
              LiveLeases(w.file.value.leases, None, Seen(w, e)) + [Lease(w'.handles[|w.handles|].lease.value, client)])))
      && (UsesUnmanaged(w, e) ==> w' == w.(handles := w.handles + [Handle(client, e.health.instance, None, false)]))
      && (!StartsRuntime(w, e) && !JoinsRuntime(w, e) && !UsesUnmanaged(w, e) ==>
            && w'.handles == w.handles
            && w'.file == (if FailsToStart(w, e) then None else w.file)
            && (FailsToStart(w, e) ==> (e.childPid in w'.alive <==> e.outcome.childSurvives))
            && (!FailsToStart(w, e) ==> w'.alive == w.alive))
  {
    hide LiveLeases, Overlooked;
  }

  /** What a close leaves behind. Without a signal the handle is closed, and the file keeps the other
      leases that are seen, or goes if none is; a signal that fails leaves file and handle alone. */
  lemma LeavesExactly(w: World, e: Event)
    requires e.Close? && CanClose(w, e.handle)
    ensures var h, w' := w.handles[e.handle], Step(w, e);
      var closed := w.handles[e.handle := h.(closed := true)];
      var named := w.file.Some? && w.file.value.instance == h.instance;
      var others := if named then LiveLeases(w.file.value.leases, h.lease, Seen(w, e)) else [];
      match Signalled(w, e)
      case None =>
        && w'.alive == w.alive && w'.handles == closed
        && w'.file == (if !named then w.file else if others == [] then None else Some(w.file.value.(leases := others)))
      case Some(target) =>
        match e.kill
        case Killed => w'.alive == w.alive - {target.pid} && w'.handles == closed && w'.file == None
        case KillFailed(survives) =>
          w'.alive == (if survives then w.alive else w.alive - {target.pid}) && w'.handles == w.handles && w'.file == w.file
        case KilledThenCrashed =>
          w'.alive == w.alive - {target.pid, h.client.pid} && w'.handles == w.handles && w'.file == w.file
  {
    hide LiveLeases, Overlooked, IsAlive;
  }

  // ---------------------------------------------------------------------------
  // Over runs
  // ---------------------------------------------------------------------------

  /** Handles are never dropped, and only their closed flag changes. */
  lemma HandleKept(w: World, e: Event, k: nat)
    requires k < |w.handles|
    ensures k < |Step(w, e).handles|
    ensures Step(w, e).handles[k].(closed := w.handles[k].closed) == w.handles[k]
  {
    hide LiveLeases, Overlooked, IsAlive;
  }

  /** The n-th event of a run is the call that created handle k, which has a lease exactly if that call
      started a Runtime or joined the recorded one. */
  ghost predicate MadeBy(start: World, events: seq<Event>, k: nat, n: nat)
    requires k < |Run(start, events).handles|
  {
    && n < |events| && events[n].Ensure?
    && var w, e, h := Run(start, events[..n]), events[n], Run(start, events).handles[k];
       && |w.handles| == k && e.clientPid in w.alive && h.client == Process(e.clientPid, w.alive[e.clientPid])
       && (if h.lease.Some? then StartsRuntime(w, e) || JoinsRuntime(w, e) else UsesUnmanaged(w, e))
       && (e.health.Healthy? ==> h.instance == e.health.instance)
  }

  lemma MadeByStep(w: World, e: Event)
    ensures |Step(w, e).handles| == |w.handles| || |Step(w, e).handles| == |w.handles| + 1
    ensures |Step(w, e).handles| == |w.handles| + 1 ==>
      && e.Ensure? && e.clientPid in w.alive
      && var h := Step(w, e).handles[|w.handles|];
         && h.client == Process(e.clientPid, w.alive[e.clientPid])
         && (if h.lease.Some? then StartsRuntime(w, e) || JoinsRuntime(w, e) else UsesUnmanaged(w, e))
         && (e.health.Healthy? ==> h.instance == e.health.instance)
  {
    hide EnsureStep, LiveLeases, Overlooked;
    if e.Ensure? && e.clientPid in w.alive {
      JoinsExactly(w, e);
    }
  }

  /** Every handle goes back to one call. */
  lemma {:induction false} HandleOrigin(start: World, events: seq<Event>, k: nat) returns (n: nat)
    requires start.handles == [] && k < |Run(start, events).handles|
    ensures MadeBy(start, events, k, n)
  {
    hide Step, StartsRuntime, JoinsRuntime, UsesUnmanaged;
    var m := |events| - 1;
    var w := Run(start, events[..m]);
    if k < |w.handles| {
      n := HandleOrigin(start, events[..m], k);
      assert events[..m][..n] == events[..n];
      HandleKept(w, events[m], k);
    } else {
      n := m;
      MadeByStep(w, events[m]);
    }
  }

  /** Another handle of a live client on the instance, managed or not. */
  predicate AlsoOn(w: World, k: nat, instance: nat, j: nat) {
    && j != k && j < |w.handles| && w.handles[j].instance == instance
    && !w.handles[j].closed && IsAlive(w.handles[j].client, w.alive)
  }

  /** Whenever a client looks for a Runtime, the process in the file can be identified. */
  ghost predicate RuntimesReadable(start: World, events: seq<Event>) {
    forall n :: 0 <= n < |events| && events[n].Ensure? ==> RuntimeReadable(Run(start, events[..n]), events[n])
  }

  predicate RuntimeReadable(w: World, e: Event) {
    w.file.Some? ==> w.file.value.process.pid !in Unread(e)
  }

  /** Nobody who found a recorded Runtime is stopped under it: in a run in which identities can be
      read, a close that signals leaves no open handle of another live client on the instance, but for
      handles made by a call at which the file did not name the instance with a live process. */
  lemma FoundRuntimeIsNotStopped(alive: Processes, stamp: nat, events: seq<Event>, e: Event, j: nat) returns (n: nat)
    requires forall pid :: pid in alive ==> alive[pid] < stamp
    requires var start := Initial(alive, stamp);
      && ReadableRun(start, events) && RuntimesReadable(start, events)
      && var w := Run(start, events);
         Readable(w, e) && Signalled(w, e).Some? && AlsoOn(w, e.handle, w.handles[e.handle].instance, j)
    ensures var start := Initial(alive, stamp);
      MadeBy(start, events, j, n) && !RecordedAlive(Run(start, events[..n]), Run(start, events).handles[j].instance)
  {
    hide Run, Signalled, ReadableRun, Readable, OtherUser, RuntimesReadable, RuntimeReadable, UsesUnmanaged;
    var start := Initial(alive, stamp);
    var w := Run(start, events);
    SignalsByClosing(w, e);
    ReadableRunStopsOnlyUnused(alive, stamp, events, e);
    NotManaged(w, e.handle, w.handles[e.handle].instance, j);
    n := HandleOrigin(start, events, j);
    NotRecorded(start, events, n, w.handles[j].instance);
  }

  lemma NotRecorded(start: World, events: seq<Event>, n: nat, instance: nat)
    requires n < |events| && events[n].Ensure? && RuntimesReadable(start, events)
    requires UsesUnmanaged(Run(start, events[..n]), events[n])
    requires events[n].health.Healthy? ==> events[n].health.instance == instance
    ensures !RecordedAlive(Run(start, events[..n]), instance)
  {
    hide Run;
    assert RuntimeReadable(Run(start, events[..n]), events[n]);
  }

  lemma SignalsByClosing(w: World, e: Event)
    requires Signalled(w, e).Some?
    ensures e.Close? && CanClose(w, e.handle)
  {
  }

  lemma NotManaged(w: World, k: nat, instance: nat, j: nat)
    requires AlsoOn(w, k, instance, j) && !OtherUser(w, k, instance)
    ensures w.handles[j].lease.None?
  {
    assert w.handles[j].lease.Some? ==> IsOther(w, k, instance, j);
  }
}

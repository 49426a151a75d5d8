/** Ownership of an auto-started Runtime shared by several clients: what the lock-protected
    sections do to the metadata file, and why no client ever stops a Runtime another one uses. */
module RuntimeOwnership {
  import opened Prelude

  /** A process: its PID and the creation identity that tells apart successive users of the PID. */
  datatype Process = Process(pid: nat, identity: nat)

  datatype Lease = Lease(leaseId: nat, client: Process)

  datatype Metadata = Metadata(instance: nat, process: Process, leases: seq<Lease>)

  /** The answer of the endpoint's health probe. Foreign stands for every reply that fails the
      identity handshake; the instance id in a good reply need not be truthful. */
  datatype Health = Unreachable | Foreign | Healthy(instance: nat)

  /** Processes: PID to creation identity. */
  type Processes = map<nat, nat>

  predicate IsAlive(p: Process, alive: Processes) {
    p.pid in alive && alive[p.pid] == p.identity
  }

  // ---------------------------------------------------------------------------
  // The locked sections, as functions of the metadata file. `seen` are the live processes whose
  // creation identity can be read during the section; the others count as gone.
  // ---------------------------------------------------------------------------

  /** The leases other than `mine` whose clients are seen, in order. */
  function LiveLeases(leases: seq<Lease>, mine: Option<nat>, seen: Processes): (r: seq<Lease>)
    ensures forall l :: l in r <==> l in leases && Some(l.leaseId) != mine && IsAlive(l.client, seen)
  {
    if leases == [] then []
    else
      var n := |leases| - 1;
      assert leases == leases[..n] + [leases[n]];
      var front := LiveLeases(leases[..n], mine, seen);
      if Some(leases[n].leaseId) != mine && IsAlive(leases[n].client, seen) then front + [leases[n]] else front
  }

  /** The metadata, with dead leases dropped, if it describes the Runtime that answered. */
  function MatchingManaged(file: Option<Metadata>, instance: nat, seen: Processes): Option<Metadata> {
    if file.Some? && file.value.instance == instance && IsAlive(file.value.process, seen)
    then Some(file.value.(leases := LiveLeases(file.value.leases, None, seen)))
    else None
  }

  /** The file names the Runtime that answered, and the process it records is seen. */
  predicate Managed(file: Option<Metadata>, health: Health, seen: Processes) {
    health.Healthy? && file.Some? && file.value.instance == health.instance && IsAlive(file.value.process, seen)
  }

  /** The file after ensure_runtime: `child` is the new Runtime process if one came up, under
      instance id `instance`; `leaseId` is the caller's lease should it get one. */
  function EnsuredFile(file: Option<Metadata>, client: Process, health: Health, autoStart: bool, child: Option<Process>,
                       instance: nat, leaseId: nat, seen: Processes): Option<Metadata>
  {
    match health
    case Foreign => file
    case Healthy(found) =>
      (match MatchingManaged(file, found, seen)
       case None => file
       case Some(managed) =>
         if !IsAlive(client, seen) then file else Some(managed.(leases := managed.leases + [Lease(leaseId, client)])))
    case Unreachable =>
      if !autoStart then file
      else match child
        case None => None
        case Some(process) => Some(Metadata(instance, process, [Lease(leaseId, client)]))
  }

  /** What a release decides to do with the Runtime. */
  datatype Release =
    | NotOurs                      // no metadata for this instance: nothing to do
    | StillLeased(file: Metadata)  // other clients are seen
    | Stale                        // drop the record, signal nobody
    | Terminate(target: Process)   // last client: stop the recorded process, then drop the record

  function DecideRelease(file: Option<Metadata>, instance: nat, lease: nat, health: Health, seen: Processes): Release {
    if file.None? || file.value.instance != instance then NotOurs
    else
      var others := LiveLeases(file.value.leases, Some(lease), seen);
      if others != [] then StillLeased(file.value.(leases := others))
      else if !IsAlive(file.value.process, seen) then Stale
      else if health.Foreign? || (health.Healthy? && health.instance != instance) then Stale
      else Terminate(file.value.process)
  }

  // ---------------------------------------------------------------------------
  // The sections as methods on the metadata file and on a client's handle
  // ---------------------------------------------------------------------------

  /** The metadata file of one endpoint; every method is one section under the endpoint lock. */
  class Endpoint {
    var file: Option<Metadata>

    constructor ()
      ensures file == None
    {
      file := None;
    }

    method PruneLeases(leases: seq<Lease>, mine: Option<nat>, seen: Processes) returns (live: seq<Lease>)
      ensures live == LiveLeases(leases, mine, seen)
    {
      live := [];
      for i := 0 to |leases|
        invariant live == LiveLeases(leases[..i], mine, seen)
      {
        assert leases[..i + 1][..i] == leases[..i];
        if Some(leases[i].leaseId) != mine && IsAlive(leases[i].client, seen) {
          live := live + [leases[i]];
        }
      }
      assert leases[..|leases|] == leases;
    }

    /** Connects a client: joins the Runtime that answered, or starts one if nothing answered. A
        client that cannot read its own identity gets no lease. */
    method EnsureRuntime(client: Process, health: Health, autoStart: bool, child: Option<Process>,
                         instance: nat, leaseId: nat, seen: Processes)
      returns (handle: RuntimeProcess?)
      modifies this
      ensures file == EnsuredFile(old(file), client, health, autoStart, child, instance, leaseId, seen)
      ensures handle == null <==>
        || health.Foreign? || (health.Unreachable? && (!autoStart || child.None?))
        || (Managed(old(file), health, seen) && !IsAlive(client, seen))
      ensures handle != null ==>
        && fresh(handle) && !handle.closed
        && handle.lease == (if health.Unreachable? || Managed(old(file), health, seen) then Some(leaseId) else None)
        && handle.instance == (if health.Healthy? then health.instance else instance)
      ensures handle != null && handle.lease.Some? ==>
        && file.Some? && file.value.instance == handle.instance
        && file.value.process == (if health.Unreachable? then child.value else old(file).value.process)
        && file.value.leases
           == (if health.Unreachable? then [] else LiveLeases(old(file).value.leases, None, seen)) + [Lease(leaseId, client)]
      ensures handle == null || handle.lease.None? ==> file == if health.Unreachable? && autoStart then None else old(file)
    {
      handle := null;
      match health
      case Foreign =>
      case Healthy(found) =>
        if file.Some? && file.value.instance == found && IsAlive(file.value.process, seen) {
          var live := PruneLeases(file.value.leases, None, seen);
          if !IsAlive(client, seen) {
            return;
          }
          file := Some(file.value.(leases := live + [Lease(leaseId, client)]));
          handle := new RuntimeProcess(found, Some(leaseId));
        } else {
          handle := new RuntimeProcess(found, None);
        }
      case Unreachable =>
        if autoStart {
          file := None;
          if child.Some? {
            file := Some(Metadata(instance, child.value, [Lease(leaseId, client)]));
            handle := new RuntimeProcess(instance, Some(leaseId));
          }
        }
    }
  }

  /** A client's handle on the Runtime. */
  class RuntimeProcess {
    const instance: nat
    const lease: Option<nat>
    var closed: bool

    constructor (instance: nat, lease: Option<nat>)
      ensures this.instance == instance && this.lease == lease && !closed
    {
      this.instance := instance;
      this.lease := lease;
      closed := false;
    }

    /** Releases the lease and, for the last client, stops the Runtime; `killFails` is the
        outcome of the termination attempt, `target` the process signalled. */
    method Close(endpoint: Endpoint, health: Health, seen: Processes, killFails: bool)
      returns (target: Option<Process>)
      modifies this, endpoint
      ensures old(closed) || lease.None? ==> target.None? && endpoint.file == old(endpoint.file) && closed
      ensures !old(closed) && lease.Some? ==>
        var named := old(endpoint.file).Some? && old(endpoint.file).value.instance == instance;
        var others := if named then LiveLeases(old(endpoint.file).value.leases, lease, seen) else [];
        && (target.Some? <==>
              && named && others == [] && IsAlive(old(endpoint.file).value.process, seen)
              && (health.Unreachable? || health == Healthy(instance)))
        && (target.Some? ==> target.value == old(endpoint.file).value.process)
        && closed == !(target.Some? && killFails)
        && endpoint.file == (if !named || !closed then old(endpoint.file)
                             else if others != [] then Some(old(endpoint.file).value.(leases := others))
                             else None)
    {
      target := None;
      if closed {
        return;
      }
      if lease.Some? && endpoint.file.Some? && endpoint.file.value.instance == instance {
        var record := endpoint.file.value;
        var others := endpoint.PruneLeases(record.leases, lease, seen);
        if others != [] {
          endpoint.file := Some(record.(leases := others));
        } else if !IsAlive(record.process, seen) {
          endpoint.file := None;
        } else if health.Foreign? || (health.Healthy? && health.instance != instance) {
          endpoint.file := None;
        } else {
          target := Some(record.process);
          if killFails {
            return;
          }
          endpoint.file := None;
        }
      }
      closed := true;
    }
  }

  // ---------------------------------------------------------------------------
  // All clients, all processes: the protocol as a step system
  // ---------------------------------------------------------------------------

  datatype Handle = Handle(client: Process, instance: nat, lease: Option<nat>, closed: bool)

  /** `stamp` supplies fresh process identities, instance ids and lease ids; `spawned` records
      which process was started for which instance; `missed` the leases dropped from the file
      although their clients were alive, because their identity could not be read. */
  datatype World = World(
    alive: Processes,
    file: Option<Metadata>,
    handles: seq<Handle>,
    stamp: nat,
    spawned: map<nat, Process>,
    missed: set<nat>)

  /** How starting a new Runtime ended. In the failures the child may survive its termination. */
  datatype StartOutcome = Started | StartFailed(childSurvives: bool) | ClientCrashed(childSurvives: bool)

  datatype KillOutcome = Killed | KillFailed(targetSurvives: bool) | KilledThenCrashed

  /** `unread` are the PIDs whose creation identity cannot be read during the section. */
  datatype Event =
    | Ensure(clientPid: nat, health: Health, autoStart: bool, childPid: nat, outcome: StartOutcome, unread: set<nat>)
    | Close(handle: nat, health: Health, kill: KillOutcome, unread: set<nat>)
    | ProcessExits(pid: nat)
    | ProcessStarts(pid: nat)
    | MetadataLost

  function Without(alive: Processes, pid: nat): Processes {
    alive - {pid}
  }

  function Unread(e: Event): set<nat> {
    if e.Ensure? || e.Close? then e.unread else {}
  }

  /** The live processes whose identity can be read during a section. */
  function Seen(w: World, e: Event): (seen: Processes)
    ensures Fewer(seen, w.alive)
  {
    w.alive - Unread(e)
  }

  /** The leases of live clients that pruning drops. */
  function Overlooked(leases: seq<Lease>, mine: Option<nat>, seen: Processes, alive: Processes): set<nat> {
    set l | l in leases && Some(l.leaseId) != mine && IsAlive(l.client, alive) && !IsAlive(l.client, seen) :: l.leaseId
  }

  /** ensure_runtime by the live client with this PID; a Runtime counts as started only if both
      its identity and the client's could be read. */
  function EnsureStep(w: World, client: Process, e: Event): World
    requires e.Ensure?
  {
    var seen := Seen(w, e);
    match e.health
    case Foreign => w
    case Healthy(instance) =>
      if MatchingManaged(w.file, instance, seen).None?
      then w.(handles := w.handles + [Handle(client, instance, None, false)])
      else if !IsAlive(client, seen) then w
      else w.(file := EnsuredFile(w.file, client, e.health, e.autoStart, None, 0, w.stamp, seen),
              handles := w.handles + [Handle(client, instance, Some(w.stamp), false)],
              stamp := w.stamp + 1,
              missed := w.missed + Overlooked(w.file.value.leases, None, seen, w.alive))
    case Unreachable =>
      if !e.autoStart || e.childPid in w.alive then w else SpawnStep(w, client, e, seen)
  }

  /** Nothing answered: the record is dropped and a Runtime started under a new instance id. */
  function SpawnStep(w: World, client: Process, e: Event, seen: Processes): World
    requires e.Ensure? && e.health.Unreachable?
  {
    var child, instance, lease := Process(e.childPid, w.stamp), w.stamp + 1, w.stamp + 2;
    var up := if e.outcome.Started? then Some(child) else None;
    var spawned := w.(alive := w.alive[child.pid := child.identity],
                      file := EnsuredFile(w.file, client, e.health, true, up, instance, lease, seen),
                      stamp := w.stamp + 3, spawned := w.spawned[instance := child]);
    match e.outcome
    case Started =>
      spawned.(handles := w.handles + [Handle(client, instance, Some(lease), false)])
    case StartFailed(survives) =>
      spawned.(alive := if survives then spawned.alive else Without(spawned.alive, child.pid))
    case ClientCrashed(survives) =>
      var rest := Without(spawned.alive, client.pid);
      spawned.(alive := if survives then rest else Without(rest, child.pid))
  }

  function CloseStep(w: World, k: nat, e: Event): World
    requires e.Close? && k < |w.handles| && w.handles[k].lease.Some?
  {
    var h := w.handles[k];
    var done := w.(handles := w.handles[k := h.(closed := true)]);
    match DecideRelease(w.file, h.instance, h.lease.value, e.health, Seen(w, e))
    case NotOurs => done
    case StillLeased(file) =>
      done.(file := Some(file), missed := w.missed + Overlooked(w.file.value.leases, h.lease, Seen(w, e), w.alive))
    case Stale => done.(file := None)
    case Terminate(target) =>
      match e.kill
      case Killed => done.(file := None, alive := Without(w.alive, target.pid))
      case KillFailed(survives) => w.(alive := if survives then w.alive else Without(w.alive, target.pid))
      case KilledThenCrashed => w.(alive := Without(Without(w.alive, target.pid), h.client.pid))
  }

  predicate CanClose(w: World, k: nat) {
    k < |w.handles| && !w.handles[k].closed && w.handles[k].lease.Some? && IsAlive(w.handles[k].client, w.alive)
  }

  function Step(w: World, e: Event): World {
    match e
    case Ensure(pid, _, _, _, _, _) => if pid in w.alive then EnsureStep(w, Process(pid, w.alive[pid]), e) else w
    case Close(k, _, _, _) => if CanClose(w, k) then CloseStep(w, k, e) else w
    case ProcessExits(pid) => w.(alive := Without(w.alive, pid))
    case ProcessStarts(pid) =>
      if pid in w.alive then w else w.(alive := w.alive[pid := w.stamp], stamp := w.stamp + 1)
    case MetadataLost => w.(file := None)
  }

  /** The process a close signals, if any. */
  function Signalled(w: World, e: Event): Option<Process> {
    if e.Close? && CanClose(w, e.handle) then
      var h := w.handles[e.handle];
      var decision := DecideRelease(w.file, h.instance, h.lease.value, e.health, Seen(w, e));
      if decision.Terminate? then Some(decision.target) else None
    else None
  }

  function Initial(alive: Processes, stamp: nat): World {
    World(alive, None, [], stamp, map[], {})
  }

  function Run(w: World, events: seq<Event>): World {
    if events == [] then w
    else Step(Run(w, events[..|events| - 1]), events[|events| - 1])
  }

  // ---------------------------------------------------------------------------
  // The invariant
  // ---------------------------------------------------------------------------

  /** An open managed handle of a live client on an instance. */
  predicate InUse(w: World, k: nat, instance: nat) {
    CanClose(w, k) && w.handles[k].instance == instance
  }

  /** Handle k accounts for a lease record. */
  predicate Accounts(w: World, k: nat, instance: nat, l: Lease) {
    InUse(w, k, instance) && w.handles[k].lease == Some(l.leaseId) && w.handles[k].client == l.client
  }

  ghost predicate Accounted(w: World, instance: nat, l: Lease) {
    exists k :: 0 <= k < |w.handles| && Accounts(w, k, instance, l)
  }

  /** The file holds the lease of handle k, unless it was missed. */
  predicate Recorded(w: World, k: nat, leases: seq<Lease>)
    requires k < |w.handles| && w.handles[k].lease.Some?
  {
    w.handles[k].lease.value in w.missed || Lease(w.handles[k].lease.value, w.handles[k].client) in leases
  }

  /** The live leases in the file are exactly those of the open handles of live clients, but for
      the ones that were missed. */
  ghost predicate LeasesExact(w: World) {
    w.file.Some? ==> LeasesAccounted(w, w.file.value) && UsersRecorded(w, w.file.value)
  }

  ghost predicate LeasesAccounted(w: World, m: Metadata) {
    forall l :: l in m.leases && IsAlive(l.client, w.alive) ==> Accounted(w, m.instance, l)
  }

  ghost predicate UsersRecorded(w: World, m: Metadata) {
    forall k :: 0 <= k < |w.handles| && InUse(w, k, m.instance) ==> Recorded(w, k, m.leases)
  }

  ghost predicate Fresh(w: World) {
    && (forall pid :: pid in w.alive ==> w.alive[pid] < w.stamp)
    && (forall i :: i in w.spawned ==> i < w.stamp && w.spawned[i].identity < w.stamp)
    && (forall k :: 0 <= k < |w.handles| ==> w.handles[k].client.identity < w.stamp)
    && (forall k :: 0 <= k < |w.handles| && w.handles[k].lease.Some? ==>
          w.handles[k].lease.value < w.stamp && w.handles[k].instance in w.spawned)
    && (w.file.Some? ==> LeasesFresh(w, w.file.value.leases))
    && (forall id :: id in w.missed ==> id < w.stamp)
  }

  /** Lease ids are unique in the file, and no missed lease is in it. */
  ghost predicate LeasesFresh(w: World, leases: seq<Lease>) {
    && (forall l :: l in leases ==> l.client.identity < w.stamp && l.leaseId < w.stamp && l.leaseId !in w.missed)
    && (forall l, m :: l in leases && m in leases && l.leaseId == m.leaseId ==> l == m)
  }

  ghost predicate HandlesDistinct(w: World) {
    forall i, j :: 0 <= i < j < |w.handles| && w.handles[i].lease.Some? ==> w.handles[i].lease != w.handles[j].lease
  }

  ghost predicate Inv(w: World) {
    && Fresh(w)
    && HandlesDistinct(w)
    && (w.file.Some? ==> w.file.value.instance in w.spawned && w.spawned[w.file.value.instance] == w.file.value.process)
    && LeasesExact(w)
  }

  // ---------------------------------------------------------------------------
  // Every step keeps it
  // ---------------------------------------------------------------------------

  predicate Fewer(alive': Processes, alive: Processes) {
    forall pid :: pid in alive' ==> pid in alive && alive'[pid] == alive[pid]
  }

  lemma ExitsKeepInv(w: World, alive': Processes)
    requires Inv(w) && Fewer(alive', w.alive)
    ensures Inv(w.(alive := alive'))
  {
    var w' := w.(alive := alive');
    if w.file.Some? {
      ExitsKeepLeases(w, alive');
    }
  }

  lemma ExitsKeepLeases(w: World, alive': Processes)
    requires w.file.Some? && LeasesExact(w) && Fewer(alive', w.alive)
    ensures LeasesExact(w.(alive := alive'))
  {
    var w', m := w.(alive := alive'), w.file.value;
    forall l | l in m.leases && IsAlive(l.client, alive') ensures Accounted(w', m.instance, l) {
      assert Accounted(w, m.instance, l);
      var k :| 0 <= k < |w.handles| && Accounts(w, k, m.instance, l);
      assert Accounts(w', k, m.instance, l);
    }
    forall k | 0 <= k < |w.handles| && InUse(w', k, m.instance) ensures Recorded(w', k, m.leases) {
      assert InUse(w, k, m.instance);
    }
  }

  lemma StartKeepsInv(w: World, pid: nat)
    requires Inv(w) && pid !in w.alive
    ensures Inv(w.(alive := w.alive[pid := w.stamp], stamp := w.stamp + 1))
  {
    var w' := w.(alive := w.alive[pid := w.stamp], stamp := w.stamp + 1);
    if w.file.Some? {
      var m := w.file.value;
      forall l | l in m.leases && IsAlive(l.client, w'.alive) ensures Accounted(w', m.instance, l) {
        assert Accounted(w, m.instance, l);
        var k :| 0 <= k < |w.handles| && Accounts(w, k, m.instance, l);
        assert Accounts(w', k, m.instance, l);
      }
      forall k | 0 <= k < |w.handles| && InUse(w', k, m.instance) ensures Recorded(w', k, m.leases) {
        assert w.handles[k].client.identity < w.stamp;
        assert InUse(w, k, m.instance);
      }
    }
  }

  /** The file after pruning for handle k: `rest` are the seen leases other than its own. */
  lemma PrunedUsers(w: World, k: nat, seen: Processes)
    requires Inv(w) && CanClose(w, k) && Fewer(seen, w.alive)
    requires w.file.Some? && w.file.value.instance == w.handles[k].instance
    ensures var h := w.handles[k];
      var leases := w.file.value.leases;
      var rest := LiveLeases(leases, h.lease, seen);
      Inv(w.(handles := w.handles[k := h.(closed := true)], file := Some(w.file.value.(leases := rest)),
             missed := w.missed + Overlooked(leases, h.lease, seen, w.alive)))
  {
    var h, m := w.handles[k], w.file.value;
    var rest := LiveLeases(m.leases, h.lease, seen);
    var w' := w.(handles := w.handles[k := h.(closed := true)], file := Some(m.(leases := rest)),
                 missed := w.missed + Overlooked(m.leases, h.lease, seen, w.alive));
    forall l | l in rest && IsAlive(l.client, w.alive) ensures Accounted(w', m.instance, l) {
      assert Accounted(w, m.instance, l);
      var j :| 0 <= j < |w.handles| && Accounts(w, j, m.instance, l);
      assert j != k;
      assert Accounts(w', j, m.instance, l);
    }
    forall j | 0 <= j < |w.handles| && InUse(w', j, m.instance) ensures Recorded(w', j, rest) {
      assert j != k && InUse(w, j, m.instance);
      assert w.handles[j].lease != h.lease;
      assert Recorded(w, j, m.leases);
    }
  }

  /** Closing a handle that leaves the file alone, or removes it. */
  lemma ClosedKeepsInv(w: World, k: nat, file': Option<Metadata>)
    requires Inv(w) && CanClose(w, k)
    requires file' == None || (file' == w.file && w.file.value.instance != w.handles[k].instance)
    ensures Inv(w.(handles := w.handles[k := w.handles[k].(closed := true)], file := file'))
  {
    var h := w.handles[k];
    var w' := w.(handles := w.handles[k := h.(closed := true)], file := file');
    if file'.Some? {
      var m := file'.value;
      forall l | l in m.leases && IsAlive(l.client, w.alive) ensures Accounted(w', m.instance, l) {
        assert Accounted(w, m.instance, l);
        var j :| 0 <= j < |w.handles| && Accounts(w, j, m.instance, l);
        assert Accounts(w', j, m.instance, l);
      }
      forall j | 0 <= j < |w.handles| && InUse(w', j, m.instance) ensures Recorded(w', j, m.leases) {
        assert j != k && InUse(w, j, m.instance);
        assert Recorded(w, j, m.leases);
      }
    }
  }

  lemma CloseKeepsInv(w: World, k: nat, e: Event)
    requires Inv(w) && CanClose(w, k) && e.Close?
    ensures Inv(CloseStep(w, k, e))
  {
    hide Inv, LiveLeases, Overlooked;
    var h := w.handles[k];
    match DecideRelease(w.file, h.instance, h.lease.value, e.health, Seen(w, e))
    case NotOurs => ClosedKeepsInv(w, k, w.file);
    case StillLeased(_) => PrunedUsers(w, k, Seen(w, e));
    case Stale => ClosedKeepsInv(w, k, None);
    case Terminate(target) =>
      match e.kill
      case Killed =>
        ClosedKeepsInv(w, k, None);
        ExitsKeepInv(w.(handles := w.handles[k := h.(closed := true)], file := None), Without(w.alive, target.pid));
      case KillFailed(survives) =>
        ExitsKeepInv(w, if survives then w.alive else Without(w.alive, target.pid));
      case KilledThenCrashed =>
        ExitsKeepInv(w, Without(Without(w.alive, target.pid), h.client.pid));
  }

  lemma UnmanagedKeepsInv(w: World, client: Process, instance: nat)
    requires Inv(w) && IsAlive(client, w.alive)
    ensures Inv(w.(handles := w.handles + [Handle(client, instance, None, false)]))
  {
    var w' := w.(handles := w.handles + [Handle(client, instance, None, false)]);
    if w.file.Some? {
      var m := w.file.value;
      forall l | l in m.leases && IsAlive(l.client, w.alive) ensures Accounted(w', m.instance, l) {
        assert Accounted(w, m.instance, l);
        var k :| 0 <= k < |w.handles| && Accounts(w, k, m.instance, l);
        assert Accounts(w', k, m.instance, l);
      }
      forall k | 0 <= k < |w'.handles| && InUse(w', k, m.instance) ensures Recorded(w', k, m.leases) {
        assert k < |w.handles| && InUse(w, k, m.instance);
        assert Recorded(w, k, m.leases);
      }
    }
  }

  /** Joining: the file keeps the seen leases and gets the new one. */
  function Joined(w: World, client: Process, instance: nat, seen: Processes): World
    requires MatchingManaged(w.file, instance, seen).Some?
  {
    var managed := MatchingManaged(w.file, instance, seen).value;
    w.(file := Some(managed.(leases := managed.leases + [Lease(w.stamp, client)])),
       handles := w.handles + [Handle(client, instance, Some(w.stamp), false)],
       stamp := w.stamp + 1,
       missed := w.missed + Overlooked(w.file.value.leases, None, seen, w.alive))
  }

  lemma JoinKeepsInv(w: World, client: Process, instance: nat, seen: Processes)
    requires Inv(w) && IsAlive(client, w.alive) && Fewer(seen, w.alive) && MatchingManaged(w.file, instance, seen).Some?
    ensures Inv(Joined(w, client, instance, seen))
  {
    JoinKeepsLeases(w, client, instance, seen);
    var w' := Joined(w, client, instance, seen);
    assert Fresh(w') && HandlesDistinct(w');
  }

  lemma JoinKeepsLeases(w: World, client: Process, instance: nat, seen: Processes)
    requires Inv(w) && IsAlive(client, w.alive) && Fewer(seen, w.alive) && MatchingManaged(w.file, instance, seen).Some?
    ensures LeasesExact(Joined(w, client, instance, seen))
  {
    hide Fresh, HandlesDistinct;
    var w', last, n := Joined(w, client, instance, seen), Lease(w.stamp, client), |w.handles|;
    var leases := w'.file.value.leases;
    assert Accounts(w', n, instance, last);
    forall l | l in leases && IsAlive(l.client, w.alive) ensures Accounted(w', instance, l) {
      if l != last {
        assert Accounted(w, instance, l);
        var k :| 0 <= k < n && Accounts(w, k, instance, l);
        assert Accounts(w', k, instance, l);
      }
    }
    forall k | 0 <= k < |w'.handles| && InUse(w', k, instance) ensures Recorded(w', k, leases) {
      if k < n {
        assert InUse(w, k, instance);
        assert Recorded(w, k, w.file.value.leases);
      }
    }
  }

  /** A Runtime that came up gets a file with the starter's lease; its instance id is new. */
  lemma SpawnKeepsInv(w: World, client: Process, childPid: nat)
    requires Inv(w) && IsAlive(client, w.alive) && childPid !in w.alive
    ensures var child, instance, lease := Process(childPid, w.stamp), w.stamp + 1, w.stamp + 2;
      Inv(World(w.alive[childPid := w.stamp], Some(Metadata(instance, child, [Lease(lease, client)])),
                w.handles + [Handle(client, instance, Some(lease), false)], w.stamp + 3, w.spawned[instance := child], w.missed))
  {
    hide LeasesExact;
    var child, instance, lease := Process(childPid, w.stamp), w.stamp + 1, w.stamp + 2;
    var w' := World(w.alive[childPid := w.stamp], Some(Metadata(instance, child, [Lease(lease, client)])),
                    w.handles + [Handle(client, instance, Some(lease), false)], w.stamp + 3, w.spawned[instance := child], w.missed);
    var n := |w.handles|;
    assert Accounts(w', n, instance, Lease(lease, client));
    assert forall k :: 0 <= k < n && w.handles[k].lease.Some? ==> w.handles[k].instance < w.stamp;
    OnlyStarterRecorded(w', n, instance, Lease(lease, client));
  }

  lemma OnlyStarterRecorded(w: World, n: nat, instance: nat, l: Lease)
    requires |w.handles| == n + 1 && Accounts(w, n, instance, l)
    requires w.file.Some? && w.file.value.instance == instance && w.file.value.leases == [l]
    requires forall k :: 0 <= k < n && w.handles[k].lease.Some? ==> w.handles[k].instance < instance
    ensures LeasesExact(w)
  {
  }

  lemma FailedSpawnKeepsInv(w: World, childPid: nat)
    requires Inv(w) && childPid !in w.alive
    ensures Inv(World(w.alive[childPid := w.stamp], None, w.handles, w.stamp + 3,
                      w.spawned[w.stamp + 1 := Process(childPid, w.stamp)], w.missed))
  {
  }

  lemma SpawnStepKeepsInv(w: World, client: Process, e: Event, seen: Processes)
    requires Inv(w) && IsAlive(client, w.alive) && e.Ensure? && e.health.Unreachable? && e.childPid !in w.alive
    ensures Inv(SpawnStep(w, client, e, seen))
  {
    hide Inv;
    if e.outcome.Started? {
      SpawnKeepsInv(w, client, e.childPid);
    } else {
      FailedSpawnKeepsInv(w, e.childPid);
      ExitsKeepInv(World(w.alive[e.childPid := w.stamp], None, w.handles, w.stamp + 3,
                         w.spawned[w.stamp + 1 := Process(e.childPid, w.stamp)], w.missed),
                   SpawnStep(w, client, e, seen).alive);
    }
  }

  lemma EnsureKeepsInv(w: World, client: Process, e: Event)
    requires Inv(w) && IsAlive(client, w.alive) && e.Ensure?
    ensures Inv(EnsureStep(w, client, e))
  {
    hide Inv, SpawnStep, LiveLeases, Overlooked;
    match e.health
    case Foreign =>
    case Healthy(instance) =>
      if MatchingManaged(w.file, instance, Seen(w, e)).None? {
        UnmanagedKeepsInv(w, client, instance);
      } else {
        JoinKeepsInv(w, client, instance, Seen(w, e));
      }
    case Unreachable =>
      if e.autoStart && e.childPid !in w.alive {
        SpawnStepKeepsInv(w, client, e, Seen(w, e));
      }
  }

  lemma LostKeepsInv(w: World)
    requires Inv(w)
    ensures Inv(w.(file := None))
  {
  }

  lemma StepKeepsInv(w: World, e: Event)
    requires Inv(w)
    ensures Inv(Step(w, e))
  {
    hide Inv, EnsureStep, CloseStep;
    match e
    case Ensure(pid, _, _, _, _, _) =>
      if pid in w.alive {
        EnsureKeepsInv(w, Process(pid, w.alive[pid]), e);
      }
    case Close(k, _, _, _) =>
      if CanClose(w, k) {
        CloseKeepsInv(w, k, e);
      }
    case ProcessExits(pid) => ExitsKeepInv(w, Without(w.alive, pid));
    case ProcessStarts(pid) =>
      if pid !in w.alive {
        StartKeepsInv(w, pid);
      }
    case MetadataLost => LostKeepsInv(w);
  }

  lemma InitialInv(alive: Processes, stamp: nat)
    requires forall pid :: pid in alive ==> alive[pid] < stamp
    ensures Inv(Initial(alive, stamp))
  {
  }

  lemma {:induction false} RunKeepsInv(alive: Processes, stamp: nat, events: seq<Event>)
    requires forall pid :: pid in alive ==> alive[pid] < stamp
    ensures Inv(Run(Initial(alive, stamp), events))
  {
    hide Inv, Step;
    if events == [] {
      InitialInv(alive, stamp);
    } else {
      RunKeepsInv(alive, stamp, events[..|events| - 1]);
      StepKeepsInv(Run(Initial(alive, stamp), events[..|events| - 1]), events[|events| - 1]);
    }
  }

  // ---------------------------------------------------------------------------
  // Main results
  // ---------------------------------------------------------------------------

  /** Another live client with an open managed handle on the instance. */
  predicate IsOther(w: World, k: nat, instance: nat, j: nat) {
    j != k && InUse(w, j, instance)
  }

  ghost predicate OtherUser(w: World, k: nat, instance: nat) {
    exists j :: 0 <= j < |w.handles| && IsOther(w, k, instance, j)
  }

  /** Its lease was missed earlier, or its identity cannot be read now. */
  predicate Unnoticed(w: World, e: Event, j: nat)
    requires j < |w.handles| && w.handles[j].lease.Some?
  {
    w.handles[j].lease.value in w.missed || w.handles[j].client.pid in Unread(e)
  }

  ghost predicate OthersUnnoticed(w: World, e: Event, k: nat, instance: nat) {
    forall j :: 0 <= j < |w.handles| && IsOther(w, k, instance, j) ==> Unnoticed(w, e, j)
  }

  /** No other lease is seen exactly when every other user goes unnoticed. */
  lemma OthersSeen(w: World, e: Event, k: nat)
    requires Inv(w) && CanClose(w, k) && w.file.Some? && w.file.value.instance == w.handles[k].instance
    ensures LiveLeases(w.file.value.leases, w.handles[k].lease, Seen(w, e)) == []
      <==> OthersUnnoticed(w, e, k, w.handles[k].instance)
  {
    var h, m := w.handles[k], w.file.value;
    var others := LiveLeases(m.leases, h.lease, Seen(w, e));
    if others != [] {
      var l := others[0];
      assert l in others;
      assert Accounted(w, m.instance, l);
      var j :| 0 <= j < |w.handles| && Accounts(w, j, m.instance, l);
      assert IsOther(w, k, m.instance, j) && !Unnoticed(w, e, j);
    } else {
      forall j | 0 <= j < |w.handles| && IsOther(w, k, m.instance, j) ensures Unnoticed(w, e, j) {
        assert w.handles[j].lease != h.lease;
        assert Recorded(w, j, m.leases);
        assert Lease(w.handles[j].lease.value, w.handles[j].client) !in others;
      }
    }
  }

  /** Closing a managed handle signals a process exactly when the file still names the handle's
      instance, every other live client that uses it goes unnoticed, the recorded process is alive
      and can be identified, and the endpoint was not answered by somebody else. */
  lemma SignalsExactly(w: World, e: Event)
    requires Inv(w) && e.Close? && CanClose(w, e.handle)
    ensures var h := w.handles[e.handle];
      Signalled(w, e).Some? <==>
        && w.file.Some? && w.file.value.instance == h.instance
        && OthersUnnoticed(w, e, e.handle, h.instance)
        && IsAlive(w.file.value.process, w.alive) && w.file.value.process.pid !in e.unread
        && (e.health.Unreachable? || e.health == Healthy(h.instance))
  {
    hide Inv, LiveLeases, OthersUnnoticed;
    var h := w.handles[e.handle];
    if w.file.Some? && w.file.value.instance == h.instance {
      OthersSeen(w, e, e.handle);
    }
  }

  lemma SignalsSpawned(w: World, e: Event)
    requires Inv(w) && Signalled(w, e).Some?
    ensures var h := w.handles[e.handle];
      && h.instance in w.spawned && Signalled(w, e).value == w.spawned[h.instance]
      && IsAlive(w.spawned[h.instance], w.alive)
  {
    hide Fresh, HandlesDistinct, LeasesExact, LiveLeases;
  }

  /** In every interleaving of clients, crashes, PID reuse, lost metadata, spurious probe results
      and identities that cannot be read, a close signals only the process started for the handle's
      own instance, while that very process is alive; and another live client uses the instance
      at most unnoticed. */
  lemma StopsOnlyUnusedRuntime(alive: Processes, stamp: nat, events: seq<Event>, e: Event)
    requires forall pid :: pid in alive ==> alive[pid] < stamp
    ensures var w := Run(Initial(alive, stamp), events);
      Signalled(w, e).Some? ==>
        var h := w.handles[e.handle];
        && h.instance in w.spawned && Signalled(w, e).value == w.spawned[h.instance]
        && IsAlive(w.spawned[h.instance], w.alive)
        && OthersUnnoticed(w, e, e.handle, h.instance)
  {
    hide Inv, OthersUnnoticed, Run;
    RunKeepsInv(alive, stamp, events);
    var w := Run(Initial(alive, stamp), events);
    if Signalled(w, e).Some? {
      SignalsExactly(w, e);
      SignalsSpawned(w, e);
    }
  }

  // ---------------------------------------------------------------------------
  // Identities that can be read
  // ---------------------------------------------------------------------------

  /** The section can read the identity of every live client with an open managed handle. */
  ghost predicate Readable(w: World, e: Event) {
    forall j :: 0 <= j < |w.handles| && CanClose(w, j) ==> w.handles[j].client.pid !in Unread(e)
  }

  ghost predicate ReadableRun(w: World, events: seq<Event>) {
    forall i :: 0 <= i < |events| ==> Readable(Run(w, events[..i]), events[i])
  }

  lemma NothingOverlooked(w: World, mine: Option<nat>, e: Event)
    requires Inv(w) && w.file.Some? && Readable(w, e)
    ensures Overlooked(w.file.value.leases, mine, Seen(w, e), w.alive) == {}
  {
    hide Fresh, HandlesDistinct;
    var m := w.file.value;
    forall l | l in m.leases && IsAlive(l.client, w.alive) ensures IsAlive(l.client, Seen(w, e)) {
      assert Accounted(w, m.instance, l);
      var k :| 0 <= k < |w.handles| && Accounts(w, k, m.instance, l);
      assert CanClose(w, k);
    }
  }

  lemma ReadableMissesNothing(w: World, e: Event)
    requires Inv(w) && Readable(w, e)
    ensures Step(w, e).missed == w.missed
  {
    hide Inv, Overlooked, LiveLeases;
    if w.file.Some? {
      NothingOverlooked(w, None, e);
      if e.Close? && CanClose(w, e.handle) {
        NothingOverlooked(w, w.handles[e.handle].lease, e);
      }
    }
  }

  lemma {:induction false} ReadableRunMissesNothing(alive: Processes, stamp: nat, events: seq<Event>)
    requires forall pid :: pid in alive ==> alive[pid] < stamp
    requires ReadableRun(Initial(alive, stamp), events)
    ensures Run(Initial(alive, stamp), events).missed == {}
  {
    hide Inv, Step, Readable;
    if events != [] {
      var n := |events| - 1;
      var w := Run(Initial(alive, stamp), events[..n]);
      forall i | 0 <= i < n ensures Readable(Run(Initial(alive, stamp), events[..n][..i]), events[..n][i]) {
        assert events[..n][..i] == events[..i];
      }
      ReadableRunMissesNothing(alive, stamp, events[..n]);
      RunKeepsInv(alive, stamp, events[..n]);
      ReadableMissesNothing(w, events[n]);
    }
  }

  /** While the identities of the clients with open handles can be read, a close never signals a
      Runtime another live client uses. */
  lemma ReadableRunStopsOnlyUnused(alive: Processes, stamp: nat, events: seq<Event>, e: Event)
    requires forall pid :: pid in alive ==> alive[pid] < stamp
    requires ReadableRun(Initial(alive, stamp), events) && Readable(Run(Initial(alive, stamp), events), e)
    ensures var w := Run(Initial(alive, stamp), events);
      Signalled(w, e).Some? ==> !OtherUser(w, e.handle, w.handles[e.handle].instance)
  {
    hide Inv, Run, Signalled;
    var w := Run(Initial(alive, stamp), events);
    if Signalled(w, e).Some? {
      StopsOnlyUnusedRuntime(alive, stamp, events, e);
      ReadableRunMissesNothing(alive, stamp, events);
      NotOtherwiseUsed(w, e);
    }
  }

  lemma NotOtherwiseUsed(w: World, e: Event)
    requires Signalled(w, e).Some? && w.missed == {} && Readable(w, e)
    requires OthersUnnoticed(w, e, e.handle, w.handles[e.handle].instance)
    ensures !OtherUser(w, e.handle, w.handles[e.handle].instance)
  {
    hide IsAlive;
    assert forall j :: 0 <= j < |w.handles| && IsOther(w, e.handle, w.handles[e.handle].instance, j) ==> Unnoticed(w, e, j);
  }

  const FIRST := Process(1, 0)
  const SECOND := Process(2, 0)
  const TWO_CLIENTS := Initial(map[1 := 0, 2 := 0], 1)
  const STARTED := World(map[1 := 0, 2 := 0, 3 := 1], Some(Metadata(2, Process(3, 1), [Lease(3, FIRST)])),
                         [Handle(FIRST, 2, Some(3), false)], 4, map[2 := Process(3, 1)], {})
  const SHARED := World(map[1 := 0, 2 := 0, 3 := 1], Some(Metadata(2, Process(3, 1), [Lease(3, FIRST), Lease(4, SECOND)])),
                        [Handle(FIRST, 2, Some(3), false), Handle(SECOND, 2, Some(4), false)], 5, map[2 := Process(3, 1)], {})

  lemma FirstStarts()
    ensures Step(TWO_CLIENTS, Ensure(1, Unreachable, true, 3, Started, {})) == STARTED
  {
  }

  lemma OneLease(l: Lease, mine: Option<nat>, seen: Processes)
    requires Some(l.leaseId) != mine && IsAlive(l.client, seen)
    ensures LiveLeases([l], mine, seen) == [l]
  {
    assert [l][..0] == [];
    assert LiveLeases([], mine, seen) == [];
  }

  lemma SecondJoins()
    ensures Step(STARTED, Ensure(2, Healthy(2), true, 4, Started, {})) == SHARED
  {
    hide LiveLeases;
    var join := Ensure(2, Healthy(2), true, 4, Started, {});
    OneLease(Lease(3, FIRST), None, Seen(STARTED, join));
    assert Seen(STARTED, join) == STARTED.alive;
    assert Overlooked(STARTED.file.value.leases, None, Seen(STARTED, join), STARTED.alive) == {};
    assert MatchingManaged(STARTED.file, 2, Seen(STARTED, join)) == STARTED.file;
    var w := Step(STARTED, join);
    assert w.handles == SHARED.handles && w.missed == {};
    assert w.file.value.leases == SHARED.file.value.leases;
    assert w.file == SHARED.file && w.alive == SHARED.alive && w.spawned == SHARED.spawned && w.stamp == SHARED.stamp;
  }

  /** One unreadable identity is enough: a client starts a Runtime, another joins it, and when the
      first closes while the second cannot be identified, the Runtime is signalled in use. */
  lemma UnreadableClientIsStopped() returns (events: seq<Event>, e: Event)
    ensures var w := Run(Initial(map[1 := 0, 2 := 0], 1), events);
      Signalled(w, e).Some? && OtherUser(w, e.handle, w.handles[e.handle].instance)
  {
    hide Step, Signalled, OtherUser;
    var start, join := Ensure(1, Unreachable, true, 3, Started, {}), Ensure(2, Healthy(2), true, 4, Started, {});
    events := [start, join];
    e := Close(0, Unreachable, Killed, {2});
    assert events[..1] == [start] && [start][..0] == [];
    FirstStarts();
    SecondJoins();
    assert Run(TWO_CLIENTS, [start]) == STARTED;
    assert Run(TWO_CLIENTS, events) == SHARED;
    FirstSignals();
  }

  lemma {:induction false} NoneSeen(leases: seq<Lease>, mine: Option<nat>, seen: Processes)
    requires forall l :: l in leases ==> Some(l.leaseId) == mine || !IsAlive(l.client, seen)
    ensures LiveLeases(leases, mine, seen) == []
  {
    if leases != [] {
      NoneSeen(leases[..|leases| - 1], mine, seen);
    }
  }

  lemma FirstSignals()
    ensures Signalled(SHARED, Close(0, Unreachable, Killed, {2})).Some? && OtherUser(SHARED, 0, 2)
  {
    hide LiveLeases;
    var e := Close(0, Unreachable, Killed, {2});
    NoneSeen([Lease(3, FIRST), Lease(4, SECOND)], Some(3), Seen(SHARED, e));
    assert IsOther(SHARED, 0, 2, 1);
  }
}

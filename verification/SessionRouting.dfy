/** Who may use which profile and write to which session: connections, profile grants and
    time-limited session leases. Times are clock readings; a deadline is reached when it is not
    in the future. */
module SessionRouting {
  import opened Prelude
  import opened SessionManager

  datatype RoutingError =
    | ConnectionIdRequired | ConnectionIdentityMismatch
    | ProfileNotFound | ProfileUnavailable | ProfileAccessDenied | ProfileGrantRequired
    | SessionBusy | SessionIdentityMismatch | SessionLeaseRequired | SessionProfileMismatch | SessionGenerationMismatch
    | SessionContextRequired | ObjectSessionMismatch | TabSessionExpired
    | SupervisorClosed | ProfileLockBusy | LaunchFailed | RuntimeFailed

  // ---------------------------------------------------------------------------
  // Connections
  // ---------------------------------------------------------------------------

  datatype Context = Context(
    agent: string,
    current: Option<nat>,
    currentProfile: Option<string>,
    authorized: set<string>,
    leased: set<nat>,
    revision: nat,
    expires: int)

  type Contexts = map<string, Context>

  function PruneContexts(cs: Contexts, now: int): Contexts {
    map c | c in cs && cs[c].expires > now :: cs[c]
  }

  /** The connection has a context that has not expired, for another agent. */
  predicate TakenByOther(cs: Contexts, connection: string, agent: string, now: int) {
    connection in cs && now < cs[connection].expires && cs[connection].agent != agent
  }

  /** Finds or creates the context of a connection, after dropping the expired ones. */
  function Connect(cs: Contexts, connection: string, agent: string, ttl: nat, now: int): Result<Contexts, RoutingError> {
    if connection == "" then Err(ConnectionIdRequired)
    else
      var live := PruneContexts(cs, now);
      if connection !in live then Ok(live[connection := Context(agent, None, None, {}, {}, 0, now + ttl)])
      else if live[connection].agent != agent then Err(ConnectionIdentityMismatch)
      else Ok(live[connection := live[connection].(expires := now + ttl)])
  }

  /** What a failed attempt leaves behind: the expired contexts are gone all the same. */
  function ConnectFailed(cs: Contexts, connection: string, now: int): Contexts {
    if connection == "" then cs else PruneContexts(cs, now)
  }

  function BindSession(x: Context, session: nat, profile: string, ttl: nat, now: int): Context {
    x.(current := Some(session), currentProfile := Some(profile), authorized := x.authorized + {profile},
       leased := x.leased + {session}, revision := x.revision + 1, expires := now + ttl)
  }

  function AuthorizeProfile(x: Context, profile: string): Context {
    x.(authorized := x.authorized + {profile}, revision := x.revision + 1)
  }

  function Unbind(x: Context, session: nat): Context {
    if session !in x.leased then x
    else
      var y := x.(leased := x.leased - {session}, revision := x.revision + 1);
      if x.current == Some(session) then y.(current := None, currentProfile := None) else y
  }

  function UnbindAll(cs: Contexts, session: nat): Contexts {
    map c | c in cs :: Unbind(cs[c], session)
  }

  class AgentConnectionRegistry {
    const ttl: nat
    var contexts: Contexts

    constructor (ttlSeconds: int)
      ensures contexts == map[] && ttl == if ttlSeconds < 60 then 60 else ttlSeconds
    {
      contexts := map[];
      ttl := if ttlSeconds < 60 then 60 else ttlSeconds;
    }

    method Prune(now: int)
      modifies this
      ensures contexts == PruneContexts(old(contexts), now)
    {
      var rest := contexts.Keys;
      while rest != {}
        invariant rest <= old(contexts).Keys
        invariant forall c :: c in contexts <==> c in old(contexts) && (c in rest || old(contexts)[c].expires > now)
        invariant forall c :: c in contexts ==> contexts[c] == old(contexts)[c]
        decreases |rest|
      {
        var c :| c in rest;
        rest := rest - {c};
        if contexts[c].expires <= now {
          contexts := contexts - {c};
        }
      }
    }

    method GetOrCreate(connection: string, agent: string, now: int) returns (answer: Result<(), RoutingError>)
      modifies this
      ensures var r := Connect(old(contexts), connection, agent, ttl, now);
        && contexts == (if r.Ok? then r.value else ConnectFailed(old(contexts), connection, now))
        && answer == if r.Ok? then Ok(()) else Err(r.error)
      ensures answer.Ok? <==> connection != "" && !TakenByOther(old(contexts), connection, agent, now)
      ensures answer.Err? ==>
        && answer.error == (if connection == "" then ConnectionIdRequired else ConnectionIdentityMismatch)
        && (forall c :: c in contexts <==> c in old(contexts) && (connection == "" || now < old(contexts)[c].expires))
        && (forall c :: c in contexts ==> contexts[c] == old(contexts)[c])
      ensures answer.Ok? ==>
        && connection in contexts && contexts[connection].agent == agent && contexts[connection].expires == now + ttl
        && (forall c :: c in contexts && c != connection <==> c in old(contexts) && c != connection && now < old(contexts)[c].expires)
        && (forall c :: c in contexts && c != connection ==> contexts[c] == old(contexts)[c])
        && contexts[connection].current
           == (if connection in old(contexts) && now < old(contexts)[connection].expires then old(contexts)[connection].current else None)
    {
      if connection == "" {
        return Err(ConnectionIdRequired);
      }
      Prune(now);
      if connection in contexts {
        if contexts[connection].agent != agent {
          return Err(ConnectionIdentityMismatch);
        }
        contexts := contexts[connection := contexts[connection].(expires := now + ttl)];
        return Ok(());
      }
      contexts := contexts[connection := Context(agent, None, None, {}, {}, 0, now + ttl)];
      answer := Ok(());
    }

    method Bind(connection: string, session: nat, profile: string, now: int)
      requires connection in contexts
      modifies this
      ensures contexts == old(contexts)[connection := BindSession(old(contexts)[connection], session, profile, ttl, now)]
    {
      var x := contexts[connection];
      x := x.(current := Some(session), currentProfile := Some(profile));
      x := x.(authorized := x.authorized + {profile});
      x := x.(leased := x.leased + {session});
      x := x.(revision := x.revision + 1, expires := now + ttl);
      contexts := contexts[connection := x];
    }

    method Authorize(connection: string, profile: string)
      requires connection in contexts
      modifies this
      ensures contexts == old(contexts)[connection := AuthorizeProfile(old(contexts)[connection], profile)]
    {
      var x := contexts[connection];
      contexts := contexts[connection := x.(authorized := x.authorized + {profile}, revision := x.revision + 1)];
    }

    method UnbindSession(session: nat)
      modifies this
      ensures contexts == UnbindAll(old(contexts), session)
    {
      var rest := contexts.Keys;
      while rest != {}
        invariant rest <= old(contexts).Keys && contexts.Keys == old(contexts).Keys
        invariant forall c :: c in contexts ==>
          contexts[c] == if c in rest then old(contexts)[c] else Unbind(old(contexts)[c], session)
        decreases |rest|
      {
        var c :| c in rest;
        rest := rest - {c};
        var x := contexts[c];
        if session in x.leased {
          x := x.(leased := x.leased - {session});
          if x.current == Some(session) {
            x := x.(current := None, currentProfile := None);
          }
          contexts := contexts[c := x.(revision := x.revision + 1)];
        }
      }
    }

    method Release(connection: string) returns (released: Option<Context>)
      modifies this
      ensures contexts == old(contexts) - {connection} && released == Get(old(contexts), connection)
    {
      released := Get(contexts, connection);
      contexts := contexts - {connection};
    }
  }

  // ---------------------------------------------------------------------------
  // Profile grants
  // ---------------------------------------------------------------------------

  datatype Grant = Grant(grantId: nat, agent: string, profileVersion: nat, granted: int, expires: int)

  /** Grants by connection and profile. */
  datatype Grants = Grants(held: map<(string, string), Grant>, issued: nat)

  /** The profile is ready and open to the agent. */
  predicate Admits(p: Profile, agent: string) {
    p.ready && (agent in p.boundAgents || p.boundAgents == {})
  }

  /** The agent's grant for the profile over this connection has not expired. */
  predicate HoldsGrant(held: map<(string, string), Grant>, connection: string, profile: string, agent: string, now: int) {
    && (connection, profile) in held
    && held[(connection, profile)].agent == agent && now < held[(connection, profile)].expires
  }

  function AccessError(p: Profile, agent: string): Option<RoutingError> {
    if !p.ready then Some(ProfileUnavailable)
    else if p.boundAgents != {} && agent !in p.boundAgents then Some(ProfileAccessDenied)
    else None
  }

  function Authorize(gs: Grants, p: Profile, agent: string, connection: string, ttl: nat, now: int): Result<Grants, RoutingError> {
    if AccessError(p, agent).Some? then Err(AccessError(p, agent).value)
    else
      var key := (connection, p.id);
      var old' := Get(gs.held, key);
      if old'.Some? && old'.value.expires > now && old'.value.agent == agent
      then Ok(gs.(held := gs.held[key := old'.value.(profileVersion := p.version, expires := now + ttl)]))
      else Ok(Grants(gs.held[key := Grant(gs.issued, agent, p.version, now, now + ttl)], gs.issued + 1))
  }

  function RequireGrant(gs: Grants, p: Profile, agent: string, connection: string, ttl: nat, now: int): Result<Grants, RoutingError> {
    if AccessError(p, agent).Some? then Err(AccessError(p, agent).value)
    else
      var key := (connection, p.id);
      var grant := Get(gs.held, key);
      if grant.None? || grant.value.expires <= now || grant.value.agent != agent then Err(ProfileGrantRequired)
      else Ok(gs.(held := gs.held[key := grant.value.(profileVersion := p.version, expires := now + ttl)]))
  }

  function RevokeConnection(gs: Grants, connection: string): Grants {
    gs.(held := map k | k in gs.held && k.0 != connection :: gs.held[k])
  }

  class AgentProfileGrantManager {
    const ttl: nat
    var held: map<(string, string), Grant>
    var issued: nat

    function State(): Grants
      reads this
    {
      Grants(held, issued)
    }

    constructor (ttlSeconds: int)
      ensures State() == Grants(map[], 0) && ttl == if ttlSeconds < 60 then 60 else ttlSeconds
    {
      held, issued := map[], 0;
      ttl := if ttlSeconds < 60 then 60 else ttlSeconds;
    }

    method AuthorizeProfile(p: Profile, agent: string, connection: string, now: int) returns (answer: Result<(), RoutingError>)
      modifies this
      ensures var r := Authorize(old(State()), p, agent, connection, ttl, now);
        && State() == (if r.Ok? then r.value else old(State()))
        && answer == if r.Ok? then Ok(()) else Err(r.error)
      ensures answer == if Admits(p, agent) then Ok(()) else Err(if p.ready then ProfileAccessDenied else ProfileUnavailable)
      ensures answer.Ok? ==>
        var before, renewed := old(held), HoldsGrant(old(held), connection, p.id, agent, now);
        && held.Keys == before.Keys + {(connection, p.id)}
        && (forall k :: k in before && k != (connection, p.id) ==> held[k] == before[k])
        && var g := held[(connection, p.id)];
           && g.agent == agent && g.profileVersion == p.version && g.expires == now + ttl
           && (if renewed then g.grantId == before[(connection, p.id)].grantId && g.granted == before[(connection, p.id)].granted
               else g.grantId == old(issued) && g.granted == now)
    {
      var refused := AccessError(p, agent);
      if refused.Some? {
        return Err(refused.value);
      }
      var key := (connection, p.id);
      if key in held && held[key].expires > now && held[key].agent == agent {
        held := held[key := Grant(held[key].grantId, agent, p.version, held[key].granted, now + ttl)];
        return Ok(());
      }
      held := held[key := Grant(issued, agent, p.version, now, now + ttl)];
      issued := issued + 1;
      answer := Ok(());
    }

    method Require(p: Profile, agent: string, connection: string, now: int) returns (answer: Result<(), RoutingError>)
      modifies this
      ensures var r := RequireGrant(old(State()), p, agent, connection, ttl, now);
        && State() == (if r.Ok? then r.value else old(State()))
        && answer == if r.Ok? then Ok(()) else Err(r.error)
      ensures answer.Ok? <==> Admits(p, agent) && HoldsGrant(old(held), connection, p.id, agent, now)
      ensures answer.Err? ==>
        answer.error == (if !p.ready then ProfileUnavailable else if !Admits(p, agent) then ProfileAccessDenied else ProfileGrantRequired)
      ensures var key := (connection, p.id);
        if answer.Err? then held == old(held)
        else key in old(held) && held == old(held)[key := old(held)[key].(profileVersion := p.version, expires := now + ttl)]
    {
      var refused := AccessError(p, agent);
      if refused.Some? {
        return Err(refused.value);
      }
      var key := (connection, p.id);
      if key !in held || held[key].expires <= now || held[key].agent != agent {
        return Err(ProfileGrantRequired);
      }
      held := held[key := Grant(held[key].grantId, held[key].agent, p.version, held[key].granted, now + ttl)];
      answer := Ok(());
    }

    method Revoke(connection: string)
      modifies this`held
      ensures State() == RevokeConnection(old(State()), connection)
    {
      var rest := held.Keys;
      while rest != {}
        invariant rest <= old(held).Keys
        invariant forall k :: k in held <==> k in old(held) && (k in rest || k.0 != connection)
        invariant forall k :: k in held ==> held[k] == old(held)[k]
        decreases |rest|
      {
        var k :| k in rest;
        rest := rest - {k};
        if k.0 == connection {
          held := held - {k};
        }
      }
    }
  }

  // ---------------------------------------------------------------------------
  // Session leases
  // ---------------------------------------------------------------------------

  /** What a lease is for; none of this ever changes for one lease id. */
  datatype Claim = Claim(agent: string, connection: string, session: nat, profile: string, generation: nat)

  datatype Lease = Lease(leaseId: nat, claim: Claim, granted: int, expires: int)

  datatype Leases = Leases(held: map<nat, Lease>, issued: nat)

  /** Somebody's lease on the session has not expired. */
  predicate Leased(held: map<nat, Lease>, session: nat, now: int) {
    session in held && now < held[session].expires
  }

  /** The session is leased for just this claim. */
  predicate LeasedFor(held: map<nat, Lease>, claim: Claim, now: int) {
    && Leased(held, claim.session, now)
    && held[claim.session].claim.(session := claim.session) == claim
  }

  /** Looking at a session's lease drops it once it has expired. */
  function DropExpired(ls: Leases, session: nat, now: int): Leases {
    if session in ls.held && ls.held[session].expires <= now then ls.(held := ls.held - {session}) else ls
  }

  function BindingError(lease: Claim, claim: Claim): Option<RoutingError> {
    if lease.profile != claim.profile then Some(SessionProfileMismatch)
    else if lease.generation != claim.generation then Some(SessionGenerationMismatch)
    else None
  }

  function Renew(ls: Leases, session: nat, ttl: nat, now: int): Leases
    requires session in ls.held
  {
    ls.(held := ls.held[session := ls.held[session].(expires := now + ttl)])
  }

  function AcquireError(ls: Leases, claim: Claim, now: int): Option<RoutingError> {
    var live := DropExpired(ls, claim.session, now);
    if claim.session !in live.held then None
    else
      var lease := live.held[claim.session].claim;
      if lease.connection != claim.connection then Some(SessionBusy)
      else if lease.agent != claim.agent then Some(SessionIdentityMismatch)
      else BindingError(lease, claim)
  }

  /** Takes a free session or renews the caller's own lease; expired leases are dropped first. */
  function Acquire(ls: Leases, claim: Claim, ttl: nat, now: int): Leases {
    var live := DropExpired(ls, claim.session, now);
    if AcquireError(ls, claim, now).Some? then live
    else if claim.session in live.held then Renew(live, claim.session, ttl, now)
    else Leases(live.held[claim.session := Lease(live.issued, claim, now, now + ttl)], live.issued + 1)
  }

  function RequireError(ls: Leases, claim: Claim, now: int): Option<RoutingError> {
    var live := DropExpired(ls, claim.session, now);
    if claim.session !in live.held then Some(SessionLeaseRequired)
    else
      var lease := live.held[claim.session].claim;
      if lease.agent != claim.agent || lease.connection != claim.connection then Some(SessionBusy)
      else BindingError(lease, claim)
  }

  function Require(ls: Leases, claim: Claim, ttl: nat, now: int): Leases {
    var live := DropExpired(ls, claim.session, now);
    if RequireError(ls, claim, now).Some? then live else Renew(live, claim.session, ttl, now)
  }

  function RenewError(ls: Leases, claim: Claim, now: int): Option<RoutingError> {
    var live := DropExpired(ls, claim.session, now);
    if claim.session !in live.held then None
    else
      var lease := live.held[claim.session].claim;
      if lease.agent != claim.agent || lease.connection != claim.connection then None else BindingError(lease, claim)
  }

  function RenewIfOwned(ls: Leases, claim: Claim, ttl: nat, now: int): Leases {
    var live := DropExpired(ls, claim.session, now);
    if RequireError(ls, claim, now).Some? then live else Renew(live, claim.session, ttl, now)
  }

  function ReleaseLeases(ls: Leases, connection: string): Leases {
    ls.(held := map s | s in ls.held && ls.held[s].claim.connection != connection :: ls.held[s])
  }

  class AgentSessionLeaseManager {
    const ttl: nat
    var held: map<nat, Lease>
    var issued: nat

    function State(): Leases
      reads this
    {
      Leases(held, issued)
    }

    constructor (ttlSeconds: int)
      ensures State() == Leases(map[], 0) && ttl == (if ttlSeconds < 1 then 1 else ttlSeconds) && ttl > 0
    {
      held, issued := map[], 0;
      ttl := if ttlSeconds < 1 then 1 else ttlSeconds;
    }

    method Active(session: nat, now: int) returns (lease: Option<Lease>)
      modifies this`held
      ensures State() == DropExpired(old(State()), session, now)
      ensures lease == Get(held, session) && (lease.Some? ==> lease.value.expires > now)
    {
      if session in held && held[session].expires <= now {
        held := held - {session};
        return None;
      }
      lease := Get(held, session);
    }

    method AcquireLease(claim: Claim, now: int) returns (answer: Result<Lease, RoutingError>)
      modifies this
      ensures State() == Acquire(old(State()), claim, ttl, now)
      ensures var e := AcquireError(old(State()), claim, now);
        if e.Some? then answer == Err(e.value)
        else claim.session in held && answer == Ok(held[claim.session]) && answer.value.claim.connection == claim.connection
      ensures answer.Ok? <==> !Leased(old(held), claim.session, now) || LeasedFor(old(held), claim, now)
      ensures answer.Ok? ==>
        && held == old(held)[claim.session := answer.value] && LeasedFor(held, claim, now + ttl - 1)
        && answer.value == (if Leased(old(held), claim.session, now) then old(held)[claim.session].(expires := now + ttl)
                            else Lease(old(issued), claim, now, now + ttl))
      ensures answer.Err? ==> held == old(held)
    {
      var existing := Active(claim.session, now);
      var lease: Lease;
      if existing.Some? {
        lease := existing.value;
        if lease.claim.connection != claim.connection {
          return Err(SessionBusy);
        }
        if lease.claim.agent != claim.agent {
          return Err(SessionIdentityMismatch);
        }
        var mismatch := BindingError(lease.claim, claim);
        if mismatch.Some? {
          return Err(mismatch.value);
        }
        lease := lease.(expires := now + ttl);
      } else {
        lease := Lease(issued, claim, now, now + ttl);
        issued := issued + 1;
      }
      held := held[claim.session := lease];
      answer := Ok(lease);
    }

    method RequireLease(claim: Claim, now: int) returns (answer: Result<Lease, RoutingError>)
      modifies this`held
      ensures State() == Require(old(State()), claim, ttl, now)
      ensures var e := RequireError(old(State()), claim, now);
        if e.Some? then answer == Err(e.value)
        else claim.session in held && answer == Ok(held[claim.session]) && answer.value.claim.connection == claim.connection
      ensures answer.Ok? <==> LeasedFor(old(held), claim, now)
      ensures held == (if answer.Ok? then old(held)[claim.session := old(held)[claim.session].(expires := now + ttl)]
                       else if Leased(old(held), claim.session, now) then old(held) else old(held) - {claim.session})
    {
      var existing := Active(claim.session, now);
      if existing.None? {
        return Err(SessionLeaseRequired);
      }
      var lease := existing.value;
      if lease.claim.agent != claim.agent || lease.claim.connection != claim.connection {
        return Err(SessionBusy);
      }
      var mismatch := BindingError(lease.claim, claim);
      if mismatch.Some? {
        return Err(mismatch.value);
      }
      lease := lease.(expires := now + ttl);
      held := held[claim.session := lease];
      answer := Ok(lease);
    }

    method RenewOwned(claim: Claim, now: int) returns (answer: Result<Option<Lease>, RoutingError>)
      modifies this`held
      ensures State() == RenewIfOwned(old(State()), claim, ttl, now)
      ensures answer.Err? <==> RenewError(old(State()), claim, now).Some?
      ensures answer.Err? ==> Some(answer.error) == RenewError(old(State()), claim, now)
      ensures answer.Err? <==>
        && Leased(old(held), claim.session, now)
        && var lease := old(held)[claim.session].claim;
           lease.agent == claim.agent && lease.connection == claim.connection && lease.(session := claim.session) != claim
      ensures answer.Ok? && answer.value.Some? <==> LeasedFor(old(held), claim, now)
      ensures held == (if answer.Ok? && answer.value.Some? then old(held)[claim.session := old(held)[claim.session].(expires := now + ttl)]
                       else if Leased(old(held), claim.session, now) then old(held) else old(held) - {claim.session})
    {
      var existing := Active(claim.session, now);
      if existing.None? {
        return Ok(None);
      }
      var lease := existing.value;
      if lease.claim.agent != claim.agent || lease.claim.connection != claim.connection {
        return Ok(None);
      }
      var mismatch := BindingError(lease.claim, claim);
      if mismatch.Some? {
        return Err(mismatch.value);
      }
      lease := lease.(expires := now + ttl);
      held := held[claim.session := lease];
      answer := Ok(Some(lease));
    }

    method ReleaseSession(session: nat) returns (released: Option<Lease>)
      modifies this`held
      ensures held == old(held) - {session} && released == Get(old(held), session)
    {
      released := Get(held, session);
      held := held - {session};
    }

    method ReleaseConnection(connection: string)
      modifies this`held
      ensures State() == ReleaseLeases(old(State()), connection)
    {
      var rest := held.Keys;
      while rest != {}
        invariant rest <= old(held).Keys
        invariant forall s :: s in held <==> s in old(held) && (s in rest || old(held)[s].claim.connection != connection)
        invariant forall s :: s in held ==> held[s] == old(held)[s]
        decreases |rest|
      {
        var s :| s in rest;
        rest := rest - {s};
        if held[s].claim.connection == connection {
          held := held - {s};
        }
      }
    }
  }
}

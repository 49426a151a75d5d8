/** One-time monitor grants: a token index that is always one-to-one with the grants still waiting
    to be used, a bound on active grants, and a pruned history. */
module MonitorGateway {
  import opened Prelude

  datatype Permission = Events | Frames | Takeover

  datatype GrantStatus = Issued | Consumed | Closed | Revoked | Expired

  datatype Binding = Binding(session: string, profile: string, generation: string)

  datatype Grant = Grant(
    binding: Binding,
    permissions: seq<Permission>,
    issuedAt: int,
    expires: int,
    status: GrantStatus,
    connection: Option<nat>)

  /** Tokens are looked up by digest, which stands for the token itself. `minted` are all tokens
      ever handed out. */
  datatype Access = Access(
    states: map<nat, Grant>,
    index: map<string, nat>,
    minted: set<string>,
    nextGrant: nat,
    nextConnection: nat)

  const EMPTY := Access(map[], map[], {}, 0, 0)

  datatype AccessError = InvalidRequest | LimitReached | TokenMissing | TokenInvalid | GrantNotFound

  function MaxHistory(maxActive: nat): nat {
    if maxActive * 8 > 64 then maxActive * 8 else 64
  }

  predicate IsActive(g: Grant) {
    g.status == Issued || g.status == Consumed
  }

  predicate IsTerminal(g: Grant) {
    !IsActive(g)
  }

  function ActiveGrants(states: map<nat, Grant>): set<nat> {
    set g | g in states && IsActive(states[g])
  }

  // ---------------------------------------------------------------------------
  // Expiry and pruning
  // ---------------------------------------------------------------------------

  predicate Overdue(g: Grant, now: int) {
    IsActive(g) && g.expires <= now
  }

  function ExpireStates(states: map<nat, Grant>, now: int): (r: map<nat, Grant>)
    ensures r.Keys == states.Keys
  {
    map g | g in states :: if Overdue(states[g], now) then states[g].(status := Expired) else states[g]
  }

  /** The tokens of every grant but the ones in `gone`. */
  function WithoutGrants(index: map<string, nat>, gone: set<nat>): map<string, nat> {
    map t | t in index && index[t] !in gone :: index[t]
  }

  function OverdueGrants(states: map<nat, Grant>, now: int): set<nat> {
    set g | g in states && Overdue(states[g], now)
  }

  /** Issued earlier, or at the same time and entered earlier. */
  predicate Older(states: map<nat, Grant>, a: nat, b: nat)
    requires a in states && b in states
  {
    states[a].issuedAt < states[b].issuedAt || (states[a].issuedAt == states[b].issuedAt && a <= b)
  }

  ghost predicate IsOldest(states: map<nat, Grant>, g: nat) {
    g in states && IsTerminal(states[g]) && forall h :: h in states && IsTerminal(states[h]) ==> Older(states, g, h)
  }

  /** Removes the oldest terminal grants until the history fits, as far as there are any. */
  ghost predicate PrunedTo(states: map<nat, Grant>, limit: nat, r: map<nat, Grant>)
    decreases |states|
  {
    if |states| <= limit || (forall g :: g in states ==> IsActive(states[g])) then r == states
    else exists g :: IsOldest(states, g) && PrunedTo(states - {g}, limit, r)
  }

  lemma OldestUnique(states: map<nat, Grant>, a: nat, b: nat)
    requires IsOldest(states, a) && IsOldest(states, b)
    ensures a == b
  {
  }

  // ---------------------------------------------------------------------------
  // The invariant
  // ---------------------------------------------------------------------------

  /** The index maps one-to-one onto the grants that were issued and not yet used. */
  ghost predicate IndexExact(states: map<nat, Grant>, index: map<string, nat>) {
    && (forall t :: t in index ==> index[t] in states && states[index[t]].status == Issued)
    && (forall g :: g in states && states[g].status == Issued ==> Indexed(index, g))
    && Injective(index)
  }

  ghost predicate Indexed(index: map<string, nat>, g: nat) {
    exists t :: t in index && index[t] == g
  }

  ghost predicate Inv(a: Access, maxActive: nat) {
    && IndexExact(a.states, a.index)
    && a.index.Keys <= a.minted
    && (forall g :: g in a.states ==> g < a.nextGrant)
    && ConnectionsExact(a.states, a.nextConnection)
    && |ActiveGrants(a.states)| <= maxActive
    && |a.states| <= MaxHistory(maxActive) + 1
  }

  /** Every connection id was given to one grant only. */
  ghost predicate ConnectionsExact(states: map<nat, Grant>, next: nat) {
    && (forall g :: g in states && states[g].connection.Some? ==> states[g].connection.value < next)
    && (forall g, h :: g in states && h in states && states[g].connection.Some? && states[g].connection == states[h].connection ==> g == h)
  }

  lemma EmptyInv(maxActive: nat)
    ensures Inv(EMPTY, maxActive)
  {
  }

  lemma SubsetSize<T>(a: set<T>, b: set<T>)
    requires a <= b
    ensures |a| <= |b|
  {
    if a != b {
      assert b == a + (b - a);
      var x :| x in b - a;
      SubsetSize(a, b - {x});
    }
  }

  /** A change of grants that leaves issued grants alone or takes them off the index. */
  lemma ExpiryKeepsIndex(states: map<nat, Grant>, index: map<string, nat>, now: int)
    requires IndexExact(states, index)
    ensures IndexExact(ExpireStates(states, now), WithoutGrants(index, OverdueGrants(states, now)))
  {
    var states', index' := ExpireStates(states, now), WithoutGrants(index, OverdueGrants(states, now));
    forall g | g in states' && states'[g].status == Issued ensures Indexed(index', g) {
      assert Indexed(index, g);
      var t :| t in index && index[t] == g;
      assert t in index' && index'[t] == g;
    }
  }

  lemma ExpiryShrinksActive(states: map<nat, Grant>, now: int)
    ensures ActiveGrants(ExpireStates(states, now)) <= ActiveGrants(states)
    ensures |ActiveGrants(ExpireStates(states, now))| <= |ActiveGrants(states)|
    ensures |ExpireStates(states, now)| == |states|
  {
    SubsetSize(ActiveGrants(ExpireStates(states, now)), ActiveGrants(states));
    assert |ExpireStates(states, now).Keys| == |states.Keys|;
  }

  lemma TerminalRemoved(states: map<nat, Grant>, g: nat)
    requires g in states && IsTerminal(states[g])
    ensures ActiveGrants(states - {g}) == ActiveGrants(states)
  {
  }

  lemma AllActive(states: map<nat, Grant>)
    requires forall g :: g in states ==> IsActive(states[g])
    ensures |ActiveGrants(states)| == |states|
  {
    assert ActiveGrants(states) == states.Keys;
  }

  /** Pruning removes terminal grants only, and enough of them while few grants are active. */
  lemma {:induction false} PruneFacts(states: map<nat, Grant>, limit: nat, r: map<nat, Grant>)
    requires PrunedTo(states, limit, r)
    ensures r.Keys <= states.Keys && (forall g :: g in r ==> r[g] == states[g])
    ensures forall g :: g in states && IsActive(states[g]) ==> g in r
    ensures ActiveGrants(r) == ActiveGrants(states)
    ensures |ActiveGrants(states)| <= limit ==> |r| <= limit
    decreases |states|
  {
    hide ActiveGrants, Older;
    if |states| <= limit {
    } else if forall g :: g in states ==> IsActive(states[g]) {
      AllActive(states);
    } else {
      var g :| IsOldest(states, g) && PrunedTo(states - {g}, limit, r);
      PruneFacts(states - {g}, limit, r);
      TerminalRemoved(states, g);
    }
  }

  lemma {:induction false} PrunedIsOlder(states: map<nat, Grant>, limit: nat, r: map<nat, Grant>, gone: nat, kept: nat)
    requires PrunedTo(states, limit, r) && gone in states && gone !in r && kept in r && IsTerminal(r[kept])
    ensures kept in states && Older(states, gone, kept)
    decreases |states|
  {
    PruneFacts(states, limit, r);
    var g :| IsOldest(states, g) && PrunedTo(states - {g}, limit, r);
    PruneFacts(states - {g}, limit, r);
    if gone != g {
      PrunedIsOlder(states - {g}, limit, r, gone, kept);
    }
  }

  /** What pruning removes was issued before every terminal grant it keeps, or entered before it at the
      same time. */
  lemma PrunesOldestFirst(states: map<nat, Grant>, limit: nat, r: map<nat, Grant>, gone: nat, kept: nat)
    requires PrunedTo(states, limit, r) && gone in states && gone !in r && kept in r && IsTerminal(r[kept])
    ensures kept in states && states[gone].issuedAt <= states[kept].issuedAt
    ensures states[gone].issuedAt == states[kept].issuedAt ==> gone < kept
  {
    hide PrunedTo;
    PrunedIsOlder(states, limit, r, gone, kept);
  }

  /** Pruning has one outcome. */
  lemma {:induction false} PruneDetermined(states: map<nat, Grant>, limit: nat, r: map<nat, Grant>, r': map<nat, Grant>)
    requires PrunedTo(states, limit, r) && PrunedTo(states, limit, r')
    ensures r == r'
    decreases |states|
  {
    hide IsOldest;
    if |states| > limit && exists g :: g in states && !IsActive(states[g]) {
      var g :| IsOldest(states, g) && PrunedTo(states - {g}, limit, r);
      var g' :| IsOldest(states, g') && PrunedTo(states - {g'}, limit, r');
      OldestUnique(states, g, g');
      OldestHeld(states, g);
      PruneDetermined(states - {g}, limit, r, r');
    }
  }

  lemma OldestHeld(states: map<nat, Grant>, g: nat)
    requires IsOldest(states, g)
    ensures g in states && |states - {g}| < |states|
  {
    assert (states - {g}).Keys == states.Keys - {g};
    assert |states.Keys - {g}| < |states.Keys|;
  }

  lemma PruneKeepsIndex(states: map<nat, Grant>, index: map<string, nat>, limit: nat, r: map<nat, Grant>)
    requires IndexExact(states, index) && PrunedTo(states, limit, r)
    ensures IndexExact(r, index)
  {
    PruneFacts(states, limit, r);
    forall t | t in index ensures index[t] in r && r[index[t]].status == Issued {
      assert IsActive(states[index[t]]);
    }
    forall g | g in r && r[g].status == Issued ensures Indexed(index, g) {
      assert states[g].status == Issued;
    }
  }

  // ---------------------------------------------------------------------------
  // Operations, as relations between access states
  // ---------------------------------------------------------------------------

  /** Every call first marks what expired and prunes the history. */
  ghost predicate Refreshed(a: Access, now: int, limit: nat, r: Access) {
    && r == a.(states := r.states, index := WithoutGrants(a.index, OverdueGrants(a.states, now)))
    && PrunedTo(ExpireStates(a.states, now), limit, r.states)
  }

  datatype Request = Request(binding: Binding, permissions: seq<Permission>, ttl: int)

  /** Names are given trimmed. */
  predicate ValidRequest(r: Request) {
    && r.binding.session != "" && r.binding.profile != "" && r.binding.generation != ""
    && r.permissions != [] && (Takeover in r.permissions ==> Frames in r.permissions)
    && 30 <= r.ttl <= 3600
  }

  function NewGrant(r: Request, now: int): Grant {
    Grant(r.binding, Dedupe(r.permissions), now, now + r.ttl, Issued, None)
  }

  /** Issues `token`, which was never handed out before. */
  function Issue(a: Access, r: Request, token: string, now: int): Access {
    Access(a.states[a.nextGrant := NewGrant(r, now)], a.index[token := a.nextGrant], a.minted + {token}, a.nextGrant + 1, a.nextConnection)
  }

  predicate CanIssue(a: Access, maxActive: nat) {
    |ActiveGrants(a.states)| < maxActive
  }

  /** The grant a token authenticates, and whether both checks of it pass. */
  predicate Authenticates(a: Access, token: string) {
    token in a.index && a.index[token] in a.states && a.states[a.index[token]].status == Issued
  }

  function Consume(a: Access, token: string): Access {
    if token !in a.index then a
    else
      var g := a.index[token];
      var popped := a.(index := a.index - {token});
      if g !in a.states || a.states[g].status != Issued then popped
      else popped.(states := a.states[g := a.states[g].(status := Consumed, connection := Some(a.nextConnection))],
                   nextConnection := a.nextConnection + 1)
  }

  /** The consumed grant of a connection. */
  predicate Serves(a: Access, g: nat, connection: nat) {
    g in a.states && a.states[g].connection == Some(connection) && a.states[g].status == Consumed
  }

  function CloseGrant(a: Access, g: nat): Access
    requires g in a.states
  {
    a.(states := a.states[g := a.states[g].(status := Closed)])
  }

  function Revoke(a: Access, g: nat): Access
    requires g in a.states
  {
    a.(states := a.states[g := a.states[g].(status := Revoked)], index := WithoutGrants(a.index, {g}))
  }

  // ---------------------------------------------------------------------------
  // Every operation keeps the invariant
  // ---------------------------------------------------------------------------

  lemma ExpiredConnections(states: map<nat, Grant>, now: int, next: nat, r: map<nat, Grant>)
    requires ConnectionsExact(states, next)
    requires r.Keys <= states.Keys && forall g :: g in r ==> r[g] == ExpireStates(states, now)[g]
    ensures ConnectionsExact(r, next)
    ensures forall g :: g in r && IsActive(r[g]) ==> r[g].expires > now
  {
  }

  lemma RefreshKeepsInv(a: Access, now: int, maxActive: nat, r: Access)
    requires Inv(a, maxActive) && Refreshed(a, now, MaxHistory(maxActive), r)
    ensures Inv(r, maxActive) && |r.states| <= MaxHistory(maxActive)
    ensures r.minted == a.minted && r.index.Keys <= a.index.Keys
    ensures forall g :: g in r.states && IsActive(r.states[g]) ==> r.states[g].expires > now
  {
    hide PrunedTo, IndexExact, MaxHistory, ConnectionsExact, ActiveGrants, ExpireStates, OverdueGrants;
    var limit := MaxHistory(maxActive);
    var expired := ExpireStates(a.states, now);
    ExpiryKeepsIndex(a.states, a.index, now);
    ExpiryShrinksActive(a.states, now);
    HistoryHolds(maxActive);
    PruneFacts(expired, limit, r.states);
    PruneKeepsIndex(expired, r.index, limit, r.states);
    ExpiredConnections(a.states, now, a.nextConnection, r.states);
  }

  /** The grants waiting or in use that have time left. */
  function LiveGrants(states: map<nat, Grant>, now: int): set<nat> {
    set g | g in states && (states[g].status == Issued || states[g].status == Consumed) && now < states[g].expires
  }

  /** What a refresh leaves active is what has time left, untouched. */
  lemma RefreshedExactly(a: Access, now: int, limit: nat, r: Access)
    requires Refreshed(a, now, limit, r)
    ensures ActiveGrants(r.states) == LiveGrants(a.states, now)
    ensures forall g :: g in LiveGrants(a.states, now) ==> g in r.states && r.states[g] == a.states[g]
  {
    hide PrunedTo;
    PruneFacts(ExpireStates(a.states, now), limit, r.states);
    assert ActiveGrants(ExpireStates(a.states, now)) == LiveGrants(a.states, now);
  }

  lemma HistoryHolds(maxActive: nat)
    ensures maxActive <= MaxHistory(maxActive)
  {
  }

  lemma IssueKeepsIndex(states: map<nat, Grant>, index: map<string, nat>, g: nat, grant: Grant, token: string)
    requires IndexExact(states, index) && g !in states && token !in index && grant.status == Issued
    ensures IndexExact(states[g := grant], index[token := g])
  {
    var states', index' := states[g := grant], index[token := g];
    forall h | h in states' && states'[h].status == Issued ensures Indexed(index', h) {
      if h == g {
        assert token in index' && index'[token] == h;
      } else {
        assert Indexed(index, h);
        var t :| t in index && index[t] == h;
        assert t in index' && index'[t] == h;
      }
    }
  }

  lemma IssueCounts(states: map<nat, Grant>, g: nat, grant: Grant)
    requires g !in states && IsActive(grant)
    ensures |ActiveGrants(states[g := grant])| == |ActiveGrants(states)| + 1 && |states[g := grant]| == |states| + 1
  {
    assert ActiveGrants(states[g := grant]) == ActiveGrants(states) + {g};
    assert states[g := grant].Keys == states.Keys + {g};
  }

  lemma IssueKeepsInv(a: Access, r: Request, token: string, now: int, maxActive: nat)
    requires Inv(a, maxActive) && CanIssue(a, maxActive) && |a.states| <= MaxHistory(maxActive) && token !in a.minted
    ensures Inv(Issue(a, r, token, now), maxActive)
  {
    hide MaxHistory, Dedupe, IndexExact, ActiveGrants;
    assert a.nextGrant !in a.states;
    IssueKeepsIndex(a.states, a.index, a.nextGrant, NewGrant(r, now), token);
    IssueCounts(a.states, a.nextGrant, NewGrant(r, now));
  }

  /** Changing one grant keeps the counts if it was active before or is not active after. */
  lemma OneGrantChanged(states: map<nat, Grant>, g: nat, grant: Grant)
    requires g in states && (IsActive(grant) ==> IsActive(states[g]))
    ensures |ActiveGrants(states[g := grant])| <= |ActiveGrants(states)|
    ensures |states[g := grant]| == |states|
  {
    SubsetSize(ActiveGrants(states[g := grant]), ActiveGrants(states));
    assert states[g := grant].Keys == states.Keys;
  }

  /** The second check of consume never fails: a token in the index always stands for an issued
      grant. */
  lemma IndexedTokensAuthenticate(a: Access, token: string, maxActive: nat)
    requires Inv(a, maxActive) && token in a.index
    ensures Authenticates(a, token)
  {
  }

  lemma ConsumeKeepsInv(a: Access, token: string, maxActive: nat)
    requires Inv(a, maxActive)
    ensures Inv(Consume(a, token), maxActive) && |Consume(a, token).states| == |a.states|
    ensures token !in Consume(a, token).index
  {
    if token in a.index {
      var g, a' := a.index[token], Consume(a, token);
      OneGrantChanged(a.states, g, a.states[g].(status := Consumed, connection := Some(a.nextConnection)));
      forall h | h in a'.states && a'.states[h].status == Issued ensures Indexed(a'.index, h) {
        assert Indexed(a.index, h);
        var t :| t in a.index && a.index[t] == h;
        assert t in a'.index && a'.index[t] == h;
      }
    }
  }

  lemma CloseKeepsInv(a: Access, g: nat, connection: nat, maxActive: nat)
    requires Inv(a, maxActive) && Serves(a, g, connection)
    ensures Inv(CloseGrant(a, g), maxActive) && |CloseGrant(a, g).states| == |a.states|
  {
    var a' := CloseGrant(a, g);
    OneGrantChanged(a.states, g, a.states[g].(status := Closed));
    forall h | h in a'.states && a'.states[h].status == Issued ensures Indexed(a'.index, h) {
      assert Indexed(a.index, h);
    }
  }

  lemma RevokeKeepsInv(a: Access, g: nat, maxActive: nat)
    requires Inv(a, maxActive) && g in a.states
    ensures Inv(Revoke(a, g), maxActive) && |Revoke(a, g).states| == |a.states|
  {
    var a' := Revoke(a, g);
    OneGrantChanged(a.states, g, a.states[g].(status := Revoked));
    forall h | h in a'.states && a'.states[h].status == Issued ensures Indexed(a'.index, h) {
      assert Indexed(a.index, h);
      var t :| t in a.index && a.index[t] == h;
      assert t in a'.index && a'.index[t] == h;
    }
  }

  lemma PruneKeepsInv(a: Access, maxActive: nat, states: map<nat, Grant>)
    requires Inv(a, maxActive) && PrunedTo(a.states, MaxHistory(maxActive), states)
    ensures Inv(a.(states := states), maxActive)
  {
    hide PrunedTo, IndexExact, MaxHistory;
    PruneFacts(a.states, MaxHistory(maxActive), states);
    PruneKeepsIndex(a.states, a.index, MaxHistory(maxActive), states);
    HistoryHolds(maxActive);
  }

  // ---------------------------------------------------------------------------
  // Runs
  // ---------------------------------------------------------------------------

  datatype Event =
    | IssueCall(request: Request, token: string, at: int)
    | ConsumeCall(token: string, at: int)
    | ReleaseCall(connection: nat, at: int)
    | RevokeCall(grant: nat, at: int)
    | QueryCall(at: int)

  /** One call: a refresh, what the call itself does, and another pruning after a release. */
  ghost predicate Step(a: Access, maxActive: nat, e: Event, a': Access) {
    exists r :: Refreshed(a, e.at, MaxHistory(maxActive), r) && CallStep(r, maxActive, e, a')
  }

  ghost predicate CallStep(r: Access, maxActive: nat, e: Event, a': Access) {
    match e
    case IssueCall(request, token, now) =>
      if ValidRequest(request) && CanIssue(r, maxActive) then token !in r.minted && a' == Issue(r, request, token, now) else a' == r
    case ConsumeCall(token, _) => a' == if token == "" then r else Consume(r, token)
    case ReleaseCall(connection, _) => ReleaseStep(r, maxActive, connection, a')
    case RevokeCall(g, _) => a' == if g in r.states then Revoke(r, g) else r
    case QueryCall(_) => a' == r
  }

  ghost predicate ReleaseStep(r: Access, maxActive: nat, connection: nat, a': Access) {
    || ((forall g :: !Serves(r, g, connection)) && a' == r)
    || exists g :: Serves(r, g, connection) && ClosedStep(r, maxActive, g, a')
  }

  ghost predicate ClosedStep(r: Access, maxActive: nat, g: nat, a': Access)
    requires g in r.states
  {
    && a' == CloseGrant(r, g).(states := a'.states)
    && PrunedTo(CloseGrant(r, g).states, MaxHistory(maxActive), a'.states)
  }

  /** A token that is spent: handed out once, and no longer in the index. */
  predicate Spent(a: Access, token: string) {
    token in a.minted && token !in a.index
  }

  lemma CallKeepsInv(r: Access, maxActive: nat, e: Event, a': Access)
    requires Inv(r, maxActive) && |r.states| <= MaxHistory(maxActive) && CallStep(r, maxActive, e, a')
    ensures Inv(a', maxActive)
    ensures forall t :: Spent(r, t) ==> Spent(a', t)
    ensures e.ConsumeCall? && Authenticates(r, e.token) ==> Spent(a', e.token) || e.token == ""
  {
    hide IndexExact, ConnectionsExact, MaxHistory, PrunedTo, ActiveGrants;
    match e
    case IssueCall(request, token, now) =>
      if ValidRequest(request) && CanIssue(r, maxActive) {
        IssueKeepsInv(r, request, token, now, maxActive);
      }
    case ConsumeCall(token, _) => ConsumeKeepsInv(r, token, maxActive);
    case ReleaseCall(connection, _) =>
      if g :| Serves(r, g, connection) && ClosedStep(r, maxActive, g, a') {
        CloseKeepsInv(r, g, connection, maxActive);
        PruneKeepsInv(CloseGrant(r, g), maxActive, a'.states);
      }
    case RevokeCall(g, _) =>
      if g in r.states {
        RevokeKeepsInv(r, g, maxActive);
      }
    case QueryCall(_) =>
  }

  lemma StepKeepsInv(a: Access, maxActive: nat, e: Event, a': Access)
    requires Inv(a, maxActive) && Step(a, maxActive, e, a')
    ensures Inv(a', maxActive)
    ensures forall t :: Spent(a, t) ==> Spent(a', t)
    ensures e.ConsumeCall? && e.token != "" && e.token in a.minted ==> Spent(a', e.token)
  {
    hide Inv, CallStep, Refreshed, MaxHistory;
    var r :| Refreshed(a, e.at, MaxHistory(maxActive), r) && CallStep(r, maxActive, e, a');
    RefreshKeepsInv(a, e.at, maxActive, r);
    CallKeepsInv(r, maxActive, e, a');
    if e.ConsumeCall? && e.token != "" && e.token in r.index {
      IndexedTokensAuthenticate(r, e.token, maxActive);
    }
  }

  ghost predicate Run(maxActive: nat, states: seq<Access>, events: seq<Event>) {
    && |states| == |events| + 1 && states[0] == EMPTY
    && forall i :: 0 <= i < |events| ==> Step(states[i], maxActive, events[i], states[i + 1])
  }

  /** In every reachable state the index is one-to-one with the issued grants, active grants keep to
      their maximum, and the history to one more than its own. */
  lemma {:induction false} AccessSafe(maxActive: nat, states: seq<Access>, events: seq<Event>, n: nat)
    requires Run(maxActive, states, events) && n < |states|
    ensures Inv(states[n], maxActive)
  {
    hide Inv, Step;
    if n == 0 {
      EmptyInv(maxActive);
    } else {
      AccessSafe(maxActive, states, events, n - 1);
      StepKeepsInv(states[n - 1], maxActive, events[n - 1], states[n]);
    }
  }

  lemma {:induction false} SpentForever(maxActive: nat, states: seq<Access>, events: seq<Event>, i: nat, j: nat, token: string)
    requires Run(maxActive, states, events) && i <= j < |states| && Spent(states[i], token)
    ensures Spent(states[j], token)
  {
    hide Inv, Step;
    if i < j {
      SpentForever(maxActive, states, events, i, j - 1, token);
      AccessSafe(maxActive, states, events, j - 1);
      StepKeepsInv(states[j - 1], maxActive, events[j - 1], states[j]);
    }
  }

  /** Each token authenticates at most one connection: once presented, it is never accepted again. */
  lemma TokenUsedOnce(maxActive: nat, states: seq<Access>, events: seq<Event>, i: nat, j: nat, token: string)
    requires Run(maxActive, states, events) && i < j < |states|
    requires events[i].ConsumeCall? && events[i].token == token != "" && token in states[i].minted
    ensures !Authenticates(states[j], token)
  {
    hide Inv, Step;
    AccessSafe(maxActive, states, events, i);
    StepKeepsInv(states[i], maxActive, events[i], states[i + 1]);
    SpentForever(maxActive, states, events, i + 1, j, token);
  }

  // ---------------------------------------------------------------------------
  // The manager object
  // ---------------------------------------------------------------------------

  class MonitorAccessManager {
    const maxActive: nat
    const maxHistory: nat
    var states: map<nat, Grant>
    var tokenIndex: map<string, nat>
    ghost var minted: set<string>
    var nextGrant: nat
    var nextConnection: nat

    ghost function Model(): Access
      reads this
    {
      Access(states, tokenIndex, minted, nextGrant, nextConnection)
    }

    ghost predicate Valid()
      reads this
    {
      maxHistory == MaxHistory(maxActive) && Inv(Model(), maxActive)
    }

    constructor (maxActive: nat)
      requires maxActive >= 1
      ensures Valid() && Model() == EMPTY && this.maxActive == maxActive
      ensures maxHistory == if maxActive <= 8 then 64 else 8 * maxActive
    {
      this.maxActive := maxActive;
      maxHistory := MaxHistory(maxActive);
      states, tokenIndex, minted, nextGrant, nextConnection := map[], map[], {}, 0, 0;
      new;
      EmptyInv(maxActive);
    }

    /** Forgets the tokens that stand for a grant. */
    method DropTokens(g: nat)
      modifies this`tokenIndex
      ensures tokenIndex == WithoutGrants(old(tokenIndex), {g})
    {
      var rest := tokenIndex.Keys;
      while rest != {}
        invariant rest <= old(tokenIndex).Keys
        invariant forall t :: t in tokenIndex <==> t in old(tokenIndex) && (t in rest || old(tokenIndex)[t] != g)
        invariant forall t :: t in tokenIndex ==> tokenIndex[t] == old(tokenIndex)[t]
        decreases |rest|
      {
        var t :| t in rest;
        rest := rest - {t};
        if tokenIndex[t] == g {
          tokenIndex := tokenIndex - {t};
        }
      }
    }

    method ExpireGrants(now: int)
      modifies this`states, this`tokenIndex
      ensures states == ExpireStates(old(states), now)
      ensures tokenIndex == WithoutGrants(old(tokenIndex), OverdueGrants(old(states), now))
    {
      hide WithoutGrants, Marked, Overdues, Overdue;
      var rest := states.Keys;
      SameTokens(tokenIndex);
      NoneLookedAt(states, now);
      ghost var done: set<nat> := {};
      while rest != {}
        invariant rest <= old(states).Keys == states.Keys && done == Overdues(old(states), now, rest)
        invariant states == Marked(old(states), done)
        invariant tokenIndex == WithoutGrants(old(tokenIndex), done)
        decreases |rest|
      {
        var g :| g in rest;
        LookedAt(old(states), now, rest, g);
        rest := rest - {g};
        if Overdue(states[g], now) {
          states := states[g := states[g].(status := Expired)];
          DropTokens(g);
          DropOneMore(old(tokenIndex), done, g);
          done := done + {g};
        }
      }
      AllLookedAt(old(states), now);
    }

    /** The oldest terminal grant. */
    method FindOldest() returns (oldest: Option<nat>)
      ensures oldest.None? ==> forall g :: g in states ==> IsActive(states[g])
      ensures oldest.Some? ==> IsOldest(states, oldest.value)
    {
      oldest := None;
      var rest := states.Keys;
      while rest != {}
        invariant rest <= states.Keys
        invariant oldest.None? ==> forall g :: g in states && g !in rest ==> IsActive(states[g])
        invariant oldest.Some? ==> oldest.value in states && IsTerminal(states[oldest.value])
        invariant oldest.Some? ==> forall g :: g in states && g !in rest && IsTerminal(states[g]) ==> Older(states, oldest.value, g)
        decreases |rest|
      {
        var g :| g in rest;
        rest := rest - {g};
        if IsTerminal(states[g]) && (oldest.None? || Older(states, g, oldest.value)) {
          oldest := Some(g);
        }
      }
    }

    method PruneHistory()
      modifies this`states
      ensures PrunedTo(old(states), maxHistory, states)
    {
      ghost var removed: seq<nat> := [];
      ghost var before := [states];
      while |states| > maxHistory
        invariant Chain(before, removed) && before[0] == old(states) && before[|before| - 1] == states
        invariant forall i :: 0 <= i < |removed| ==> |before[i]| > maxHistory && IsOldest(before[i], removed[i])
        decreases |states|
      {
        var oldest := FindOldest();
        if oldest.None? {
          break;
        }
        removed := removed + [oldest.value];
        states := states - {oldest.value};
        before := before + [states];
      }
      ChainPruned(before, removed, maxHistory, 0);
    }

    method Refresh(now: int)
      requires Valid()
      modifies this`states, this`tokenIndex
      ensures Valid() && Refreshed(old(Model()), now, maxHistory, Model()) && |states| <= maxHistory
    {
      ExpireGrants(now);
      PruneHistory();
      RefreshKeepsInv(old(Model()), now, maxActive, Model());
    }

    method IssueGrant(r: Request, token: string, now: int) returns (answer: Result<nat, AccessError>)
      requires Valid() && token !in minted
      modifies this
      ensures Valid()
      ensures answer.Err? ==> answer.error == InvalidRequest || answer.error == LimitReached
      ensures answer == Err(InvalidRequest) <==>
        || r.binding.session == "" || r.binding.profile == "" || r.binding.generation == "" || r.permissions == []
        || (Takeover in r.permissions && Frames !in r.permissions) || r.ttl < 30 || r.ttl > 3600
      ensures answer == Err(LimitReached) <==> ValidRequest(r) && |LiveGrants(old(states), now)| >= maxActive
      ensures answer == Err(InvalidRequest) ==> Model() == old(Model())
      ensures ValidRequest(r) ==> Step(old(Model()), maxActive, IssueCall(r, token, now), Model())
      ensures answer.Ok? ==> Authenticates(Model(), token) && tokenIndex[token] == answer.value && states[answer.value] == NewGrant(r, now)
    {
      hide Inv, Refreshed, Dedupe;
      if !ValidRequest(r) {
        return Err(InvalidRequest);
      }
      Refresh(now);
      ghost var refreshed := Model();
      RefreshedExactly(old(Model()), now, maxHistory, refreshed);
      assert CallStep(refreshed, maxActive, IssueCall(r, token, now),
                      if CanIssue(refreshed, maxActive) then Issue(refreshed, r, token, now) else refreshed);
      var active := set g | g in states && IsActive(states[g]);
      assert active == ActiveGrants(states);
      if |active| >= maxActive {
        return Err(LimitReached);
      }
      IssueKeepsInv(refreshed, r, token, now, maxActive);
      var id := nextGrant;
      states := states[id := Grant(r.binding, Dedupe(r.permissions), now, now + r.ttl, Issued, None)];
      tokenIndex := tokenIndex[token := id];
      minted := minted + {token};
      nextGrant := nextGrant + 1;
      answer := Ok(id);
    }

    method ConsumeToken(token: string, now: int) returns (answer: Result<nat, AccessError>)
      requires Valid()
      modifies this`states, this`tokenIndex, this`nextConnection
      ensures Valid()
      ensures token == "" ==> answer == Err(TokenMissing) && Model() == old(Model())
      ensures token != "" ==> Step(old(Model()), maxActive, ConsumeCall(token, now), Model())
      ensures token != "" ==> (answer.Ok? || answer == Err(TokenInvalid)) && token !in tokenIndex
      ensures answer.Ok? ==> token in old(tokenIndex) && Serves(Model(), old(tokenIndex)[token], answer.value)
      ensures token in old(tokenIndex) && token != "" && old(states)[old(tokenIndex)[token]].expires > now ==> answer.Ok?
    {
      hide Inv;
      if token == "" {
        return Err(TokenMissing);
      }
      TokensIssued(Model(), maxActive);
      Refresh(now);
      ghost var refreshed := Model();
      assert CallStep(refreshed, maxActive, ConsumeCall(token, now), Consume(refreshed, token));
      ConsumeKeepsInv(refreshed, token, maxActive);
      if token !in tokenIndex {
        return Err(TokenInvalid);
      }
      IndexedTokensAuthenticate(refreshed, token, maxActive);
      var g := tokenIndex[token];
      tokenIndex := tokenIndex - {token};
      var connection := nextConnection;
      nextConnection := nextConnection + 1;
      states := states[g := states[g].(status := Consumed, connection := Some(connection))];
      answer := Ok(connection);
    }

    method ReleaseConnection(connection: nat, now: int) returns (closed: Option<nat>)
      requires Valid()
      modifies this`states, this`tokenIndex
      ensures Valid() && Step(old(Model()), maxActive, ReleaseCall(connection, now), Model())
      ensures closed.Some? <==> exists g :: Serves(old(Model()), g, connection) && now < old(states)[g].expires
      ensures closed.Some? ==> Serves(old(Model()), closed.value, connection) && now < old(states)[closed.value].expires
    {
      hide Inv, PrunedTo, MaxHistory;
      Refresh(now);
      ghost var refreshed := Model();
      ServingExactly(old(Model()), now, maxHistory, refreshed, connection);
      closed := None;
      var rest := states.Keys;
      while rest != {} && closed.None?
        invariant rest <= states.Keys
        invariant closed.Some? ==> Serves(refreshed, closed.value, connection)
        invariant closed.None? ==> forall g :: g in states && g !in rest ==> !Serves(refreshed, g, connection)
        decreases |rest|
      {
        var g :| g in rest;
        rest := rest - {g};
        if states[g].connection == Some(connection) && states[g].status == Consumed {
          closed := Some(g);
        }
      }
      if closed.None? {
        assert CallStep(refreshed, maxActive, ReleaseCall(connection, now), Model());
        return;
      }
      CloseKeepsInv(refreshed, closed.value, connection, maxActive);
      states := states[closed.value := states[closed.value].(status := Closed)];
      PruneHistory();
      PruneKeepsInv(CloseGrant(refreshed, closed.value), maxActive, states);
      assert Serves(refreshed, closed.value, connection) && ClosedStep(refreshed, maxActive, closed.value, Model());
      assert CallStep(refreshed, maxActive, ReleaseCall(connection, now), Model());
    }

    method RevokeGrant(g: nat, now: int) returns (answer: Result<Grant, AccessError>)
      requires Valid()
      modifies this`states, this`tokenIndex
      ensures Valid() && Step(old(Model()), maxActive, RevokeCall(g, now), Model())
      ensures answer.Err? ==> answer.error == GrantNotFound && g !in states
      ensures answer.Ok? ==> g in states && answer.value == states[g] && states[g].status == Revoked && g !in tokenIndex.Values
      ensures g in LiveGrants(old(states), now) ==> answer == Ok(old(states)[g].(status := Revoked))
    {
      hide Inv;
      Refresh(now);
      ghost var refreshed := Model();
      RefreshedExactly(old(Model()), now, maxHistory, refreshed);
      assert CallStep(refreshed, maxActive, RevokeCall(g, now), if g in refreshed.states then Revoke(refreshed, g) else refreshed);
      if g !in states {
        return Err(GrantNotFound);
      }
      RevokeKeepsInv(refreshed, g, maxActive);
      states := states[g := states[g].(status := Revoked)];
      DropTokens(g);
      answer := Ok(states[g]);
    }
  }

  /** A refresh leaves the grants in use by a connection that have time left, and no other. */
  lemma ServingExactly(a: Access, now: int, limit: nat, r: Access, connection: nat)
    requires Refreshed(a, now, limit, r)
    ensures forall g :: Serves(r, g, connection) <==> Serves(a, g, connection) && now < a.states[g].expires
  {
    RefreshedExactly(a, now, limit, r);
    forall g ensures Serves(r, g, connection) <==> Serves(a, g, connection) && now < a.states[g].expires {
      assert Serves(r, g, connection) ==> g in ActiveGrants(r.states);
      assert Serves(a, g, connection) && now < a.states[g].expires ==> g in LiveGrants(a.states, now);
    }
  }

  lemma SameTokens(index: map<string, nat>)
    ensures WithoutGrants(index, {}) == index
  {
  }

  lemma DropOneMore(index: map<string, nat>, done: set<nat>, g: nat)
    ensures WithoutGrants(WithoutGrants(index, done), {g}) == WithoutGrants(index, done + {g})
  {
  }

  /** The overdue grants already looked at. */
  ghost function Overdues(states: map<nat, Grant>, now: int, rest: set<nat>): set<nat> {
    set g | g in states && g !in rest && Overdue(states[g], now)
  }

  /** The grants in `done` expired. */
  ghost function Marked(states: map<nat, Grant>, done: set<nat>): (r: map<nat, Grant>)
    ensures r.Keys == states.Keys
  {
    map g | g in states :: if g in done then states[g].(status := Expired) else states[g]
  }

  lemma NoneLookedAt(states: map<nat, Grant>, now: int)
    ensures Overdues(states, now, states.Keys) == {} && Marked(states, {}) == states
  {
  }

  lemma LookedAt(states: map<nat, Grant>, now: int, rest: set<nat>, g: nat)
    requires g in rest && g in states
    ensures var done := Overdues(states, now, rest);
      && Marked(states, done)[g] == states[g]
      && Overdues(states, now, rest - {g}) == (if Overdue(states[g], now) then done + {g} else done)
      && Marked(states, done + {g}) == Marked(states, done)[g := states[g].(status := Expired)]
  {
    hide Overdue;
  }

  lemma AllLookedAt(states: map<nat, Grant>, now: int)
    ensures Overdues(states, now, {}) == OverdueGrants(states, now)
    ensures Marked(states, OverdueGrants(states, now)) == ExpireStates(states, now)
  {
    hide Overdue;
  }

  ghost predicate Chain(before: seq<map<nat, Grant>>, removed: seq<nat>) {
    |before| == |removed| + 1 && forall i :: 0 <= i < |removed| ==> before[i + 1] == before[i] - {removed[i]}
  }

  lemma {:induction false} ChainPruned(before: seq<map<nat, Grant>>, removed: seq<nat>, limit: nat, k: nat)
    requires Chain(before, removed) && k < |before|
    requires forall i :: 0 <= i < |removed| ==> |before[i]| > limit && IsOldest(before[i], removed[i])
    requires var last := before[|before| - 1]; |last| <= limit || forall g :: g in last ==> IsActive(last[g])
    ensures PrunedTo(before[k], limit, before[|before| - 1])
    decreases |before| - k
  {
    if k < |removed| {
      ChainPruned(before, removed, limit, k + 1);
      assert IsOldest(before[k], removed[k]) && PrunedTo(before[k] - {removed[k]}, limit, before[|before| - 1]);
    }
  }

  lemma TokensIssued(a: Access, maxActive: nat)
    requires Inv(a, maxActive)
    ensures forall t :: t in a.index ==> a.index[t] in a.states && a.states[a.index[t]].status == Issued
  {
  }
}

/** When a monitor token is accepted, over whole runs: exactly if it was handed out, its grant has time
    left, it was not presented before and its grant was not revoked. */
module MonitorTokens {
  import opened Prelude
  import opened MonitorGateway

  /** The token stands for this grant, as it was issued. */
  predicate StandsFor(a: Access, token: string, g: nat, grant: Grant) {
    token in a.index && a.index[token] == g && g in a.states && a.states[g] == grant && grant.status == Issued
  }

  /** The call takes the token away: by presenting it, by revoking its grant, or by coming too late. */
  predicate TakesAway(e: Event, token: string, g: nat, grant: Grant) {
    || (e.ConsumeCall? && e.token == token)
    || (e.RevokeCall? && e.grant == g)
    || grant.expires <= e.at
  }

  lemma RefreshedToken(a: Access, maxActive: nat, now: int, r: Access, token: string, g: nat, grant: Grant)
    requires Inv(a, maxActive) && Refreshed(a, now, MaxHistory(maxActive), r) && StandsFor(a, token, g, grant)
    ensures if now < grant.expires then StandsFor(r, token, g, grant) else token !in r.index
  {
    hide Inv, MaxHistory, PrunedTo;
    RefreshedExactly(a, now, MaxHistory(maxActive), r);
    assert now < grant.expires ==> g in LiveGrants(a.states, now);
    assert grant.expires <= now <==> g in OverdueGrants(a.states, now);
  }

  /** Two tokens never stand for one grant, and a grant still to be issued has none. */
  lemma TokensApart(a: Access, maxActive: nat, token: string, g: nat, grant: Grant)
    requires Inv(a, maxActive) && StandsFor(a, token, g, grant)
    ensures forall t :: t in a.index && t != token ==> a.index[t] != g
    ensures g < a.nextGrant && token in a.minted
  {
    hide MaxHistory, ConnectionsExact, ActiveGrants;
    assert Injective(a.index);
  }

  /** A release closes a grant in use, so another one. */
  lemma ReleasedToken(r: Access, maxActive: nat, connection: nat, a': Access, token: string, g: nat, grant: Grant)
    requires ReleaseStep(r, maxActive, connection, a') && StandsFor(r, token, g, grant)
    ensures StandsFor(a', token, g, grant)
  {
    hide MaxHistory, PrunedTo;
    if h :| Serves(r, h, connection) && ClosedStep(r, maxActive, h, a') {
      PruneFacts(CloseGrant(r, h).states, MaxHistory(maxActive), a'.states);
      assert h != g && IsActive(CloseGrant(r, h).states[g]);
    }
  }

  /** What a call does to a token that had time left when it began. */
  lemma CalledToken(r: Access, maxActive: nat, e: Event, a': Access, token: string, g: nat, grant: Grant)
    requires Inv(r, maxActive) && CallStep(r, maxActive, e, a') && StandsFor(r, token, g, grant) && token != ""
    requires e.at < grant.expires
    ensures if TakesAway(e, token, g, grant) then token !in a'.index else StandsFor(a', token, g, grant)
  {
    hide Inv, NewGrant, ReleaseStep, CanIssue, ValidRequest;
    TokensApart(r, maxActive, token, g, grant);
    if e.ReleaseCall? {
      ReleasedToken(r, maxActive, e.connection, a', token, g, grant);
    }
  }

  lemma TokenStep(a: Access, maxActive: nat, e: Event, a': Access, token: string, g: nat, grant: Grant)
    requires Inv(a, maxActive) && Step(a, maxActive, e, a') && StandsFor(a, token, g, grant) && token != "" && token in a.minted
    ensures if TakesAway(e, token, g, grant) then Spent(a', token) else StandsFor(a', token, g, grant)
  {
    hide Inv, MaxHistory, CallStep, Refreshed;
    var r :| Refreshed(a, e.at, MaxHistory(maxActive), r) && CallStep(r, maxActive, e, a');
    RefreshKeepsInv(a, e.at, maxActive, r);
    RefreshedToken(a, maxActive, e.at, r, token, g, grant);
    CallKeepsInv(r, maxActive, e, a');
    MintedKept(a, e.at, maxActive, r, e, a');
    if e.at < grant.expires {
      CalledToken(r, maxActive, e, a', token, g, grant);
    }
  }

  lemma MintedKept(a: Access, now: int, maxActive: nat, r: Access, e: Event, a': Access)
    requires Refreshed(a, now, MaxHistory(maxActive), r) && CallStep(r, maxActive, e, a')
    ensures r.minted == a.minted && a.minted <= a'.minted
  {
    hide MaxHistory, PrunedTo, Dedupe;
  }

  /** Event i issued the token. */
  ghost predicate IssuedBy(states: seq<Access>, events: seq<Event>, i: nat, token: string)
    requires i < |events| < |states|
  {
    events[i].IssueCall? && events[i].token == token != "" && token !in states[i].minted && token in states[i + 1].minted
  }

  lemma IssuedStands(a: Access, maxActive: nat, e: Event, a': Access)
    requires Inv(a, maxActive) && Step(a, maxActive, e, a') && e.IssueCall? && e.token !in a.minted && e.token in a'.minted
    ensures exists g: nat :: StandsFor(a', e.token, g, NewGrant(e.request, e.at)) && a'.nextGrant == g + 1
  {
    hide Inv, MaxHistory, PrunedTo, Dedupe;
    var r :| Refreshed(a, e.at, MaxHistory(maxActive), r) && CallStep(r, maxActive, e, a');
    MintedKept(a, e.at, maxActive, r, e, a');
    assert StandsFor(a', e.token, r.nextGrant, NewGrant(e.request, e.at));
  }

  /** The grant an issuing event made. */
  predicate GrantOf(states: seq<Access>, events: seq<Event>, i: nat, g: nat)
    requires i < |events| < |states| && events[i].IssueCall?
  {
    StandsFor(states[i + 1], events[i].token, g, NewGrant(events[i].request, events[i].at))
  }

  /** Nothing between the issuing event and event j took the token away. */
  ghost predicate Untaken(events: seq<Event>, i: nat, j: nat, g: nat)
    requires i < j <= |events| && events[i].IssueCall?
  {
    forall k :: i < k < j ==> !TakesAway(events[k], events[i].token, g, NewGrant(events[i].request, events[i].at))
  }

  /** A token stands for its grant as long as nothing took it away, and is spent from then on. */
  lemma {:induction false} TokenLasts(maxActive: nat, states: seq<Access>, events: seq<Event>, i: nat, j: nat, g: nat)
    requires Run(maxActive, states, events) && i < j <= |events|
    requires events[i].IssueCall? && IssuedBy(states, events, i, events[i].token) && GrantOf(states, events, i, g)
    ensures if Untaken(events, i, j, g) then StandsFor(states[j], events[i].token, g, NewGrant(events[i].request, events[i].at))
            else Spent(states[j], events[i].token)
    ensures events[i].token in states[j].minted
  {
    hide Inv, Step, StandsFor, TakesAway, NewGrant;
    if j > i + 1 {
      var token, grant := events[i].token, NewGrant(events[i].request, events[i].at);
      TokenLasts(maxActive, states, events, i, j - 1, g);
      AccessSafe(maxActive, states, events, j - 1);
      StepKeepsInv(states[j - 1], maxActive, events[j - 1], states[j]);
      if Untaken(events, i, j - 1, g) {
        TokenStep(states[j - 1], maxActive, events[j - 1], states[j], token, g, grant);
        StandsMinted(states[j], maxActive, events[j - 1], states[j - 1], token);
      }
    }
  }

  lemma StandsMinted(a': Access, maxActive: nat, e: Event, a: Access, token: string)
    requires Step(a, maxActive, e, a') && token in a.minted
    ensures token in a'.minted
  {
    hide Inv, MaxHistory, CallStep, Refreshed;
    var r :| Refreshed(a, e.at, MaxHistory(maxActive), r) && CallStep(r, maxActive, e, a');
    MintedKept(a, e.at, maxActive, r, e, a');
  }

  /** The consume call was accepted: a grant is now in use by a new connection. */
  predicate Accepted(a: Access, a': Access) {
    a'.nextConnection == a.nextConnection + 1
  }

  lemma AcceptedExactly(a: Access, maxActive: nat, e: Event, a': Access)
    requires Inv(a, maxActive) && Step(a, maxActive, e, a') && e.ConsumeCall? && e.token != ""
    ensures Accepted(a, a') <==> e.token in a.index && e.at < a.states[a.index[e.token]].expires
  {
    hide MaxHistory, PrunedTo, ConnectionsExact, ActiveGrants;
    var r :| Refreshed(a, e.at, MaxHistory(maxActive), r) && CallStep(r, maxActive, e, a');
    RefreshKeepsInv(a, e.at, maxActive, r);
    if e.token in a.index {
      TokensIssued(a, maxActive);
      RefreshedToken(a, maxActive, e.at, r, e.token, a.index[e.token], a.states[a.index[e.token]]);
    }
  }

  /** In every run a token presented at event j is accepted exactly if, since it was issued, it was not
      presented, its grant was not revoked, no call came after its time, and this one does not either. */
  lemma TokenAcceptedExactly(maxActive: nat, states: seq<Access>, events: seq<Event>, i: nat, j: nat, g: nat)
    requires Run(maxActive, states, events) && i < j < |events|
    requires events[i].IssueCall? && IssuedBy(states, events, i, events[i].token) && GrantOf(states, events, i, g)
    requires events[j].ConsumeCall? && events[j].token == events[i].token
    ensures Accepted(states[j], states[j + 1]) <==>
      && (forall k :: i < k < j ==>
            && !(events[k].ConsumeCall? && events[k].token == events[i].token)
            && !(events[k].RevokeCall? && events[k].grant == g)
            && events[k].at < events[i].at + events[i].request.ttl)
      && events[j].at < events[i].at + events[i].request.ttl
  {
    hide Inv, Step, Accepted, Dedupe;
    TokenLasts(maxActive, states, events, i, j, g);
    AccessSafe(maxActive, states, events, j);
    AcceptedExactly(states[j], maxActive, events[j], states[j + 1]);
  }
}

/** Safety contexts: a declaration becomes a context with obligations, a deadline and a number of
    uses; evidence can add obligations but never take any away. */
module SafetyContext {
  import opened Prelude
  import opened Assurances
  import opened SafetyTemplates

  datatype Status = AssertionRequired | Ready | StepUpRequired | TakeoverRequired | Blocked | Consumed | Expired

  /** The browser session a manager belongs to. */
  datatype Home = Home(profile: Option<string>, session: string, generation: string)

  /** Who calls, and from which page; `site` is the normalised form of the page's origin. */
  datatype Caller = Caller(agent: string, profile: string, connection: string, origin: string, site: string)

  /** `origins` are normalised; the empty text stands for a value that is no origin. */
  datatype Declaration = Declaration(
    principal: Principal,
    dims: seq<Dimension>,
    granted: bool,
    origins: seq<string>,
    expiresAt: Option<int>,
    expiresIn: nat,
    maxUses: nat)

  datatype Context = Context(
    declaration: Declaration,
    contract: Contract,
    connection: string,
    session: string,
    generation: string,
    expires: int,
    remaining: nat,
    scope: seq<string>,
    assertions: map<Obligation, bool>,
    status: Status,
    observed: seq<Kind>,
    assurance: Assurance,
    evidence: seq<Item>,
    mismatches: seq<Mismatch>)

  /** An evidence item, by its code, and the dimension it speaks for. */
  datatype Item = Item(code: string, dimension: Option<Kind>)

  datatype Severity = AuditOnly | NeedsStepUp | NeedsAssertion

  /** A dimension observed but not declared, with the codes of the report that first showed it. */
  datatype Mismatch = Mismatch(observed: Kind, severity: Severity, codes: seq<string>)

  /** An assertion set; `attestation` carries the host attestation's optional deadline. */
  datatype AssertionSet = AssertionSet(assertions: map<Obligation, bool>, attestation: Option<Option<int>>)

  datatype Report = Report(observed: seq<Kind>, assurance: Assurance, items: seq<Item>)

  datatype Verdict = NotFound | WrongAgent | WrongProfile | WrongBinding | InvalidOrigin | Reported(status: Status)

  // ---------------------------------------------------------------------------
  // Shared checks
  // ---------------------------------------------------------------------------

  /** The obligations not yet asserted as True, in order. */
  function Pending(required: seq<Obligation>, assertions: map<Obligation, bool>): (r: seq<Obligation>)
    ensures forall o :: o in r <==> o in required && Get(assertions, o) != Some(true)
  {
    if required == [] then []
    else
      var n := |required| - 1;
      assert required == required[..n] + [required[n]];
      Pending(required[..n], assertions) + if Get(assertions, required[n]) == Some(true) then [] else [required[n]]
  }

  function Refresh(c: Context, now: int): Context {
    if c.status == Consumed || c.status == Expired then c
    else if now >= c.expires then c.(status := Expired)
    else if c.remaining == 0 then c.(status := Consumed)
    else c
  }

  predicate BoundTo(c: Context, home: Home, caller: Caller) {
    && c.declaration.principal.agent == caller.agent && c.declaration.principal.profile == caller.profile
    && (home.profile.Some? ==> caller.profile == home.profile.value)
    && c.connection == caller.connection && c.session == home.session && c.generation == home.generation
  }

  predicate InScope(c: Context, caller: Caller) {
    c.scope == [] || caller.origin in c.scope
  }

  /** The refreshed context, and a verdict if the call goes no further. A call from outside the
      origin scope turns whatever status there was into step_up_required. */
  function Guarded(c: Context, home: Home, caller: Caller, checkOrigin: bool, now: int): (Context, Option<Verdict>) {
    var fresh' := Refresh(c, now);
    if !BoundTo(fresh', home, caller) then (fresh', Some(WrongBinding))
    else if checkOrigin && !InScope(fresh', caller) then (fresh'.(status := StepUpRequired), Some(Reported(StepUpRequired)))
    else (fresh', None)
  }

  /** Ready once nothing is pending. */
  function Settled(c: Context): Context {
    c.(status := if Pending(c.contract.required, c.assertions) == [] then Ready else AssertionRequired)
  }

  // ---------------------------------------------------------------------------
  // Operations
  // ---------------------------------------------------------------------------

  function Scope(d: Declaration, caller: Caller): seq<string> {
    Dedupe(Present(if d.origins != [] then d.origins else if caller.origin != "" then [caller.site] else []))
  }

  function Present(values: seq<string>): seq<string> {
    if values == [] then []
    else Present(values[..|values| - 1]) + if values[|values| - 1] == "" then [] else [values[|values| - 1]]
  }

  function DeclarationError(d: Declaration, home: Home, caller: Caller): Option<Verdict> {
    if d.principal.agent != caller.agent then Some(WrongAgent)
    else if d.principal.profile != caller.profile || (home.profile.Some? && caller.profile != home.profile.value) then Some(WrongProfile)
    else None
  }

  function Declared(d: Declaration, home: Home, caller: Caller, now: int): Context {
    var contract := Compiled(d.principal, d.dims);
    Refresh(
      Context(d, contract, caller.connection, home.session, home.generation,
              if d.expiresAt.Some? then d.expiresAt.value else now + d.expiresIn,
              d.maxUses, Scope(d, caller), map[],
              if !d.granted then Blocked else if contract.required == [] then Ready else AssertionRequired,
              [], AgentAsserted, [], []),
      now)
  }

  predicate Terminal(s: Status) {
    s == Expired || s == Consumed || s == Blocked || s == StepUpRequired || s == TakeoverRequired
  }

  predicate AttestationMissing(c: Context, a: AssertionSet, now: int) {
    && c.declaration.principal.trust == HostAttested
    && (a.attestation.None? || (a.attestation.value.Some? && a.attestation.value.value <= now))
  }

  function Asserted(c: Context, home: Home, caller: Caller, a: AssertionSet, now: int): (Context, Verdict) {
    var (g, stop) := Guarded(c, home, caller, true, now);
    if stop.Some? then (g, stop.value)
    else if Terminal(g.status) then (g, Reported(g.status))
    else if AttestationMissing(g, a, now) then (g.(status := AssertionRequired), Reported(AssertionRequired))
    else
      var s := Settled(g.(assertions := g.assertions + a.assertions));
      (s, Reported(s.status))
  }

  /** Whether an evidence report is taken in at all. */
  predicate AcceptsEvidence(c: Context, home: Home, caller: Caller, now: int) {
    var (g, stop) := Guarded(c, home, caller, true, now);
    stop.None? && !Terminal(g.status)
  }

  predicate HasCode(items: seq<Item>, code: string) {
    exists i :: 0 <= i < |items| && items[i].code == code
  }

  /** The items with those of a report whose codes are new. */
  function AddItems(held: seq<Item>, items: seq<Item>): seq<Item> {
    if items == [] then held
    else
      var front, last := AddItems(held, items[..|items| - 1]), items[|items| - 1];
      if HasCode(front, last.code) then front else front + [last]
  }

  function CodesFor(items: seq<Item>, k: Kind): seq<string> {
    if items == [] then []
    else CodesFor(items[..|items| - 1], k) + if items[|items| - 1].dimension == Some(k) then [items[|items| - 1].code] else []
  }

  function SeverityOf(p: Principal, k: Kind): Severity {
    if k == UnknownExternalEffect && TrustedAgentAccount(p) then AuditOnly
    else if k == UnknownExternalEffect && p.owner == UserOwned then NeedsStepUp
    else NeedsAssertion
  }

  predicate HasMismatch(mismatches: seq<Mismatch>, k: Kind) {
    exists i :: 0 <= i < |mismatches| && mismatches[i].observed == k
  }

  predicate IsDeclared(d: Declaration, k: Kind) {
    exists i :: 0 <= i < |d.dims| && d.dims[i].kind == k
  }

  /** The mismatches with those for the undeclared dimensions seen for the first time. */
  function AddMismatches(d: Declaration, held: seq<Mismatch>, observed: seq<Kind>, items: seq<Item>): seq<Mismatch> {
    if observed == [] then held
    else
      var front, k := AddMismatches(d, held, observed[..|observed| - 1], items), observed[|observed| - 1];
      if IsDeclared(d, k) || HasMismatch(front, k) then front
      else front + [Mismatch(k, SeverityOf(d.principal, k), CodesFor(items, k))]
  }

  /** What an accepted report changes, before the status is settled. */
  function Taken(g: Context, r: Report): Context {
    var observed := Dedupe(g.observed + r.observed);
    g.(observed := observed, assurance := MaxAssurance(g.assurance, r.assurance),
       contract := Extend(g.declaration.principal, observed, g.contract),
       evidence := AddItems(g.evidence, r.items),
       mismatches := AddMismatches(g.declaration, g.mismatches, r.observed, r.items))
  }

  function Evidenced(c: Context, home: Home, caller: Caller, r: Report, now: int): (Context, Verdict) {
    var (g, stop) := Guarded(c, home, caller, true, now);
    if stop.Some? then (g, stop.value)
    else if Terminal(g.status) then (g, Reported(g.status))
    else
      var s := Settled(Taken(g, r));
      (s, Reported(s.status))
  }

  /** `site` is the normalised origin to add. */
  function ScopeExtended(c: Context, home: Home, caller: Caller, site: string, now: int): (Context, Verdict) {
    var (g, stop) := Guarded(c, home, caller, false, now);
    if stop.Some? then (g, stop.value)
    else if Terminal(g.status) && g.status != StepUpRequired then (g, Reported(g.status))
    else if site == "" then (g, InvalidOrigin)
    else
      var s := Settled(if site in g.scope then g else g.(scope := g.scope + [site]));
      (s, Reported(s.status))
  }

  /** Whether a use is granted. */
  predicate Grants(c: Context, home: Home, caller: Caller, now: int) {
    var (g, stop) := Guarded(c, home, caller, true, now);
    stop.None? && g.status == Ready
  }

  function Used(c: Context, home: Home, caller: Caller, now: int): (Context, Verdict) {
    var (g, stop) := Guarded(c, home, caller, true, now);
    if stop.Some? then (g, stop.value)
    else if g.status != Ready then (g, Reported(g.status))
    else
      var remaining := if g.remaining > 0 then g.remaining - 1 else 0;
      var s := g.(remaining := remaining, status := if remaining == 0 then Consumed else Ready);
      (s, Reported(s.status))
  }

  function Looked(c: Context, home: Home, caller: Caller, now: int): (Context, Verdict) {
    var (g, stop) := Guarded(c, home, caller, true, now);
    (g, if stop.Some? then stop.value else Reported(g.status))
  }

  // ---------------------------------------------------------------------------
  // The manager
  // ---------------------------------------------------------------------------

  /** Agent, connection and profile; session and generation are the manager's own. */
  type PrincipalKey = (string, string, string)

  class SafetyContextManager {
    const home: Home
    var contexts: map<nat, Context>
    var activeByPrincipal: map<PrincipalKey, nat>
    var issued: nat

    ghost predicate Valid()
      reads this
    {
      forall id :: id in contexts ==> id < issued
    }

    constructor (home: Home)
      ensures Valid() && this.home == home && contexts == map[] && activeByPrincipal == map[]
    {
      this.home := home;
      contexts, activeByPrincipal, issued := map[], map[], 0;
    }

    method Declare(d: Declaration, caller: Caller, now: int) returns (answer: Result<nat, Verdict>)
      requires Valid()
      modifies this
      ensures Valid()
      ensures answer.Ok? <==>
        && d.principal.agent == caller.agent && d.principal.profile == caller.profile
        && (home.profile == None || home.profile == Some(caller.profile))
      ensures answer.Err? ==> answer.error == if d.principal.agent != caller.agent then WrongAgent else WrongProfile
      ensures var error := DeclarationError(d, home, caller);
        if error.Some? then answer == Err(error.value) && contexts == old(contexts) && activeByPrincipal == old(activeByPrincipal)
        else
          && answer.Ok? && answer.value !in old(contexts)
          && contexts == old(contexts)[answer.value := Declared(d, home, caller, now)]
          && activeByPrincipal == old(activeByPrincipal)[(caller.agent, caller.connection, caller.profile) := answer.value]
    {
      hide Compiled, Scope;
      var error := DeclarationError(d, home, caller);
      if error.Some? {
        return Err(error.value);
      }
      var contract := Compile(d.principal, d.dims);
      var status := if contract.required == [] then Ready else AssertionRequired;
      if !d.granted {
        status := Blocked;
      }
      var expires := if d.expiresAt.Some? then d.expiresAt.value else now + d.expiresIn;
      var c := Context(d, contract, caller.connection, home.session, home.generation, expires, d.maxUses, Scope(d, caller),
                       map[], status, [], AgentAsserted, [], []);
      var id := issued;
      issued := issued + 1;
      contexts := contexts[id := Refresh(c, now)];
      activeByPrincipal := activeByPrincipal[(caller.agent, caller.connection, caller.profile) := id];
      answer := Ok(id);
    }

    /** The lifecycle and binding checks every operation starts with. */
    method Check(id: nat, caller: Caller, checkOrigin: bool, now: int) returns (stop: Option<Verdict>)
      requires Valid() && id in contexts
      modifies this`contexts
      ensures Valid() && contexts == old(contexts)[id := Guarded(old(contexts)[id], home, caller, checkOrigin, now).0]
      ensures stop == Guarded(old(contexts)[id], home, caller, checkOrigin, now).1
    {
      var c := contexts[id];
      if c.status != Consumed && c.status != Expired {
        if now >= c.expires {
          c := c.(status := Expired);
        } else if c.remaining == 0 {
          c := c.(status := Consumed);
        }
      }
      stop := None;
      if !BoundTo(c, home, caller) {
        stop := Some(WrongBinding);
      } else if checkOrigin && c.scope != [] && caller.origin !in c.scope {
        c := c.(status := StepUpRequired);
        stop := Some(Reported(StepUpRequired));
      }
      contexts := contexts[id := c];
    }

    method Assert(id: nat, a: AssertionSet, caller: Caller, now: int) returns (verdict: Verdict)
      requires Valid()
      modifies this`contexts
      ensures Valid()
      ensures id !in old(contexts) ==> verdict == NotFound && contexts == old(contexts)
      ensures id in old(contexts) ==>
        && contexts == old(contexts)[id := Asserted(old(contexts)[id], home, caller, a, now).0]
        && verdict == Asserted(old(contexts)[id], home, caller, a, now).1
    {
      hide Guarded, Settled;
      if id !in contexts {
        return NotFound;
      }
      var stop := Check(id, caller, true, now);
      if stop.Some? {
        return stop.value;
      }
      var c := contexts[id];
      if Terminal(c.status) {
        return Reported(c.status);
      }
      if AttestationMissing(c, a, now) {
        contexts := contexts[id := c.(status := AssertionRequired)];
        return Reported(AssertionRequired);
      }
      contexts := contexts[id := Settled(c.(assertions := c.assertions + a.assertions))];
      verdict := Reported(contexts[id].status);
    }

    static method MergeItems(held: seq<Item>, items: seq<Item>) returns (evidence: seq<Item>)
      ensures evidence == AddItems(held, items)
    {
      evidence := held;
      for i := 0 to |items|
        invariant evidence == AddItems(held, items[..i])
      {
        assert items[..i + 1][..i] == items[..i];
        if !HasCode(evidence, items[i].code) {
          evidence := evidence + [items[i]];
        }
      }
      assert items[..|items|] == items;
    }

    static method MergeMismatches(d: Declaration, held: seq<Mismatch>, observed: seq<Kind>, items: seq<Item>)
      returns (mismatches: seq<Mismatch>)
      ensures mismatches == AddMismatches(d, held, observed, items)
    {
      mismatches := held;
      for i := 0 to |observed|
        invariant mismatches == AddMismatches(d, held, observed[..i], items)
      {
        assert observed[..i + 1][..i] == observed[..i];
        var k := observed[i];
        if !IsDeclared(d, k) && !HasMismatch(mismatches, k) {
          mismatches := mismatches + [Mismatch(k, SeverityOf(d.principal, k), CodesFor(items, k))];
        }
      }
      assert observed[..|observed|] == observed;
    }

    method ApplyEvidence(id: nat, r: Report, caller: Caller, now: int) returns (verdict: Verdict)
      requires Valid()
      modifies this`contexts
      ensures Valid()
      ensures id !in old(contexts) ==> verdict == NotFound && contexts == old(contexts)
      ensures id in old(contexts) ==>
        && contexts == old(contexts)[id := Evidenced(old(contexts)[id], home, caller, r, now).0]
        && verdict == Evidenced(old(contexts)[id], home, caller, r, now).1
    {
      hide Guarded, Settled, Extend, Dedupe, AddItems, AddMismatches;
      if id !in contexts {
        return NotFound;
      }
      var stop := Check(id, caller, true, now);
      if stop.Some? {
        return stop.value;
      }
      var c := contexts[id];
      if Terminal(c.status) {
        return Reported(c.status);
      }
      var observed := Dedupe(c.observed + r.observed);
      var evidence := MergeItems(c.evidence, r.items);
      var mismatches := MergeMismatches(c.declaration, c.mismatches, r.observed, r.items);
      var contract := ExtendWithObserved(c.declaration.principal, observed, c.contract);
      contexts := contexts[id := Settled(c.(observed := observed, assurance := MaxAssurance(c.assurance, r.assurance),
                                            contract := contract, evidence := evidence, mismatches := mismatches))];
      verdict := Reported(contexts[id].status);
    }

    method ExtendOriginScope(id: nat, site: string, caller: Caller, now: int) returns (verdict: Verdict)
      requires Valid()
      modifies this`contexts
      ensures Valid()
      ensures id !in old(contexts) ==> verdict == NotFound && contexts == old(contexts)
      ensures id in old(contexts) ==>
        && contexts == old(contexts)[id := ScopeExtended(old(contexts)[id], home, caller, site, now).0]
        && verdict == ScopeExtended(old(contexts)[id], home, caller, site, now).1
    {
      hide Guarded, Settled;
      if id !in contexts {
        return NotFound;
      }
      var stop := Check(id, caller, false, now);
      if stop.Some? {
        return stop.value;
      }
      var c := contexts[id];
      if Terminal(c.status) && c.status != StepUpRequired {
        return Reported(c.status);
      }
      if site == "" {
        return InvalidOrigin;
      }
      if site !in c.scope {
        c := c.(scope := c.scope + [site]);
      }
      contexts := contexts[id := Settled(c)];
      verdict := Reported(contexts[id].status);
    }

    method Consume(id: nat, caller: Caller, now: int) returns (verdict: Verdict)
      requires Valid()
      modifies this`contexts
      ensures Valid()
      ensures id !in old(contexts) ==> verdict == NotFound && contexts == old(contexts)
      ensures id in old(contexts) ==>
        && contexts == old(contexts)[id := Used(old(contexts)[id], home, caller, now).0]
        && verdict == Used(old(contexts)[id], home, caller, now).1
    {
      hide Guarded;
      if id !in contexts {
        return NotFound;
      }
      var stop := Check(id, caller, true, now);
      if stop.Some? {
        return stop.value;
      }
      var c := contexts[id];
      if c.status != Ready {
        return Reported(c.status);
      }
      c := c.(remaining := if c.remaining > 0 then c.remaining - 1 else 0);
      if c.remaining == 0 {
        c := c.(status := Consumed);
      }
      contexts := contexts[id := c];
      verdict := Reported(c.status);
    }

    method EvaluateExisting(id: nat, caller: Caller, now: int) returns (verdict: Verdict)
      requires Valid()
      modifies this`contexts
      ensures Valid()
      ensures id !in old(contexts) ==> verdict == NotFound && contexts == old(contexts)
      ensures id in old(contexts) ==>
        && contexts == old(contexts)[id := Looked(old(contexts)[id], home, caller, now).0]
        && verdict == Looked(old(contexts)[id], home, caller, now).1
    {
      hide Guarded;
      if id !in contexts {
        return NotFound;
      }
      var stop := Check(id, caller, true, now);
      verdict := if stop.Some? then stop.value else Reported(contexts[id].status);
    }

    /** The state of the context the caller declared last. */
    method CurrentState(caller: Caller, now: int) returns (verdict: Verdict)
      requires Valid()
      modifies this`contexts
      ensures Valid()
      ensures var id := Get(activeByPrincipal, (caller.agent, caller.connection, caller.profile));
        if id.None? || id.value !in old(contexts) then verdict == NotFound && contexts == old(contexts)
        else
          && contexts == old(contexts)[id.value := Looked(old(contexts)[id.value], home, caller, now).0]
          && verdict == Looked(old(contexts)[id.value], home, caller, now).1
    {
      hide Looked;
      var key := (caller.agent, caller.connection, caller.profile);
      if key !in activeByPrincipal {
        return NotFound;
      }
      verdict := EvaluateExisting(activeByPrincipal[key], caller, now);
    }
  }
}

/** Financial policy evaluation over a usage log that is pruned in place, and the bound it puts
    on spending when several authorizations are in flight. Amounts are in hundredths. */
module PaymentBroker {
  import opened Prelude
  import opened Assurances
  import opened TextWords

  /** A UTC instant; `second` counts within the day. */
  datatype Instant = Instant(year: int, month: int, day: int, second: int)

  predicate NotAfter(a: Instant, b: Instant) {
    || a.year < b.year
    || (a.year == b.year && a.month < b.month)
    || (a.year == b.year && a.month == b.month && a.day < b.day)
    || (a.year == b.year && a.month == b.month && a.day == b.day && a.second <= b.second)
  }

  predicate SameMonth(a: Instant, b: Instant) {
    a.year == b.year && a.month == b.month
  }

  predicate SameDay(a: Instant, b: Instant) {
    SameMonth(a, b) && a.day == b.day
  }

  datatype Record = Record(at: Instant, amount: nat)

  datatype Policy = Policy(
    policyId: string,
    currency: string,
    autonomyLimit: nat,
    stepUpLimit: nat,
    absoluteLimit: nat,
    dailyLimit: Option<nat>,
    monthlyLimit: Option<nat>,
    subscriptionsAllowed: bool,
    transfersAllowed: bool,
    cashEquivalentsAllowed: bool,
    minimumAssurance: Assurance)

  datatype Instrument = Instrument(
    instrumentId: string,
    kind: string,
    profileId: string,
    policyId: string,
    currency: string,
    brand: string,
    lastFour: string,
    displayName: string,
    boundAgents: set<string>,
    allowedOrigins: set<string>,
    revoked: bool)

  datatype Payment = Payment(amount: nat, currency: string, kind: string, recurring: bool, assurance: Assurance)

  datatype Decision = Allow | StepUp(code: string) | Deny(code: string)

  /** Who an authorization is bound to. */
  datatype Authority = Authority(agent: string, connection: string, profile: string, session: string, generation: string)

  datatype Authorization = Authorization(decision: Decision, policyId: string, amount: nat, authority: Authority)

  datatype BrokerError = PolicyMissing | InstrumentMissing | RuntimeBindingMismatch | AuthorityMismatch | NotAuthorized

  datatype UsageState = UsageState(daily: nat, monthly: nat)

  function Upper(s: string): (r: string)
    ensures |r| == |s|
  {
    seq(|s|, i requires 0 <= i < |s| => if 'a' <= s[i] <= 'z' then s[i] - 'a' + 'A' else s[i])
  }

  /** Currencies are compared up to the case of ASCII letters, and written in capitals. */
  lemma UpperExactly(s: string, t: string)
    ensures Upper(s) == Upper(t) <==> |s| == |t| && forall i :: 0 <= i < |s| ==> SameLetter(s[i], t[i])
    ensures forall c :: c in Upper(s) ==> !('a' <= c <= 'z')
  {
    forall i | 0 <= i < |s| && i < |t| ensures Upper(s)[i] == Upper(t)[i] <==> SameLetter(s[i], t[i]) {
      assert Upper(s)[i] == Upper(t)[i] ==> s[i] == t[i] || IsUpperOf(s[i], t[i]) || IsUpperOf(t[i], s[i]);
    }
  }

  // ---------------------------------------------------------------------------
  // The usage log
  // ---------------------------------------------------------------------------

  function MonthTotal(log: seq<Record>, now: Instant): nat {
    if log == [] then 0
    else
      var n := |log| - 1;
      MonthTotal(log[..n], now) + if SameMonth(log[n].at, now) then log[n].amount else 0
  }

  function DayTotal(log: seq<Record>, now: Instant): nat {
    if log == [] then 0
    else
      var n := |log| - 1;
      DayTotal(log[..n], now) + if SameDay(log[n].at, now) then log[n].amount else 0
  }

  function Totals(log: seq<Record>, now: Instant): UsageState {
    UsageState(DayTotal(log, now), MonthTotal(log, now))
  }

  /** The records of the current month, in order: what pruning keeps. */
  function Retained(log: seq<Record>, now: Instant): seq<Record> {
    if log == [] then []
    else
      var n := |log| - 1;
      Retained(log[..n], now) + if SameMonth(log[n].at, now) then [log[n]] else []
  }

  /** The log after recording one use. */
  function Recorded(log: seq<Record>, now: Instant, amount: nat): seq<Record> {
    Retained(log + [Record(now, amount)], now)
  }

  // ---------------------------------------------------------------------------
  // Policy evaluation
  // ---------------------------------------------------------------------------

  /** The checks that do not depend on past usage; None when they all pass. */
  function StaticCheck(p: Policy, x: Payment): Option<Decision> {
    if Upper(x.currency) != p.currency then Some(Deny("financial_currency_mismatch"))
    else if x.kind == "transfer" && !p.transfersAllowed then Some(Deny("transaction_type_not_allowed"))
    else if x.kind == "cash_equivalent" && !p.cashEquivalentsAllowed then Some(Deny("transaction_type_not_allowed"))
    else if x.recurring && !p.subscriptionsAllowed then Some(Deny("recurring_commitment_not_allowed"))
    else if AssuranceRank(x.assurance) < AssuranceRank(p.minimumAssurance) then Some(StepUp("assurance_below_policy"))
    else if x.amount > p.absoluteLimit then Some(Deny("financial_limit_exceeded"))
    else None
  }

  function LimitCheck(p: Policy, amount: nat, usage: UsageState): Decision {
    if p.dailyLimit.Some? && usage.daily + amount > p.dailyLimit.value then Deny("financial_limit_exceeded")
    else if p.monthlyLimit.Some? && usage.monthly + amount > p.monthlyLimit.value then Deny("financial_limit_exceeded")
    else if amount > p.autonomyLimit then StepUp("financial_limit_exceeded")
    else Allow
  }

  function Evaluate(p: Policy, x: Payment, log: seq<Record>, now: Instant): Decision {
    match StaticCheck(p, x)
    case Some(decision) => decision
    case None => LimitCheck(p, x.amount, Totals(log, now))
  }

  /** The kinds of payment the policy takes at all. */
  predicate Admitted(p: Policy, x: Payment) {
    && Upper(x.currency) == p.currency
    && (x.kind == "transfer" ==> p.transfersAllowed)
    && (x.kind == "cash_equivalent" ==> p.cashEquivalentsAllowed)
    && (x.recurring ==> p.subscriptionsAllowed)
  }

  predicate WithinLimits(p: Policy, amount: nat, usage: UsageState) {
    && amount <= p.absoluteLimit
    && (p.dailyLimit.Some? ==> usage.daily + amount <= p.dailyLimit.value)
    && (p.monthlyLimit.Some? ==> usage.monthly + amount <= p.monthlyLimit.value)
  }

  /** A payment goes through, needs a person, or is refused. Too little assurance hides a broken limit
      behind a step-up, never a kind of payment the policy does not take. */
  predicate Decided(decision: Decision, p: Policy, x: Payment, usage: UsageState) {
    var assured := AssuranceRank(x.assurance) >= AssuranceRank(p.minimumAssurance);
    var within := WithinLimits(p, x.amount, usage);
    && (decision == Allow <==> Admitted(p, x) && assured && within && x.amount <= p.autonomyLimit)
    && (decision.StepUp? <==> Admitted(p, x) && (!assured || (within && x.amount > p.autonomyLimit)))
    && (decision.Deny? <==> !Admitted(p, x) || (assured && !within))
  }

  /** The policy decides every payment that way, on the totals of the day and the month. */
  lemma DecidedExactly(p: Policy, x: Payment, log: seq<Record>, now: Instant)
    ensures Decided(Evaluate(p, x, log, now), p, x, Totals(log, now))
  {
    hide Totals, Upper;
  }

  /** Evaluation prunes the log, but only when the usage limits are consulted. */
  function EvaluatedLog(p: Policy, x: Payment, log: seq<Record>, now: Instant): seq<Record> {
    if StaticCheck(p, x).Some? then log else Retained(log, now)
  }

  predicate Contains(text: string, part: string) {
    part <= text || (text != "" && Contains(text[1..], part))
  }

  /** Whether the label of a payment target names the instrument: by its last digits when it has
      some, otherwise by its brand and its display name. Absent parts are empty. */
  predicate Names(shown: string, i: Instrument) {
    if i.lastFour != "" then Contains(Norm(shown), i.lastFour)
    else Contains(Norm(shown), Lowered(i.brand)) && Contains(Norm(shown), Lowered(i.displayName))
  }

  /** The checks on the instrument and its bindings, before any limit is looked at. */
  function InstrumentCheck(i: Instrument, p: Policy, x: Payment, agent: string, profile: string, origin: string,
                           shown: Option<string>): Option<Decision>
  {
    if i.revoked then Some(Deny("payment_instrument_scope_mismatch"))
    else if i.kind !in {"merchant_saved", "system_wallet", "tokenized_wallet"} then Some(Deny("payment_instrument_scope_mismatch"))
    else if i.profileId != profile then Some(Deny("payment_instrument_scope_mismatch"))
    else if i.boundAgents != {} && agent !in i.boundAgents then Some(Deny("payment_instrument_scope_mismatch"))
    else if i.allowedOrigins != {} && origin !in i.allowedOrigins then Some(Deny("payment_instrument_scope_mismatch"))
    else if Upper(x.currency) != p.currency || Upper(x.currency) != i.currency then Some(Deny("financial_currency_mismatch"))
    else if shown.Some? && !Names(shown.value, i) then Some(Deny("payment_instrument_scope_mismatch"))
    else None
  }

  /** The instrument may be used at all: for this profile, agent and origin, and not after a revocation. */
  predicate Covers(i: Instrument, agent: string, profile: string, origin: string) {
    && !i.revoked
    && (i.kind == "merchant_saved" || i.kind == "system_wallet" || i.kind == "tokenized_wallet")
    && i.profileId == profile
    && (agent in i.boundAgents || i.boundAgents == {})
    && (origin in i.allowedOrigins || i.allowedOrigins == {})
  }

  predicate CurrencyAgrees(i: Instrument, p: Policy, currency: string) {
    Upper(currency) == p.currency == i.currency
  }

  predicate LabelAgrees(i: Instrument, shown: Option<string>) {
    shown.Some? ==> Names(shown.value, i)
  }

  /** The checks pass exactly for an instrument that covers the caller, in the right currency and under
      its own label; a wrong currency is told apart only when the instrument covers the caller. */
  lemma CheckedExactly(i: Instrument, p: Policy, x: Payment, agent: string, profile: string, origin: string, shown: Option<string>)
    ensures var check := InstrumentCheck(i, p, x, agent, profile, origin, shown);
      && (check.None? <==> Covers(i, agent, profile, origin) && CurrencyAgrees(i, p, x.currency) && LabelAgrees(i, shown))
      && (check.Some? ==> check.value == Deny(
            if Covers(i, agent, profile, origin) && !CurrencyAgrees(i, p, x.currency) then "financial_currency_mismatch"
            else "payment_instrument_scope_mismatch"))
  {
    hide Names, Upper;
  }

  /** A log is pruned exactly when an evaluation gets as far as the day's and the month's limits. */
  lemma PrunedExactly(p: Policy, x: Payment, log: seq<Record>, now: Instant)
    ensures EvaluatedLog(p, x, log, now) ==
      if Admitted(p, x) && AssuranceRank(x.assurance) >= AssuranceRank(p.minimumAssurance) && x.amount <= p.absoluteLimit
      then Retained(log, now) else log
  {
    hide Retained, Upper;
  }

  predicate OccursAt(part: string, text: string, k: nat) {
    k + |part| <= |text| && text[k..k + |part|] == part
  }

  /** One text is part of another. */
  ghost predicate OccursIn(part: string, text: string) {
    exists k :: OccursAt(part, text, k)
  }

  lemma OccursLater(part: string, text: string, k: nat)
    requires text != ""
    ensures OccursAt(part, text[1..], k) <==> OccursAt(part, text, k + 1)
  {
    if k + 1 + |part| <= |text| {
      assert text[1..][k..k + |part|] == text[k + 1..k + 1 + |part|];
    }
  }

  lemma {:induction false} ContainsExactly(text: string, part: string)
    ensures Contains(text, part) <==> OccursIn(part, text)
  {
    hide OccursAt;
    OccursFirst(part, text);
    if text != "" {
      ContainsExactly(text[1..], part);
      if OccursIn(part, text[1..]) {
        var k :| OccursAt(part, text[1..], k);
        OccursLater(part, text, k);
      }
      if k: nat :| OccursAt(part, text, k) && k > 0 {
        OccursLater(part, text, k - 1);
      }
    }
  }

  lemma OccursFirst(part: string, text: string)
    ensures OccursAt(part, text, 0) <==> part <= text
    ensures text == "" ==> forall k :: OccursAt(part, text, k) ==> k == 0
  {
  }

  /** A label names an instrument exactly when its words, in lower case and joined by single blanks,
      contain the last digits, or without such the brand and the display name in lower case. */
  lemma NamesExactly(shown: string, i: Instrument)
    ensures var words := Joined(Words(shown));
      Names(shown, i) <==>
        if i.lastFour != "" then OccursIn(i.lastFour, words)
        else OccursIn(Lowered(i.brand), words) && OccursIn(Lowered(i.displayName), words)
  {
    hide Contains, OccursIn, Norm, Joined, Words, Lowered;
    NormJoins(shown);
    ContainsExactly(Norm(shown), i.lastFour);
    ContainsExactly(Norm(shown), Lowered(i.brand));
    ContainsExactly(Norm(shown), Lowered(i.displayName));
  }

  // ---------------------------------------------------------------------------
  // The broker's state and calls
  // ---------------------------------------------------------------------------

  datatype Book = Book(
    profileId: Option<string>,
    sessionId: string,
    generation: string,
    policies: map<string, Policy>,
    instruments: map<string, Instrument>,
    usage: map<string, seq<Record>>)

  /** Policies are stored under their ids, and every instrument has one. */
  ghost predicate Consistent(b: Book) {
    && (forall id :: id in b.policies ==> b.policies[id].policyId == id)
    && (forall id :: id in b.instruments ==> b.instruments[id].policyId in b.policies)
  }

  predicate BoundTo(b: Book, a: Authority) {
    (b.profileId.Some? ==> a.profile == b.profileId.value) && a.session == b.sessionId && a.generation == b.generation
  }

  predicate Registers(b: Book, i: Instrument) {
    && (b.profileId.Some? ==> i.profileId == b.profileId.value)
    && i.policyId in b.policies && i.kind != "local_protected_card"
  }

  datatype Call =
    | RegisterPolicy(policy: Policy)
    | RegisterInstrument(instrument: Instrument)
    | RevokeInstrument(instrumentId: string)
    | AuthorizePolicy(policyId: string, payment: Payment, caller: Authority, at: Instant)
    | Authorize(instrumentId: string, payment: Payment, caller: Authority, origin: string, shown: Option<string>,
                enforceLimits: bool, at: Instant)
    | RecordUse(authorization: Authorization, supplied: Authority, at: Instant)

  function Log(b: Book, policyId: string): seq<Record> {
    GetOr(b.usage, policyId, [])
  }

  /** The usage logs after a policy was evaluated. */
  function Evaluated(b: Book, p: Policy, x: Payment, now: Instant): map<string, seq<Record>> {
    if StaticCheck(p, x).Some? then b.usage else b.usage[p.policyId := EvaluatedLog(p, x, Log(b, p.policyId), now)]
  }

  /** What a request for an authorization is answered. */
  function Answer(b: Book, c: Call): Result<Authorization, BrokerError>
    requires c.Authorize? || c.AuthorizePolicy?
    requires Consistent(b)
  {
    if !BoundTo(b, c.caller) then Err(RuntimeBindingMismatch)
    else match c
      case AuthorizePolicy(policyId, x, a, now) =>
        if policyId !in b.policies then Err(PolicyMissing)
        else Ok(Authorization(Evaluate(b.policies[policyId], x, Log(b, policyId), now), policyId, x.amount, a))
      case Authorize(id, x, a, origin, shown, enforceLimits, now) =>
        if id !in b.instruments then Err(InstrumentMissing)
        else
          var i := b.instruments[id];
          var p := b.policies[i.policyId];
          var scope := InstrumentCheck(i, p, x, a.agent, a.profile, origin, shown);
          var decision := if scope.Some? then scope.value else if !enforceLimits then Allow else Evaluate(p, x, Log(b, p.policyId), now);
          Ok(Authorization(decision, p.policyId, x.amount, a))
  }

  predicate Recordable(b: Book, auth: Authorization, supplied: Authority) {
    auth.decision.Allow? && supplied == auth.authority && BoundTo(b, auth.authority)
  }

  function Perform(b: Book, c: Call): Book
    requires Consistent(b)
  {
    match c
    case RegisterPolicy(p) =>
      b.(policies := b.policies[p.policyId := p], usage := b.usage[p.policyId := Log(b, p.policyId)])
    case RegisterInstrument(i) =>
      if Registers(b, i) then b.(instruments := b.instruments[i.instrumentId := i.(revoked := false)]) else b
    case RevokeInstrument(id) =>
      if id in b.instruments then b.(instruments := b.instruments[id := b.instruments[id].(revoked := true)]) else b
    case AuthorizePolicy(policyId, x, a, now) =>
      if BoundTo(b, a) && policyId in b.policies then b.(usage := Evaluated(b, b.policies[policyId], x, now)) else b
    case Authorize(id, x, a, origin, shown, enforceLimits, now) =>
      if !BoundTo(b, a) || id !in b.instruments || !enforceLimits then b
      else
        var i := b.instruments[id];
        var p := b.policies[i.policyId];
        if InstrumentCheck(i, p, x, a.agent, a.profile, origin, shown).Some? then b else b.(usage := Evaluated(b, p, x, now))
    case RecordUse(auth, supplied, now) =>
      if Recordable(b, auth, supplied)
      then b.(usage := b.usage[auth.policyId := Recorded(Log(b, auth.policyId), now, auth.amount)])
      else b
  }

  // ---------------------------------------------------------------------------
  // The broker
  // ---------------------------------------------------------------------------

  class PaymentInstrumentBroker {
    const profileId: Option<string>
    const sessionId: string
    const generation: string
    var policies: map<string, Policy>
    var instruments: map<string, Instrument>
    var usage: map<string, seq<Record>>

    /** Everything the broker holds. */
    ghost function State(): Book
      reads this
    {
      Book(profileId, sessionId, generation, policies, instruments, usage)
    }

    ghost predicate Valid()
      reads this
    {
      Consistent(State())
    }

    predicate Bound(a: Authority)
      reads this
    {
      (profileId.Some? ==> a.profile == profileId.value) && a.session == sessionId && a.generation == generation
    }

    constructor (profileId: Option<string>, sessionId: string, generation: string)
      ensures Valid() && policies == map[] && instruments == map[] && usage == map[]
      ensures this.profileId == profileId && this.sessionId == sessionId && this.generation == generation
    {
      this.profileId := profileId;
      this.sessionId := sessionId;
      this.generation := generation;
      policies, instruments, usage := map[], map[], map[];
    }

    method RegisterPolicy(p: Policy)
      requires Valid()
      modifies this`policies, this`usage
      ensures Valid() && State() == Perform(old(State()), Call.RegisterPolicy(p))
      ensures policies == old(policies)[p.policyId := p]
      ensures usage == old(usage)[p.policyId := GetOr(old(usage), p.policyId, [])]
    {
      policies := policies[p.policyId := p];
      usage := usage[p.policyId := GetOr(usage, p.policyId, [])];
    }

    method RegisterInstrument(i: Instrument) returns (registered: bool)
      requires Valid()
      modifies this`instruments
      ensures Valid() && State() == Perform(old(State()), Call.RegisterInstrument(i))
      ensures registered <==>
        && (profileId.Some? ==> i.profileId == profileId.value)
        && i.policyId in policies && i.kind != "local_protected_card"
      ensures instruments == if registered then old(instruments)[i.instrumentId := i.(revoked := false)] else old(instruments)
    {
      registered := (profileId.Some? ==> i.profileId == profileId.value)
        && i.policyId in policies && i.kind != "local_protected_card";
      if registered {
        instruments := instruments[i.instrumentId := i.(revoked := false)];
      }
    }

    /** A revoked instrument stays known and authorizes nothing. */
    method RevokeInstrument(instrumentId: string) returns (revoked: bool)
      requires Valid()
      modifies this`instruments
      ensures Valid() && State() == Perform(old(State()), Call.RevokeInstrument(instrumentId))
      ensures revoked <==> instrumentId in old(instruments)
      ensures instruments ==
        if revoked then old(instruments)[instrumentId := old(instruments)[instrumentId].(revoked := true)] else old(instruments)
    {
      revoked := instrumentId in instruments;
      if revoked {
        instruments := instruments[instrumentId := instruments[instrumentId].(revoked := true)];
      }
    }

    /** Totals of the current day and month; drops the records of other months. */
    method UsageTotals(policyId: string, now: Instant) returns (totals: UsageState)
      modifies this`usage
      ensures totals == Totals(GetOr(old(usage), policyId, []), now)
      ensures usage == old(usage)[policyId := Retained(GetOr(old(usage), policyId, []), now)]
    {
      var records := GetOr(usage, policyId, []);
      var daily, monthly := 0, 0;
      var retained: seq<Record> := [];
      for i := 0 to |records|
        invariant daily == DayTotal(records[..i], now) && monthly == MonthTotal(records[..i], now)
        invariant retained == Retained(records[..i], now)
      {
        assert records[..i + 1][..i] == records[..i];
        if SameMonth(records[i].at, now) {
          monthly := monthly + records[i].amount;
          retained := retained + [records[i]];
          if records[i].at.day == now.day {
            daily := daily + records[i].amount;
          }
        }
      }
      assert records[..|records|] == records;
      usage := usage[policyId := retained];
      totals := UsageState(daily, monthly);
    }

    method EvaluatePolicy(p: Policy, x: Payment, now: Instant) returns (decision: Decision)
      modifies this`usage
      ensures decision == Evaluate(p, x, GetOr(old(usage), p.policyId, []), now)
      ensures usage == Evaluated(old(State()), p, x, now)
    {
      if StaticCheck(p, x).Some? {
        decision := StaticCheck(p, x).value;
        return;
      }
      var totals := UsageTotals(p.policyId, now);
      decision := LimitCheck(p, x.amount, totals);
    }

    method AuthorizePolicy(policyId: string, x: Payment, a: Authority, now: Instant)
      returns (answer: Result<Authorization, BrokerError>)
      requires Valid()
      modifies this`usage
      ensures var call := Call.AuthorizePolicy(policyId, x, a, now);
        answer == Answer(old(State()), call) && State() == Perform(old(State()), call)
      ensures answer.Ok? <==>
        && (profileId.Some? ==> a.profile == profileId.value) && a.session == sessionId && a.generation == generation
        && policyId in policies
      ensures answer.Ok? ==>
        && answer.value == Authorization(answer.value.decision, policyId, x.amount, a)
        && Decided(answer.value.decision, policies[policyId], x, Totals(GetOr(old(usage), policyId, []), now))
    {
      if !Bound(a) {
        return Err(RuntimeBindingMismatch);
      }
      if policyId !in policies {
        return Err(PolicyMissing);
      }
      DecidedExactly(policies[policyId], x, GetOr(usage, policyId, []), now);
      var decision := EvaluatePolicy(policies[policyId], x, now);
      answer := Ok(Authorization(decision, policyId, x.amount, a));
    }

    method Authorize(instrumentId: string, x: Payment, a: Authority, origin: string, shown: Option<string>,
                     enforceLimits: bool, now: Instant)
      returns (answer: Result<Authorization, BrokerError>)
      requires Valid()
      modifies this`usage
      ensures var call := Call.Authorize(instrumentId, x, a, origin, shown, enforceLimits, now);
        answer == Answer(old(State()), call) && State() == Perform(old(State()), call)
      ensures answer.Ok? <==>
        && (profileId.Some? ==> a.profile == profileId.value) && a.session == sessionId && a.generation == generation
        && instrumentId in instruments
      ensures answer.Ok? ==>
        var i := instruments[instrumentId];
        var p, decision := policies[i.policyId], answer.value.decision;
        && answer.value == Authorization(decision, i.policyId, x.amount, a)
        && (if !Covers(i, a.agent, a.profile, origin) then decision == Deny("payment_instrument_scope_mismatch")
            else if !CurrencyAgrees(i, p, x.currency) then decision == Deny("financial_currency_mismatch")
            else if !LabelAgrees(i, shown) then decision == Deny("payment_instrument_scope_mismatch")
            else if !enforceLimits then decision == Allow
            else Decided(decision, p, x, Totals(GetOr(old(usage), i.policyId, []), now)))
    {
      if !Bound(a) {
        return Err(RuntimeBindingMismatch);
      }
      if instrumentId !in instruments {
        return Err(InstrumentMissing);
      }
      var i := instruments[instrumentId];
      var p := policies[i.policyId];
      var scope := InstrumentCheck(i, p, x, a.agent, a.profile, origin, shown);
      CheckedExactly(i, p, x, a.agent, a.profile, origin, shown);
      DecidedExactly(p, x, GetOr(usage, p.policyId, []), now);
      if scope.Some? {
        return Ok(Authorization(scope.value, p.policyId, x.amount, a));
      }
      if !enforceLimits {
        return Ok(Authorization(Allow, p.policyId, x.amount, a));
      }
      var decision := EvaluatePolicy(p, x, now);
      answer := Ok(Authorization(decision, p.policyId, x.amount, a));
    }

    /** Records an allowed authorization for the authority it was issued to. */
    method RecordUse(auth: Authorization, supplied: Authority, now: Instant)
      returns (answer: Result<UsageState, BrokerError>)
      requires Valid()
      modifies this`usage
      ensures Valid() && State() == Perform(old(State()), Call.RecordUse(auth, supplied, now))
      ensures answer.Ok? <==>
        && auth.decision == Allow && supplied == auth.authority
        && (profileId.Some? ==> supplied.profile == profileId.value) && supplied.session == sessionId && supplied.generation == generation
      ensures answer.Err? ==> usage == old(usage)
      ensures answer.Ok? ==>
        var log := GetOr(old(usage), auth.policyId, []);
        && usage == old(usage)[auth.policyId := Recorded(log, now, auth.amount)]
        && answer.value == Totals(log + [Record(now, auth.amount)], now)
    {
      hide Retained, Totals, InstrumentCheck, Evaluated;
      if !auth.decision.Allow? {
        return Err(NotAuthorized);
      }
      if supplied != auth.authority {
        return Err(AuthorityMismatch);
      }
      if !Bound(auth.authority) {
        return Err(RuntimeBindingMismatch);
      }
      usage := usage[auth.policyId := GetOr(usage, auth.policyId, []) + [Record(now, auth.amount)]];
      var totals := UsageTotals(auth.policyId, now);
      answer := Ok(totals);
    }
  }

  // ---------------------------------------------------------------------------
  // Pruning loses nothing
  // ---------------------------------------------------------------------------

  ghost predicate UpTo(log: seq<Record>, now: Instant) {
    forall i :: 0 <= i < |log| ==> NotAfter(log[i].at, now)
  }

  /** From `now` on, both logs report the same totals. */
  ghost predicate SameTotals(a: seq<Record>, b: seq<Record>, now: Instant) {
    forall t :: NotAfter(now, t) ==> Totals(a, t) == Totals(b, t)
  }

  lemma {:induction false} TotalsAppend(a: seq<Record>, b: seq<Record>, t: Instant)
    ensures DayTotal(a + b, t) == DayTotal(a, t) + DayTotal(b, t)
    ensures MonthTotal(a + b, t) == MonthTotal(a, t) + MonthTotal(b, t)
  {
    if b == [] {
      assert a + b == a;
    } else {
      var n := |b| - 1;
      assert (a + b)[..|a| + n] == a + b[..n];
      TotalsAppend(a, b[..n], t);
    }
  }

  /** A record of an earlier month never counts again. */
  lemma PastRecord(r: Record, now: Instant, t: Instant)
    requires NotAfter(r.at, now) && NotAfter(now, t) && !SameMonth(r.at, now)
    ensures Totals([r], t) == Totals([], t)
  {
    assert !SameMonth(r.at, t);
    assert [r][..0] == [];
  }

  lemma {:induction false} RetainedTotals(log: seq<Record>, now: Instant, t: Instant)
    requires UpTo(log, now) && NotAfter(now, t)
    ensures Totals(Retained(log, now), t) == Totals(log, t)
    ensures UpTo(Retained(log, now), now)
  {
    hide NotAfter, SameMonth, DayTotal, MonthTotal;
    if log != [] {
      var n := |log| - 1;
      RetainedTotals(log[..n], now, t);
      var kept := if SameMonth(log[n].at, now) then [log[n]] else [];
      assert NotAfter(log[n].at, now);
      TotalsAppend(Retained(log[..n], now), kept, t);
      TotalsAppend(log[..n], [log[n]], t);
      assert log == log[..n] + [log[n]];
      if !SameMonth(log[n].at, now) {
        PastRecord(log[n], now, t);
      }
    }
  }
}

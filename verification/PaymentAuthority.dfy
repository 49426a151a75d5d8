/** What an instrument may be used for, over whole sequences of calls to the broker: as it was last
    registered, and not at all from its revocation until it is registered again. */
module PaymentAuthority {
  import opened Prelude
  import opened Assurances
  import opened PaymentBroker

  lemma PerformConsistent(b: Book, c: Call)
    requires Consistent(b)
    ensures Consistent(Perform(b, c))
    ensures forall a :: BoundTo(Perform(b, c), a) == BoundTo(b, a)
  {
    hide Evaluated, InstrumentCheck, Retained;
  }

  ghost function Run(b: Book, calls: seq<Call>): (r: Book)
    requires Consistent(b)
    ensures Consistent(r)
    ensures forall a :: BoundTo(r, a) == BoundTo(b, a)
  {
    if calls == [] then b
    else
      var n := |calls| - 1;
      PerformConsistent(Run(b, calls[..n]), calls[n]);
      Perform(Run(b, calls[..n]), calls[n])
  }

  predicate IsRevocation(c: Call, id: string) {
    c.RevokeInstrument? && c.instrumentId == id
  }

  /** The call registers an instrument under this id. */
  predicate IsRegistration(b: Book, c: Call, id: string) {
    c.RegisterInstrument? && c.instrument.instrumentId == id && Registers(b, c.instrument)
  }

  ghost predicate RegisteredBetween(b: Book, calls: seq<Call>, id: string, i: nat, j: nat)
    requires Consistent(b) && j <= |calls|
  {
    exists k :: i <= k < j && IsRegistration(Run(b, calls[..k]), calls[k], id)
  }

  predicate RevokedBetween(calls: seq<Call>, id: string, i: nat, j: nat)
    requires j <= |calls|
  {
    exists k :: i <= k < j && IsRevocation(calls[k], id)
  }

  /** The last registration under this id before call n is call k. */
  ghost predicate LastRegistered(b: Book, calls: seq<Call>, id: string, k: nat, n: nat)
    requires Consistent(b) && n <= |calls|
  {
    k < n && IsRegistration(Run(b, calls[..k]), calls[k], id) && !RegisteredBetween(b, calls, id, k + 1, n)
  }

  /** What one call does to the instrument of one id. */
  lemma InstrumentStep(b: Book, c: Call, id: string)
    requires Consistent(b)
    ensures Get(Perform(b, c).instruments, id) ==
      if IsRegistration(b, c, id) then Some(c.instrument.(revoked := false))
      else if IsRevocation(c, id) && id in b.instruments then Some(b.instruments[id].(revoked := true))
      else Get(b.instruments, id)
  {
    hide Evaluated, InstrumentCheck, Retained;
  }

  lemma LaterCall(b: Book, calls: seq<Call>, id: string, i: nat, n: nat)
    requires Consistent(b) && i <= n < |calls|
    ensures RegisteredBetween(b, calls, id, i, n + 1) <==>
      RegisteredBetween(b, calls, id, i, n) || IsRegistration(Run(b, calls[..n]), calls[n], id)
    ensures RevokedBetween(calls, id, i, n + 1) <==> RevokedBetween(calls, id, i, n) || IsRevocation(calls[n], id)
  {
    hide Run, IsRegistration, IsRevocation;
  }

  /** From one point of a run to a later one without a registration in between, an instrument changes
      only in being revoked. */
  lemma {:induction false} InstrumentKept(b: Book, calls: seq<Call>, id: string, i: nat, n: nat)
    requires Consistent(b) && i <= n <= |calls| && !RegisteredBetween(b, calls, id, i, n)
    ensures var before, now := Run(b, calls[..i]).instruments, Run(b, calls[..n]).instruments;
      && (id in now <==> id in before)
      && (id in now ==> now[id] == before[id].(revoked := before[id].revoked || RevokedBetween(calls, id, i, n)))
  {
    hide RegisteredBetween, RevokedBetween, Perform;
    if i < n {
      LaterCall(b, calls, id, i, n - 1);
      InstrumentKept(b, calls, id, i, n - 1);
      assert calls[..n][..n - 1] == calls[..n - 1];
      InstrumentStep(Run(b, calls[..n - 1]), calls[n - 1], id);
      assert Get(Run(b, calls[..n]).instruments, id) == Get(Perform(Run(b, calls[..n - 1]), calls[n - 1]).instruments, id);
    } else {
      NoneBetween(calls, id, i);
    }
  }

  lemma NoneBetween(calls: seq<Call>, id: string, i: nat)
    requires i <= |calls|
    ensures !RevokedBetween(calls, id, i, i)
  {
  }

  /** From its revocation until it is registered again, an instrument authorizes nothing. */
  lemma RevokedAuthorizesNothing(b: Book, calls: seq<Call>, id: string, i: nat, c: Call)
    requires Consistent(b) && i < |calls| && IsRevocation(calls[i], id)
    requires !RegisteredBetween(b, calls, id, i + 1, |calls|)
    requires c.Authorize? && c.instrumentId == id
    ensures var answer := Answer(Run(b, calls), c);
      answer.Err? || answer.value.decision == Deny("payment_instrument_scope_mismatch")
  {
    hide RegisteredBetween, Perform, InstrumentCheck, Evaluate;
    var n := |calls|;
    assert calls[..n] == calls && calls[..i + 1][..i] == calls[..i];
    InstrumentKept(b, calls, id, i + 1, n);
    InstrumentStep(Run(b, calls[..i]), calls[i], id);
    assert Get(Run(b, calls[..i + 1]).instruments, id) == Get(Perform(Run(b, calls[..i]), calls[i]).instruments, id);
    var now := Run(b, calls);
    if id in now.instruments {
      assert now.instruments[id].revoked;
      var x := now.instruments[id];
      CheckedExactly(x, now.policies[x.policyId], c.payment, c.caller.agent, c.caller.profile, c.origin, c.shown);
    }
  }

  // ---------------------------------------------------------------------------
  // When an authorization is given, from the first call on
  // ---------------------------------------------------------------------------

  /** The instrument and the policy allow what the call asks for. */
  predicate Allows(i: Instrument, p: Policy, c: Call, usage: UsageState)
    requires c.Authorize?
  {
    && Covers(i, c.caller.agent, c.caller.profile, c.origin)
    && CurrencyAgrees(i, p, c.payment.currency) && LabelAgrees(i, c.shown)
    && (c.enforceLimits ==>
         && Admitted(p, c.payment) && AssuranceRank(c.payment.assurance) >= AssuranceRank(p.minimumAssurance)
         && WithinLimits(p, c.payment.amount, usage) && c.payment.amount <= p.autonomyLimit)
  }

  /** Call k registered the instrument last, it was not revoked since, and it allows what is asked for. */
  ghost predicate AllowedBy(b: Book, calls: seq<Call>, c: Call, k: nat)
    requires Consistent(b) && c.Authorize?
  {
    && LastRegistered(b, calls, c.instrumentId, k, |calls|)
    && !RevokedBetween(calls, c.instrumentId, k + 1, |calls|)
    && var i, now := calls[k].instrument.(revoked := false), Run(b, calls);
       i.policyId in now.policies && Allows(i, now.policies[i.policyId], c, Totals(Log(now, i.policyId), c.at))
  }

  lemma {:induction false} LastExists(b: Book, calls: seq<Call>, id: string, n: nat)
    requires Consistent(b) && n <= |calls| && RegisteredBetween(b, calls, id, 0, n)
    ensures exists k: nat :: LastRegistered(b, calls, id, k, n)
  {
    hide Run, IsRegistration;
    var k :| 0 <= k < n && IsRegistration(Run(b, calls[..k]), calls[k], id);
    if IsRegistration(Run(b, calls[..n - 1]), calls[n - 1], id) {
      assert LastRegistered(b, calls, id, n - 1, n);
    } else {
      LastExists(b, calls, id, n - 1);
      var l: nat :| LastRegistered(b, calls, id, l, n - 1);
      assert LastRegistered(b, calls, id, l, n);
    }
  }

  /** It is then as it was registered last, but for a revocation since. */
  lemma SinceRegistration(b: Book, calls: seq<Call>, id: string, k: nat)
    requires Consistent(b) && LastRegistered(b, calls, id, k, |calls|)
    ensures Get(Run(b, calls).instruments, id)
      == Some(calls[k].instrument.(revoked := RevokedBetween(calls, id, k + 1, |calls|)))
  {
    hide RegisteredBetween, RevokedBetween, Perform;
    assert calls[..|calls|] == calls && calls[..k + 1][..k] == calls[..k];
    InstrumentStep(Run(b, calls[..k]), calls[k], id);
    InstrumentKept(b, calls, id, k + 1, |calls|);
    assert Get(Run(b, calls[..k + 1]).instruments, id) == Get(Perform(Run(b, calls[..k]), calls[k]).instruments, id);
  }

  /** An instrument is known exactly if it was registered. */
  lemma KnownExactly(b: Book, calls: seq<Call>, id: string)
    requires Consistent(b) && b.instruments == map[]
    ensures id in Run(b, calls).instruments <==> exists k: nat :: LastRegistered(b, calls, id, k, |calls|)
  {
    hide RegisteredBetween, Run, LastRegistered;
    assert calls[..|calls|] == calls && calls[..0] == [];
    if RegisteredBetween(b, calls, id, 0, |calls|) {
      LastExists(b, calls, id, |calls|);
    } else {
      InstrumentKept(b, calls, id, 0, |calls|);
      EmptyRun(b);
      NoneRegistered(b, calls, id);
    }
    if k: nat :| LastRegistered(b, calls, id, k, |calls|) {
      SinceRegistration(b, calls, id, k);
    }
  }

  lemma EmptyRun(b: Book)
    requires Consistent(b)
    ensures Run(b, []) == b
  {
  }

  lemma NoneRegistered(b: Book, calls: seq<Call>, id: string)
    requires Consistent(b) && !RegisteredBetween(b, calls, id, 0, |calls|)
    ensures forall k: nat :: !LastRegistered(b, calls, id, k, |calls|)
  {
  }

  /** In any sequence of calls to a new broker, a use of an instrument is allowed exactly when the caller
      is bound to the session and the instrument, as last registered and not revoked since, allows it
      under the present policy and the totals so far. */
  lemma AllowedExactly(b: Book, calls: seq<Call>, c: Call)
    requires Consistent(b) && b.instruments == map[] && c.Authorize?
    ensures var answer := Answer(Run(b, calls), c);
      answer.Ok? && answer.value.decision == Allow <==>
        && (b.profileId.Some? ==> c.caller.profile == b.profileId.value)
        && c.caller.session == b.sessionId && c.caller.generation == b.generation
        && exists k: nat :: AllowedBy(b, calls, c, k)
  {
    hide LastRegistered, RevokedBetween, Run, InstrumentCheck, Evaluate, Names, Upper, Totals;
    KnownExactly(b, calls, c.instrumentId);
    AllowedOnlyIfKnown(b, calls, c);
    var now := Run(b, calls);
    if c.instrumentId in now.instruments {
      var i := now.instruments[c.instrumentId];
      var p := now.policies[i.policyId];
      CheckedExactly(i, p, c.payment, c.caller.agent, c.caller.profile, c.origin, c.shown);
      DecidedExactly(p, c.payment, Log(now, i.policyId), c.at);
      var k: nat :| LastRegistered(b, calls, c.instrumentId, k, |calls|);
      SinceRegistration(b, calls, c.instrumentId, k);
      AllowedByLast(b, calls, c, k);
    }
  }

  lemma AllowedOnlyIfKnown(b: Book, calls: seq<Call>, c: Call)
    requires Consistent(b) && c.Authorize?
    ensures forall k: nat :: AllowedBy(b, calls, c, k) ==> LastRegistered(b, calls, c.instrumentId, k, |calls|)
  {
  }

  lemma AllowedByLast(b: Book, calls: seq<Call>, c: Call, k: nat)
    requires Consistent(b) && c.Authorize? && LastRegistered(b, calls, c.instrumentId, k, |calls|)
    ensures (exists l: nat :: AllowedBy(b, calls, c, l)) <==> AllowedBy(b, calls, c, k)
  {
    hide Run, Allows;
    forall l: nat | AllowedBy(b, calls, c, l) ensures l == k {
      assert LastRegistered(b, calls, c.instrumentId, l, |calls|);
    }
  }

  // ---------------------------------------------------------------------------
  // What the totals count
  // ---------------------------------------------------------------------------

  function TimeOf(c: Call): Option<Instant> {
    match c
    case AuthorizePolicy(_, _, _, now) => Some(now)
    case Authorize(_, _, _, _, _, _, now) => Some(now)
    case RecordUse(_, _, now) => Some(now)
    case _ => None
  }

  predicate Ordered(a: Option<Instant>, b: Option<Instant>) {
    a.Some? && b.Some? ==> NotAfter(a.value, b.value)
  }

  /** The clock never runs backwards during the calls, nor from them to `now`. */
  ghost predicate InOrder(calls: seq<Call>, now: Instant) {
    && (forall i :: 0 <= i < |calls| ==> Ordered(TimeOf(calls[i]), Some(now)))
    && (forall i, j :: 0 <= i < j < |calls| ==> Ordered(TimeOf(calls[i]), TimeOf(calls[j])))
  }

  /** The amounts of the uses recorded under a policy in the calls, on the day and in the month of `now`. */
  ghost function Spent(b: Book, calls: seq<Call>, policyId: string, now: Instant): UsageState
    requires Consistent(b)
  {
    if calls == [] then UsageState(0, 0)
    else
      var n := |calls| - 1;
      var c, before := calls[n], Spent(b, calls[..n], policyId, now);
      if c.RecordUse? && c.authorization.policyId == policyId && Recordable(Run(b, calls[..n]), c.authorization, c.supplied)
      then UsageState(before.daily + (if c.at.year == now.year && c.at.month == now.month && c.at.day == now.day
                                      then c.authorization.amount else 0),
                      before.monthly + (if c.at.year == now.year && c.at.month == now.month then c.authorization.amount else 0))
      else before
  }

  /** A record counts on its calendar day and in its calendar month. */
  lemma RecordCounts(log: seq<Record>, r: Record, now: Instant)
    ensures Totals(log + [r], now).daily == Totals(log, now).daily
      + if r.at.year == now.year && r.at.month == now.month && r.at.day == now.day then r.amount else 0
    ensures Totals(log + [r], now).monthly == Totals(log, now).monthly
      + if r.at.year == now.year && r.at.month == now.month then r.amount else 0
  {
    assert (log + [r])[..|log|] == log;
  }

  lemma EarlierInOrder(calls: seq<Call>, n: nat, now: Instant)
    requires n < |calls| && InOrder(calls, now)
    ensures InOrder(calls[..n], now)
    ensures TimeOf(calls[n]).Some? ==> InOrder(calls[..n], TimeOf(calls[n]).value) && NotAfter(TimeOf(calls[n]).value, now)
  {
    hide NotAfter, TimeOf;
  }

  /** The log of one policy after one call. */
  lemma LogStep(b: Book, c: Call, policyId: string)
    requires Consistent(b)
    ensures var log, log' := Log(b, policyId), Log(Perform(b, c), policyId);
      || (log' == log && !(c.RecordUse? && c.authorization.policyId == policyId && Recordable(b, c.authorization, c.supplied)))
      || ((c.Authorize? || c.AuthorizePolicy?) && log' == Retained(log, c.at))
      || (c.RecordUse? && c.authorization.policyId == policyId && Recordable(b, c.authorization, c.supplied)
          && log' == Retained(log + [Record(c.at, c.authorization.amount)], c.at))
  {
    hide Retained, InstrumentCheck, StaticCheck;
  }

  /** While the clock does not run backwards, the totals count everything that was recorded, however
      often the log was pruned on the way. */
  lemma {:induction false} TotalsAreSpent(b: Book, calls: seq<Call>, policyId: string, now: Instant)
    requires Consistent(b) && b.usage == map[] && InOrder(calls, now)
    ensures Totals(Log(Run(b, calls), policyId), now) == Spent(b, calls, policyId, now)
    ensures UpTo(Log(Run(b, calls), policyId), now)
  {
    hide InOrder, Totals, Retained, Perform, NotAfter, UpTo, Recordable;
    if calls == [] {
      NothingSpent(now);
    } else {
      var n := |calls| - 1;
      var c, before := calls[n], Run(b, calls[..n]);
      EarlierInOrder(calls, n, now);
      TotalsAreSpent(b, calls[..n], policyId, now);
      LogStep(before, c, policyId);
      if TimeOf(c).Some? {
        TotalsAreSpent(b, calls[..n], policyId, TimeOf(c).value);
        SpentStep(Log(before, policyId), c, now);
      }
    }
  }

  lemma NothingSpent(now: Instant)
    ensures Totals([], now) == UsageState(0, 0) && UpTo([], now)
  {
  }

  lemma SpentStep(log: seq<Record>, c: Call, now: Instant)
    requires TimeOf(c).Some? && NotAfter(TimeOf(c).value, now) && UpTo(log, TimeOf(c).value) && UpTo(log, now)
    ensures UpTo(Retained(log, TimeOf(c).value), now)
    ensures Totals(Retained(log, TimeOf(c).value), now) == Totals(log, now)
    ensures c.RecordUse? ==>
      var r := Record(c.at, c.authorization.amount);
      && UpTo(Retained(log + [r], c.at), now)
      && Totals(Retained(log + [r], c.at), now) == Totals(log + [r], now)
      && Totals(log + [r], now).daily == Totals(log, now).daily
           + (if c.at.year == now.year && c.at.month == now.month && c.at.day == now.day then c.authorization.amount else 0)
      && Totals(log + [r], now).monthly == Totals(log, now).monthly
           + (if c.at.year == now.year && c.at.month == now.month then c.authorization.amount else 0)
  {
    hide NotAfter, Totals, Retained;
    var u := TimeOf(c).value;
    RetainedTotals(log, u, now);
    RetainedUpTo(log, u, now);
    if c.RecordUse? {
      var r := Record(c.at, c.authorization.amount);
      AtOnce(u);
      RetainedTotals(log + [r], u, now);
      RetainedUpTo(log + [r], u, now);
      RecordCounts(log, r, now);
    }
  }

  lemma AtOnce(now: Instant)
    ensures NotAfter(now, now)
  {
  }

  lemma RetainedUpTo(log: seq<Record>, u: Instant, now: Instant)
    requires UpTo(log, u) && NotAfter(u, now)
    ensures UpTo(Retained(log, u), now)
  {
    RetainedTotals(log, u, now);
  }
}

/** Whole runs of the payment broker over one policy: authorizations and recorded uses are
    separate steps, several authorizations may be in flight, and the log is pruned as it goes. */
module PaymentRuns {
  import opened Prelude
  import opened Assurances
  import opened PaymentBroker

  /** `log` is what the broker keeps, `history` every use ever recorded, `outstanding` the amounts
      that were allowed and neither recorded nor given up. */
  datatype Ledger = Ledger(log: seq<Record>, history: seq<Record>, outstanding: seq<nat>, now: Instant)

  datatype Event =
    | Authorized(payment: Payment, at: Instant, enforced: bool)
    | Used(index: nat, at: Instant)
    | Abandoned(index: nat)
    | Queried(at: Instant)

  function Sum(amounts: seq<nat>): nat {
    if amounts == [] then 0 else Sum(amounts[..|amounts| - 1]) + amounts[|amounts| - 1]
  }

  function Without(amounts: seq<nat>, i: nat): (r: seq<nat>)
    requires i < |amounts|
    ensures |r| == |amounts| - 1
    ensures forall a :: a in r ==> a in amounts
  {
    amounts[..i] + amounts[i + 1..]
  }

  function TimeOf(s: Ledger, e: Event): Instant {
    if e.Abandoned? then s.now else e.at
  }

  /** The clock never goes back, a use refers to an outstanding authorization, and at most `k`
      authorizations are outstanding. */
  ghost predicate Enabled(p: Policy, k: nat, s: Ledger, e: Event) {
    && NotAfter(s.now, TimeOf(s, e))
    && ((e.Used? || e.Abandoned?) ==> e.index < |s.outstanding|)
    && (e.Authorized? ==> |s.outstanding| < k)
  }

  function Apply(p: Policy, s: Ledger, e: Event): Ledger
    requires (e.Used? || e.Abandoned?) ==> e.index < |s.outstanding|
  {
    match e
    case Authorized(x, t, enforced) =>
      var decision := if enforced then Evaluate(p, x, s.log, t) else Allow;
      Ledger(if enforced then EvaluatedLog(p, x, s.log, t) else s.log,
             s.history,
             if decision == Allow then s.outstanding + [x.amount] else s.outstanding,
             t)
    case Used(i, t) =>
      Ledger(Recorded(s.log, t, s.outstanding[i]),
             s.history + [Record(t, s.outstanding[i])],
             Without(s.outstanding, i),
             t)
    case Abandoned(i) => s.(outstanding := Without(s.outstanding, i))
    case Queried(t) => s.(log := Retained(s.log, t), now := t)
  }

  ghost predicate Run(p: Policy, k: nat, states: seq<Ledger>, events: seq<Event>) {
    && |states| == |events| + 1
    && states[0].log == states[0].history == [] && states[0].outstanding == []
    && forall i :: 0 <= i < |events| ==> Enabled(p, k, states[i], events[i]) && states[i + 1] == Apply(p, states[i], events[i])
  }

  ghost predicate Enforced(events: seq<Event>) {
    forall i :: 0 <= i < |events| && events[i].Authorized? ==> events[i].enforced
  }

  // ---------------------------------------------------------------------------
  // Pruning is transparent
  // ---------------------------------------------------------------------------

  ghost predicate Faithful(s: Ledger) {
    UpTo(s.history, s.now) && UpTo(s.log, s.now) && SameTotals(s.log, s.history, s.now)
  }

  lemma NotAfterTransitive(a: Instant, b: Instant, c: Instant)
    requires NotAfter(a, b) && NotAfter(b, c)
    ensures NotAfter(a, c)
  {
  }

  lemma UpToLater(log: seq<Record>, now: Instant, t: Instant)
    requires UpTo(log, now) && NotAfter(now, t)
    ensures UpTo(log, t)
  {
    forall i | 0 <= i < |log| ensures NotAfter(log[i].at, t) {
      NotAfterTransitive(log[i].at, now, t);
    }
  }

  lemma SameTotalsLater(a: seq<Record>, b: seq<Record>, now: Instant, t: Instant)
    requires SameTotals(a, b, now) && NotAfter(now, t)
    ensures SameTotals(a, b, t)
  {
    forall u | NotAfter(t, u) ensures Totals(a, u) == Totals(b, u) {
      NotAfterTransitive(now, t, u);
    }
  }

  lemma RetainedFaithful(log: seq<Record>, history: seq<Record>, now: Instant)
    requires UpTo(log, now) && SameTotals(log, history, now)
    ensures UpTo(Retained(log, now), now) && SameTotals(Retained(log, now), history, now)
  {
    assert NotAfter(now, now);
    RetainedTotals(log, now, now);
    forall t | NotAfter(now, t) ensures Totals(Retained(log, now), t) == Totals(history, t) {
      RetainedTotals(log, now, t);
    }
  }

  lemma AppendFaithful(log: seq<Record>, history: seq<Record>, now: Instant, r: Record)
    requires UpTo(log, now) && UpTo(history, now) && SameTotals(log, history, now) && r.at == now
    ensures UpTo(log + [r], now) && UpTo(history + [r], now) && SameTotals(log + [r], history + [r], now)
  {
    assert NotAfter(r.at, now);
    forall t | NotAfter(now, t) ensures Totals(log + [r], t) == Totals(history + [r], t) {
      TotalsAppend(log, [r], t);
      TotalsAppend(history, [r], t);
    }
  }

  lemma AdvanceFaithful(s: Ledger, t: Instant)
    requires Faithful(s) && NotAfter(s.now, t)
    ensures Faithful(s.(now := t))
  {
    UpToLater(s.history, s.now, t);
    UpToLater(s.log, s.now, t);
    SameTotalsLater(s.log, s.history, s.now, t);
  }

  lemma StepFaithful(p: Policy, k: nat, s: Ledger, e: Event)
    requires Faithful(s) && Enabled(p, k, s, e)
    ensures Faithful(Apply(p, s, e))
  {
    var t := TimeOf(s, e);
    AdvanceFaithful(s, t);
    RetainedFaithful(s.log, s.history, t);
    if e.Used? {
      var r := Record(t, s.outstanding[e.index]);
      AppendFaithful(s.log, s.history, t, r);
      RetainedFaithful(s.log + [r], s.history + [r], t);
    }
  }

  lemma {:induction false} RunFaithful(p: Policy, k: nat, states: seq<Ledger>, events: seq<Event>, n: nat)
    requires Run(p, k, states, events) && n < |states|
    ensures Faithful(states[n])
  {
    if n > 0 {
      RunFaithful(p, k, states, events, n - 1);
      StepFaithful(p, k, states[n - 1], events[n - 1]);
    }
  }

  /** At every point of every run the pruned log answers every later query, and decides every
      later payment, exactly as the complete history of recorded uses would. */
  lemma PruningTransparent(p: Policy, k: nat, states: seq<Ledger>, events: seq<Event>, n: nat, t: Instant, x: Payment)
    requires Run(p, k, states, events) && n < |states| && NotAfter(states[n].now, t)
    ensures Totals(states[n].log, t) == Totals(states[n].history, t)
    ensures Evaluate(p, x, states[n].log, t) == Evaluate(p, x, states[n].history, t)
  {
    RunFaithful(p, k, states, events, n);
  }

  // ---------------------------------------------------------------------------
  // The spend bound
  // ---------------------------------------------------------------------------

  lemma {:induction false} SumAppend(a: seq<nat>, b: seq<nat>)
    ensures Sum(a + b) == Sum(a) + Sum(b)
  {
    if b == [] {
      assert a + b == a;
    } else {
      var n := |b| - 1;
      assert (a + b)[..|a| + n] == a + b[..n];
      SumAppend(a, b[..n]);
    }
  }

  lemma SumOne(amount: nat)
    ensures Sum([amount]) == amount
  {
    assert [amount][..0] == [];
  }

  lemma SumMiddle(front: seq<nat>, one: seq<nat>, back: seq<nat>)
    ensures Sum(front + one + back) == Sum(front) + Sum(one) + Sum(back)
  {
    hide Sum;
    SumAppend(front + one, back);
    SumAppend(front, one);
  }

  lemma SumWithout(amounts: seq<nat>, i: nat)
    requires i < |amounts|
    ensures Sum(Without(amounts, i)) + amounts[i] == Sum(amounts)
  {
    hide Sum;
    var front, one, back := amounts[..i], [amounts[i]], amounts[i + 1..];
    SumAppend(front, back);
    SumMiddle(front, one, back);
    SumOne(amounts[i]);
    assert amounts == front + one + back;
  }

  lemma {:induction false} SumAtMost(amounts: seq<nat>, limit: nat)
    requires forall a :: a in amounts ==> a <= limit
    ensures Sum(amounts) <= |amounts| * limit
  {
    if amounts != [] {
      var n := |amounts| - 1;
      forall a | a in amounts[..n] ensures a <= limit {
        assert a in amounts;
      }
      assert amounts[n] in amounts;
      SumAtMost(amounts[..n], limit);
      assert |amounts| * limit == n * limit + limit;
    }
  }

  /** Totals only fall as the clock moves on without new records. */
  lemma {:induction false} TotalsFall(log: seq<Record>, now: Instant, t: Instant)
    requires UpTo(log, now) && NotAfter(now, t)
    ensures DayTotal(log, t) <= DayTotal(log, now)
    ensures MonthTotal(log, t) <= MonthTotal(log, now)
  {
    if log != [] {
      var n := |log| - 1;
      TotalsFall(log[..n], now, t);
      assert NotAfter(log[n].at, now);
    }
  }

  function Least(amount: nat, limit: Option<nat>): nat {
    if limit.Some? && limit.value < amount then limit.value else amount
  }

  /** The largest amount the policy ever allows by itself: what fits every limit it sets. */
  function LargestAllowed(p: Policy): nat {
    Least(Least(Least(p.autonomyLimit, Some(p.absoluteLimit)), p.dailyLimit), p.monthlyLimit)
  }

  lemma AllowedAtMost(p: Policy, x: Payment, log: seq<Record>, now: Instant)
    requires Evaluate(p, x, log, now).Allow?
    ensures x.amount <= LargestAllowed(p)
  {
    hide Totals, Upper;
  }

  ghost predicate Within(spent: nat, outstanding: nat, limit: Option<nat>, slack: nat) {
    limit.Some? ==> spent + outstanding <= limit.value + slack
  }

  ghost predicate Bounded(p: Policy, k: nat, s: Ledger) {
    && |s.outstanding| <= k
    && (forall a :: a in s.outstanding ==> a <= LargestAllowed(p))
    && (k > 0 ==> Within(DayTotal(s.history, s.now), Sum(s.outstanding), p.dailyLimit, (k - 1) * LargestAllowed(p)))
    && (k > 0 ==> Within(MonthTotal(s.history, s.now), Sum(s.outstanding), p.monthlyLimit, (k - 1) * LargestAllowed(p)))
  }

  lemma AdvanceBounded(p: Policy, k: nat, s: Ledger, t: Instant)
    requires UpTo(s.history, s.now) && Bounded(p, k, s) && NotAfter(s.now, t)
    ensures Bounded(p, k, s.(now := t))
  {
    TotalsFall(s.history, s.now, t);
  }

  lemma SmallerProduct(n: nat, m: nat, limit: nat)
    requires n <= m
    ensures n * limit <= m * limit
  {
    assert m * limit == n * limit + (m - n) * limit;
  }

  /** What is outstanding never exceeds one autonomy limit per authorization. */
  lemma OutstandingAtMost(outstanding: seq<nat>, m: nat, limit: nat)
    requires |outstanding| <= m && forall a :: a in outstanding ==> a <= limit
    ensures Sum(outstanding) <= m * limit
  {
    SumAtMost(outstanding, limit);
    SmallerProduct(|outstanding|, m, limit);
  }

  lemma SumOneMore(amounts: seq<nat>, amount: nat)
    ensures Sum(amounts + [amount]) == Sum(amounts) + amount
  {
    assert (amounts + [amount])[..|amounts|] == amounts;
  }

  lemma AllowedBounded(p: Policy, k: nat, s: Ledger, amount: nat)
    requires Bounded(p, k, s) && |s.outstanding| < k && amount <= LargestAllowed(p)
    requires LimitCheck(p, amount, Totals(s.history, s.now)).Allow?
    ensures Bounded(p, k, s.(outstanding := s.outstanding + [amount]))
  {
    hide Sum, DayTotal, MonthTotal, LargestAllowed;
    SumOneMore(s.outstanding, amount);
    OutstandingAtMost(s.outstanding, k - 1, LargestAllowed(p));
  }

  lemma UsedBounded(p: Policy, k: nat, s: Ledger, i: nat)
    requires Bounded(p, k, s) && i < |s.outstanding|
    ensures Bounded(p, k, s.(outstanding := Without(s.outstanding, i)))
    ensures Bounded(p, k, s.(outstanding := Without(s.outstanding, i), history := s.history + [Record(s.now, s.outstanding[i])]))
  {
    SumWithout(s.outstanding, i);
    TotalsAppend(s.history, [Record(s.now, s.outstanding[i])], s.now);
  }

  lemma StepBounded(p: Policy, k: nat, s: Ledger, e: Event)
    requires Faithful(s) && Bounded(p, k, s) && Enabled(p, k, s, e)
    requires e.Authorized? ==> e.enforced
    ensures Bounded(p, k, Apply(p, s, e))
  {
    var t := TimeOf(s, e);
    var later := s.(now := t);
    AdvanceBounded(p, k, s, t);
    match e
    case Authorized(x, _, _) =>
      if Evaluate(p, x, s.log, t).Allow? {
        assert Totals(s.log, t) == Totals(s.history, t);
        AllowedAtMost(p, x, s.log, t);
        AllowedBounded(p, k, later, x.amount);
      }
    case Used(i, _) => UsedBounded(p, k, later, i);
    case Abandoned(i) => UsedBounded(p, k, later, i);
    case Queried(_) =>
  }

  lemma {:induction false} RunBounded(p: Policy, k: nat, states: seq<Ledger>, events: seq<Event>, n: nat)
    requires Run(p, k, states, events) && n < |states| && Enforced(events)
    ensures Bounded(p, k, states[n])
  {
    if n > 0 {
      RunBounded(p, k, states, events, n - 1);
      RunFaithful(p, k, states, events, n - 1);
      StepBounded(p, k, states[n - 1], events[n - 1]);
    } else if k > 0 {
      assert 0 <= (k - 1) * LargestAllowed(p);
    }
  }

  /** With limits enforced and at most `k` authorizations outstanding, what was spent today plus
      what is still outstanding exceeds the daily limit by at most k - 1 of the largest payments
      the policy allows, in every state of every run and across day and month boundaries;
      likewise for the month. */
  lemma SpendBound(p: Policy, k: nat, states: seq<Ledger>, events: seq<Event>, n: nat)
    requires Run(p, k, states, events) && n < |states| && Enforced(events) && k > 0
    ensures p.dailyLimit.Some? ==>
      DayTotal(states[n].history, states[n].now) + Sum(states[n].outstanding) <= p.dailyLimit.value + (k - 1) * LargestAllowed(p)
    ensures p.monthlyLimit.Some? ==>
      MonthTotal(states[n].history, states[n].now) + Sum(states[n].outstanding) <= p.monthlyLimit.value + (k - 1) * LargestAllowed(p)
  {
    RunBounded(p, k, states, events, n);
  }

  /** With one authorization at a time the limits themselves are never exceeded. */
  lemma OneAtATimeStaysWithinLimits(p: Policy, states: seq<Ledger>, events: seq<Event>, n: nat)
    requires Run(p, 1, states, events) && n < |states| && Enforced(events)
    ensures p.dailyLimit.Some? ==> DayTotal(states[n].history, states[n].now) <= p.dailyLimit.value
    ensures p.monthlyLimit.Some? ==> MonthTotal(states[n].history, states[n].now) <= p.monthlyLimit.value
  {
    SpendBound(p, 1, states, events, n);
  }

  /** An authorization made without the financial checks is not covered: recording it exceeds any limit. */
  lemma UnenforcedExceeds(p: Policy, amount: nat, now: Instant) returns (states: seq<Ledger>, events: seq<Event>)
    requires p.dailyLimit.Some? && amount > p.dailyLimit.value
    ensures Run(p, 1, states, events) && |states| == 3
    ensures DayTotal(states[2].history, now) > p.dailyLimit.value && states[2].now == now
  {
    var s0 := Ledger([], [], [], now);
    var e0 := Authorized(Payment(amount, p.currency, "purchase", false, UserConfirmed), now, false);
    var s1 := Apply(p, s0, e0);
    assert s1.outstanding == [amount];
    var e1 := Used(0, now);
    var s2 := Apply(p, s1, e1);
    states, events := [s0, s1, s2], [e0, e1];
    assert s2.history == [Record(now, amount)];
    assert DayTotal(s2.history, now) == amount;
  }
}

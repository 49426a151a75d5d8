/** The spend bound cannot be lowered, whatever the policy, and exactly when the limits themselves
    hold over every run. */
module PaymentLimits {
  import opened Prelude
  import opened Assurances
  import opened PaymentBroker
  import opened PaymentRuns

  /** What the schema of a policy demands that matters here. */
  predicate Wellformed(p: Policy) {
    && Upper(p.currency) == p.currency
    && p.autonomyLimit <= p.stepUpLimit <= p.absoluteLimit
    && (p.dailyLimit.Some? && p.monthlyLimit.Some? ==> p.dailyLimit.value <= p.monthlyLimit.value)
  }

  /** A purchase with the highest assurance. */
  function Purchase(p: Policy, amount: nat): Payment {
    Payment(amount, p.currency, "purchase", false, UserConfirmed)
  }

  lemma PurchaseDecided(p: Policy, amount: nat, log: seq<Record>, now: Instant)
    requires Wellformed(p)
    ensures Evaluate(p, Purchase(p, amount), log, now) == Allow
      <==> WithinLimits(p, amount, Totals(log, now)) && amount <= p.autonomyLimit
  {
    hide Totals, Upper, Evaluate, WithinLimits;
    DecidedExactly(p, Purchase(p, amount), log, now);
  }

  /** The largest allowed amount is just that. */
  lemma LargestAllowedExactly(p: Policy, amount: nat, now: Instant)
    requires Wellformed(p)
    ensures Evaluate(p, Purchase(p, amount), [], now) == Allow <==> amount <= LargestAllowed(p)
  {
    hide Evaluate, Wellformed;
    PurchaseDecided(p, amount, [], now);
  }

  // ---------------------------------------------------------------------------
  // Logs of one instant
  // ---------------------------------------------------------------------------

  function Records(amounts: seq<nat>, now: Instant): (r: seq<Record>)
    ensures |r| == |amounts| && forall i :: 0 <= i < |r| ==> r[i] == Record(now, amounts[i])
  {
    seq(|amounts|, i requires 0 <= i < |amounts| => Record(now, amounts[i]))
  }

  lemma {:induction false} RecordsKept(amounts: seq<nat>, now: Instant)
    ensures Retained(Records(amounts, now), now) == Records(amounts, now)
    ensures Totals(Records(amounts, now), now) == UsageState(Sum(amounts), Sum(amounts))
  {
    var log := Records(amounts, now);
    if amounts != [] {
      var n := |amounts| - 1;
      RecordsKept(amounts[..n], now);
      assert log[..n] == Records(amounts[..n], now);
      assert log == log[..n] + [log[n]];
    }
  }

  /** Everything recorded at one instant. */
  function Settled(amounts: seq<nat>, outstanding: seq<nat>, now: Instant): Ledger {
    Ledger(Records(amounts, now), Records(amounts, now), outstanding, now)
  }

  lemma AuthorizeStep(p: Policy, amounts: seq<nat>, outstanding: seq<nat>, amount: nat, now: Instant)
    requires Wellformed(p) && amount <= p.autonomyLimit
    requires WithinLimits(p, amount, UsageState(Sum(amounts), Sum(amounts)))
    ensures Apply(p, Settled(amounts, outstanding, now), Authorized(Purchase(p, amount), now, true))
         == Settled(amounts, outstanding + [amount], now)
  {
    hide Sum, Wellformed, WithinLimits, Records, Totals;
    RecordsKept(amounts, now);
    PurchaseDecided(p, amount, Records(amounts, now), now);
  }

  lemma UseStep(p: Policy, amounts: seq<nat>, outstanding: seq<nat>, now: Instant)
    requires outstanding != []
    ensures Apply(p, Settled(amounts, outstanding, now), Used(0, now))
         == Settled(amounts + [outstanding[0]], outstanding[1..], now)
  {
    hide Retained, Totals, Sum;
    var more := amounts + [outstanding[0]];
    RecordsKept(more, now);
    assert Records(more, now) == Records(amounts, now) + [Record(now, outstanding[0])];
    assert Without(outstanding, 0) == outstanding[1..];
  }

  // ---------------------------------------------------------------------------
  // Runs at one instant
  // ---------------------------------------------------------------------------

  /** An enforced run that ends in a ledger of one instant. */
  ghost predicate Leads(p: Policy, k: nat, states: seq<Ledger>, events: seq<Event>, amounts: seq<nat>, outstanding: seq<nat>,
                        now: Instant)
  {
    Run(p, k, states, events) && Enforced(events) && states[|events|] == Settled(amounts, outstanding, now)
  }

  lemma RunMore(p: Policy, k: nat, states: seq<Ledger>, events: seq<Event>, e: Event)
    requires Run(p, k, states, events) && Enforced(events) && Enabled(p, k, states[|events|], e) && (e.Authorized? ==> e.enforced)
    ensures var longer, more := states + [Apply(p, states[|events|], e)], events + [e];
      Run(p, k, longer, more) && Enforced(more)
  {
    hide Apply;
    var longer, more := states + [Apply(p, states[|events|], e)], events + [e];
    forall i | 0 <= i < |more| ensures Enabled(p, k, longer[i], more[i]) && longer[i + 1] == Apply(p, longer[i], more[i]) {
      if i < |events| {
        assert Enabled(p, k, states[i], events[i]) && states[i + 1] == Apply(p, states[i], events[i]);
      }
    }
  }

  lemma AuthorizeMore(p: Policy, k: nat, states: seq<Ledger>, events: seq<Event>, amounts: seq<nat>, outstanding: seq<nat>, now: Instant,
                      amount: nat) returns (states': seq<Ledger>, events': seq<Event>)
    requires Leads(p, k, states, events, amounts, outstanding, now) && |outstanding| < k
    requires Wellformed(p) && amount <= p.autonomyLimit
    requires WithinLimits(p, amount, UsageState(Sum(amounts), Sum(amounts)))
    ensures Leads(p, k, states', events', amounts, outstanding + [amount], now)
  {
    hide Apply, Wellformed, WithinLimits, Sum, Run;
    var e := Authorized(Purchase(p, amount), now, true);
    AuthorizeStep(p, amounts, outstanding, amount, now);
    RunMore(p, k, states, events, e);
    RunLength(p, k, states, events);
    states', events' := states + [Apply(p, states[|events|], e)], events + [e];
  }

  lemma UseMore(p: Policy, k: nat, states: seq<Ledger>, events: seq<Event>, amounts: seq<nat>, outstanding: seq<nat>, now: Instant)
    returns (states': seq<Ledger>, events': seq<Event>)
    requires Leads(p, k, states, events, amounts, outstanding, now) && outstanding != []
    ensures Leads(p, k, states', events', amounts + [outstanding[0]], outstanding[1..], now)
  {
    hide Apply, Sum, Run;
    var e := Used(0, now);
    UseStep(p, amounts, outstanding, now);
    RunMore(p, k, states, events, e);
    RunLength(p, k, states, events);
    states', events' := states + [Apply(p, states[|events|], e)], events + [e];
  }

  lemma RunLength(p: Policy, k: nat, states: seq<Ledger>, events: seq<Event>)
    requires Run(p, k, states, events)
    ensures |states| == |events| + 1
  {
  }

  // ---------------------------------------------------------------------------
  // A run that reaches the bound
  // ---------------------------------------------------------------------------

  /** The limit that binds within one day: the daily one if there is one. */
  function DayCap(p: Policy): nat
    requires p.dailyLimit.Some? || p.monthlyLimit.Some?
  {
    if p.dailyLimit.Some? then p.dailyLimit.value else p.monthlyLimit.value
  }

  lemma FitsCap(p: Policy, amount: nat, spent: nat)
    requires Wellformed(p) && (p.dailyLimit.Some? || p.monthlyLimit.Some?)
    requires amount <= LargestAllowed(p) && spent + amount <= DayCap(p)
    ensures amount <= p.autonomyLimit && WithinLimits(p, amount, UsageState(spent, spent))
  {
  }

  lemma LargestFits(p: Policy)
    requires Wellformed(p) && (p.dailyLimit.Some? || p.monthlyLimit.Some?)
    ensures LargestAllowed(p) <= DayCap(p)
  {
  }

  /** Payment by payment any total up to the cap can be spent. */
  lemma {:induction false} SpendUpTo(p: Policy, k: nat, total: nat, now: Instant)
    returns (states: seq<Ledger>, events: seq<Event>, amounts: seq<nat>)
    requires Wellformed(p) && (p.dailyLimit.Some? || p.monthlyLimit.Some?)
    requires k > 0 && LargestAllowed(p) > 0 && total <= DayCap(p)
    ensures Leads(p, k, states, events, amounts, [], now) && Sum(amounts) == total
    decreases total
  {
    hide Wellformed, LargestAllowed, DayCap, WithinLimits, Leads;
    if total == 0 {
      states, events, amounts := [Settled([], [], now)], [], [];
      NothingYet(p, k, now);
    } else {
      var amount := if total < LargestAllowed(p) then total else LargestAllowed(p);
      states, events, amounts := SpendUpTo(p, k, total - amount, now);
      FitsCap(p, amount, total - amount);
      states, events := AuthorizeMore(p, k, states, events, amounts, [], now, amount);
      assert [] + [amount] == [amount];
      states, events := UseMore(p, k, states, events, amounts, [amount], now);
      SumOneMore(amounts, amount);
      amounts := amounts + [amount];
      assert [amount][1..] == [];
    }
  }

  lemma NothingYet(p: Policy, k: nat, now: Instant)
    ensures Leads(p, k, [Settled([], [], now)], [], [], [], now)
  {
  }

  function Repeated(amount: nat, n: nat): (r: seq<nat>)
    ensures |r| == n && forall i :: 0 <= i < n ==> r[i] == amount
  {
    seq(n, i => amount)
  }

  /** n authorizations before the first of them is recorded. */
  lemma {:induction false} AuthorizeMany(p: Policy, k: nat, states: seq<Ledger>, events: seq<Event>, amounts: seq<nat>, now: Instant,
                                         amount: nat, n: nat) returns (states': seq<Ledger>, events': seq<Event>)
    requires Leads(p, k, states, events, amounts, [], now) && n <= k
    requires Wellformed(p) && amount <= p.autonomyLimit
    requires WithinLimits(p, amount, UsageState(Sum(amounts), Sum(amounts)))
    ensures Leads(p, k, states', events', amounts, Repeated(amount, n), now)
  {
    hide Wellformed, WithinLimits, Leads, Sum;
    if n == 0 {
      states', events' := states, events;
      assert Repeated(amount, 0) == [];
    } else {
      states', events' := AuthorizeMany(p, k, states, events, amounts, now, amount, n - 1);
      states', events' := AuthorizeMore(p, k, states', events', amounts, Repeated(amount, n - 1), now, amount);
      assert Repeated(amount, n - 1) + [amount] == Repeated(amount, n);
    }
  }

  /** And then all of them recorded. */
  lemma {:induction false} UseMany(p: Policy, k: nat, states: seq<Ledger>, events: seq<Event>, amounts: seq<nat>, now: Instant,
                                   amount: nat, n: nat) returns (states': seq<Ledger>, events': seq<Event>, amounts': seq<nat>)
    requires Leads(p, k, states, events, amounts, Repeated(amount, n), now)
    ensures Leads(p, k, states', events', amounts', [], now) && Sum(amounts') == Sum(amounts) + n * amount
    decreases n
  {
    hide Leads;
    if n == 0 {
      states', events', amounts' := states, events, amounts;
      assert Repeated(amount, 0) == [];
    } else {
      states', events' := UseMore(p, k, states, events, amounts, Repeated(amount, n), now);
      assert Repeated(amount, n)[1..] == Repeated(amount, n - 1);
      SumOneMore(amounts, amount);
      states', events', amounts' := UseMany(p, k, states', events', amounts + [amount], now, amount, n - 1);
      assert n * amount == amount + (n - 1) * amount;
    }
  }

  /** Whatever the policy and k, unless it allows nothing: there is an enforced run in which the
      total spent is the bound. It spends up to one payment below the cap and then makes k
      authorizations before the first of them is recorded. */
  lemma BoundIsReached(p: Policy, k: nat, now: Instant) returns (states: seq<Ledger>, events: seq<Event>)
    requires Wellformed(p) && (p.dailyLimit.Some? || p.monthlyLimit.Some?) && k > 0 && LargestAllowed(p) > 0
    ensures Run(p, k, states, events) && Enforced(events)
    ensures states[|events|].outstanding == [] && states[|events|].now == now
    ensures DayTotal(states[|events|].history, now) == DayCap(p) + (k - 1) * LargestAllowed(p)
    ensures MonthTotal(states[|events|].history, now) == DayCap(p) + (k - 1) * LargestAllowed(p)
  {
    hide Wellformed, LargestAllowed, DayCap, WithinLimits, DayTotal, MonthTotal, Run, Sum, Records;
    var largest := LargestAllowed(p);
    LargestFits(p);
    var before := DayCap(p) - largest;
    FitsCap(p, largest, before);
    var amounts: seq<nat>;
    states, events, amounts := SpendUpTo(p, k, before, now);
    states, events := AuthorizeMany(p, k, states, events, amounts, now, largest, k);
    states, events, amounts := UseMany(p, k, states, events, amounts, now, largest, k);
    RecordsKept(amounts, now);
    assert k * largest == largest + (k - 1) * largest;
  }

  // ---------------------------------------------------------------------------
  // When the limits hold
  // ---------------------------------------------------------------------------

  predicate SpentWithin(p: Policy, s: Ledger) {
    && (p.dailyLimit.Some? ==> DayTotal(s.history, s.now) <= p.dailyLimit.value)
    && (p.monthlyLimit.Some? ==> MonthTotal(s.history, s.now) <= p.monthlyLimit.value)
  }

  /** In no enforced run with at most k authorizations outstanding does spending exceed a limit. */
  ghost predicate LimitsHold(p: Policy, k: nat) {
    forall states, events, n: nat :: Run(p, k, states, events) && Enforced(events) && n < |states| ==> SpentWithin(p, states[n])
  }

  lemma FewerOutstanding(p: Policy, k: nat, k': nat, states: seq<Ledger>, events: seq<Event>)
    requires Run(p, k, states, events) && k <= k'
    ensures Run(p, k', states, events)
  {
    hide Apply;
    forall i | 0 <= i < |events| ensures Enabled(p, k', states[i], events[i]) {
      assert Enabled(p, k, states[i], events[i]);
    }
  }

  lemma LimitsKept(p: Policy, k: nat, states: seq<Ledger>, events: seq<Event>, n: nat)
    requires Run(p, k, states, events) && Enforced(events) && n < |states| && (k <= 1 || LargestAllowed(p) == 0)
    ensures SpentWithin(p, states[n])
  {
    hide Run, DayTotal, MonthTotal, Sum, LargestAllowed;
    if k <= 1 {
      FewerOutstanding(p, k, 1, states, events);
      OneAtATimeStaysWithinLimits(p, states, events, n);
    } else {
      SpendBound(p, k, states, events, n);
      assert (k - 1) * LargestAllowed(p) == 0;
    }
  }

  /** A policy's limits hold over every enforced run with k authorizations in flight exactly when
      there is at most one, or the policy never allows a positive amount by itself. */
  lemma LimitsHoldExactly(p: Policy, k: nat)
    requires Wellformed(p) && (p.dailyLimit.Some? || p.monthlyLimit.Some?)
    ensures LimitsHold(p, k) <==> k <= 1 || LargestAllowed(p) == 0
  {
    hide Wellformed, LargestAllowed, Run, DayTotal, MonthTotal, Enforced;
    if k <= 1 || LargestAllowed(p) == 0 {
      forall states, events, n: nat | Run(p, k, states, events) && Enforced(events) && n < |states| ensures SpentWithin(p, states[n]) {
        LimitsKept(p, k, states, events, n);
      }
    } else {
      var states, events := BoundIsReached(p, k, Instant(1970, 1, 1, 0));
      RunLength(p, k, states, events);
      assert (k - 1) * LargestAllowed(p) > 0;
      assert !SpentWithin(p, states[|events|]);
    }
  }
}

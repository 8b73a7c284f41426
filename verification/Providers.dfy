/** Emitting finished traces (packages/observability/base.py, composite.py). */
module Providers {
  import opened Text
  import opened Spans

  datatype Settings = Settings(enabled: bool, strict: bool, alwaysTraceErrors: bool, samplingRate: real)

  /** `_sample_trace`; `fraction` is the trace id's digest scaled to the unit interval. */
  predicate SampleTrace(fraction: real, rate: real) {
    if rate >= 1.0 then true else if rate <= 0.0 then false else fraction <= rate
  }

  /** `_should_emit` */
  predicate ShouldEmit(settings: Settings, failed: bool, fraction: real) {
    settings.enabled && ((failed && settings.alwaysTraceErrors) || SampleTrace(fraction, settings.samplingRate))
  }

  /** Raising the rate never loses a trace; the extremes emit everything and nothing but traced errors. */
  lemma SamplingIsMonotone(settings: Settings, higher: real, failed: bool, fraction: real)
    requires settings.samplingRate <= higher && 0.0 <= fraction <= 1.0
    ensures ShouldEmit(settings, failed, fraction) ==> ShouldEmit(settings.(samplingRate := higher), failed, fraction)
    ensures higher >= 1.0 ==> ShouldEmit(settings.(samplingRate := higher), failed, fraction) == settings.enabled
    ensures higher <= 0.0 ==>
              ShouldEmit(settings.(samplingRate := higher), failed, fraction)
              == (settings.enabled && failed && settings.alwaysTraceErrors)
  {
  }

  /** An enabled provider emits a trace without error, if its fraction is a proper one, exactly if the fraction is within the rate. */
  lemma SamplingExactly(settings: Settings, fraction: real)
    requires settings.enabled && 0.0 < fraction < 1.0
    ensures ShouldEmit(settings, false, fraction) <==> fraction <= settings.samplingRate
  {
  }

  /** A provider of its own; whether its exporter fails on an emission is decided outside. */
  class Provider {
    const settings: Settings
    var failureCount: nat

    constructor (settings: Settings)
      ensures this.settings == settings && failureCount == 0
    {
      this.settings, failureCount := settings, 0;
    }

    method IncrementFailure()
      modifies this
      ensures failureCount == old(failureCount) + 1
    {
      failureCount := failureCount + 1;
    }

    /** `_finish_root`: a failed emission is counted, and raised only by a strict provider. */
    method FinishRoot(record: SpanRecord, fraction: real, emissionFails: bool) returns (raised: bool)
      modifies this
      ensures var failing := ShouldEmit(settings, record.error.Some?, fraction) && emissionFails;
              && failureCount == old(failureCount) + (if failing then 1 else 0)
              && raised == (failing && settings.strict)
    {
      if !ShouldEmit(settings, record.error.Some?, fraction) {
        return false;
      }
      if emissionFails {
        IncrementFailure();
        return settings.strict;
      }
      return false;
    }
  }

  // ---------------------------------------------------------------- what a composite counts

  /** One provider's turn: which provider, and whether its emission fails. */
  datatype Turn = Turn(provider: Provider, failing: bool)

  /** The turns a composite would take if nothing stopped it. */
  ghost function Turns(providers: seq<Provider>, failed: bool, fraction: real, fails: seq<bool>): (turns: seq<Turn>)
    requires |fails| == |providers|
    ensures |turns| == |providers|
  {
    if providers == [] then []
    else
      var n := |providers| - 1;
      Turns(providers[..n], failed, fraction, fails[..n])
      + [Turn(providers[n], ShouldEmit(providers[n].settings, failed, fraction) && fails[n])]
  }

  /** The turns actually taken: all, or those up to and including the first strict failure. */
  ghost function Taken(turns: seq<Turn>): (taken: seq<Turn>)
    ensures taken <= turns
  {
    if turns == [] then []
    else
      var before := Taken(turns[..|turns| - 1]);
      if before != turns[..|turns| - 1] || Stops(before) then before else turns
  }

  /** Whether the last of some turns is a strict failure. */
  ghost predicate Stops(turns: seq<Turn>) {
    turns != [] && turns[|turns| - 1].failing && turns[|turns| - 1].provider.settings.strict
  }

  ghost function FailuresIn(turns: seq<Turn>): nat {
    if turns == [] then 0 else FailuresIn(turns[..|turns| - 1]) + if turns[|turns| - 1].failing then 1 else 0
  }

  ghost function FailuresOf(turns: seq<Turn>, p: Provider): nat {
    if turns == [] then 0
    else FailuresOf(turns[..|turns| - 1], p) + if turns[|turns| - 1].failing && turns[|turns| - 1].provider == p then 1 else 0
  }

  /** Turns end early exactly after the first strict failure; no turn is skipped before it. */
  lemma {:induction false} TakenUpToFirstStrictFailure(turns: seq<Turn>)
    ensures var taken := Taken(turns);
            && (forall i :: 0 <= i < |taken| && turns[i].failing && turns[i].provider.settings.strict ==> i == |taken| - 1)
            && (|taken| < |turns| ==> Stops(taken))
  {
    if turns != [] {
      TakenUpToFirstStrictFailure(turns[..|turns| - 1]);
    }
  }

  /** The failures of distinct providers add up to all failures, also when a provider sits in the list twice. */
  lemma {:induction false} FailuresAddUp(turns: seq<Turn>, distinct: seq<Provider>)
    requires forall i, j :: 0 <= i < j < |distinct| ==> distinct[i] != distinct[j]
    requires forall t :: t in turns ==> t.provider in distinct
    ensures SumOver(turns, distinct) == FailuresIn(turns)
  {
    if turns == [] {
      NoFailures(distinct);
    } else {
      var n := |turns| - 1;
      FailuresAddUp(turns[..n], distinct);
      assert turns[n] in turns;
      SumStep(turns, distinct);
    }
  }

  ghost function SumOver(turns: seq<Turn>, distinct: seq<Provider>): nat {
    if distinct == [] then 0
    else SumOver(turns, distinct[..|distinct| - 1]) + FailuresOf(turns, distinct[|distinct| - 1])
  }

  lemma {:induction false} NoFailures(distinct: seq<Provider>)
    ensures SumOver([], distinct) == 0
  {
    if distinct != [] {
      NoFailures(distinct[..|distinct| - 1]);
    }
  }

  lemma {:induction false} SumStep(turns: seq<Turn>, distinct: seq<Provider>)
    requires turns != [] && forall i, j :: 0 <= i < j < |distinct| ==> distinct[i] != distinct[j]
    ensures var last := turns[|turns| - 1];
            SumOver(turns, distinct) ==
              SumOver(turns[..|turns| - 1], distinct) + if last.failing && last.provider in distinct then 1 else 0
  {
    if distinct != [] {
      var n := |distinct| - 1;
      SumStep(turns, distinct[..n]);
      assert distinct == distinct[..n] + [distinct[n]];
    }
  }

  lemma FailuresSnoc(turns: seq<Turn>, last: Turn)
    ensures FailuresIn(turns + [last]) == FailuresIn(turns) + if last.failing then 1 else 0
    ensures forall p :: FailuresOf(turns + [last], p) == FailuresOf(turns, p) + if last.failing && last.provider == p then 1 else 0
  {
    assert (turns + [last])[..|turns|] == turns;
  }

  lemma {:induction false} TurnsPrefix(providers: seq<Provider>, failed: bool, fraction: real, fails: seq<bool>, i: nat)
    requires |fails| == |providers| && i < |providers|
    ensures var turns := Turns(providers, failed, fraction, fails);
            && turns[..i] == Turns(providers[..i], failed, fraction, fails[..i])
            && turns[i] == Turn(providers[i], ShouldEmit(providers[i].settings, failed, fraction) && fails[i])
  {
    hide ShouldEmit;
    var n := |providers| - 1;
    if i < n {
      TurnsPrefix(providers[..n], failed, fraction, fails[..n], i);
      assert providers[..n][..i] == providers[..i] && fails[..n][..i] == fails[..i];
    }
  }

  // ---------------------------------------------------------------- the composite

  datatype HookResult = Returned(ok: bool) | HookRaised

  ghost function HookTurns(providers: seq<Provider>, results: seq<HookResult>): (turns: seq<Turn>)
    requires |results| == |providers|
    ensures |turns| == |providers|
  {
    seq(|providers|, i requires 0 <= i < |providers| => Turn(providers[i], results[i].HookRaised?))
  }

  class Composite {
    const providers: seq<Provider>
    var failureCount: nat

    constructor (providers: seq<Provider>)
      ensures this.providers == providers && failureCount == 0
    {
      this.providers, failureCount := providers, 0;
    }

    /** What a composite counts after some turns, and what its providers count. */
    twostate predicate Counted(new turns: seq<Turn>)
      reads this, set p | p in providers
    {
      && failureCount == old(failureCount) + FailuresIn(turns)
      && forall p :: p in providers ==> p.failureCount == old(p.failureCount) + FailuresOf(turns, p)
    }

    /** One iteration of `_finish_root`: the provider's own failures are counted here too. */
    method Ask(provider: Provider, record: SpanRecord, fraction: real, emissionFails: bool) returns (raised: bool)
      modifies this, provider
      ensures var failing := ShouldEmit(provider.settings, record.error.Some?, fraction) && emissionFails;
              && failureCount == old(failureCount) + (if failing then 1 else 0)
              && provider.failureCount == old(provider.failureCount) + (if failing then 1 else 0)
              && raised == (failing && provider.settings.strict)
    {
      hide ShouldEmit;
      var before := provider.failureCount;
      var providerRaised := provider.FinishRoot(record, fraction, emissionFails);
      if providerRaised {
        failureCount := failureCount + 1;
        return provider.settings.strict;
      }
      for n := 0 to provider.failureCount - before
        invariant failureCount == old(failureCount) + n
        modifies this
      {
        failureCount := failureCount + 1;
      }
      return false;
    }

    /**
     `_finish_root`, over providers whose exporters fail as `fails` says: it attempts every provider
     up to the first strict failure, raises only for that one, and counts every failure once.
     */
    method FinishRoot(record: SpanRecord, fraction: real, fails: seq<bool>) returns (raised: bool)
      requires |fails| == |providers|
      modifies this, set p | p in providers
      ensures var taken := Taken(Turns(providers, record.error.Some?, fraction, fails));
              Counted(taken) && raised == Stops(taken)
    {
      ghost var turns := Turns(providers, record.error.Some?, fraction, fails);
      assert FailuresIn([]) == 0 && Taken([]) == [] && forall p :: FailuresOf([], p) == 0;
      assert turns[..0] == [] && !Stops([]);
      hide Turns, ShouldEmit, FailuresIn, FailuresOf, Taken, Stops;
      raised := false;
      var i := 0;
      while i < |providers| && !raised
        invariant 0 <= i <= |providers|
        invariant Taken(turns[..i]) == turns[..i] && Stops(turns[..i]) == raised
        invariant Counted(turns[..i])
      {
        TurnsPrefix(providers, record.error.Some?, fraction, fails, i);
        NextTurn(turns, i);
        assert providers[i] in providers;
        raised := Ask(providers[i], record, fraction, fails[i]);
        forall p | p in providers ensures p.failureCount == old(p.failureCount) + FailuresOf(turns[..i + 1], p) {}
        i := i + 1;
      }
      TakenToTheEnd(turns, i);
    }

    /** `_run_lifecycle_hook`: every provider is asked; the hook succeeded if all returned true. */
    method RunLifecycleHook(results: seq<HookResult>) returns (success: bool)
      requires |results| == |providers|
      modifies this, set p | p in providers
      ensures Counted(HookTurns(providers, results))
      ensures success <==> forall k :: 0 <= k < |results| ==> results[k] == Returned(true)
    {
      ghost var turns := HookTurns(providers, results);
      success := true;
      for i := 0 to |providers|
        invariant Counted(turns[..i])
        invariant success <==> forall k :: 0 <= k < i ==> results[k] == Returned(true)
      {
        FailuresSnoc(turns[..i], turns[i]);
        assert turns[..i + 1] == turns[..i] + [turns[i]];
        hide FailuresIn, FailuresOf;
        match results[i] {
          case Returned(ok) =>
            if !ok {
              success := false;
            }
          case HookRaised =>
            providers[i].IncrementFailure();
            failureCount := failureCount + 1;
            success := false;
        }
      }
      assert turns[..|providers|] == turns;
    }
  }

  /** One more turn. */
  lemma NextTurn(turns: seq<Turn>, i: nat)
    requires i < |turns| && Taken(turns[..i]) == turns[..i] && !Stops(turns[..i])
    ensures Taken(turns[..i + 1]) == turns[..i + 1]
    ensures Stops(turns[..i + 1]) <==> turns[i].failing && turns[i].provider.settings.strict
    ensures FailuresIn(turns[..i + 1]) == FailuresIn(turns[..i]) + if turns[i].failing then 1 else 0
    ensures forall p :: FailuresOf(turns[..i + 1], p) == FailuresOf(turns[..i], p)
                                                        + if turns[i].failing && turns[i].provider == p then 1 else 0
  {
    assert turns[..i + 1] == turns[..i] + [turns[i]];
    TakenSnoc(turns[..i], turns[i]);
    FailuresSnoc(turns[..i], turns[i]);
  }

  lemma TakenSnoc(turns: seq<Turn>, last: Turn)
    requires Taken(turns) == turns && !Stops(turns)
    ensures Taken(turns + [last]) == turns + [last]
  {
    assert (turns + [last])[..|turns|] == turns;
  }

  /** Once the turns so far end in a strict failure, they are all that is taken. */
  lemma {:induction false} TakenStops(turns: seq<Turn>, i: nat)
    requires i <= |turns| && Taken(turns[..i]) == turns[..i] && Stops(turns[..i])
    ensures Taken(turns) == turns[..i]
  {
    if i == |turns| {
      assert turns[..i] == turns;
    } else {
      var n := |turns| - 1;
      assert turns[..n][..i] == turns[..i];
      TakenStops(turns[..n], i);
    }
  }

  lemma TakenToTheEnd(turns: seq<Turn>, i: nat)
    requires i <= |turns| && Taken(turns[..i]) == turns[..i] && (i == |turns| || Stops(turns[..i]))
    ensures Taken(turns) == turns[..i]
  {
    if i == |turns| {
      assert turns[..i] == turns;
    } else {
      TakenStops(turns, i);
    }
  }

  /** A composite without strict providers never raises, and then asks every provider. */
  lemma {:induction false} LenientNeverStops(turns: seq<Turn>)
    requires forall t :: t in turns ==> !t.provider.settings.strict
    ensures Taken(turns) == turns && !Stops(turns)
  {
    if turns != [] {
      LenientNeverStops(turns[..|turns| - 1]);
    }
  }
}

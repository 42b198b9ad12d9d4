/** When the circuit breaker opens, half-opens and closes, told by the history of actions alone. */
module CircuitHistory {
  import opened Wrappers
  import opened CircuitBreaker

  /** A function that was in flight ends. */
  predicate Ends(w: World, a: Action, o: Outcome) {
    a == End(o) && w.inFlight > 0
  }

  predicate Reads(a: Action) {
    a.Enter? || a.Look?
  }

  /** The counted failures since the last success or reset. */
  function FailuresInARow(c: Config, start: real, acts: seq<Action>): nat {
    if acts == [] then 0
    else
      var init, a := acts[..|acts| - 1], acts[|acts| - 1];
      var w := Run(c, Initial(start), init);
      if a.Reset? || Ends(w, a, Success) then 0
      else if Ends(w, a, CountedFailure) then FailuresInARow(c, start, init) + 1
      else FailuresInARow(c, start, init)
  }

  /** The successes since the breaker was found half-open, if it still is. */
  function TrialSuccesses(c: Config, start: real, acts: seq<Action>): nat {
    if acts == [] then 0
    else
      var init, a := acts[..|acts| - 1], acts[|acts| - 1];
      var w := Run(c, Initial(start), init);
      if w.b.mode != HalfOpen then 0
      else if Ends(w, a, Success) then TrialSuccesses(c, start, init) + 1
      else TrialSuccesses(c, start, init)
  }

  /** When the last counted failure since a reset was. */
  function LastFailureAt(c: Config, start: real, acts: seq<Action>): Option<real> {
    if acts == [] then None
    else
      var init, a := acts[..|acts| - 1], acts[|acts| - 1];
      var w := Run(c, Initial(start), init);
      if a.Reset? then None
      else if Ends(w, a, CountedFailure) then Some(w.now)
      else LastFailureAt(c, start, init)
  }

  lemma {:induction false} FailuresTell(c: Config, start: real, acts: seq<Action>)
    ensures var b := Run(c, Initial(start), acts).b; b.mode == Closed ==> b.failures == FailuresInARow(c, start, acts)
  {
    if acts != [] {
      FailuresTell(c, start, acts[..|acts| - 1]);
    }
  }

  lemma {:induction false} TrialsTell(c: Config, start: real, acts: seq<Action>)
    ensures var b := Run(c, Initial(start), acts).b; b.mode == HalfOpen ==> b.successes == TrialSuccesses(c, start, acts)
  {
    if acts != [] {
      TrialsTell(c, start, acts[..|acts| - 1]);
      NoTrialsYet(c, start, acts[..|acts| - 1]);
    }
  }

  lemma NoTrialsYet(c: Config, start: real, acts: seq<Action>)
    ensures var b := Run(c, Initial(start), acts).b; b.mode != HalfOpen ==> b.successes == 0
  {
    BreakerIsSafe(c, start, acts);
    hide Run;
  }

  lemma {:induction false} LastFailureTells(c: Config, start: real, acts: seq<Action>)
    ensures var b := Run(c, Initial(start), acts).b;
            b.mode != Closed ==> LastFailureAt(c, start, acts) == Some(b.lastFailure)
  {
    if acts != [] {
      LastFailureTells(c, start, acts[..|acts| - 1]);
    }
  }

  /** In every interleaving, each action moves the breaker exactly so. A closed one opens when a
      counted failure is at least the `threshold`th since the last success or reset. A half-open one
      opens at any counted failure, and closes at the second success in a row or at a reset. An open
      one becomes half-open when its state is read a full recovery time after the last counted
      failure, and closed only by a reset. */
  lemma MovesExactly(c: Config, start: real, acts: seq<Action>, a: Action)
    ensures var w, mode := Run(c, Initial(start), acts), Run(c, Initial(start), acts + [a]).b.mode;
            match w.b.mode
            case Closed =>
              mode == if Ends(w, a, CountedFailure) && FailuresInARow(c, start, acts) + 1 >= c.threshold
                      then Open else Closed
            case HalfOpen =>
              mode == if Ends(w, a, CountedFailure) then Open
                      else if a.Reset? || (Ends(w, a, Success) && TrialSuccesses(c, start, acts) == 1) then Closed
                      else HalfOpen
            case Open =>
              var failed := LastFailureAt(c, start, acts);
              failed.Some? && mode == if a.Reset? then Closed
                                      else if Reads(a) && w.now - failed.value >= c.recovery then HalfOpen
                                      else Open
  {
    FailuresTell(c, start, acts);
    TrialsTell(c, start, acts);
    LastFailureTells(c, start, acts);
    BreakerIsSafe(c, start, acts);
    RunSnoc(c, Initial(start), acts, a);
    hide Run, FailuresInARow, TrialSuccesses, LastFailureAt;
  }

  /** Without a success or a reset, a closed breaker is left open, or half-open if the recovery time
      passed since, exactly if there was a counted failure and they are now `threshold` in a row. */
  lemma {:induction false} OpensAtTheThreshold(c: Config, start: real, acts: seq<Action>, more: seq<Action>)
    requires Run(c, Initial(start), acts).b.mode == Closed
    requires forall a :: a in more ==> !a.Reset? && a != End(Success)
    ensures var before, after := FailuresInARow(c, start, acts), FailuresInARow(c, start, acts + more);
            && before <= after
            && (Run(c, Initial(start), acts + more).b.mode != Closed <==> before < after && after >= c.threshold)
  {
    if more == [] {
      assert acts + more == acts;
    } else {
      var init, a := more[..|more| - 1], more[|more| - 1];
      var all := acts + init;
      assert acts + more == all + [a] && (all + [a])[..|all|] == all;
      OpensAtTheThreshold(c, start, acts, init);
      MovesExactly(c, start, all, a);
      hide Run, TrialSuccesses, LastFailureAt;
    }
  }

  /** A call is admitted exactly if reading the state does not leave it open. */
  lemma AdmittedIff(c: Config, start: real, acts: seq<Action>)
    ensures var w, w' := Run(c, Initial(start), acts), Run(c, Initial(start), acts + [Enter]);
            && (w'.b.mode != Open <==> |w'.admissions| == |w.admissions| + 1)
            && w'.admitted - w.admitted == |w'.admissions| - |w.admissions|
  {
    RunSnoc(c, Initial(start), acts, Enter);
    hide Run;
  }

  /** One call alone is the run of its admission, its start and its end. */
  lemma CallIsARun(c: Config, w: World, o: Outcome, dt: real)
    requires w.admitted == 0 && w.inFlight == 0 && dt >= 0.0
    ensures var w' := Run(c, w, [] + [Enter] + [Start] + [Tick(dt)] + [End(o)]);
            && (w'.b, |w'.admissions| > |w.admissions|) == Called(c, w.b, o, w.now, w.now + dt)
            && w'.admitted == 0 && w'.inFlight == 0 && w'.now == w.now + dt
  {
    RunSnoc(c, w, [], Enter);
    RunSnoc(c, w, [] + [Enter], Start);
    RunSnoc(c, w, [] + [Enter] + [Start], Tick(dt));
    RunSnoc(c, w, [] + [Enter] + [Start] + [Tick(dt)], End(o));
  }
}

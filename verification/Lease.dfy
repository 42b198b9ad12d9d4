/** Lease-based leadership over a shared append-only log, and the three hypotheses under
    which it excludes a second leader. */
module Lease {
  import opened Wrappers

  datatype Kind = AcquireKind | RenewKind | ReleaseKind

  datatype LeaseRecord = LeaseRecord(ts: real, owner: string, kind: Kind)

  function Last(log: seq<LeaseRecord>): Option<LeaseRecord> {
    if log == [] then None else Some(log[|log| - 1])
  }

  /** `_lease_is_valid`: a lease of age exactly `stale` is still live. */
  predicate IsValid(r: LeaseRecord, now: real, stale: real) {
    !r.kind.ReleaseKind? && now - r.ts <= stale
  }

  predicate Refuses(log: seq<LeaseRecord>, now: real, stale: real) {
    Last(log).Some? && IsValid(Last(log).value, now, stale)
  }

  // ------------------------------------------------------------- the objects

  class LeaseStore {
    var log: seq<LeaseRecord>

    constructor ()
      ensures log == []
    {
      log := [];
    }

    method Append(r: LeaseRecord)
      modifies this
      ensures log == old(log) + [r]
    {
      log := log + [r];
    }
  }

  class FailoverManager {
    const store: LeaseStore
    const staleAfter: real
    const owner: string
    var leading: bool

    constructor (store: LeaseStore, staleAfter: real, owner: string)
      ensures this.store == store && this.staleAfter == staleAfter && this.owner == owner && !leading
    {
      this.store, this.staleAfter, this.owner := store, staleAfter, owner;
      leading := false;
    }

    method TryAcquireLeadership(now: real) returns (won: bool)
      modifies this, store
      ensures (store.log, leading) == Acquired(old(store.log), old(leading), owner, now, staleAfter)
      ensures won == leading
      ensures old(leading) ==> won && store.log == old(store.log) + [LeaseRecord(now, owner, RenewKind)]
    {
      if leading {
        Renew(now);
        return true;
      }
      var last := Last(store.log);
      if last.Some? && IsValid(last.value, now, staleAfter) {
        return false;
      }
      store.Append(LeaseRecord(now, owner, AcquireKind));
      leading := true;
      won := true;
    }

    method Renew(now: real)
      modifies store
      ensures store.log == if leading then old(store.log) + [LeaseRecord(now, owner, RenewKind)] else old(store.log)
    {
      if leading {
        store.Append(LeaseRecord(now, owner, RenewKind));
      }
    }

    method Release(now: real)
      modifies this, store
      ensures !leading
      ensures store.log == if old(leading) then old(store.log) + [LeaseRecord(now, owner, ReleaseKind)] else old(store.log)
    {
      if leading {
        store.Append(LeaseRecord(now, owner, ReleaseKind));
        leading := false;
      }
    }

    /** The standby loop's attempt; a leader returns without renewing. */
    method PollTakeover(now: real) returns (won: bool)
      modifies this, store
      ensures won == leading
      ensures (store.log, leading)
              == if old(leading) then (old(store.log), true) else Acquired(old(store.log), false, owner, now, staleAfter)
    {
      if leading {
        return true;
      }
      won := TryAcquireLeadership(now);
    }
  }

  function Acquired(log: seq<LeaseRecord>, leading: bool, owner: string, now: real, stale: real)
    : (seq<LeaseRecord>, bool)
  {
    if leading then (log + [LeaseRecord(now, owner, RenewKind)], true)
    else if Refuses(log, now, stale) then (log, false)
    else (log + [LeaseRecord(now, owner, AcquireKind)], true)
  }

  /** What an attempt does. A leader renews and stays. Anybody else wins exactly if there is no record,
      the last one is a release, or it is older than `stale`; a winner appends its own record of the
      moment, a loser nothing. */
  lemma AcquiredTells(log: seq<LeaseRecord>, leading: bool, owner: string, now: real, stale: real)
    ensures var (log', won) := Acquired(log, leading, owner, now, stale);
            && (leading ==> won && log' == log + [LeaseRecord(now, owner, RenewKind)])
            && (!leading ==> (won <==> log == [] || log[|log| - 1].kind == ReleaseKind || now > log[|log| - 1].ts + stale))
            && (!leading && won ==> log' == log + [LeaseRecord(now, owner, AcquireKind)])
            && (!won ==> log' == log)
  {
  }

  // ------------------------------------------------------------- many processes

  /** A live process. `skew` is how far its clock runs ahead of the common one; `cleared`
      says that it has read the log and may append, when acquiring is not atomic. */
  datatype Proc = Proc(leading: bool, skew: real, cleared: bool)

  datatype World = World(now: real, log: seq<LeaseRecord>, procs: map<string, Proc>)

  const START := World(0.0, [], map[])

  datatype Action =
    | Tick(dt: real)
    | Boot(owner: string, skew: real)
    | Acquire(owner: string)       // the whole of `try_acquire_leadership`
    | Renew(owner: string)
    | Release(owner: string)
    | Crash(owner: string)
    | Check(owner: string)         // only its reading of the log ...
    | Append(owner: string)        // ... and only its append

  predicate Leads(w: World, owner: string) {
    owner in w.procs && w.procs[owner].leading
  }

  function Clock(w: World, owner: string): real
    requires owner in w.procs
  {
    w.now + w.procs[owner].skew
  }

  function Lead(w: World, owner: string, leading: bool): map<string, Proc>
    requires owner in w.procs
  {
    w.procs[owner := w.procs[owner].(leading := leading, cleared := false)]
  }

  function Step(stale: real, w: World, a: Action): World {
    match a
    case Tick(dt) => if dt < 0.0 then w else w.(now := w.now + dt)
    case Boot(o, skew) => if o in w.procs then w else w.(procs := w.procs[o := Proc(false, skew, false)])
    case Crash(o) => w.(procs := w.procs - {o})
    case Acquire(o) =>
      if o !in w.procs then w
      else
        var (log, leading) := Acquired(w.log, w.procs[o].leading, o, Clock(w, o), stale);
        w.(log := log, procs := Lead(w, o, leading))
    case Renew(o) =>
      if !Leads(w, o) then w else w.(log := w.log + [LeaseRecord(Clock(w, o), o, RenewKind)])
    case Release(o) =>
      if !Leads(w, o) then w
      else w.(log := w.log + [LeaseRecord(Clock(w, o), o, ReleaseKind)], procs := Lead(w, o, false))
    case Check(o) =>
      if o !in w.procs || Leads(w, o) || Refuses(w.log, Clock(w, o), stale) then w
      else w.(procs := w.procs[o := w.procs[o].(cleared := true)])
    case Append(o) =>
      if o !in w.procs || !w.procs[o].cleared then w
      else w.(log := w.log + [LeaseRecord(Clock(w, o), o, AcquireKind)], procs := Lead(w, o, true))
  }

  function Run(stale: real, w: World, acts: seq<Action>): World {
    if acts == [] then w else Step(stale, Run(stale, w, acts[..|acts| - 1]), acts[|acts| - 1])
  }

  // ------------------------------------------------------------- the hypotheses

  /** Acquiring is one atomic step. */
  predicate Atomic(acts: seq<Action>) {
    forall a :: a in acts ==> !a.Check? && !a.Append?
  }

  /** Every process reads the same clock. */
  predicate OneClock(acts: seq<Action>) {
    forall a :: a in acts && a.Boot? ==> a.skew == 0.0
  }

  function LastOf(log: seq<LeaseRecord>, owner: string): Option<LeaseRecord> {
    if log == [] then None
    else if log[|log| - 1].owner == owner then Some(log[|log| - 1])
    else LastOf(log[..|log| - 1], owner)
  }

  /** No live leader's own last record is older than `stale`. */
  ghost predicate Prompt(stale: real, w: World) {
    forall o :: Leads(w, o) ==> LastOf(w.log, o).Some? && w.now - LastOf(w.log, o).value.ts <= stale
  }

  ghost predicate AlwaysPrompt(stale: real, acts: seq<Action>) {
    forall n :: 0 <= n <= |acts| ==> Prompt(stale, Run(stale, START, acts[..n]))
  }

  // ------------------------------------------------------------- mutual exclusion

  /** At most one live process leads, and it wrote the log's last record, which is no release. */
  ghost predicate OneLeader(w: World) {
    && (forall o, p :: Leads(w, o) && Leads(w, p) ==> o == p)
    && (forall o :: Leads(w, o) ==>
          Last(w.log).Some? && Last(w.log).value.owner == o && !Last(w.log).value.kind.ReleaseKind?)
  }

  ghost predicate Plain(w: World) {
    forall o :: o in w.procs ==> w.procs[o].skew == 0.0 && !w.procs[o].cleared
  }

  /** While a prompt leader lives, the log refuses everybody else. */
  lemma LeaderBlocks(stale: real, w: World, o: string)
    requires OneLeader(w) && Prompt(stale, w) && Leads(w, o)
    ensures Refuses(w.log, w.now, stale)
  {
    assert LastOf(w.log, o) == Last(w.log);
  }

  lemma StepKeepsOneLeader(stale: real, w: World, a: Action)
    requires OneLeader(w) && Plain(w) && Prompt(stale, w) && Atomic([a]) && OneClock([a])
    ensures OneLeader(Step(stale, w, a)) && Plain(Step(stale, w, a))
  {
    assert a in [a];
    var w' := Step(stale, w, a);
    if a.Acquire? && a.owner in w.procs && !Leads(w, a.owner) {
      assert w.procs[a.owner].skew == 0.0;
      if Refuses(w.log, w.now, stale) {
        assert forall o :: Leads(w', o) ==> Leads(w, o);
      } else {
        forall o | Leads(w', o) ensures o == a.owner {
          if Leads(w, o) {
            LeaderBlocks(stale, w, o);
          }
        }
      }
    } else {
      assert forall o :: Leads(w', o) ==> Leads(w, o);
    }
  }

  /** In every run of boots, acquires, renewals, releases, crashes and clock steps, under the
      three hypotheses, at most one live process believes that it leads, and it owns the last
      record of the log, which is not a release. */
  lemma {:induction false} MutualExclusion(stale: real, acts: seq<Action>)
    requires Atomic(acts) && OneClock(acts) && AlwaysPrompt(stale, acts)
    ensures OneLeader(Run(stale, START, acts)) && Plain(Run(stale, START, acts))
  {
    if acts != [] {
      var init, last := acts[..|acts| - 1], acts[|acts| - 1];
      assert acts == init + [last];
      assert AlwaysPrompt(stale, init) by {
        forall n | 0 <= n <= |init| ensures Prompt(stale, Run(stale, START, init[..n])) {
          assert init[..n] == acts[..n];
        }
      }
      MutualExclusion(stale, init);
      assert acts[..|init|] == init;
      StepKeepsOneLeader(stale, Run(stale, START, init), last);
    }
  }

  // ------------------------------------------------------------- takeover

  ghost predicate Leaderless(w: World) {
    forall o :: !Leads(w, o)
  }

  lemma {:induction false} ClockAdvances(stale: real, w: World, acts: seq<Action>)
    ensures Run(stale, w, acts).now >= w.now
  {
    if acts != [] {
      ClockAdvances(stale, w, acts[..|acts| - 1]);
    }
  }

  lemma {:induction false} StaysPlain(stale: real, w: World, acts: seq<Action>)
    requires Plain(w) && Atomic(acts) && OneClock(acts)
    ensures Plain(Run(stale, w, acts))
  {
    if acts != [] {
      assert acts == acts[..|acts| - 1] + [acts[|acts| - 1]];
      StaysPlain(stale, w, acts[..|acts| - 1]);
    }
  }

  /** After the leader's crash nobody takes over, whatever is tried, until its last record is
      older than `stale`. */
  lemma {:induction false} NoTakeoverWhileFresh(stale: real, w: World, acts: seq<Action>)
    requires Plain(w) && Leaderless(w) && Atomic(acts) && OneClock(acts)
    requires Last(w.log).Some? && IsValid(Last(w.log).value, Run(stale, w, acts).now, stale)
    ensures Leaderless(Run(stale, w, acts)) && Run(stale, w, acts).log == w.log
  {
    if acts != [] {
      var init, last := acts[..|acts| - 1], acts[|acts| - 1];
      assert acts == init + [last];
      ClockAdvances(stale, Run(stale, w, init), [last]);
      assert [last][..0] == [];
      NoTakeoverWhileFresh(stale, w, init);
      StaysPlain(stale, w, init);
      var w1 := Run(stale, w, init);
      assert forall o :: o in w1.procs ==> w1.procs[o].skew == 0.0 && !Leads(w1, o);
      assert forall o :: Leads(Run(stale, w, acts), o) ==> Leads(w1, o);
    }
  }

  /** Every attempt in `acts` is made while the log left behind still refuses. Anything else may
      happen in between: ticks, boots, crashes, and the empty renewals and releases of non-leaders. */
  ghost predicate EarlyPolls(stale: real, w: World, acts: seq<Action>) {
    forall i :: 0 <= i < |acts| && acts[i].Acquire? ==> Refuses(w.log, Run(stale, w, acts[..i]).now, stale)
  }

  lemma {:induction false} NobodyMoves(stale: real, w: World, acts: seq<Action>)
    requires Plain(w) && Leaderless(w) && Atomic(acts) && OneClock(acts) && EarlyPolls(stale, w, acts)
    ensures Leaderless(Run(stale, w, acts)) && Run(stale, w, acts).log == w.log
  {
    if acts != [] {
      var init, last := acts[..|acts| - 1], acts[|acts| - 1];
      assert acts == init + [last];
      assert forall i :: 0 <= i < |init| ==> init[..i] == acts[..i] && init[i] == acts[i];
      NobodyMoves(stale, w, init);
      StaysPlain(stale, w, init);
      assert acts[..|init|] == init;
      QuietStep(stale, Run(stale, w, init), last);
      hide Step, Plain, Leaderless;
    }
  }

  lemma QuietStep(stale: real, w: World, a: Action)
    requires Plain(w) && Leaderless(w) && !a.Check? && !a.Append?
    requires a.Acquire? ==> Refuses(w.log, w.now, stale)
    ensures Leaderless(Step(stale, w, a)) && Step(stale, w, a).log == w.log
  {
    assert forall o :: o in w.procs ==> w.procs[o].skew == 0.0 && !Leads(w, o);
    assert forall o :: Leads(Step(stale, w, a), o) ==> Leads(w, o);
  }

  /** From any leaderless world, after any run whose attempts all came too early, the next
      attempt succeeds exactly when the last record is missing, a release, or older than `stale`;
      then the one who made it leads alone, and otherwise nobody does. */
  lemma {:induction false} FirstPollDecides(stale: real, w: World, acts: seq<Action>, p: string)
    requires Plain(w) && Leaderless(w) && Atomic(acts) && OneClock(acts) && EarlyPolls(stale, w, acts)
    requires p in Run(stale, w, acts).procs
    ensures var w1, w2 := Run(stale, w, acts), Run(stale, w, acts + [Acquire(p)]);
            && (Leads(w2, p) <==> Last(w.log).None? || !IsValid(Last(w.log).value, w1.now, stale))
            && (forall q :: q != p ==> !Leads(w2, q))
            && w2.log == if Leads(w2, p) then w.log + [LeaseRecord(w1.now, p, AcquireKind)] else w.log
  {
    NobodyMoves(stale, w, acts);
    StaysPlain(stale, w, acts);
    var w1 := Run(stale, w, acts);
    assert !Leads(w1, p);
    assert (acts + [Acquire(p)])[..|acts|] == acts;
    assert forall q :: q != p && Leads(Step(stale, w1, Acquire(p)), q) ==> Leads(w1, q);
  }

  /** A crash of the leader makes the world leaderless and leaves its last record standing. */
  lemma CrashLeavesTheLease(stale: real, acts: seq<Action>, o: string)
    requires Atomic(acts) && OneClock(acts) && AlwaysPrompt(stale, acts) && Leads(Run(stale, START, acts), o)
    ensures var w := Step(stale, Run(stale, START, acts), Crash(o));
            && Leaderless(w) && Plain(w) && w.log == Run(stale, START, acts).log
            && Last(w.log).Some? && Last(w.log).value.owner == o && IsValid(Last(w.log).value, w.now, stale)
  {
    var w := Run(stale, START, acts);
    MutualExclusion(stale, acts);
    assert acts[..|acts|] == acts;
    assert LastOf(w.log, o) == Last(w.log);
    assert forall p :: Leads(Step(stale, w, Crash(o)), p) ==> Leads(w, p) && p != o;
  }

  /** Takeover, from boot to the new leader: a leader crashes, and then all attempts are made while
      its last record is at most `stale` old. They all fail; and the next one, whoever makes it,
      succeeds exactly if that record is older than `stale` by then. */
  lemma TakeoverAfterCrash(stale: real, before: seq<Action>, o: string, after: seq<Action>, p: string)
    requires Atomic(before) && OneClock(before) && AlwaysPrompt(stale, before) && Leads(Run(stale, START, before), o)
    requires Atomic(after) && OneClock(after)
    requires var w := Step(stale, Run(stale, START, before), Crash(o));
             EarlyPolls(stale, w, after) && p in Run(stale, w, after).procs
    ensures var w := Step(stale, Run(stale, START, before), Crash(o));
            var w1, w2 := Run(stale, w, after), Run(stale, w, after + [Acquire(p)]);
            && Last(w.log).Some? && Last(w.log).value.owner == o
            && Leaderless(w1) && w1.log == w.log
            && (Leads(w2, p) <==> w1.now - Last(w.log).value.ts > stale)
            && (forall q :: q != p ==> !Leads(w2, q))
  {
    var w := Step(stale, Run(stale, START, before), Crash(o));
    CrashLeavesTheLease(stale, before, o);
    NobodyMoves(stale, w, after);
    FirstPollDecides(stale, w, after, p);
    hide Run, Step, Plain, EarlyPolls;
  }

  // ------------------------------------------------- each hypothesis is needed

  ghost predicate SplitBrain(w: World) {
    exists o, p :: o != p && Leads(w, o) && Leads(w, p)
  }

  lemma {:induction false} RunSnoc(stale: real, w: World, acts: seq<Action>, a: Action)
    ensures Run(stale, w, acts + [a]) == Step(stale, Run(stale, w, acts), a)
  {
    assert (acts + [a])[..|acts|] == acts;
  }

  lemma PromptSnoc(stale: real, acts: seq<Action>, a: Action)
    requires AlwaysPrompt(stale, acts) && Prompt(stale, Step(stale, Run(stale, START, acts), a))
    ensures AlwaysPrompt(stale, acts + [a])
    ensures Run(stale, START, acts + [a]) == Step(stale, Run(stale, START, acts), a)
  {
    hide Step, Prompt;
    RunSnoc(stale, START, acts, a);
    forall n | 0 <= n <= |acts| + 1 ensures Prompt(stale, Run(stale, START, (acts + [a])[..n])) {
      if n <= |acts| {
        assert (acts + [a])[..n] == acts[..n];
      } else {
        assert (acts + [a])[..n] == acts + [a];
      }
    }
  }

  function TwoBoots(skew: real): seq<Action> {
    [] + [Boot("A", 0.0)] + [Boot("B", skew)]
  }

  function TwoProcs(a: Proc, b: Proc): map<string, Proc> {
    map["A" := a, "B" := b]
  }

  lemma TwoBooted(stale: real, skew: real)
    ensures Run(stale, START, TwoBoots(skew)) == World(0.0, [], TwoProcs(Proc(false, 0.0, false), Proc(false, skew, false)))
    ensures AlwaysPrompt(stale, TwoBoots(skew))
  {
    PromptSnoc(stale, [], Boot("A", 0.0));
    PromptSnoc(stale, [] + [Boot("A", 0.0)], Boot("B", skew));
  }

  lemma BothLead(w: World)
    requires Leads(w, "A") && Leads(w, "B")
    ensures SplitBrain(w)
  {
    assert "A" != "B";
  }

  /** A leader that is late with its renewal does not notice that it was replaced. */
  lemma LateRenewalSplits(stale: real)
    requires stale >= 0.0
    ensures var acts := TwoBoots(0.0) + [Acquire("A")] + [Tick(stale + 1.0)] + [Acquire("B")];
            SplitBrain(Run(stale, START, acts)) && Atomic(acts) && OneClock(acts)
  {
    var b := TwoBoots(0.0);
    TwoBooted(stale, 0.0);
    RunSnoc(stale, START, b, Acquire("A"));
    RunSnoc(stale, START, b + [Acquire("A")], Tick(stale + 1.0));
    RunSnoc(stale, START, b + [Acquire("A")] + [Tick(stale + 1.0)], Acquire("B"));
    BothLead(Run(stale, START, b + [Acquire("A")] + [Tick(stale + 1.0)] + [Acquire("B")]));
  }

  /** Two processes that have both read the empty log append one after the other. */
  lemma TwoAppends(stale: real)
    requires stale >= 0.0
    ensures var w := World(0.0, [], TwoProcs(Proc(false, 0.0, true), Proc(false, 0.0, true)));
            var w1 := Step(stale, w, Append("A"));
            var w2 := Step(stale, w1, Append("B"));
            Prompt(stale, w1) && Prompt(stale, w2) && Leads(w2, "A") && Leads(w2, "B")
  {
    var w := World(0.0, [], TwoProcs(Proc(false, 0.0, true), Proc(false, 0.0, true)));
    var first := LeaseRecord(0.0, "A", AcquireKind);
    assert Step(stale, w, Append("A")).log == [first];
    assert [first, LeaseRecord(0.0, "B", AcquireKind)][..1] == [first];
  }

  lemma TwoChecks(stale: real, acts: seq<Action>)
    requires AlwaysPrompt(stale, acts)
    requires Run(stale, START, acts) == World(0.0, [], TwoProcs(Proc(false, 0.0, false), Proc(false, 0.0, false)))
    ensures AlwaysPrompt(stale, acts + [Check("A")] + [Check("B")])
    ensures Run(stale, START, acts + [Check("A")] + [Check("B")])
            == World(0.0, [], TwoProcs(Proc(false, 0.0, true), Proc(false, 0.0, true)))
  {
    PromptSnoc(stale, acts, Check("A"));
    PromptSnoc(stale, acts + [Check("A")], Check("B"));
  }

  /** Two processes that both read the log before either appends both win, however fresh. */
  lemma NonAtomicAcquireSplits(stale: real)
    requires stale >= 0.0
    ensures var acts := TwoBoots(0.0) + [Check("A")] + [Check("B")] + [Append("A")] + [Append("B")];
            SplitBrain(Run(stale, START, acts)) && OneClock(acts) && AlwaysPrompt(stale, acts)
  {
    hide Run, Step, Prompt, AlwaysPrompt;
    var b := TwoBoots(0.0);
    TwoBooted(stale, 0.0);
    TwoChecks(stale, b);
    TwoAppends(stale);
    PromptSnoc(stale, b + [Check("A")] + [Check("B")], Append("A"));
    PromptSnoc(stale, b + [Check("A")] + [Check("B")] + [Append("A")], Append("B"));
    BothLead(Run(stale, START, b + [Check("A")] + [Check("B")] + [Append("A")] + [Append("B")]));
  }

  lemma SkewedAcquires(stale: real)
    requires stale >= 0.0
    ensures var w := World(0.0, [], TwoProcs(Proc(false, 0.0, false), Proc(false, stale + 1.0, false)));
            var w1 := Step(stale, w, Acquire("A"));
            var w2 := Step(stale, w1, Acquire("B"));
            Prompt(stale, w1) && Prompt(stale, w2) && Leads(w2, "A") && Leads(w2, "B")
  {
    var w := World(0.0, [], TwoProcs(Proc(false, 0.0, false), Proc(false, stale + 1.0, false)));
    var first := LeaseRecord(0.0, "A", AcquireKind);
    assert Step(stale, w, Acquire("A")).log == [first];
    assert [first, LeaseRecord(stale + 1.0, "B", AcquireKind)][..1] == [first];
  }

  /** A standby whose clock runs ahead by more than `stale` takes a lease that is fresh. */
  lemma SkewedClockSplits(stale: real)
    requires stale >= 0.0
    ensures var acts := TwoBoots(stale + 1.0) + [Acquire("A")] + [Acquire("B")];
            SplitBrain(Run(stale, START, acts)) && Atomic(acts) && AlwaysPrompt(stale, acts)
  {
    hide Run, Step, Prompt, AlwaysPrompt;
    var b := TwoBoots(stale + 1.0);
    TwoBooted(stale, stale + 1.0);
    SkewedAcquires(stale);
    PromptSnoc(stale, b, Acquire("A"));
    PromptSnoc(stale, b + [Acquire("A")], Acquire("B"));
    BothLead(Run(stale, START, b + [Acquire("A")] + [Acquire("B")]));
  }
}

/** The outbox under faults: every event's look-up, note, commit, persist, publish and mark as
    separate actions, any number of events in flight at once (of one key, too), inserting,
    persisting and publishing that may fail, threads and processes that may die between any two
    actions, and a replay that runs while no event is in flight. */
module Outbox {
  import opened Wrappers
  import opened OrderedDict
  import opened Sequences
  import opened Journal
  import opened TradeEntity
  import Engine = OrderEventEngine

  type Table = Journal.Table<Engine.Envelope>

  /** Where a call stands whose event is journaled. */
  datatype Phase = Journaled | Persisted | Delivered

  /** A replay under way: the rows of its snapshot still to settle, and whether the first of
      them has been published but not yet marked. */
  datatype Replaying = Replaying(todo: seq<string>, sent: bool)

  /** Only `table` is durable. Calls on two trades may present one key at once: `looked` holds
      the key of each call that found it neither seen nor journaled, `noted` of each that has then
      put it in the seen set, `inflight` of the one whose insert went through. `delivered` is every
      publication, in order; `gaps` counts, per key, the faults that fell between a publication
      and its mark. */
  datatype State = State(table: Table, seen: set<string>, looked: multiset<string>, noted: multiset<string>,
                         inflight: map<string, Phase>, replay: Option<Replaying>,
                         delivered: seq<string>, gaps: multiset<string>)

  const START := State(Empty(), {}, multiset{}, multiset{}, map[], None, [], multiset{})

  datatype Action =
    | Begin(key: string)
    | Abandon(key: string)            // the event is refused, or the thread dies
    | Note(key: string)
    | Commit(key: string, ok: bool, tradeId: string, status: string, envelope: Engine.Envelope)
    | Persist(key: string, ok: bool)
    | Publish(key: string, ok: bool)
    | Mark(key: string)
    | Die(key: string)
    | StartReplay
    | Send(ok: bool)
    | Settle
    | EndReplay
    | Crash

  predicate At(s: State, key: string, p: Phase) {
    key in s.inflight && s.inflight[key] == p
  }

  /** No `apply` is in flight. */
  predicate Quiet(s: State) {
    s.looked == multiset{} && s.noted == multiset{} && s.inflight == map[]
  }

  predicate Sent(s: State) {
    s.replay.Some? && s.replay.value.todo != [] && s.replay.value.sent
  }

  /** The publications made but not yet marked. */
  function Unmarked(s: State): multiset<string> {
    multiset(set k | k in s.inflight && At(s, k, Delivered))
    + if Sent(s) then multiset{s.replay.value.todo[0]} else multiset{}
  }

  function Step(s: State, a: Action): State {
    match a
    case Begin(key) =>
      if key in s.seen || Has(s.table, key) || s.replay.Some? then s
      else s.(looked := s.looked + multiset{key})
    case Abandon(key) => s.(looked := s.looked - multiset{key})
    case Note(key) =>
      if s.looked[key] == 0 then s
      else s.(looked := s.looked - multiset{key}, noted := s.noted + multiset{key}, seen := s.seen + {key})
    case Commit(key, ok, tradeId, status, envelope) =>
      if s.noted[key] == 0 then s
      else
        var left := s.(noted := s.noted - multiset{key});
        (match if ok then Insert(s.table, key, tradeId, status, envelope) else None
         case None => left   // the insert raised, or the key was journaled by another call meanwhile
         case Some(t) => left.(table := t, inflight := s.inflight[key := Journaled]))
    case Persist(key, ok) =>
      if !At(s, key, Journaled) then s
      else s.(inflight := if ok then s.inflight[key := Persisted] else s.inflight - {key})
    case Publish(key, ok) =>
      if !At(s, key, Persisted) then s
      else if !ok then s.(inflight := s.inflight - {key})
      else s.(inflight := s.inflight[key := Delivered], delivered := s.delivered + [key])
    case Mark(key) =>
      if !At(s, key, Delivered) then s
      else s.(table := MarkPublished(s.table, key), inflight := s.inflight - {key})
    case Die(key) =>
      s.(inflight := s.inflight - {key}, gaps := if At(s, key, Delivered) then s.gaps + multiset{key} else s.gaps)
    case StartReplay =>
      if s.replay.Some? || !Quiet(s) then s
      else s.(replay := Some(Replaying(PendingIds(s.table), false)))
    case Send(ok) =>
      if s.replay.None? || s.replay.value.todo == [] || s.replay.value.sent then s
      else if !ok then s.(replay := None)
      else s.(replay := Some(s.replay.value.(sent := true)), delivered := s.delivered + [s.replay.value.todo[0]])
    case Settle =>
      if !Sent(s) then s
      else
        var todo := s.replay.value.todo;
        s.(table := MarkPublished(s.table, todo[0]), replay := Some(Replaying(todo[1..], false)))
    case EndReplay =>
      if s.replay.Some? && s.replay.value.todo == [] then s.(replay := None) else s
    case Crash =>
      State(s.table, s.table.entries.Keys, multiset{}, multiset{}, map[], None, s.delivered, s.gaps + Unmarked(s))
  }

  function Run(s: State, acts: seq<Action>): State {
    if acts == [] then s else Step(Run(s, acts[..|acts| - 1]), acts[|acts| - 1])
  }

  // ------------------------------------------------------------- the invariant

  predicate Marked(t: Table, key: string) {
    Has(t, key) && t.entries[key].published
  }

  /** The key has a publication that is not yet marked. */
  predicate InGap(s: State, key: string) {
    At(s, key, Delivered) || (Sent(s) && s.replay.value.todo[0] == key)
  }

  /** Every publication of a key is accounted for: one per fault in a gap, and one more that is
      either marked or about to be. */
  ghost predicate Balanced(s: State, key: string) {
    Count(s.delivered, key)
    == s.gaps[key] + (if InGap(s, key) then 1 else 0) + (if Marked(s.table, key) then 1 else 0)
  }

  ghost predicate Ledger(s: State) {
    && (forall k :: s.gaps[k] > 0 ==> Has(s.table, k))
    && (forall k :: Balanced(s, k))
  }

  ghost predicate Inv(s: State) {
    && (forall k :: k in s.inflight ==> Unpublished(s.table, k))
    && (s.replay.Some? ==> Quiet(s) && s.replay.value.todo == PendingIds(s.table))
    && Ledger(s)
  }

  /** Marking the first pending row removes exactly it from the pending rows. */
  lemma {:induction false} PendingAfterMark(t: Table)
    requires PendingIds(t) != []
    ensures PendingIds(MarkPublished(t, PendingIds(t)[0])) == PendingIds(t)[1..]
  {
    var head := PendingIds(t)[0];
    var t' := MarkPublished(t, head);
    assert Unpublished(t, head);
    FilterLessHead(t.order, id => Unpublished(t, id), id => Unpublished(t', id));
  }

  lemma {:induction false} FilterLessHead(s: seq<string>, p: string -> bool, q: string -> bool)
    requires Distinct(s) && Filter(s, p) != []
    requires forall x :: q(x) <==> p(x) && x != Filter(s, p)[0]
    ensures Filter(s, q) == Filter(s, p)[1..]
  {
    hide Filter, Distinct;
    var init, last := s[..|s| - 1], s[|s| - 1];
    DistinctLast(s);
    FilterLast(s, p);
    FilterLast(s, q);
    if Filter(init, p) == [] {
      FilterNothing(init, p, q);
    } else {
      var head := Filter(init, p)[0];
      assert head in Filter(init, p) && head == Filter(s, p)[0];
      assert q(last) == p(last);
      FilterLessHead(init, p, q);
    }
  }

  lemma DistinctLast(s: seq<string>)
    requires Distinct(s) && s != []
    ensures Distinct(s[..|s| - 1]) && s[|s| - 1] !in s[..|s| - 1]
  {
  }

  lemma FilterLast(s: seq<string>, p: string -> bool)
    requires s != []
    ensures Filter(s, p) == Filter(s[..|s| - 1], p) + if p(s[|s| - 1]) then [s[|s| - 1]] else []
  {
  }

  lemma {:induction false} FilterNothing(s: seq<string>, p: string -> bool, q: string -> bool)
    requires Filter(s, p) == []
    requires forall x :: q(x) ==> p(x)
    ensures Filter(s, q) == []
  {
    if s != [] {
      FilterNothing(s[..|s| - 1], p, q);
    }
  }

  lemma {:induction false} UnmarkedIsGap(s: State, key: string)
    requires s.replay.Some? ==> Quiet(s)
    ensures Unmarked(s)[key] == if InGap(s, key) then 1 else 0
  {
    if s.replay.Some? {
      assert (set k | k in s.inflight && At(s, k, Delivered)) == {};
    }
  }

  lemma {:induction false} PublishKeeps(s: State, key: string, ok: bool)
    requires Inv(s)
    ensures Inv(Step(s, Publish(key, ok)))
  {
    hide WellFormed, Distinct;
    var s' := Step(s, Publish(key, ok));
    if At(s, key, Persisted) {
      assert Unpublished(s.table, key);
      forall k ensures Balanced(s', k) {
        assert Balanced(s, k);
        CountSnoc(s.delivered, key, k);
      }
    }
  }

  lemma {:induction false} SendKeeps(s: State, ok: bool)
    requires Inv(s)
    ensures Inv(Step(s, Send(ok)))
  {
    hide WellFormed, Distinct;
    var s' := Step(s, Send(ok));
    if s.replay.Some? && s.replay.value.todo != [] && !s.replay.value.sent {
      var head := s.replay.value.todo[0];
      assert Unpublished(s.table, head);
      forall k ensures Balanced(s', k) {
        assert Balanced(s, k);
        CountSnoc(s.delivered, head, k);
      }
    } else {
      assert s' == s;
    }
  }

  lemma {:induction false} SettleKeeps(s: State)
    requires Inv(s)
    ensures Inv(Step(s, Settle))
  {
    hide WellFormed, Distinct;
    if Sent(s) {
      var s', head := Step(s, Settle), s.replay.value.todo[0];
      assert Unpublished(s.table, head);
      PendingAfterMark(s.table);
      forall k ensures Balanced(s', k) {
        assert Balanced(s, k);
      }
    }
  }

  lemma {:induction false} CrashKeeps(s: State)
    requires Inv(s)
    ensures Inv(Step(s, Crash))
  {
    hide WellFormed, Distinct;
    var s' := Step(s, Crash);
    forall k ensures Balanced(s', k) && (s'.gaps[k] > 0 ==> Has(s.table, k)) {
      assert Balanced(s, k);
      UnmarkedIsGap(s, k);
      assert s'.gaps[k] == s.gaps[k] + Unmarked(s)[k];
      if At(s, k, Delivered) {
        assert Unpublished(s.table, k);
      } else if Sent(s) && s.replay.value.todo[0] == k {
        assert Unpublished(s.table, k);
      }
    }
  }

  /** An action on one key that publishes nothing keeps the others' balance. */
  lemma {:induction false} OthersKeep(s: State, s': State, key: string)
    requires Inv(s) && s'.delivered == s.delivered && s'.replay == s.replay
    requires forall k :: k != key ==> s'.gaps[k] == s.gaps[k] && Marked(s'.table, k) == Marked(s.table, k)
    requires forall k :: k != key ==> At(s', k, Delivered) == At(s, k, Delivered)
    requires Balanced(s', key)
    ensures forall k :: Balanced(s', k)
  {
    hide WellFormed, Distinct;
    forall k ensures Balanced(s', k) {
      assert Balanced(s, k);
    }
  }

  lemma SameLedger(s: State, s': State)
    requires s'.delivered == s.delivered && s'.gaps == s.gaps && s'.table == s.table
    requires s'.inflight == s.inflight && s'.replay == s.replay
    ensures Ledger(s) ==> Ledger(s')
  {
    assert forall k :: Balanced(s, k) ==> Balanced(s', k);
  }

  /** What a call does before its insert publishes nothing and journals nothing. */
  lemma {:induction false} EarlyKeeps(s: State, a: Action)
    requires Inv(s) && (a.Begin? || a.Abandon? || a.Note?)
    ensures Inv(Step(s, a))
  {
    hide Ledger, PendingIds, Step;
    EarlyMoves(s, a);
    if s.replay.None? {
      SameLedger(s, Step(s, a));
    }
  }

  lemma EarlyMoves(s: State, a: Action)
    requires a.Begin? || a.Abandon? || a.Note?
    ensures var s' := Step(s, a);
            && s' == s.(looked := s'.looked, noted := s'.noted, seen := s'.seen)
            && (s.replay.Some? && Quiet(s) ==> s' == s)
  {
    if Quiet(s) {
      assert s.looked - multiset{a.key} == s.looked;
    }
  }

  lemma InsertKeepsLedger(s: State, a: Action)
    requires Inv(s) && a.Commit? && s.noted[a.key] > 0 && a.ok && !Has(s.table, a.key)
    ensures Ledger(Step(s, a))
    ensures forall k :: k in Step(s, a).inflight ==> Unpublished(Step(s, a).table, k)
  {
    hide WellFormed, Distinct;
    var s' := Step(s, a);
    assert Balanced(s, a.key);
    assert a.key !in s.inflight && At(s', a.key, Journaled);
    assert a.key in s.noted && s.replay.None?;
    OthersKeep(s, s', a.key);
  }

  lemma {:induction false} CommitKeeps(s: State, a: Action)
    requires Inv(s) && a.Commit?
    ensures Inv(Step(s, a))
  {
    if s.noted[a.key] > 0 {
      var s' := Step(s, a);
      assert a.key in s.noted && s.replay.None?;
      if a.ok && !Has(s.table, a.key) {
        InsertKeepsLedger(s, a);
      } else {
        SameLedger(s, s');
      }
      hide Ledger, PendingIds;
    }
  }

  lemma {:induction false} PersistKeeps(s: State, key: string, ok: bool)
    requires Inv(s)
    ensures Inv(Step(s, Persist(key, ok)))
  {
    hide WellFormed, Distinct;
    assert Balanced(s, key);
    assert key in s.inflight ==> Unpublished(s.table, key);
    OthersKeep(s, Step(s, Persist(key, ok)), key);
  }

  lemma {:induction false} MarkKeeps(s: State, key: string)
    requires Inv(s)
    ensures Inv(Step(s, Mark(key)))
  {
    hide WellFormed, Distinct;
    if At(s, key, Delivered) {
      assert Balanced(s, key) && Unpublished(s.table, key);
      OthersKeep(s, Step(s, Mark(key)), key);
    }
  }

  lemma {:induction false} DieKeeps(s: State, key: string)
    requires Inv(s)
    ensures Inv(Step(s, Die(key)))
  {
    hide WellFormed, Distinct;
    assert Balanced(s, key);
    assert key in s.inflight ==> Unpublished(s.table, key);
    OthersKeep(s, Step(s, Die(key)), key);
  }

  lemma ReplayEndsKeep(s: State, a: Action)
    requires Inv(s) && (a.StartReplay? || a.EndReplay?)
    ensures Inv(Step(s, a))
  {
    hide PendingIds, WellFormed, Distinct, Balanced;
    NoBalanceMoves(s, a);
  }

  lemma NoBalanceMoves(s: State, a: Action)
    requires a.StartReplay? || a.EndReplay?
    ensures Ledger(s) ==> Ledger(Step(s, a))
  {
    hide PendingIds, WellFormed, Distinct;
    assert forall k :: Balanced(s, k) ==> Balanced(Step(s, a), k);
  }

  lemma {:induction false} StepKeeps(s: State, a: Action)
    requires Inv(s)
    ensures Inv(Step(s, a))
  {
    hide Inv, Step;
    match a
    case Publish(key, ok) => PublishKeeps(s, key, ok);
    case Send(ok) => SendKeeps(s, ok);
    case Settle => SettleKeeps(s);
    case Crash => CrashKeeps(s);
    case StartReplay => ReplayEndsKeep(s, a);
    case EndReplay => ReplayEndsKeep(s, a);
    case Begin(_) => EarlyKeeps(s, a);
    case Abandon(_) => EarlyKeeps(s, a);
    case Note(_) => EarlyKeeps(s, a);
    case Commit(_, _, _, _, _) => CommitKeeps(s, a);
    case Persist(key, ok) => PersistKeeps(s, key, ok);
    case Mark(key) => MarkKeeps(s, key);
    case Die(key) => DieKeeps(s, key);
  }

  lemma {:induction false} RunKeeps(acts: seq<Action>)
    ensures Inv(Run(START, acts))
  {
    hide Step;
    if acts != [] {
      RunKeeps(acts[..|acts| - 1]);
      StepKeeps(Run(START, acts[..|acts| - 1]), acts[|acts| - 1]);
    }
  }

  // ------------------------------------------------------------- what runs keep

  /** At every moment of every run: a journaled event is marked and was published, or is still
      pending; only journaled events are ever published; and each publication of a key beyond
      the first is paid for by a fault that fell between a publication and its mark. */
  lemma {:induction false} NothingLostNothingRepeated(acts: seq<Action>, key: string)
    ensures var s := Run(START, acts);
            && (Has(s.table, key) ==> (Marked(s.table, key) && key in s.delivered) != (key in PendingIds(s.table)))
            && (key in s.delivered ==> Has(s.table, key))
            && Count(s.delivered, key) <= s.gaps[key] + 1
            && (Marked(s.table, key) && s.gaps[key] == 0 ==> Count(s.delivered, key) == 1)
  {
    var s := Run(START, acts);
    RunKeeps(acts);
    assert Balanced(s, key);
    CountMember(s.delivered, key);
    assert key in s.inflight ==> Unpublished(s.table, key);
    if Sent(s) && s.replay.value.todo[0] == key {
      assert Unpublished(s.table, key);
    }
  }

  /** After a crash the process knows the journaled events and no others: an event is looked at again
      exactly if it was not journaled, whatever the process had noted before. */
  lemma CrashForgetsTheUnjournaled(acts: seq<Action>, key: string)
    ensures var s := Run(START, acts + [Crash]);
            && s.table == Run(START, acts).table
            && (key in s.seen <==> Has(s.table, key))
            && (Run(START, acts + [Crash] + [Begin(key)]).looked[key] > 0 <==> !Has(s.table, key))
  {
    RunSnoc(START, acts, Crash);
    RunSnoc(START, acts + [Crash], Begin(key));
    hide Run, WellFormed, Distinct;
  }

  /** The protocol without the rule that a replay and the calls of `apply` keep apart. */
  function OverlappingStep(s: State, a: Action): State {
    match a
    case Begin(key) =>
      if key in s.seen || Has(s.table, key) then s else s.(looked := s.looked + multiset{key})
    case StartReplay =>
      if s.replay.Some? then s else s.(replay := Some(Replaying(PendingIds(s.table), false)))
    case _ => Step(s, a)
  }

  function OverlappingRun(s: State, acts: seq<Action>): State {
    if acts == [] then s else OverlappingStep(OverlappingRun(s, acts[..|acts| - 1]), acts[|acts| - 1])
  }

  lemma {:induction false} OverlappingSnoc(s: State, acts: seq<Action>, a: Action)
    ensures OverlappingRun(s, acts + [a]) == OverlappingStep(OverlappingRun(s, acts), a)
  {
    assert (acts + [a])[..|acts|] == acts;
  }

  /** A call up to its insert, a whole replay, and the rest of the call; no step fails. */
  function OverlappingActions(commit: Action): seq<Action>
    requires commit.Commit?
  {
    var key := commit.key;
    [Begin(key)] + [Note(key)] + [commit] + [StartReplay] + [Send(true)] + [Settle] + [EndReplay]
    + [Persist(key, true)] + [Publish(key, true)] + [Mark(key)]
  }

  /** The state with one call on `key`, just journaled, and nothing before it. */
  function OneCall(key: string, row: Journal.Row<Engine.Envelope>): State {
    State(Put(Empty(), key, row), {key}, multiset{}, multiset{}, map[key := Journaled], None, [], multiset{})
  }

  lemma NothingAtStart(key: string)
    ensures START.replay.None? && Untouched(START, key) && key !in START.seen && !Has(START.table, key)
    ensures START.seen + {key} == {key} && START.inflight[key := Journaled] == map[key := Journaled]
  {
  }

  lemma InsertJournals(commit: Action)
    requires commit.Commit? && commit.ok
    ensures var key, row := commit.key, Row(commit.tradeId, commit.status, commit.envelope, false);
            && Step(Step(Step(START, Begin(key)), Note(key)), commit) == OneCall(key, row)
            && PendingIds(OneCall(key, row).table) == [key]
  {
    OneRow(commit.key, Row(commit.tradeId, commit.status, commit.envelope, false));
    NothingAtStart(commit.key);
    hide WellFormed, Distinct, PendingIds, Put, Step, Has, Untouched;
    ThreeSteps(START, commit.key, commit);
  }

  lemma OneRow(key: string, row: Journal.Row<Engine.Envelope>)
    requires !row.published
    ensures PendingIds(Put(Empty(), key, row)) == [key]
  {
    hide WellFormed, Distinct;
    var order := Put(Empty(), key, row).order;
    assert order == [key] && order[..0] == [];
  }

  lemma CallJournals(commit: Action)
    requires commit.Commit? && commit.ok
    ensures var key, row := commit.key, Row(commit.tradeId, commit.status, commit.envelope, false);
            && OverlappingRun(START, [Begin(key)] + [Note(key)] + [commit]) == OneCall(key, row)
            && PendingIds(OneCall(key, row).table) == [key]
  {
    InsertJournals(commit);
    NothingAtStart(commit.key);
    hide WellFormed, Distinct, PendingIds, OneCall;
    CallRun(START, commit);
  }

  lemma CallRun(s: State, commit: Action)
    requires commit.Commit? && s.replay.None?
    ensures OverlappingRun(s, [Begin(commit.key)] + [Note(commit.key)] + [commit])
            == Step(Step(Step(s, Begin(commit.key)), Note(commit.key)), commit)
  {
    var key := commit.key;
    assert [] + [Begin(key)] == [Begin(key)] && OverlappingRun(s, []) == s;
    OverlappingSnoc(s, [], Begin(key));
    CallStepsAlike(s, Begin(key));
    CallStepsAlike(Step(s, Begin(key)), Note(key));
    CallStepsAlike(Step(Step(s, Begin(key)), Note(key)), commit);
    hide WellFormed, Distinct, Step, OverlappingStep, OverlappingRun;
    OverlappingSnoc(s, [Begin(key)], Note(key));
    OverlappingSnoc(s, [Begin(key)] + [Note(key)], commit);
  }

  lemma CallStepsAlike(s: State, a: Action)
    requires a.Note? || a.Commit? || (a.Begin? && s.replay.None?)
    ensures OverlappingStep(s, a) == Step(s, a)
  {
  }

  /** One row settled by a replay that starts at any moment. */
  lemma ReplaySteps(s: State, key: string)
    requires s.replay.None? && PendingIds(s.table) == [key]
    ensures OverlappingStep(OverlappingStep(OverlappingStep(OverlappingStep(s, StartReplay), Send(true)), Settle), EndReplay)
            == s.(table := MarkPublished(s.table, key), delivered := s.delivered + [key])
  {
    hide Step, PendingIds, MarkPublished, WellFormed, Distinct;
    var s1 := OverlappingStep(s, StartReplay);
    assert s1 == s.(replay := Some(Replaying([key], false)));
    StepsAlike(s1, Send(true));
    StepsAlike(Step(s1, Send(true)), Settle);
    hide OverlappingStep;
    SendSettle(s1, [key]);
    var s3 := Step(Step(s1, Send(true)), Settle);
    StepsAlike(s3, EndReplay);
    assert [key][1..] == [];
    EndStep(s3);
  }

  lemma StepsAlike(s: State, a: Action)
    requires a.Send? || a.Settle? || a.EndReplay?
    ensures OverlappingStep(s, a) == Step(s, a)
  {
  }

  lemma EndStep(s: State)
    requires s.replay == Some(Replaying([], false))
    ensures Step(s, EndReplay) == s.(replay := None)
  {
  }

  lemma ReplayMarks(s: State, key: string, acts: seq<Action>)
    requires OverlappingRun(s, acts).replay.None? && PendingIds(OverlappingRun(s, acts).table) == [key]
    ensures var s' := OverlappingRun(s, acts);
            OverlappingRun(s, acts + [StartReplay] + [Send(true)] + [Settle] + [EndReplay])
            == s'.(table := MarkPublished(s'.table, key), delivered := s'.delivered + [key])
  {
    hide WellFormed, Distinct, PendingIds, MarkPublished, OverlappingStep, OverlappingRun;
    OverlappingSnoc(s, acts, StartReplay);
    OverlappingSnoc(s, acts + [StartReplay], Send(true));
    OverlappingSnoc(s, acts + [StartReplay] + [Send(true)], Settle);
    OverlappingSnoc(s, acts + [StartReplay] + [Send(true)] + [Settle], EndReplay);
    ReplaySteps(OverlappingRun(s, acts), key);
  }

  lemma CallEnds(s: State, key: string, acts: seq<Action>)
    requires At(OverlappingRun(s, acts), key, Journaled)
    ensures var s' := OverlappingRun(s, acts);
            OverlappingRun(s, acts + [Persist(key, true)] + [Publish(key, true)] + [Mark(key)])
            == s'.(table := MarkPublished(s'.table, key), delivered := s'.delivered + [key],
                   inflight := s'.inflight - {key})
  {
    var s', faults := OverlappingRun(s, acts), Engine.Faults(true, true, true, true, true);
    LastSteps(s', key, faults);
    assert Last(key, faults) == Mark(key);
    hide WellFormed, Distinct, MarkPublished, Step, OverlappingRun, Last, At;
    OverlappingSnoc(s, acts, Persist(key, true));
    OverlappingSnoc(s, acts + [Persist(key, true)], Publish(key, true));
    OverlappingSnoc(s, acts + [Persist(key, true)] + [Publish(key, true)], Mark(key));
  }

  lemma RepeatsFrom(s: State, key: string, acts: seq<Action>)
    requires var s1 := OverlappingRun(s, acts);
             && s1.replay.None? && s1.looked == s1.noted == s1.gaps == multiset{} && s1.delivered == []
             && s1.inflight == map[key := Journaled] && Has(s1.table, key) && PendingIds(s1.table) == [key]
    ensures var s3 := OverlappingRun(s, acts + [StartReplay] + [Send(true)] + [Settle] + [EndReplay]
                                        + [Persist(key, true)] + [Publish(key, true)] + [Mark(key)]);
            s3.delivered == [key, key] && s3.gaps == multiset{} && Marked(s3.table, key) && Quiet(s3) && s3.replay.None?
  {
    hide WellFormed, Distinct, OverlappingRun, PendingIds, Marked, MarkPublished;
    ReplayMarks(s, key, acts);
    CallEnds(s, key, acts + [StartReplay] + [Send(true)] + [Settle] + [EndReplay]);
    MarkedTwice(OverlappingRun(s, acts).table, key);
  }

  /** That rule is needed: a replay that starts between a call's insert and its publication
      publishes the event a second time although nothing fails. */
  lemma {:induction false} OverlappingReplayRepeats(key: string, tradeId: string, status: string,
                                                    envelope: Engine.Envelope)
    ensures var s := OverlappingRun(START, OverlappingActions(Commit(key, true, tradeId, status, envelope)));
            && s.delivered == [key, key] && s.gaps == multiset{}
            && Marked(s.table, key) && Quiet(s) && s.replay.None?
  {
    var commit := Commit(key, true, tradeId, status, envelope);
    CallJournals(commit);
    JournaledOnce(key, Row(tradeId, status, envelope, false));
    hide WellFormed, Distinct, OverlappingRun, PendingIds, OneCall, Marked, Quiet;
    RepeatsFrom(START, key, [Begin(key)] + [Note(key)] + [commit]);
  }

  lemma JournaledOnce(key: string, row: Journal.Row<Engine.Envelope>)
    ensures var s := OneCall(key, row);
            && s.replay.None? && s.looked == s.noted == s.gaps == multiset{} && s.delivered == []
            && s.inflight == map[key := Journaled] && Has(s.table, key)
  {
    hide WellFormed, Distinct;
  }

  lemma MarkedTwice(t: Table, key: string)
    requires Has(t, key)
    ensures Marked(MarkPublished(MarkPublished(t, key), key), key)
  {
    hide WellFormed, Distinct;
  }

  function ReplayActions(n: nat): seq<Action> {
    if n == 0 then [StartReplay] else ReplayActions(n - 1) + [Send(true)] + [Settle]
  }

  lemma {:induction false} RunSnoc(s: State, acts: seq<Action>, a: Action)
    ensures Run(s, acts + [a]) == Step(Run(s, acts), a)
  {
    assert (acts + [a])[..|acts|] == acts;
  }

  lemma SendSettle(s: State, todo: seq<string>)
    requires s.replay == Some(Replaying(todo, false)) && todo != []
    ensures Step(Step(s, Send(true)), Settle)
            == s.(table := MarkPublished(s.table, todo[0]), replay := Some(Replaying(todo[1..], false)),
                  delivered := s.delivered + [todo[0]])
  {
  }

  /** The state after the first `n` rows of the snapshot `ids` are settled. */
  function Drained(s: State, ids: seq<string>, n: nat, uuids: nat -> string): State
    requires n <= |ids| && forall i :: 0 <= i < |ids| ==> Has(s.table, ids[i])
  {
    s.(table := Engine.Replayed(s.table, [], ids, n, uuids).0,
       replay := Some(Replaying(ids[n..], false)), delivered := s.delivered + ids[..n])
  }

  lemma DrainedSnoc(s: State, ids: seq<string>, n: nat, uuids: nat -> string)
    requires n < |ids| && forall i :: 0 <= i < |ids| ==> Has(s.table, ids[i])
    ensures Step(Step(Drained(s, ids, n, uuids), Send(true)), Settle) == Drained(s, ids, n + 1, uuids)
  {
    hide WellFormed, Distinct;
    SendSettle(Drained(s, ids, n, uuids), ids[n..]);
    assert ids[n..][1..] == ids[n + 1..];
    assert (s.delivered + ids[..n]) + [ids[n]] == s.delivered + ids[..n + 1];
  }

  lemma NothingDrained(s: State, ids: seq<string>, uuids: nat -> string)
    requires Quiet(s) && s.replay.None? && ids == PendingIds(s.table)
    requires forall i :: 0 <= i < |ids| ==> Has(s.table, ids[i])
    ensures Run(s, ReplayActions(0)) == Drained(s, ids, 0, uuids)
  {
    assert ReplayActions(0)[..0] == [];
    assert s.delivered + [] == s.delivered && ids[0..] == ids;
  }

  lemma {:induction false} ReplayProgress(s: State, ids: seq<string>, n: nat, uuids: nat -> string)
    requires Quiet(s) && s.replay.None? && ids == PendingIds(s.table) && n <= |ids|
    requires forall i :: 0 <= i < |ids| ==> Has(s.table, ids[i])
    ensures Run(s, ReplayActions(n)) == Drained(s, ids, n, uuids)
  {
    hide Step, Drained;
    if n == 0 {
      NothingDrained(s, ids, uuids);
    } else {
      ReplayProgress(s, ids, n - 1, uuids);
      RunSnoc(s, ReplayActions(n - 1), Send(true));
      RunSnoc(s, ReplayActions(n - 1) + [Send(true)], Settle);
      DrainedSnoc(s, ids, n - 1, uuids);
    }
  }

  lemma {:induction false} RunConcat(s: State, xs: seq<Action>, ys: seq<Action>)
    ensures Run(s, xs + ys) == Run(Run(s, xs), ys)
  {
    if ys == [] {
      assert xs + ys == xs;
    } else {
      var init := ys[..|ys| - 1];
      assert (xs + ys)[..|xs + ys| - 1] == xs + init;
      RunConcat(s, xs, init);
    }
  }

  lemma TodoIsPending(s: State)
    requires Inv(s) && s.replay.Some?
    ensures s.replay.value.todo == PendingIds(s.table)
  {
  }

  /** An uninterrupted replay, from any reachable state with nothing in flight, publishes the
      pending events once each in insertion order, leaves none pending and opens no gap. Its
      table is the one the engine's `replay` loop computes. */
  lemma {:induction false} ReplayDrainsInOrder(acts: seq<Action>, uuids: nat -> string)
    requires Quiet(Run(START, acts)) && Run(START, acts).replay.None?
    ensures var s := Run(START, acts);
            var ids := PendingIds(s.table);
            var s' := Run(s, ReplayActions(|ids|) + [EndReplay]);
            && s'.delivered == s.delivered + ids
            && PendingIds(s'.table) == []
            && s'.gaps == s.gaps && s'.replay.None? && Quiet(s')
            && s'.table == Engine.Replayed(s.table, [], ids, |ids|, uuids).0
  {
    hide Engine.Replayed, Inv, Run, ReplayActions, PendingIds;
    var s := Run(START, acts);
    var ids := PendingIds(s.table);
    ReplayProgress(s, ids, |ids|, uuids);
    assert ids[..|ids|] == ids && ids[|ids|..] == [];
    RunConcat(START, acts, ReplayActions(|ids|));
    RunKeeps(acts + ReplayActions(|ids|));
    TodoIsPending(Run(s, ReplayActions(|ids|)));
    RunSnoc(s, ReplayActions(|ids|), EndReplay);
  }

  /** The actions of one `apply`: of an event that is refused, or accepted and then stopped where
      `faults` stops it. */
  function ApplyActions(key: string, accepted: bool, tradeId: string, status: string, envelope: Engine.Envelope,
                        faults: Engine.Faults): seq<Action>
  {
    if !accepted then [Begin(key)] + [Abandon(key)]
    else
      [Begin(key)] + [Note(key)] + [Commit(key, faults.recordOk, tradeId, status, envelope)]
      + [Persist(key, faults.persistOk)] + [Publish(key, faults.publishOk)] + [Last(key, faults)]
  }

  /** The mark; a mark that raises leaves the call where a dying thread would. */
  function Last(key: string, faults: Engine.Faults): Action {
    if faults.markOk then Mark(key) else Die(key)
  }

  /** The keys of events, in order. */
  function KeysOf(events: seq<Engine.BusEvent>): seq<string> {
    seq(|events|, i requires 0 <= i < |events| => events[i].payload.eventId)
  }

  /** The engine's `apply` is this protocol: from any state without a replay and with no other call
      on the key, its seen set, its table and the keys it publishes are those of the actions in a
      row, whichever of its steps raises. */
  lemma {:induction false} ApplyIsTheProtocol(s: State, sent: seq<Engine.BusEvent>, t: TradeState,
                                              ev: Engine.BrokerEvent, stamp: Engine.Stamp, faults: Engine.Faults)
    requires s.replay.None? && Untouched(s, ev.Key())
    ensures var (es, t', r) := Engine.ApplyStep(Engine.EngineState(s.seen, s.table, sent), t, ev, stamp, faults);
            var next := Engine.Transition(t, ev);
            var after := if next.Ok? then next.value else t;
            var envelope := Engine.Encode(Engine.EventFor(t, after, ev, stamp));
            var s' := Run(s, ApplyActions(ev.Key(), next.Ok?, t.id, Text(after.status), envelope, faults));
            && s'.seen == es.seen && s'.table == es.table
            && sent <= es.published && s'.delivered == s.delivered + KeysOf(es.published[|sent|..])
            && s' == s.(seen := s'.seen, table := s'.table, delivered := s'.delivered,
                        gaps := if r == Engine.Failed(Engine.Marking) then s.gaps + multiset{ev.Key()} else s.gaps)
  {
    hide WellFormed, Distinct, SixthStep;
    var key, next := ev.Key(), Engine.Transition(t, ev);
    if next.Ok? {
      var event := Engine.EventFor(t, next.value, ev, stamp);
      var commit := Commit(key, faults.recordOk, t.id, Text(next.value.status), Engine.Encode(event));
      ApplyRun(s, key, commit, faults);
      SixSteps(s, key, commit, faults);
      assert (sent + [event])[|sent|..] == [event] && sent[|sent|..] == [];
      assert KeysOf([event]) == [key] && KeysOf([]) == [];
    } else {
      RunSnoc(s, [], Begin(key));
      assert [] + [Begin(key)] == [Begin(key)];
      RunSnoc(s, [Begin(key)], Abandon(key));
      assert sent[|sent|..] == [] && KeysOf([]) == [];
      assert s.looked - multiset{key} == s.looked;
    }
  }

  /** No other call on the key is under way. */
  predicate Untouched(s: State, key: string) {
    s.looked[key] == 0 && s.noted[key] == 0 && key !in s.inflight
  }

  function SixthStep(s: State, key: string, commit: Action, faults: Engine.Faults): State {
    Step(Step(Step(Step(Step(Step(s, Begin(key)), Note(key)), commit),
                   Persist(key, faults.persistOk)), Publish(key, faults.publishOk)), Last(key, faults))
  }

  lemma ThreeSteps(s: State, key: string, commit: Action)
    requires s.replay.None? && Untouched(s, key) && commit.Commit? && commit.key == key
    ensures var s3 := Step(Step(Step(s, Begin(key)), Note(key)), commit);
            s3 == if key in s.seen || Has(s.table, key) then s
                  else if !commit.ok then s.(seen := s.seen + {key})
                  else s.(seen := s.seen + {key}, inflight := s.inflight[key := Journaled],
                          table := Put(s.table, key, Row(commit.tradeId, commit.status, commit.envelope, false)))
  {
    hide WellFormed, Distinct;
    if key !in s.seen && !Has(s.table, key) {
      var s1 := Step(s, Begin(key));
      assert s1 == s.(looked := s.looked + multiset{key}) && s1.looked - multiset{key} == s.looked;
      var s2 := Step(s1, Note(key));
      assert s2 == s.(noted := s.noted + multiset{key}, seen := s.seen + {key});
      assert s2.noted - multiset{key} == s.noted;
    }
  }

  /** The six actions computed, case by case. */
  lemma SixSteps(s: State, key: string, commit: Action, faults: Engine.Faults)
    requires s.replay.None? && Untouched(s, key)
    requires commit.Commit? && commit.key == key && commit.ok == faults.recordOk
    ensures SixthStep(s, key, commit, faults)
            == if key in s.seen || Has(s.table, key) then s
               else if !faults.recordOk then s.(seen := s.seen + {key})
               else
                 var table := Put(s.table, key, Row(commit.tradeId, commit.status, commit.envelope, false));
                 if !faults.persistOk || !faults.publishOk then s.(seen := s.seen + {key}, table := table)
                 else if faults.markOk
                 then s.(seen := s.seen + {key}, table := MarkPublished(table, key), delivered := s.delivered + [key])
                 else s.(seen := s.seen + {key}, table := table, delivered := s.delivered + [key],
                         gaps := s.gaps + multiset{key})
  {
    hide WellFormed, Distinct;
    hide Step;
    ThreeSteps(s, key, commit);
    var s3 := Step(Step(Step(s, Begin(key)), Note(key)), commit);
    if key !in s.seen && !Has(s.table, key) && commit.ok {
      assert s.inflight[key := Journaled] - {key} == s.inflight;
      LastSteps(s3, key, faults);
    } else {
      NoSteps(s3, key, faults);
    }
  }

  lemma NoSteps(s: State, key: string, faults: Engine.Faults)
    requires key !in s.inflight
    ensures Step(Step(Step(s, Persist(key, faults.persistOk)), Publish(key, faults.publishOk)), Last(key, faults)) == s
    ensures Step(Step(s, Publish(key, faults.publishOk)), Last(key, faults)) == s == Step(s, Last(key, faults))
  {
    assert s.inflight - {key} == s.inflight;
    assert Step(s, Last(key, faults)) == s;
  }

  lemma LastSteps(s: State, key: string, faults: Engine.Faults)
    requires At(s, key, Journaled)
    ensures Step(Step(Step(s, Persist(key, faults.persistOk)), Publish(key, faults.publishOk)), Last(key, faults))
            == var left := s.(inflight := s.inflight - {key});
               if !faults.persistOk || !faults.publishOk then left
               else if faults.markOk
               then left.(table := MarkPublished(s.table, key), delivered := s.delivered + [key])
               else left.(delivered := s.delivered + [key], gaps := s.gaps + multiset{key})
  {
    hide WellFormed, Distinct;
    var left := s.(inflight := s.inflight - {key});
    if !faults.persistOk {
      assert Step(s, Persist(key, false)) == left;
      NoSteps(left, key, faults);
    } else {
      var s1 := s.(inflight := s.inflight[key := Persisted]);
      assert Step(s, Persist(key, true)) == s1 && s1.inflight - {key} == left.inflight;
      if !faults.publishOk {
        assert Step(s1, Publish(key, false)) == left;
        NoSteps(left, key, faults);
      } else {
        var s2 := s1.(inflight := s1.inflight[key := Delivered], delivered := s.delivered + [key]);
        assert Step(s1, Publish(key, true)) == s2 && s2.inflight - {key} == left.inflight;
      }
    }
  }

  lemma {:induction false} ApplyRun(s: State, key: string, commit: Action, faults: Engine.Faults)
    requires commit.Commit? && commit.key == key && commit.ok == faults.recordOk
    ensures Run(s, ApplyActions(key, true, commit.tradeId, commit.status, commit.envelope, faults))
            == SixthStep(s, key, commit, faults)
  {
    hide Step;
    var one := [Begin(key)];
    var two := one + [Note(key)];
    var three := two + [commit];
    var four := three + [Persist(key, faults.persistOk)];
    var five := four + [Publish(key, faults.publishOk)];
    RunSnoc(s, [], one[0]);
    assert [] + one == one;
    RunSnoc(s, one, Note(key));
    RunSnoc(s, two, commit);
    RunSnoc(s, three, Persist(key, faults.persistOk));
    RunSnoc(s, four, Publish(key, faults.publishOk));
    RunSnoc(s, five, Last(key, faults));
  }
}

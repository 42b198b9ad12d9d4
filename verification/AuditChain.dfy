/** The audit hash chain: recording, verifying, purging from the front, and what the last hash
    says about everything before it. The digest is a parameter. */
module AuditChain {
  import opened CanonicalJson

  datatype Entry = Entry(id: Text, action: Text, actor: Text, resource: Text, detail: Text,
                         timestamp: Text, previousHash: Text, hash: Text)

  type Digest = string -> Text

  /** "genesis" */
  const GENESIS: Text := [0x67, 0x65, 0x6E, 0x65, 0x73, 0x69, 0x73]

  function HashedFields(e: Entry): seq<Text> {
    [e.id, e.action, e.actor, e.resource, e.detail, e.timestamp, e.previousHash]
  }

  function HashOf(digest: Digest, e: Entry): Text {
    digest(Encode(HashedFields(e)))
  }

  function PreviousHash(log: seq<Entry>): Text {
    if log == [] then GENESIS else log[|log| - 1].hash
  }

  /** An entry to record: what the caller says, with the id and the time drawn for it. */
  datatype Draft = Draft(id: Text, action: Text, actor: Text, resource: Text, detail: Text, timestamp: Text)

  function Chained(digest: Digest, log: seq<Entry>, d: Draft): Entry {
    var raw := Entry(d.id, d.action, d.actor, d.resource, d.detail, d.timestamp, PreviousHash(log), []);
    raw.(hash := HashOf(digest, raw))
  }

  predicate Linked(digest: Digest, log: seq<Entry>, i: nat)
    requires i < |log|
  {
    log[i].hash == HashOf(digest, log[i]) && (i > 0 ==> log[i].previousHash == log[i - 1].hash)
  }

  predicate Verified(digest: Digest, log: seq<Entry>) {
    forall i :: 0 <= i < |log| ==> Linked(digest, log, i)
  }

  class AuditService {
    const digest: Digest
    var entries: seq<Entry>

    constructor (digest: Digest)
      ensures this.digest == digest && entries == []
    {
      this.digest := digest;
      entries := [];
    }

    method Record(d: Draft) returns (e: Entry)
      modifies this
      ensures e == Chained(digest, old(entries), d) && entries == old(entries) + [e]
      ensures Draft(e.id, e.action, e.actor, e.resource, e.detail, e.timestamp) == d
      ensures e.previousHash == if old(entries) == [] then GENESIS else old(entries)[|old(entries)| - 1].hash
    {
      var previous := if entries == [] then GENESIS else entries[|entries| - 1].hash;
      e := Entry(d.id, d.action, d.actor, d.resource, d.detail, d.timestamp, previous, []);
      e := e.(hash := HashOf(digest, e));
      entries := entries + [e];
    }

    method VerifyChain() returns (ok: bool)
      ensures ok <==> Verified(digest, entries)
    {
      hide HashOf;
      for i := 0 to |entries|
        invariant forall j :: 0 <= j < i ==> Linked(digest, entries, j)
      {
        if entries[i].hash != HashOf(digest, entries[i]) {
          assert !Linked(digest, entries, i);
          return false;
        }
        if i > 0 && entries[i].previousHash != entries[i - 1].hash {
          assert !Linked(digest, entries, i);
          return false;
        }
      }
      ok := true;
    }

    /** The retention purge of the stored log: deletes every entry with `tooOld`. */
    method Purge(tooOld: Entry -> bool)
      modifies this
      ensures entries == Purged(old(entries), tooOld)
    {
      entries := Purged(entries, tooOld);
    }
  }

  function Purged(log: seq<Entry>, tooOld: Entry -> bool): seq<Entry> {
    if log == [] then []
    else
      var rest, last := Purged(log[..|log| - 1], tooOld), log[|log| - 1];
      if tooOld(last) then rest else rest + [last]
  }

  // ------------------------------------------------------------- what operations keep

  /** Every entry before one that is too old is too old as well: the log is in order of age. */
  ghost predicate OldestFirst(log: seq<Entry>, tooOld: Entry -> bool) {
    forall i, j :: 0 <= i <= j < |log| && tooOld(log[j]) ==> tooOld(log[i])
  }

  /** On a log in order of age a purge removes a prefix: what is left is a suffix of it. */
  lemma {:induction false} PurgeLeavesASuffix(log: seq<Entry>, tooOld: Entry -> bool)
    requires OldestFirst(log, tooOld)
    ensures |Purged(log, tooOld)| <= |log| && Purged(log, tooOld) == log[|log| - |Purged(log, tooOld)|..]
    ensures forall e :: e in Purged(log, tooOld) ==> !tooOld(e)
  {
    if log != [] {
      var init, last := log[..|log| - 1], log[|log| - 1];
      assert log == init + [last];
      PurgeLeavesASuffix(init, tooOld);
      if tooOld(last) {
        assert forall i :: 0 <= i < |init| ==> tooOld(init[i]);
        AllOldLeavesNothing(init, tooOld);
      }
    }
  }

  lemma {:induction false} AllOldLeavesNothing(log: seq<Entry>, tooOld: Entry -> bool)
    requires forall i :: 0 <= i < |log| ==> tooOld(log[i])
    ensures Purged(log, tooOld) == []
  {
    if log != [] {
      AllOldLeavesNothing(log[..|log| - 1], tooOld);
    }
  }

  datatype Op = Record(draft: Draft) | Purge(tooOld: Entry -> bool)

  function Apply(digest: Digest, log: seq<Entry>, op: Op): seq<Entry> {
    match op
    case Record(d) => log + [Chained(digest, log, d)]
    case Purge(tooOld) => Purged(log, tooOld)
  }

  function Run(digest: Digest, ops: seq<Op>): seq<Entry> {
    if ops == [] then [] else Apply(digest, Run(digest, ops[..|ops| - 1]), ops[|ops| - 1])
  }

  /** Every purge of the run meets a log that is in order of age. */
  ghost predicate PurgesInOrder(digest: Digest, ops: seq<Op>) {
    forall n :: 0 <= n < |ops| && ops[n].Purge? ==> OldestFirst(Run(digest, ops[..n]), ops[n].tooOld)
  }

  lemma SuffixVerified(digest: Digest, log: seq<Entry>, n: nat)
    requires Verified(digest, log) && n <= |log|
    ensures Verified(digest, log[n..])
  {
    forall i | 0 <= i < |log[n..]| ensures Linked(digest, log[n..], i) {
      assert Linked(digest, log, n + i);
    }
  }

  lemma RecordVerified(digest: Digest, log: seq<Entry>, d: Draft)
    requires Verified(digest, log)
    ensures Verified(digest, log + [Chained(digest, log, d)])
  {
    var more := log + [Chained(digest, log, d)];
    assert HashedFields(more[|log|]) == HashedFields(more[|log|].(hash := []));
    forall i | 0 <= i < |more| ensures Linked(digest, more, i) {
      assert i < |log| ==> Linked(digest, log, i);
    }
  }

  /** Every interleaving of recordings and purges leaves a log that verifies. */
  lemma {:induction false} ChainAlwaysVerifies(digest: Digest, ops: seq<Op>)
    requires PurgesInOrder(digest, ops)
    ensures Verified(digest, Run(digest, ops))
  {
    if ops != [] {
      var init, last := ops[..|ops| - 1], ops[|ops| - 1];
      assert PurgesInOrder(digest, init) by {
        forall n | 0 <= n < |init| && init[n].Purge? ensures OldestFirst(Run(digest, init[..n]), init[n].tooOld) {
          assert init[..n] == ops[..n] && init[n] == ops[n];
        }
      }
      ChainAlwaysVerifies(digest, init);
      var log := Run(digest, init);
      match last
      case Record(d) => RecordVerified(digest, log, d);
      case Purge(tooOld) =>
        assert ops[..|ops| - 1] == init;
        PurgeLeavesASuffix(log, tooOld);
        SuffixVerified(digest, log, |log| - |Purged(log, tooOld)|);
    }
  }

  // ------------------------------------------------------------- the last hash

  ghost predicate CollisionFree(digest: Digest) {
    forall x, y :: digest(x) == digest(y) ==> x == y
  }

  ghost predicate TextIsScalar(log: seq<Entry>) {
    forall i :: 0 <= i < |log| ==> AllScalars(HashedFields(log[i]))
  }

  /** One hash fixes the entry that carries it. */
  lemma HashDeterminesEntry(digest: Digest, e: Entry, f: Entry)
    requires CollisionFree(digest) && AllScalars(HashedFields(e)) && AllScalars(HashedFields(f))
    requires e.hash == HashOf(digest, e) && f.hash == HashOf(digest, f) && e.hash == f.hash
    ensures e == f
  {
    EncodeInjective(HashedFields(e), HashedFields(f));
    assert HashedFields(e)[0] == HashedFields(f)[0] && HashedFields(e)[1] == HashedFields(f)[1];
    assert HashedFields(e)[2] == HashedFields(f)[2] && HashedFields(e)[3] == HashedFields(f)[3];
    assert HashedFields(e)[4] == HashedFields(f)[4] && HashedFields(e)[5] == HashedFields(f)[5];
    assert HashedFields(e)[6] == HashedFields(f)[6];
  }

  lemma PrefixVerifies(digest: Digest, a: seq<Entry>, n: nat)
    requires Verified(digest, a) && TextIsScalar(a) && n <= |a|
    ensures Verified(digest, a[..n]) && TextIsScalar(a[..n])
  {
    forall i | 0 <= i < n ensures Linked(digest, a[..n], i) {
      assert Linked(digest, a, i);
    }
  }

  lemma LastsAgree(digest: Digest, a: seq<Entry>, b: seq<Entry>)
    requires CollisionFree(digest) && Verified(digest, a) && Verified(digest, b)
    requires TextIsScalar(a) && TextIsScalar(b)
    requires 0 < |a| <= |b| && a[|a| - 1].hash == b[|b| - 1].hash
    ensures a[|a| - 1] == b[|b| - 1]
    ensures |a| > 1 ==> a[|a| - 2].hash == b[|b| - 2].hash
  {
    assert Linked(digest, a, |a| - 1) && Linked(digest, b, |b| - 1);
    HashDeterminesEntry(digest, a[|a| - 1], b[|b| - 1]);
  }

  lemma SuffixByLast(a: seq<Entry>, b: seq<Entry>)
    requires 1 < |a| <= |b| && a[|a| - 1] == b[|b| - 1] && a[..|a| - 1] == b[..|b| - 1][|b| - |a|..]
    ensures a == b[|b| - |a|..]
  {
    assert a == a[..|a| - 1] + [a[|a| - 1]] && b == b[..|b| - 1] + [b[|b| - 1]];
  }

  /** If two logs verify and end in the same hash, the shorter is a suffix of the longer,
      assuming only that the digest has no collisions. */
  lemma {:induction false} LastHashDeterminesLog(digest: Digest, a: seq<Entry>, b: seq<Entry>)
    requires CollisionFree(digest) && Verified(digest, a) && Verified(digest, b)
    requires TextIsScalar(a) && TextIsScalar(b)
    requires 0 < |a| <= |b| && a[|a| - 1].hash == b[|b| - 1].hash
    ensures a == b[|b| - |a|..]
  {
    hide CollisionFree, Verified, TextIsScalar;
    LastsAgree(digest, a, b);
    if |a| > 1 {
      var init, before := a[..|a| - 1], b[..|b| - 1];
      PrefixVerifies(digest, a, |a| - 1);
      PrefixVerifies(digest, b, |b| - 1);
      assert init[|init| - 1] == a[|a| - 2] && before[|before| - 1] == b[|b| - 2];
      LastHashDeterminesLog(digest, init, before);
      SuffixByLast(a, b);
    }
  }

  // ------------------------------------------------------------- when a purge breaks the chain

  /** What a purge keeps is one piece of the log. */
  ghost predicate Contiguous(log: seq<Entry>, tooOld: Entry -> bool) {
    forall i, j, l :: 0 <= i < j < l < |log| && !tooOld(log[i]) && !tooOld(log[l]) ==> !tooOld(log[j])
  }

  ghost predicate DistinctIds(log: seq<Entry>) {
    forall i, j :: 0 <= i < j < |log| ==> log[i].id != log[j].id
  }

  lemma {:induction false} LastKept(log: seq<Entry>, tooOld: Entry -> bool) returns (p: nat)
    requires Purged(log, tooOld) != []
    ensures p < |log| && !tooOld(log[p]) && Purged(log, tooOld)[|Purged(log, tooOld)| - 1] == log[p]
    ensures forall i :: p < i < |log| ==> tooOld(log[i])
  {
    p := |log| - 1;
    if tooOld(log[p]) {
      p := LastKept(log[..|log| - 1], tooOld);
    }
  }

  lemma {:induction false} NothingKept(log: seq<Entry>, tooOld: Entry -> bool)
    requires Purged(log, tooOld) == []
    ensures forall i :: 0 <= i < |log| ==> tooOld(log[i])
  {
    if log != [] {
      NothingKept(log[..|log| - 1], tooOld);
    }
  }

  lemma VerifiedSnoc(digest: Digest, log: seq<Entry>, e: Entry)
    requires e.hash == HashOf(digest, e)
    ensures Verified(digest, log + [e]) <==> Verified(digest, log) && (log != [] ==> e.previousHash == PreviousHash(log))
  {
    hide HashOf;
    var more := log + [e];
    if Verified(digest, more) {
      assert Linked(digest, more, |log|);
      forall i | 0 <= i < |log| ensures Linked(digest, log, i) {
        assert Linked(digest, more, i);
      }
    }
    if Verified(digest, log) && (log != [] ==> e.previousHash == PreviousHash(log)) {
      forall i | 0 <= i < |more| ensures Linked(digest, more, i) {
        assert i < |log| ==> Linked(digest, log, i);
      }
    }
  }

  lemma ContiguousSnoc(log: seq<Entry>, last: Entry, tooOld: Entry -> bool)
    ensures tooOld(last) ==> (Contiguous(log + [last], tooOld) <==> Contiguous(log, tooOld))
    ensures log != [] && !tooOld(log[|log| - 1]) ==> (Contiguous(log + [last], tooOld) <==> Contiguous(log, tooOld))
    ensures (forall i :: 0 <= i < |log| ==> tooOld(log[i])) ==> Contiguous(log + [last], tooOld)
  {
    var more := log + [last];
    if Contiguous(more, tooOld) {
      forall i, j, l | 0 <= i < j < l < |log| && !tooOld(log[i]) && !tooOld(log[l]) ensures !tooOld(log[j]) {
        assert more[i] == log[i] && more[j] == log[j] && more[l] == log[l];
      }
    }
    if Contiguous(log, tooOld) && log != [] && !tooOld(log[|log| - 1]) {
      forall i, j, l | 0 <= i < j < l < |more| && !tooOld(more[i]) && !tooOld(more[l]) ensures !tooOld(more[j]) {
        if l == |log| && j < |log| - 1 {
          assert !tooOld(log[i]) && !tooOld(log[|log| - 1]);
        }
      }
    }
  }

  lemma EntryFacts(digest: Digest, log: seq<Entry>, i: nat)
    requires Verified(digest, log) && TextIsScalar(log) && i < |log|
    ensures AllScalars(HashedFields(log[i])) && log[i].hash == HashOf(digest, log[i])
    ensures i > 0 ==> log[i].previousHash == log[i - 1].hash
  {
    hide HashOf, HashedFields, AllScalars;
    assert Linked(digest, log, i);
  }

  lemma IdsDiffer(log: seq<Entry>, i: nat, j: nat)
    requires DistinctIds(log) && i < j < |log|
    ensures log[i].id != log[j].id
  {
  }

  /** The last entry of a verified log links to what a purge kept exactly when the entry right
      before it was kept. */
  lemma LinkSurvivesIff(digest: Digest, log: seq<Entry>, p: nat)
    requires CollisionFree(digest) && Verified(digest, log) && TextIsScalar(log) && DistinctIds(log)
    requires p < |log| - 1
    ensures log[|log| - 1].previousHash == log[p].hash <==> p == |log| - 2
  {
    hide CollisionFree, Verified, TextIsScalar, DistinctIds, HashOf, HashedFields, AllScalars;
    var n := |log| - 2;
    EntryFacts(digest, log, n + 1);
    if p < n {
      EntryFacts(digest, log, n);
      EntryFacts(digest, log, p);
      IdsDiffer(log, p, n);
      if log[n].hash == log[p].hash {
        HashDeterminesEntry(digest, log[n], log[p]);
      }
    }
  }

  lemma GapBreaks(log: seq<Entry>, i: nat, j: nat, tooOld: Entry -> bool)
    requires i < j < |log| - 1 && !tooOld(log[i]) && tooOld(log[j]) && !tooOld(log[|log| - 1])
    ensures !Contiguous(log, tooOld)
  {
    var l := |log| - 1;
    assert j < l;
  }

  /** A kept last entry links to what was kept before it exactly if its predecessor was kept. */
  lemma {:induction false} LastEntryLinks(digest: Digest, init: seq<Entry>, last: Entry, tooOld: Entry -> bool)
    requires CollisionFree(digest) && Verified(digest, init + [last]) && TextIsScalar(init + [last])
    requires DistinctIds(init + [last]) && Purged(init, tooOld) != []
    ensures last.previousHash == PreviousHash(Purged(init, tooOld)) <==> !tooOld(init[|init| - 1])
  {
    hide CollisionFree, Verified, TextIsScalar, DistinctIds, Purged;
    var log := init + [last];
    var p := LastKept(init, tooOld);
    LinkSurvivesIff(digest, log, p);
    assert log[p] == init[p] && log[|log| - 1] == last;
  }

  lemma ContiguousLast(init: seq<Entry>, last: Entry, tooOld: Entry -> bool)
    requires !tooOld(last)
    ensures Contiguous(init + [last], tooOld)
            <==> Purged(init, tooOld) == [] || (!tooOld(init[|init| - 1]) && Contiguous(init, tooOld))
  {
    var log := init + [last];
    ContiguousSnoc(init, last, tooOld);
    hide Contiguous, Purged;
    if Purged(init, tooOld) == [] {
      NothingKept(init, tooOld);
    } else {
      var p := LastKept(init, tooOld);
      assert log[p] == init[p] && log[|init| - 1] == init[|init| - 1];
      if p < |init| - 1 {
        GapBreaks(log, p, |init| - 1, tooOld);
      }
    }
  }

  /** A purge of a verified log leaves it verified exactly when it keeps one piece of it. */
  lemma {:induction false} PurgeVerifiesIff(digest: Digest, log: seq<Entry>, tooOld: Entry -> bool)
    requires CollisionFree(digest) && Verified(digest, log) && TextIsScalar(log) && DistinctIds(log)
    ensures Verified(digest, Purged(log, tooOld)) <==> Contiguous(log, tooOld)
  {
    if log != [] {
      var init, last := log[..|log| - 1], log[|log| - 1];
      assert log == init + [last];
      assert DistinctIds(init);
      var kept := Purged(init, tooOld);
      assert Purged(log, tooOld) == if tooOld(last) then kept else kept + [last];
      hide CollisionFree, Verified, TextIsScalar, DistinctIds, HashOf, HashedFields, AllScalars, Purged, Contiguous;
      EntryFacts(digest, log, |init|);
      PrefixVerifies(digest, log, |init|);
      PurgeVerifiesIff(digest, init, tooOld);
      if tooOld(last) {
        ContiguousSnoc(init, last, tooOld);
      } else {
        VerifiedSnoc(digest, kept, last);
        ContiguousLast(init, last, tooOld);
        if kept == [] {
          assert Verified(digest, kept) by { EmptyVerifies(digest); }
        } else {
          LastEntryLinks(digest, init, last, tooOld);
        }
      }
    }
  }

  lemma EmptyVerifies(digest: Digest)
    ensures Verified(digest, [])
  {
  }

  /** Every drawn id is new, and every text is one of Unicode scalar values: those drafted, and
      those the digest gives. */
  ghost predicate SoundDrafts(digest: Digest, ops: seq<Op>) {
    && (forall x :: Scalars(digest(x)))
    && (forall i :: 0 <= i < |ops| && ops[i].Record? ==> ScalarDraft(ops[i].draft))
    && (forall i, j :: 0 <= i < j < |ops| && ops[i].Record? && ops[j].Record? ==> ops[i].draft.id != ops[j].draft.id)
  }

  ghost predicate ScalarDraft(d: Draft) {
    AllScalars([d.id, d.action, d.actor, d.resource, d.detail, d.timestamp])
  }

  ghost predicate Drafted(ops: seq<Op>, id: Text) {
    exists i :: 0 <= i < |ops| && ops[i].Record? && ops[i].draft.id == id
  }

  ghost predicate SoundLog(ops: seq<Op>, log: seq<Entry>) {
    && TextIsScalar(log) && DistinctIds(log)
    && (forall i :: 0 <= i < |log| ==> Scalars(log[i].hash) && Drafted(ops, log[i].id))
  }

  lemma {:induction false} PurgedFrom(log: seq<Entry>, tooOld: Entry -> bool)
    ensures forall k :: 0 <= k < |Purged(log, tooOld)| ==> Purged(log, tooOld)[k] in log
    ensures DistinctIds(log) ==> DistinctIds(Purged(log, tooOld))
  {
    if log != [] {
      var init, last := log[..|log| - 1], log[|log| - 1];
      assert log == init + [last];
      PurgedFrom(init, tooOld);
    }
  }

  lemma ChainedIsScalar(digest: Digest, log: seq<Entry>, d: Draft)
    requires (forall x :: Scalars(digest(x))) && ScalarDraft(d) && (log != [] ==> Scalars(log[|log| - 1].hash))
    ensures var e := Chained(digest, log, d);
            AllScalars(HashedFields(e)) && Scalars(e.hash) && e.id == d.id
  {
    var e, six := Chained(digest, log, d), [d.id, d.action, d.actor, d.resource, d.detail, d.timestamp];
    assert HashedFields(e) == six + [PreviousHash(log)];
    assert Scalars(GENESIS);
  }

  lemma RecordSound(digest: Digest, ops: seq<Op>, log: seq<Entry>, d: Draft)
    requires SoundDrafts(digest, ops + [Record(d)]) && SoundLog(ops, log)
    ensures SoundLog(ops + [Record(d)], log + [Chained(digest, log, d)])
  {
    var all, e := ops + [Record(d)], Chained(digest, log, d);
    assert all[|ops|] == Record(d);
    ChainedIsScalar(digest, log, d);
    hide Chained, HashedFields, AllScalars, Scalars, ScalarDraft;
    forall i | 0 <= i < |log| ensures Drafted(all, log[i].id) && log[i].id != d.id {
      var j :| 0 <= j < |ops| && ops[j].Record? && ops[j].draft.id == log[i].id;
      assert all[j] == ops[j];
    }
  }

  lemma PurgeSound(ops: seq<Op>, log: seq<Entry>, tooOld: Entry -> bool)
    requires SoundLog(ops, log)
    ensures SoundLog(ops + [Purge(tooOld)], Purged(log, tooOld))
  {
    hide HashedFields, AllScalars, Scalars;
    var all, kept := ops + [Purge(tooOld)], Purged(log, tooOld);
    PurgedFrom(log, tooOld);
    forall k | 0 <= k < |kept|
      ensures AllScalars(HashedFields(kept[k])) && Scalars(kept[k].hash) && Drafted(all, kept[k].id)
    {
      assert kept[k] in log;
      var i :| 0 <= i < |log| && log[i] == kept[k];
      var j :| 0 <= j < |ops| && ops[j].Record? && ops[j].draft.id == log[i].id;
      assert all[j] == ops[j];
    }
  }

  lemma SoundPrefix(digest: Digest, ops: seq<Op>, n: nat)
    requires SoundDrafts(digest, ops) && n <= |ops|
    ensures SoundDrafts(digest, ops[..n])
  {
  }

  lemma {:induction false} RunIsSound(digest: Digest, ops: seq<Op>)
    requires SoundDrafts(digest, ops)
    ensures SoundLog(ops, Run(digest, ops))
  {
    hide SoundDrafts, Purged, Chained;
    if ops == [] {
      assert SoundLog([], []);
    } else {
      var init, last := ops[..|ops| - 1], ops[|ops| - 1];
      hide SoundLog;
      assert ops == init + [last];
      SoundPrefix(digest, ops, |init|);
      RunIsSound(digest, init);
      match last
      case Record(d) => RecordSound(digest, init, Run(digest, init), d);
      case Purge(tooOld) => PurgeSound(init, Run(digest, init), tooOld);
    }
  }

  ghost predicate AlwaysVerified(digest: Digest, ops: seq<Op>) {
    forall n :: 0 <= n <= |ops| ==> Verified(digest, Run(digest, ops[..n]))
  }

  /** Every purge of the run keeps one piece of the log it meets. */
  ghost predicate PurgesContiguous(digest: Digest, ops: seq<Op>) {
    forall n :: 0 <= n < |ops| && ops[n].Purge? ==> Contiguous(Run(digest, ops[..n]), ops[n].tooOld)
  }

  lemma AlwaysSnoc(digest: Digest, ops: seq<Op>, op: Op)
    ensures AlwaysVerified(digest, ops + [op])
            <==> AlwaysVerified(digest, ops) && Verified(digest, Run(digest, ops + [op]))
    ensures PurgesContiguous(digest, ops + [op])
            <==> PurgesContiguous(digest, ops) && (op.Purge? ==> Contiguous(Run(digest, ops), op.tooOld))
    ensures AlwaysVerified(digest, ops) ==> Verified(digest, Run(digest, ops))
  {
    hide Run, Verified, Contiguous;
    var all := ops + [op];
    assert all[..|all|] == all && all[..|ops|] == ops && ops[..|ops|] == ops;
    assert forall n :: 0 <= n <= |ops| ==> all[..n] == ops[..n];
  }

  /** A run keeps its log verified throughout exactly when each of its purges keeps one piece of
      the log it meets. */
  lemma {:induction false} RunVerifiesIff(digest: Digest, ops: seq<Op>)
    requires CollisionFree(digest) && SoundDrafts(digest, ops)
    ensures AlwaysVerified(digest, ops) <==> PurgesContiguous(digest, ops)
  {
    hide CollisionFree, SoundDrafts, Verified, AlwaysVerified, PurgesContiguous, Contiguous;
    if ops == [] {
      NothingRuns(digest);
    } else {
      var init, last := ops[..|ops| - 1], ops[|ops| - 1];
      var log := Run(digest, init);
      assert ops == init + [last];
      SoundPrefix(digest, ops, |init|);
      RunVerifiesIff(digest, init);
      AlwaysSnoc(digest, init, last);
      RunIsSound(digest, init);
      if Verified(digest, log) {
        match last
        case Record(d) => RecordVerified(digest, log, d);
        case Purge(tooOld) => PurgeVerifiesIff(digest, log, tooOld);
      }
    }
  }

  lemma NothingRuns(digest: Digest)
    ensures AlwaysVerified(digest, []) && PurgesContiguous(digest, [])
  {
  }
}

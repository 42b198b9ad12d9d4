/** Ascending sequences of timestamps without repetition. */
module TimeOrder {

  ghost predicate Ascending(s: seq<int>) {
    forall i, j :: 0 <= i < j < |s| ==> s[i] < s[j]
  }

  lemma HasMember(s: seq<int>)
    ensures s == [] || exists x :: x in s
  {
    if s != [] {
      var x := s[0];
      assert x in s;
    }
  }

  lemma AscendingSnoc(r: seq<int>, last: int)
    requires Ascending(r) && forall x :: x in r ==> x < last
    ensures Ascending(r + [last])
  {
    forall i | 0 <= i < |r| ensures (r + [last])[i] < last {
      assert r[i] in r;
    }
  }

  /** The last of an ascending sequence is its greatest, and the others are before it. */
  lemma AscendingInit(init: seq<int>, last: int)
    requires Ascending(init + [last])
    ensures Ascending(init) && forall x :: x in init ==> x < last
    ensures forall x :: x in init + [last] <==> x in init || x == last
  {
    var r := init + [last];
    assert forall i :: 0 <= i < |init| ==> init[i] == r[i] && r[i] < r[|init|];
  }

  /** The sequence with `t` in its place, once. */
  function Inserted(s: seq<int>, t: int): (r: seq<int>)
    ensures forall x :: x in r <==> x in s || x == t
  {
    if s == [] then [t]
    else
      var init, last := s[..|s| - 1], s[|s| - 1];
      assert s == init + [last];
      if t > last then s + [t] else if t == last then s else Inserted(init, t) + [last]
  }

  lemma {:induction false} InsertedAscends(s: seq<int>, t: int)
    requires Ascending(s)
    ensures Ascending(Inserted(s, t))
  {
    if s != [] {
      var init, last := s[..|s| - 1], s[|s| - 1];
      assert s == init + [last];
      AscendingInit(init, last);
      if t > last {
        AscendingSnoc(s, t);
      } else if t < last {
        InsertedAscends(init, t);
        AscendingSnoc(Inserted(init, t), last);
      }
    }
  }

  function Sorted(ts: seq<int>): (r: seq<int>)
    ensures forall x :: x in r <==> x in ts
    ensures Ascending(r)
  {
    if ts == [] then []
    else
      var init := Sorted(ts[..|ts| - 1]);
      assert ts == ts[..|ts| - 1] + [ts[|ts| - 1]];
      InsertedAscends(init, ts[|ts| - 1]);
      Inserted(init, ts[|ts| - 1])
  }

  /** An ascending sequence is determined by its members. */
  lemma {:induction false} AscendingUnique(r: seq<int>, s: seq<int>)
    requires Ascending(r) && Ascending(s) && forall x :: x in r <==> x in s
    ensures r == s
  {
    if r == [] {
      HasMember(s);
    } else {
      HasMember(r);
      var m, n := |r| - 1, |s| - 1;
      assert r == r[..m] + [r[m]] && s == s[..n] + [s[n]];
      AscendingInit(r[..m], r[m]);
      AscendingInit(s[..n], s[n]);
      hide Ascending;
      assert r[m] in s && s[n] in r;
      assert r[m] == s[n];
      forall x ensures x in r[..m] <==> x in s[..n] {
        assert x in r <==> x in s;
      }
      AscendingUnique(r[..m], s[..n]);
    }
  }
}

/** What every module shares, and the counting facts about finite sets that the protocol proofs rest on. */
module Collections {

  datatype Option<+T> = None | Some(value: T)

  type Bytes = seq<bv8>

  function Min(a: int, b: int): int {
    if a < b then a else b
  }

  /** The ids a job expects: range(expected_tiles). */
  function Range(n: int): (r: set<int>)
    ensures forall i :: i in r <==> 0 <= i < n
    decreases if n < 0 then 0 else n
  {
    if n <= 0 then {} else Range(n - 1) + {n - 1}
  }

  lemma {:induction false} RangeSize(n: nat)
    ensures |Range(n)| == n
  {
    if n == 0 {
    } else {
      RangeSize(n - 1);
    }
  }

  lemma {:induction false} SubsetSize<T>(a: set<T>, b: set<T>)
    requires a <= b
    ensures |a| <= |b|
    ensures |a| == |b| ==> a == b
  {
    assert b == a + (b - a);
    assert |b| == |a| + |b - a|;
    if |a| == |b| {
      assert b - a == {};
    }
  }

  /** Pigeonhole: n distinct ids, all below n, are all the ids below n. */
  lemma Pigeonhole(ids: set<int>, n: nat)
    requires ids <= Range(n)
    ensures |ids| <= n
    ensures |ids| >= n <==> ids == Range(n)
  {
    RangeSize(n);
    SubsetSize(ids, Range(n));
  }

  /** If every member of `owners` owns a slot of its own, there are at least as many slots as owners. */
  lemma {:induction false} OwnersFitSlots<K, W>(owners: set<W>, slots: set<K>, owner: map<K, W>)
    requires forall w :: w in owners ==> exists k :: k in slots && k in owner && owner[k] == w
    ensures |owners| <= |slots|
    decreases |owners|
  {
    if owners == {} {
    } else {
      var w :| w in owners;
      var k :| k in slots && k in owner && owner[k] == w;
      forall v | v in owners - {w}
        ensures exists j :: j in slots - {k} && j in owner && owner[j] == v
      {
        var j :| j in slots && j in owner && owner[j] == v;
        assert j in slots - {k};
      }
      OwnersFitSlots(owners - {w}, slots - {k}, owner);
    }
  }

  /** How many turns a leader-gated loop makes before is_leader() answers False. */
  function TurnsLed(leader: seq<bool>): (n: nat)
    ensures n <= |leader| && (forall i :: 0 <= i < n ==> leader[i]) && (n < |leader| ==> !leader[n])
  {
    if leader == [] || !leader[0] then 0 else 1 + TurnsLed(leader[1..])
  }

  /** The n integers from lo on. */
  function Interval(lo: int, n: nat): (r: set<int>)
    ensures forall i :: i in r <==> lo <= i < lo + n
    ensures |r| == n
  {
    if n == 0 then {} else Interval(lo, n - 1) + {lo + n - 1}
  }

  lemma AnyMember<T>(s: set<T>) returns (x: T)
    requires s != {}
    ensures x in s
  {
    x :| x in s;
  }

  lemma {:induction false} LeastMember(s: set<int>) returns (least: int)
    requires s != {}
    ensures least in s && forall i :: i in s ==> least <= i
  {
    var i := AnyMember(s);
    if s == {i} {
      least := i;
    } else {
      var rest := s - {i};
      assert rest != {};
      var j := LeastMember(rest);
      least := if i < j then i else j;
      assert forall k :: k in s ==> k == i || k in rest;
    }
  }
}

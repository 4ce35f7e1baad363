/** Round-robin routing to the replicas of each primary (`ReplicaSet`). */
module Replicas {
  import opened Prelude

  /** A primary's counter and its replicas. */
  datatype Ring = Ring(count: nat, nodes: seq<Server>)

  ghost predicate Sound(ring: Ring) {
    ring.nodes != [] && Distinct(ring.nodes) && ring.count < WORD
  }

  /** The nodes other than `x`, in order. */
  function Without(nodes: seq<Server>, x: Server): (r: seq<Server>)
    ensures forall y :: y in r <==> y in nodes && y != x
    ensures |r| <= |nodes|
  {
    if nodes == [] then []
    else
      var last := nodes[|nodes| - 1];
      Without(nodes[..|nodes| - 1], x) + if last == x then [] else [last]
  }

  lemma {:induction false} WithoutIsDistinct(nodes: seq<Server>, x: Server)
    requires Distinct(nodes)
    ensures Distinct(Without(nodes, x))
  {
    if nodes != [] {
      var front := nodes[..|nodes| - 1];
      WithoutIsDistinct(front, x);
      assert nodes[|nodes| - 1] !in front;
    }
  }

  class ReplicaSet {
    var servers: map<Server, Ring>

    ghost predicate Valid()
      reads this
    {
      forall p :: p in servers ==> Sound(servers[p])
    }

    constructor ()
      ensures Valid() && servers == map[]
    {
      servers := map[];
    }

    method Add(primary: Server, replica: Server)
      requires Valid()
      modifies this
      ensures Valid() && primary in servers && replica in servers[primary].nodes
      ensures forall p :: p != primary ==> (p in servers <==> p in old(servers)) && (p in servers ==> servers[p] == old(servers)[p])
      ensures var before := if primary in old(servers) then old(servers)[primary] else Ring(0, []);
              servers[primary] == if replica in before.nodes then before else Ring(before.count, before.nodes + [replica])
    {
      if primary !in servers {
        servers := servers[primary := Ring(0, [replica])];
      } else if replica !in servers[primary].nodes {
        var ring := servers[primary];
        servers := servers[primary := Ring(ring.count, ring.nodes + [replica])];
      }
    }

    method Remove(primary: Server, replica: Server)
      requires Valid()
      modifies this
      ensures Valid()
      ensures forall p :: p != primary ==> (p in servers <==> p in old(servers)) && (p in servers ==> servers[p] == old(servers)[p])
      ensures primary in servers ==>
                primary in old(servers) && servers[primary] == Ring(old(servers)[primary].count, Without(old(servers)[primary].nodes, replica))
      ensures primary in old(servers) ==> (primary !in servers <==> forall y :: y in old(servers)[primary].nodes ==> y == replica)
    {
      if primary in servers {
        var ring := servers[primary];
        servers := servers - {primary};
        WithoutIsDistinct(ring.nodes, replica);
        var left := Without(ring.nodes, replica);
        if left != [] {
          assert left[0] in left;
          servers := servers[primary := Ring(ring.count, left)];
        } else {
          assert forall y :: y in ring.nodes ==> y == replica by {
            assert forall y :: y in left <==> y in ring.nodes && y != replica;
          }
        }
      }
    }

    /** `next_replica`, with the counter wrapping as a machine word does. */
    method NextReplica(primary: Server) returns (replica: Option<Server>)
      requires Valid()
      modifies this
      ensures Valid()
      ensures primary !in old(servers) ==> replica == None && servers == old(servers)
      ensures primary in old(servers) ==>
                var ring := old(servers)[primary];
                && replica == Some(ring.nodes[Pick(ring.count, |ring.nodes|, 1)])
                && servers == old(servers)[primary := Ring(WrapIncr(ring.count), ring.nodes)]
    {
      if primary !in servers {
        return None;
      }
      var ring := servers[primary];
      var count := WrapIncr(ring.count);
      servers := servers[primary := Ring(count, ring.nodes)];
      replica := Some(ring.nodes[count % |ring.nodes|]);
    }

    /** `n` calls in a row, with no change in between. */
    method NextReplicas(primary: Server, n: nat) returns (picks: seq<Server>)
      requires Valid() && primary in servers
      modifies this
      ensures Valid() && |picks| == n
      ensures var ring := old(servers)[primary];
              && (forall k :: 0 <= k < n ==> picks[k] == ring.nodes[Pick(ring.count, |ring.nodes|, k + 1)])
              && servers == old(servers)[primary := Ring((ring.count + n) % WORD, ring.nodes)]
    {
      picks := [];
      ghost var ring := servers[primary];
      while |picks| < n
        invariant Valid() && |picks| <= n
        invariant forall k :: 0 <= k < |picks| ==> picks[k] == ring.nodes[Pick(ring.count, |ring.nodes|, k + 1)]
        invariant servers == old(servers)[primary := Ring((ring.count + |picks|) % WORD, ring.nodes)]
      {
        var k := |picks|;
        PickAdds(ring.count, |ring.nodes|, k);
        var replica := NextReplica(primary);
        picks := picks + [replica.value];
      }
    }
  }

  lemma PickAdds(count: nat, n: nat, k: nat)
    requires n > 0
    ensures Pick((count + k) % WORD, n, 1) == Pick(count, n, k + 1)
    ensures WrapIncr((count + k) % WORD) == (count + (k + 1)) % WORD
  {
    WrapAdds(count, k);
  }

  lemma WrapAdds(count: nat, k: nat)
    ensures WrapIncr((count + k) % WORD) == (count + (k + 1)) % WORD
  {
    ModAdds(count + k, 1, WORD);
  }

  /** The index of the `k`-th replica picked from now on. */
  function Pick(count: nat, n: nat, k: nat): (i: nat)
    requires n > 0
    ensures i < n
  {
    (count + k) % WORD % n
  }

  // ---- Round robin ----

  lemma ModAdds(a: nat, b: nat, n: nat)
    requires n > 0
    ensures (a % n + b) % n == (a + b) % n
  {
    var q := a / n;
    assert a == q * n + a % n;
    ModMultiple(a % n + b, q, n);
  }

  lemma {:induction false} ModMultiple(r: nat, q: nat, n: nat)
    requires n > 0
    ensures (r + q * n) % n == r % n
    ensures (q * n + r) % n == r % n
  {
    var d := r / n;
    assert r == d * n + r % n;
    assert r + q * n == (d + q) * n + r % n by { assert (d + q) * n == d * n + q * n; }
    ModUnique(r + q * n, d + q, r % n, n);
  }

  lemma BigMultiple(k: int, n: int)
    requires k != 0 && n > 0
    ensures k * n >= n || k * n <= -n
  {
    if k > 0 {
      Grows(k, n);
    } else {
      Grows(-k, n);
      assert (-k) * n == -(k * n);
    }
  }

  lemma {:induction false} Grows(k: nat, n: int)
    requires k > 0 && n > 0
    ensures k * n >= n
  {
    if k > 1 {
      Grows(k - 1, n);
      assert k * n == (k - 1) * n + n;
    }
  }

  lemma ModUnique(x: nat, q: nat, r: nat, n: nat)
    requires n > 0 && x == q * n + r && r < n
    ensures x % n == r
  {
    var q' := x / n;
    assert (q - q') * n == x % n - r;
    if q != q' {
      BigMultiple(q - q', n);
    }
  }

  /** Equal remainders a short way apart are the same number. */
  lemma CloseTogether(a: nat, b: nat, n: nat)
    requires n > 0 && a < b < a + n
    ensures a % n != b % n
  {
    var k := b / n - a / n;
    if a % n == b % n {
      assert b - a == k * n;
      if k != 0 {
        BigMultiple(k, n);
      }
    }
  }

  /** The picks name every replica, and no replica twice. */
  ghost predicate Fair(count: nat, n: nat)
    requires n > 0
  {
    && (forall j, k :: 1 <= j < k <= n ==> Pick(count, n, j) != Pick(count, n, k))
    && (forall i :: 0 <= i < n ==> Reached(count, n, i))
  }

  ghost predicate Reached(count: nat, n: nat, i: nat)
    requires n > 0
  {
    exists k :: 1 <= k <= n && Pick(count, n, k) == i
  }

  /** The counter does not wrap inside the round, or wraps without a jump. */
  predicate Smooth(count: nat, n: nat)
    requires n > 0
  {
    count + n < WORD || count == WORD - 1 || WORD % n == 0
  }

  /** In a smooth round the picks are those of a counter that never wraps. */
  lemma SmoothPick(count: nat, n: nat, k: nat)
    requires 0 < n < WORD && count < WORD && Smooth(count, n) && 1 <= k <= n
    ensures Pick(count, n, k) == (if count == WORD - 1 then k - 1 else (count + k) % n)
  {
    var x := count + k;
    if x < WORD {
      ModUnique(x, 0, x, WORD);
    } else {
      ModUnique(x, 1, x - WORD, WORD);
      if count == WORD - 1 {
        ModUnique(k - 1, 0, k - 1, n);
      } else {
        var q := WORD / n;
        assert WORD == q * n;
        ModMultiple(x - WORD, q, n);
      }
    }
  }

  /** The number whose remainder is `i` among `a + 1, ..., a + n`. */
  lemma SomeNumberHits(a: nat, n: nat, i: nat) returns (k: nat)
    requires i < n
    ensures 1 <= k <= n && (a + k) % n == i
  {
    var r := a % n;
    k := if i > r then i - r else i + n - r;
    ModAdds(a, k, n);
    if i > r {
      ModUnique(r + k, 0, i, n);
    } else {
      ModUnique(r + k, 1, i, n);
    }
  }

  lemma SmoothPicksDiffer(count: nat, n: nat, j: nat, k: nat)
    requires 0 < n < WORD && count < WORD && Smooth(count, n) && 1 <= j < k <= n
    ensures Pick(count, n, j) != Pick(count, n, k)
  {
    SmoothPick(count, n, j);
    SmoothPick(count, n, k);
    CloseTogether(count + j, count + k, n);
  }

  lemma SmoothReaches(count: nat, n: nat, i: nat)
    requires 0 < n < WORD && count < WORD && Smooth(count, n) && i < n
    ensures Reached(count, n, i)
  {
    if count == WORD - 1 {
      SmoothPick(count, n, i + 1);
      assert Pick(count, n, i + 1) == i;
    } else {
      var k := SomeNumberHits(count, n, i);
      SmoothPick(count, n, k);
      assert Pick(count, n, k) == i;
    }
  }

  lemma SmoothIsFair(count: nat, n: nat)
    requires 0 < n < WORD && count < WORD && Smooth(count, n)
    ensures Fair(count, n)
  {
    forall j, k | 1 <= j < k <= n
      ensures Pick(count, n, j) != Pick(count, n, k)
    {
      SmoothPicksDiffer(count, n, j, k);
    }
    forall i | 0 <= i < n
      ensures Reached(count, n, i)
    {
      SmoothReaches(count, n, i);
    }
  }

  /** If the counter wraps inside the round with a jump, two picks coincide. */
  lemma RoughIsUnfair(count: nat, n: nat) returns (j: nat, k: nat)
    requires 0 < n < WORD && count < WORD && !Smooth(count, n)
    ensures 1 <= j < k <= n && Pick(count, n, j) == Pick(count, n, k)
  {
    var a := WORD - 1 - count;
    var r := WORD % n;
    var q := WORD / n;
    assert WORD == q * n + r;
    if r <= a {
      j, k := a + 1 - r, a + 1;
      ModUnique(count + j, 0, WORD - r, WORD);
      ModUnique(WORD - r, q, 0, n);
      ModUnique(count + k, 1, 0, WORD);
      ModUnique(0, 0, 0, n);
    } else {
      j, k := 1, r + 1;
      ModUnique(count + j, 0, WORD - a, WORD);
      ModUnique(WORD - a, q, r - a, n);
      ModUnique(count + k, 1, r - a, WORD);
      ModUnique(r - a, 0, r - a, n);
    }
  }

  lemma FairIffSmooth(count: nat, n: nat)
    requires 0 < n < WORD && count < WORD
    ensures Fair(count, n) <==> Smooth(count, n)
  {
    if Smooth(count, n) {
      SmoothIsFair(count, n);
    } else {
      var j, k := RoughIsUnfair(count, n);
    }
  }

  /** As many picks in a row as there are replicas reach each of them exactly once, if and only if the counter passes the end
    * of its word smoothly. */
  lemma RoundReachesEachOnceIff(ring: Ring, picks: seq<Server>)
    requires Sound(ring) && |picks| == |ring.nodes| < WORD
    requires forall k :: 0 <= k < |picks| ==> picks[k] == ring.nodes[Pick(ring.count, |ring.nodes|, k + 1)]
    ensures (Distinct(picks) && forall x :: x in ring.nodes ==> x in picks) <==> Smooth(ring.count, |ring.nodes|)
  {
    var n := |ring.nodes|;
    if Smooth(ring.count, n) {
      SmoothIsFair(ring.count, n);
      forall i, j | 0 <= i < j < n
        ensures picks[i] != picks[j]
      {
        SmoothPicksDiffer(ring.count, n, i + 1, j + 1);
      }
      forall x | x in ring.nodes
        ensures x in picks
      {
        var i :| 0 <= i < n && ring.nodes[i] == x;
        assert Reached(ring.count, n, i);
        var k :| 1 <= k <= n && Pick(ring.count, n, k) == i;
        assert picks[k - 1] == x;
      }
    } else {
      var j, k := RoughIsUnfair(ring.count, n);
      assert picks[j - 1] == picks[k - 1];
    }
  }

  /** Three replicas and a counter one step before its end: the round misses the second replica. */
  lemma WrapCanBeUnfair()
    ensures !Fair(WORD - 2, 3)
  {
    assert WORD % 3 == 1;
    FairIffSmooth(WORD - 2, 3);
  }
}

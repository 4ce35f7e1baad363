/** `clustered::sync`: the routing table is replaced by the server's answer, and the connection map is brought in line
  * with it. */
module ClusterSync {
  import opened Prelude
  import opened Routing

  type Error = string

  /** A command, known by its number. */
  type CommandId = nat

  function Flatten(writers: map<Server, seq<CommandId>>, nodes: seq<Server>): seq<CommandId>
    requires forall x :: x in nodes ==> x in writers
  {
    if nodes == [] then [] else Flatten(writers, nodes[..|nodes| - 1]) + writers[nodes[|nodes| - 1]]
  }

  lemma {:induction false} FlattenAdds(writers: map<Server, seq<CommandId>>, a: seq<Server>, b: seq<Server>)
    requires forall x :: x in a + b ==> x in writers
    ensures (forall x :: x in a ==> x in writers) && (forall x :: x in b ==> x in writers)
    ensures Flatten(writers, a + b) == Flatten(writers, a) + Flatten(writers, b)
  {
    assert forall x :: x in a || x in b ==> x in a + b;
    if b == [] {
      assert a + b == a;
    } else {
      assert (a + b)[..|a + b| - 1] == a + b[..|b| - 1];
      FlattenAdds(writers, a, b[..|b| - 1]);
    }
  }

  /** The commands of each connection are together and in order, after those of the connections before it. */
  lemma FlattenKeepsPlaces(writers: map<Server, seq<CommandId>>, nodes: seq<Server>, i: nat)
    requires (forall x :: x in nodes ==> x in writers) && i < |nodes|
    ensures var from, commands := |Flatten(writers, nodes[..i])|, writers[nodes[i]];
            && from + |commands| <= |Flatten(writers, nodes)|
            && Flatten(writers, nodes)[from..from + |commands|] == commands
  {
    assert nodes == nodes[..i + 1] + nodes[i + 1..] && nodes[..i + 1][..i] == nodes[..i];
    FlattenAdds(writers, nodes[..i + 1], nodes[i + 1..]);
  }

  /** A covered slot belongs to one of the primaries. */
  lemma {:induction false} ScanFindsAPrimary(data: seq<SlotRange>, slot: nat)
    requires Scan(data, slot).Some?
    ensures exists i :: 0 <= i < |data| && Covers(data[i], slot) && data[i].primary == Scan(data, slot).value
  {
    if !Covers(data[0], slot) {
      ScanFindsAPrimary(data[1..], slot);
      var i :| 0 <= i < |data[1..]| && Covers(data[1..][i], slot) && data[1..][i].primary == Scan(data, slot).value;
      assert data[i + 1] == data[1..][i];
    }
  }

  class Cluster {
    /** The router's table and the copy the client shares. */
    var cache: seq<SlotRange>
    var shared: seq<SlotRange>
    /** Each connection with the commands in flight on it, as its reader leaves them when it closes. */
    var writers: map<Server, seq<CommandId>>
    var buffer: seq<CommandId>

    constructor ()
      ensures cache == shared == [] && writers == map[] && buffer == []
    {
      cache, shared, writers, buffer := [], [], map[], [];
    }

    /** The connected servers as an ordered set. */
    method Connected() returns (nodes: seq<Server>)
      ensures InOrder(nodes) && forall x :: x in nodes <==> x in writers
    {
      nodes := [];
      var left := writers.Keys;
      while left != {}
        invariant InOrder(nodes) && left <= writers.Keys
        invariant forall x :: x in nodes <==> x in writers && x !in left
      {
        var x :| x in left;
        AddKeepsOrder(nodes, x);
        nodes := Add(nodes, x);
        left := left - {x};
      }
    }

    /** `parse_cluster_changes` */
    method ParseClusterChanges() returns (add: seq<Server>, remove: seq<Server>)
      ensures InOrder(add) && forall x :: x in add <==> x in Primaries(cache) && x !in writers
      ensures InOrder(remove) && forall x :: x in remove <==> x in writers && x !in Primaries(cache)
    {
      var wanted := Primaries(cache);
      PrimariesAreInOrder(cache);
      var connected := Connected();
      add := Difference(wanted, connected);
      remove := Difference(connected, wanted);
    }

    /** Connections the new table does not need are closed, and their commands are saved. */
    method DropUnused(remove: seq<Server>)
      requires InOrder(remove) && forall x :: x in remove ==> x in writers
      modifies this`writers, this`buffer
      ensures writers == old(writers) - (set x | x in remove)
      ensures buffer == old(buffer) + Flatten(old(writers), remove)
    {
      for k := 0 to |remove|
        invariant writers == old(writers) - (set x | x in remove[..k])
        invariant buffer == old(buffer) + Flatten(old(writers), remove[..k])
      {
        var server := remove[k];
        assert server !in remove[..k] by {
          ServersCompare(server, server);
        }
        assert remove[..k + 1] == remove[..k] + [server];
        assert remove[..k + 1][..k] == remove[..k];
        buffer := buffer + writers[server];
        writers := writers - {server};
      }
      assert remove[..|remove|] == remove;
    }

    /** Each missing connection is opened; the first failure ends the sync. */
    method ConnectMissing(add: seq<Server>, connects: Server -> bool) returns (ok: bool)
      requires forall x :: x in add ==> x !in writers
      modifies this`writers
      ensures ok <==> forall x :: x in add ==> connects(x)
      ensures ok ==> writers.Keys == old(writers).Keys + (set x | x in add)
      ensures old(writers).Keys <= writers.Keys <= old(writers).Keys + (set x | x in add)
      ensures forall x :: x in writers ==> writers[x] == if x in old(writers) then old(writers)[x] else []
    {
      for k := 0 to |add|
        invariant forall x :: x in add[..k] ==> connects(x)
        invariant writers.Keys == old(writers).Keys + (set x | x in add[..k])
        invariant forall x :: x in writers ==> writers[x] == if x in old(writers) then old(writers)[x] else []
      {
        assert add[..k + 1] == add[..k] + [add[k]];
        assert forall x :: x in add[..k] ==> x in add;
        if !connects(add[k]) {
          return false;
        }
        writers := writers[add[k] := []];
      }
      assert add[..|add|] == add;
      ok := true;
    }

    /** Both copies of the table are replaced. */
    method Install(ranges: seq<SlotRange>)
      modifies `cache, `shared
      ensures cache == shared == SortByStart(ranges) && (Disjoint(ranges) ==> Ascending(cache))
    {
      shared := SortByStart(ranges);
      cache := shared;
      ghost var disjoint := Disjoint(ranges);
      if disjoint {
        SortingMakesAscending(ranges);
      }
    }

    /** The connection map is brought in line with the table. */
    method Adjust(connects: Server -> bool) returns (ok: bool, ghost removed: seq<Server>)
      modifies `writers, `buffer
      ensures InOrder(removed) && forall x :: x in removed <==> x in old(writers) && x !in Primaries(cache)
      ensures buffer == old(buffer) + Flatten(old(writers), removed)
      ensures ok <==> forall x :: x in Primaries(cache) && x !in old(writers) ==> connects(x)
      ensures ok ==> writers.Keys == set x | x in Primaries(cache)
      ensures forall x :: x in writers ==> x in Primaries(cache)
      ensures forall x :: x in old(writers) && x in Primaries(cache) ==> x in writers
      ensures forall x :: x in writers ==> writers[x] == if x in old(writers) then old(writers)[x] else []
    {
      var add, remove := ParseClusterChanges();
      removed := remove;
      DropUnused(remove);
      ok := ConnectMissing(add, connects);
    }

    method Sync(response: Result<seq<SlotRange>, Error>, connects: Server -> bool)
      returns (r: Result<(), Error>, ghost removed: seq<Server>)
      modifies this
      ensures response.Err? ==>
                r == Err(response.error) && cache == old(cache) && shared == old(shared) && writers == old(writers) &&
                buffer == old(buffer)
      ensures response.Ok? ==>
                cache == shared == SortByStart(response.value) && (Disjoint(response.value) ==> Ascending(cache))
      ensures response.Ok? ==>
                && InOrder(removed)
                && (forall x :: x in removed <==> x in old(writers) && x !in Primaries(cache))
                && buffer == old(buffer) + Flatten(old(writers), removed)
      ensures r.Ok? <==>
              response.Ok? && forall x :: x in Primaries(cache) && x !in old(writers) ==> connects(x)
      ensures r.Ok? ==> writers.Keys == set x | x in Primaries(cache)
      ensures response.Ok? ==>
                && (forall x :: x in writers ==> x in Primaries(cache))
                && (forall x :: x in old(writers) && x in Primaries(cache) ==> x in writers)
                && (forall x :: x in writers ==> writers[x] == if x in old(writers) then old(writers)[x] else [])
      ensures r.Ok? ==> Served(cache, writers.Keys)
      ensures r.Ok? ==> forall slot :: Scan(cache, slot).Some? ==> Scan(cache, slot).value in writers
    {
      removed := [];
      if response.Err? {
        return Err(response.error), removed;
      }
      Install(response.value);
      var ok;
      ok, removed := Adjust(connects);
      if !ok {
        return Err("connect"), removed;
      }
      r := Ok(());
      EverySlotHasAConnection(cache, writers.Keys);
    }

    /** `get_server` on the router's table. After a successful sync a server it finds is connected, on any table, and on an
      * ascending one it finds a server for every covered slot. */
    method Route(slot: nat) returns (server: Option<Server>)
      requires |cache| < WORD / 2
      ensures Served(cache, writers.Keys) && server.Some? ==> server.value in writers
      ensures Ascending(cache) ==> (server.Some? <==> exists i :: 0 <= i < |cache| && Covers(cache[i], slot))
    {
      server := LookUp(cache, slot);
      ghost var ascending := Ascending(cache);
      if ascending {
        AscendingIsDisjoint(cache);
        if i: nat :| i < |cache| && Covers(cache[i], slot) {
          ScanFinds(cache, slot, i);
        }
      }
    }
  }

  /** Every covered slot leads to a connection: every range's primary is connected. */
  ghost predicate Served(data: seq<SlotRange>, connected: set<Server>) {
    forall i :: 0 <= i < |data| ==> data[i].primary in connected
  }

  lemma EverySlotHasAConnection(data: seq<SlotRange>, connected: set<Server>)
    requires forall x :: x in Primaries(data) ==> x in connected
    ensures Served(data, connected)
    ensures forall slot :: Scan(data, slot).Some? ==> Scan(data, slot).value in connected
  {
    PrimariesAreInOrder(data);
    forall i | 0 <= i < |data|
      ensures data[i].primary in connected
    {
      assert data[i].primary in Primaries(data);
    }
    forall slot | Scan(data, slot).Some?
      ensures Scan(data, slot).value in connected
    {
      ScanFindsAPrimary(data, slot);
    }
  }

  /** `BTreeSet::difference` */
  method Difference(a: seq<Server>, b: seq<Server>) returns (r: seq<Server>)
    requires InOrder(a)
    ensures InOrder(r) && forall x :: x in r <==> x in a && x !in b
  {
    r := [];
    for i := 0 to |a|
      invariant InOrder(r) && (forall x :: x in r <==> x in a[..i] && x !in b)
      invariant forall k :: 0 <= k < |r| && i < |a| ==> Before(r[k], a[i])
    {
      assert a[..i + 1] == a[..i] + [a[i]];
      if a[i] !in b {
        r := r + [a[i]];
      }
      if i + 1 < |a| {
        forall k | 0 <= k < |r| ensures Before(r[k], a[i + 1]) {
          if r[k] != a[i] {
            ServersChain(r[k], a[i], a[i + 1]);
          }
        }
      }
    }
    assert a[..|a|] == a;
  }
}

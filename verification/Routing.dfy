/** The cluster routing table: slot ranges sorted by their start, looked up by binary search. */
module Routing {
  import opened Prelude

  /** `REDIS_CLUSTER_SLOTS` */
  const SLOTS: nat := 16384

  datatype SlotRange = SlotRange(start: nat, end: nat, primary: Server)

  predicate Covers(r: SlotRange, slot: nat) {
    r.start <= slot <= r.end
  }

  /** The two ranges share no slot. */
  predicate Apart(a: SlotRange, b: SlotRange) {
    a.end < b.start || b.end < a.start
  }

  ghost predicate Sound(r: SlotRange) {
    r.start <= r.end < SLOTS
  }

  /** A table of disjoint ranges in any order. */
  ghost predicate Disjoint(ranges: seq<SlotRange>) {
    && (forall i :: 0 <= i < |ranges| ==> Sound(ranges[i]))
    && (forall i, j :: 0 <= i < j < |ranges| ==> Apart(ranges[i], ranges[j]))
  }

  /** Each range lies before the next ones. */
  ghost predicate Ascending(data: seq<SlotRange>) {
    && (forall i :: 0 <= i < |data| ==> Sound(data[i]))
    && (forall i, j :: 0 <= i < j < |data| ==> data[i].end < data[j].start)
  }

  /** The reference lookup: the first range that covers the slot, from left to right. */
  function Scan(ranges: seq<SlotRange>, slot: nat): Option<Server> {
    if ranges == [] then None
    else if Covers(ranges[0], slot) then Some(ranges[0].primary)
    else Scan(ranges[1..], slot)
  }

  lemma {:induction false} ScanFinds(ranges: seq<SlotRange>, slot: nat, i: nat)
    requires Disjoint(ranges) && i < |ranges| && Covers(ranges[i], slot)
    ensures Scan(ranges, slot) == Some(ranges[i].primary)
  {
    if i > 0 {
      assert Apart(ranges[0], ranges[i]);
      ScanFinds(ranges[1..], slot, i - 1);
    }
  }

  lemma {:induction false} ScanMisses(ranges: seq<SlotRange>, slot: nat)
    requires forall i :: 0 <= i < |ranges| ==> !Covers(ranges[i], slot)
    ensures Scan(ranges, slot) == None
  {
    if ranges != [] {
      ScanMisses(ranges[1..], slot);
    }
  }

  // ---- Sorting ----

  ghost predicate ByStart(s: seq<SlotRange>) {
    forall i, j :: 0 <= i < j < |s| ==> s[i].start <= s[j].start
  }

  /** The place of `x` in a sorted table, after the ranges with the same start. */
  function Insert(s: seq<SlotRange>, x: SlotRange): (r: seq<SlotRange>)
    ensures multiset(r) == multiset(s) + multiset{x}
  {
    if s == [] || s[|s| - 1].start <= x.start then s + [x]
    else
      assert s == s[..|s| - 1] + [s[|s| - 1]];
      Insert(s[..|s| - 1], x) + [s[|s| - 1]]
  }

  /** The stable sort by range start in `rebuild`. */
  function SortByStart(ranges: seq<SlotRange>): (r: seq<SlotRange>)
    ensures multiset(r) == multiset(ranges)
  {
    if ranges == [] then []
    else
      assert ranges == ranges[..|ranges| - 1] + [ranges[|ranges| - 1]];
      Insert(SortByStart(ranges[..|ranges| - 1]), ranges[|ranges| - 1])
  }

  /** The starts increase, and the last one is at most `top`. */
  ghost predicate SortedUpTo(s: seq<SlotRange>, top: nat) {
    s == [] || (s[|s| - 1].start <= top && SortedUpTo(s[..|s| - 1], s[|s| - 1].start))
  }

  lemma {:induction false} SortedMeans(s: seq<SlotRange>, top: nat, i: nat, j: nat)
    requires SortedUpTo(s, top) && i <= j < |s|
    ensures s[i].start <= s[j].start <= top
  {
    var last := |s| - 1;
    if j < last {
      SortedMeans(s[..last], s[last].start, i, j);
    } else if i < last {
      SortedMeans(s[..last], s[last].start, i, last - 1);
    }
  }

  lemma {:induction false} InsertSorts(s: seq<SlotRange>, x: SlotRange, top: nat)
    requires SortedUpTo(s, top) && x.start <= top
    ensures SortedUpTo(Insert(s, x), top)
  {
    if s == [] || s[|s| - 1].start <= x.start {
      assert (s + [x])[..|s|] == s;
    } else {
      var front, last := s[..|s| - 1], s[|s| - 1];
      InsertSorts(front, x, last.start);
      assert (Insert(front, x) + [last])[..|Insert(front, x)|] == Insert(front, x);
    }
  }

  lemma {:induction false} SortedUp(ranges: seq<SlotRange>, top: nat)
    requires forall i :: 0 <= i < |ranges| ==> ranges[i].start <= top
    ensures SortedUpTo(SortByStart(ranges), top)
  {
    if ranges != [] {
      SortedUp(ranges[..|ranges| - 1], top);
      InsertSorts(SortByStart(ranges[..|ranges| - 1]), ranges[|ranges| - 1], top);
    }
  }

  function HighestStart(ranges: seq<SlotRange>): (top: nat)
    ensures forall i :: 0 <= i < |ranges| ==> ranges[i].start <= top
  {
    if ranges == [] then 0
    else
      var top, last := HighestStart(ranges[..|ranges| - 1]), ranges[|ranges| - 1].start;
      if top < last then last else top
  }

  /** The sorted table is a permutation of the ranges received, with increasing starts. */
  lemma SortingSorts(ranges: seq<SlotRange>)
    ensures multiset(SortByStart(ranges)) == multiset(ranges) && ByStart(SortByStart(ranges))
  {
    var top := HighestStart(ranges);
    SortedUp(ranges, top);
    forall i, j | 0 <= i < j < |SortByStart(ranges)|
      ensures SortByStart(ranges)[i].start <= SortByStart(ranges)[j].start
    {
      SortedMeans(SortByStart(ranges), top, i, j);
    }
  }

  lemma {:induction false} InsertKeepsAscending(s: seq<SlotRange>, x: SlotRange)
    requires Ascending(s) && Sound(x) && forall i :: 0 <= i < |s| ==> Apart(s[i], x)
    ensures Ascending(Insert(s, x))
    ensures forall y :: y in Insert(s, x) <==> y in s || y == x
  {
    if s != [] {
      var front, last := s[..|s| - 1], s[|s| - 1];
      assert s == front + [last];
      assert Apart(last, x) && Sound(last);
      if last.start <= x.start {
        assert last.end < x.start;
      } else {
        InsertKeepsAscending(front, x);
        var r := Insert(front, x);
        forall i | 0 <= i < |r|
          ensures r[i].end < last.start && Sound(r[i])
        {
          assert r[i] in r;
          assert r[i] in front || r[i] == x;
        }
      }
    }
  }

  lemma {:induction false} SortingMakesAscending(ranges: seq<SlotRange>)
    requires Disjoint(ranges)
    ensures Ascending(SortByStart(ranges))
    ensures forall y :: y in SortByStart(ranges) <==> y in ranges
  {
    if ranges != [] {
      var front, last := ranges[..|ranges| - 1], ranges[|ranges| - 1];
      assert ranges == front + [last];
      SortingMakesAscending(front);
      var s := SortByStart(front);
      forall i | 0 <= i < |s|
        ensures Apart(s[i], last)
      {
        assert s[i] in s && s[i] in front;
      }
      InsertKeepsAscending(s, last);
    }
  }

  lemma AscendingIsDisjoint(data: seq<SlotRange>)
    requires Ascending(data)
    ensures Disjoint(data)
  {
  }

  /** Sorting does not change what a linear scan finds. */
  lemma SortingKeepsRoutes(ranges: seq<SlotRange>, slot: nat)
    requires Disjoint(ranges)
    ensures Scan(SortByStart(ranges), slot) == Scan(ranges, slot)
  {
    var data := SortByStart(ranges);
    SortingMakesAscending(ranges);
    AscendingIsDisjoint(data);
    if i: nat :| i < |ranges| && Covers(ranges[i], slot) {
      ScanFinds(ranges, slot, i);
      assert ranges[i] in data;
      var j: nat :| j < |data| && data[j] == ranges[i];
      ScanFinds(data, slot, j);
    } else {
      ScanMisses(ranges, slot);
      assert forall j :: 0 <= j < |data| ==> data[j] in data && data[j] in ranges;
      ScanMisses(data, slot);
    }
  }

  // ---- Binary search ----

  /** `binary_search`, with machine arithmetic on the indices. A vector never has more than `isize::MAX` elements. */
  method BinarySearch(slots: seq<SlotRange>, slot: nat) returns (index: Option<nat>)
    requires |slots| < WORD / 2
    ensures index.Some? ==> index.value < |slots| && Covers(slots[index.value], slot)
    ensures index.None? && Ascending(slots) ==> forall i :: 0 <= i < |slots| ==> !Covers(slots[i], slot)
  {
    if slot > SLOTS {
      return None;
    }
    var low, high := 0, WrapDecr(|slots|);
    while low <= high
      invariant 0 <= low <= |slots|
      invariant 0 <= high < |slots| || (high == WORD - 1 && low == 0)
      invariant Ascending(slots) ==> forall i :: 0 <= i < low ==> slots[i].end < slot
      invariant Ascending(slots) ==>
                  forall i :: (if high < |slots| then high + 1 else 0) <= i < |slots| ==> slot < slots[i].start
      decreases if high < |slots| then 2 + high - low else 1
    {
      assert low + high < WORD;
      var mid := (low + high) / 2;
      if mid >= |slots| {
        return None;
      }
      if slot < slots[mid].start {
        high := WrapDecr(mid);
      } else if slot > slots[mid].end {
        low := mid + 1;
      } else {
        return Some(mid);
      }
    }
    return None;
  }

  /** The lookup in `get_server`. */
  method LookUp(data: seq<SlotRange>, slot: nat) returns (server: Option<Server>)
    requires |data| < WORD / 2
    ensures Ascending(data) ==> server == Scan(data, slot)
    ensures server.Some? ==> exists i :: 0 <= i < |data| && Covers(data[i], slot) && data[i].primary == server.value
  {
    if data == [] {
      return None;
    }
    var index := BinarySearch(data, slot);
    ghost var ascending := Ascending(data);
    if ascending {
      AscendingIsDisjoint(data);
      match index {
        case Some(i) => ScanFinds(data, slot, i);
        case None => ScanMisses(data, slot);
      }
    }
    return if index.Some? then Some(data[index.value].primary) else None;
  }

  // ---- The order of servers ----

  /** Lexicographic order on host names. */
  predicate LessString(a: string, b: string) {
    b != [] && (a == [] || a[0] < b[0] || (a[0] == b[0] && LessString(a[1..], b[1..])))
  }

  /** `Ord for Server` */
  predicate Before(a: Server, b: Server) {
    LessString(a.host, b.host) || (a.host == b.host && a.port < b.port)
  }

  lemma {:induction false} StringsCompare(a: string, b: string)
    ensures !(LessString(a, b) && LessString(b, a))
    ensures a == b || LessString(a, b) || LessString(b, a)
    ensures a == b ==> !LessString(a, b)
  {
    if a != [] && b != [] && a[0] == b[0] {
      StringsCompare(a[1..], b[1..]);
      assert a == [a[0]] + a[1..] && b == [b[0]] + b[1..];
    }
  }

  lemma {:induction false} StringsChain(a: string, b: string, c: string)
    requires LessString(a, b) && LessString(b, c)
    ensures LessString(a, c)
  {
    if a != [] && b != [] && c != [] && a[0] == b[0] == c[0] {
      StringsChain(a[1..], b[1..], c[1..]);
    }
  }

  lemma ServersCompare(a: Server, b: Server)
    ensures a == b || Before(a, b) || Before(b, a)
    ensures !(Before(a, b) && Before(b, a)) && !Before(a, a)
  {
    StringsCompare(a.host, b.host);
    StringsCompare(a.host, a.host);
  }

  lemma ServersChain(a: Server, b: Server, c: Server)
    requires Before(a, b) && Before(b, c)
    ensures Before(a, c)
  {
    if LessString(a.host, b.host) && LessString(b.host, c.host) {
      StringsChain(a.host, b.host, c.host);
    }
  }

  // ---- Ordered sets and maps of servers ----

  ghost predicate InOrder(nodes: seq<Server>) {
    forall i, j :: 0 <= i < j < |nodes| ==> Before(nodes[i], nodes[j])
  }

  /** `BTreeSet::insert` */
  function Add(nodes: seq<Server>, x: Server): seq<Server> {
    if nodes == [] then [x]
    else if x == nodes[0] then nodes
    else if Before(x, nodes[0]) then [x] + nodes
    else [nodes[0]] + Add(nodes[1..], x)
  }

  lemma {:induction false} AddKeepsOrder(nodes: seq<Server>, x: Server)
    requires InOrder(nodes)
    ensures InOrder(Add(nodes, x))
    ensures forall y :: y in Add(nodes, x) <==> y in nodes || y == x
  {
    if nodes != [] {
      var head, tail := nodes[0], nodes[1..];
      assert nodes == [head] + tail;
      ServersCompare(x, head);
      if x == head {
      } else if Before(x, head) {
        forall j | 0 <= j < |nodes| ensures Before(x, nodes[j]) {
          if j > 0 {
            ServersChain(x, head, nodes[j]);
          }
        }
      } else {
        AddKeepsOrder(tail, x);
        var r := Add(tail, x);
        forall j | 0 <= j < |r| ensures Before(head, r[j]) {
          assert r[j] in r;
          assert r[j] in tail || r[j] == x;
        }
      }
    }
  }

  datatype Entry = Entry(node: Server, slot: nat)

  /** `BTreeMap::insert` */
  function Put(entries: seq<Entry>, node: Server, slot: nat): seq<Entry> {
    if entries == [] then [Entry(node, slot)]
    else if node == entries[0].node then [Entry(node, slot)] + entries[1..]
    else if Before(node, entries[0].node) then [Entry(node, slot)] + entries
    else [entries[0]] + Put(entries[1..], node, slot)
  }

  function Nodes(entries: seq<Entry>): (r: seq<Server>)
    ensures |r| == |entries| && forall i :: 0 <= i < |r| ==> r[i] == entries[i].node
  {
    if entries == [] then [] else [entries[0].node] + Nodes(entries[1..])
  }

  lemma {:induction false} PutAddsANode(entries: seq<Entry>, node: Server, slot: nat)
    ensures Nodes(Put(entries, node, slot)) == Add(Nodes(entries), node)
    ensures forall e :: e in Put(entries, node, slot) ==> e in entries || e == Entry(node, slot)
  {
    if entries != [] {
      assert entries == [entries[0]] + entries[1..];
      assert Nodes(entries)[1..] == Nodes(entries[1..]);
      PutAddsANode(entries[1..], node, slot);
    }
  }

  // ---- The table ----

  /** The primaries of the first ranges, in server order. */
  function Primaries(data: seq<SlotRange>): seq<Server> {
    if data == [] then [] else Add(Primaries(data[..|data| - 1]), data[|data| - 1].primary)
  }

  /** Those primaries, each with the start of its last range. */
  function Starts(data: seq<SlotRange>): seq<Entry> {
    if data == [] then []
    else Put(Starts(data[..|data| - 1]), data[|data| - 1].primary, data[|data| - 1].start)
  }

  lemma {:induction false} PrimariesAreInOrder(data: seq<SlotRange>)
    ensures InOrder(Primaries(data))
    ensures forall x :: x in Primaries(data) <==> exists i :: 0 <= i < |data| && data[i].primary == x
  {
    if data != [] {
      var front, last := data[..|data| - 1], data[|data| - 1];
      PrimariesAreInOrder(front);
      AddKeepsOrder(Primaries(front), last.primary);
      assert forall i :: 0 <= i < |front| ==> data[i] == front[i];
    }
  }

  lemma {:induction false} StartsBelong(data: seq<SlotRange>)
    ensures Nodes(Starts(data)) == Primaries(data)
    ensures forall e :: e in Starts(data) ==> exists i :: 0 <= i < |data| && data[i].primary == e.node && data[i].start == e.slot
  {
    if data != [] {
      var front, last := data[..|data| - 1], data[|data| - 1];
      StartsBelong(front);
      PutAddsANode(Starts(front), last.primary, last.start);
      forall e | e in Starts(data)
        ensures exists i :: 0 <= i < |data| && data[i].primary == e.node && data[i].start == e.slot
      {
        if e in Starts(front) {
          var i :| 0 <= i < |front| && front[i].primary == e.node && front[i].start == e.slot;
          assert data[i] == front[i];
        } else {
          assert data[|data| - 1].primary == e.node;
        }
      }
    }
  }

  /** Looking up the unique hash slots of a disjoint table gives the unique primaries, in the same order, without repeats. */
  lemma HashSlotsLeadToPrimaries(data: seq<SlotRange>)
    requires Disjoint(data)
    ensures |Starts(data)| == |Primaries(data)|
    ensures forall k :: 0 <= k < |Starts(data)| ==> Scan(data, Starts(data)[k].slot) == Some(Primaries(data)[k])
    ensures Distinct(Primaries(data))
  {
    StartsBelong(data);
    var starts := Starts(data);
    forall k | 0 <= k < |starts|
      ensures Scan(data, starts[k].slot) == Some(Primaries(data)[k])
    {
      assert starts[k] in starts;
      var i: nat :| i < |data| && data[i].primary == starts[k].node && data[i].start == starts[k].slot;
      assert Sound(data[i]);
      ScanFinds(data, starts[k].slot, i);
      assert Nodes(starts)[k] == starts[k].node;
    }
    PrimariesAreInOrder(data);
    forall i, j | 0 <= i < j < |Primaries(data)|
      ensures Primaries(data)[i] != Primaries(data)[j]
    {
      ServersCompare(Primaries(data)[i], Primaries(data)[j]);
    }
  }

  class ClusterRouting {
    var data: seq<SlotRange>

    constructor ()
      ensures data == []
    {
      data := [];
    }

    /** `rebuild`, on the parsed slot ranges. */
    method Rebuild(ranges: seq<SlotRange>)
      modifies this
      ensures data == SortByStart(ranges)
      ensures multiset(data) == multiset(ranges) && (Disjoint(ranges) ==> Ascending(data))
    {
      data := SortByStart(ranges);
      ghost var disjoint := Disjoint(ranges);
      if disjoint {
        SortingMakesAscending(ranges);
      }
    }

    /** `get_server` agrees with the linear scan, and on any table it returns only primaries of ranges that cover the slot. */
    method GetServer(slot: nat) returns (server: Option<Server>)
      requires |data| < WORD / 2
      ensures Ascending(data) ==> server == Scan(data, slot)
      ensures server.Some? ==> exists i :: 0 <= i < |data| && Covers(data[i], slot) && data[i].primary == server.value
    {
      server := LookUp(data, slot);
    }

    /** `unique_hash_slots` */
    method UniqueHashSlots() returns (slots: seq<nat>)
      ensures |slots| == |Starts(data)| && forall i :: 0 <= i < |slots| ==> slots[i] == Starts(data)[i].slot
    {
      var out := [];
      for i := 0 to |data|
        invariant out == Starts(data[..i])
      {
        assert data[..i + 1][..i] == data[..i];
        out := Put(out, data[i].primary, data[i].start);
      }
      assert data[..|data|] == data;
      slots := seq(|out|, i requires 0 <= i < |out| => out[i].slot);
    }

    /** `unique_primary_nodes` */
    method UniquePrimaryNodes() returns (nodes: seq<Server>)
      ensures nodes == Primaries(data)
      ensures InOrder(nodes) && forall x :: x in nodes <==> exists i :: 0 <= i < |data| && data[i].primary == x
    {
      nodes := [];
      for i := 0 to |data|
        invariant nodes == Primaries(data[..i])
      {
        assert data[..i + 1][..i] == data[..i];
        nodes := Add(nodes, data[i].primary);
      }
      assert data[..|data|] == data;
      PrimariesAreInOrder(data);
    }
  }

  /** After a rebuild, looking up a slot gives what a linear scan of the ranges as received gives. */
  method RebuildThenLookUp(ranges: seq<SlotRange>, slot: nat) returns (server: Option<Server>)
    requires Disjoint(ranges) && |ranges| < WORD / 2
    ensures server == Scan(ranges, slot)
  {
    var table := new ClusterRouting();
    table.Rebuild(ranges);
    assert |table.data| == |multiset(table.data)| == |multiset(ranges)| == |ranges|;
    server := table.GetServer(slot);
    SortingKeepsRoutes(ranges, slot);
  }

  /** `get_server` for each slot. */
  method LookUpAll(table: ClusterRouting, slots: seq<nat>) returns (found: seq<Option<Server>>)
    requires Ascending(table.data) && |table.data| < WORD / 2
    ensures |found| == |slots| && forall k :: 0 <= k < |found| ==> found[k] == Scan(table.data, slots[k])
  {
    found := [];
    for k := 0 to |slots|
      invariant |found| == k && forall j :: 0 <= j < k ==> found[j] == Scan(table.data, slots[j])
    {
      var server := table.GetServer(slots[k]);
      found := found + [server];
    }
  }

  /** After a rebuild with disjoint ranges, `get_server` takes each of the unique hash slots to the unique primary at the same
    * place. */
  method LookUpUniqueHashSlots(ranges: seq<SlotRange>) returns (found: seq<Option<Server>>, nodes: seq<Server>)
    requires Disjoint(ranges) && |ranges| < WORD / 2
    ensures nodes == Primaries(SortByStart(ranges)) && Distinct(nodes)
    ensures |found| == |nodes| && forall k :: 0 <= k < |found| ==> found[k] == Some(nodes[k])
  {
    var table := new ClusterRouting();
    table.Rebuild(ranges);
    assert |table.data| == |multiset(table.data)| == |multiset(ranges)| == |ranges|;
    nodes := table.UniquePrimaryNodes();
    var slots := table.UniqueHashSlots();
    found := LookUpAll(table, slots);
    AscendingIsDisjoint(table.data);
    HashSlotsLeadToPrimaries(table.data);
  }
}

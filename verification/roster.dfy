/**
 The roster of connected clients kept by the editor page.

 On a `JOINED` event the page concatenates the clients it already knows with the
 incoming list and feeds the result through a JavaScript `Map` keyed by `socketId`,
 then reads the map's values back out. A `Map` keeps every key at the position of
 its first insertion and holds the last value written under it; `MapValues` below
 models exactly that. On `DISCONNECTED` the page filters the list by `socketId`.
 */
module Roster {

  /** One connected participant, as the server describes it. */
  datatype Client = Client(socketId: string, username: string)

  /** The socket ids of a client list, position by position. */
  function Ids(xs: seq<Client>): (ids: seq<string>)
    ensures |ids| == |xs|
    ensures forall i :: 0 <= i < |xs| ==> ids[i] == xs[i].socketId
  {
    seq(|xs|, i requires 0 <= i < |xs| => xs[i].socketId)
  }

  /** No id occurs twice. */
  predicate Distinct(s: seq<string>)
  {
    forall i, j :: 0 <= i < j < |s| ==> s[i] != s[j]
  }

  /** No two entries share a socket id. */
  predicate UniqueIds(xs: seq<Client>)
  {
    Distinct(Ids(xs))
  }

  // ---------------------------------------------------------------------------
  // Reference definitions: what a merge should produce, stated without a Map
  // ---------------------------------------------------------------------------

  /** The ids of `s` in order of first occurrence, each once. */
  function Dedup(s: seq<string>): (r: seq<string>)
    ensures forall x :: x in r <==> x in s
    ensures Distinct(r)
  {
    if s == [] then []
    else
      var d := Dedup(s[..|s| - 1]);
      if s[|s| - 1] in d then d else d + [s[|s| - 1]]
  }

  /** The ids of `s` that are not in `seen`, in order of first occurrence, each once. */
  function Unseen(seen: seq<string>, s: seq<string>): (r: seq<string>)
    ensures forall x :: x in r <==> x in s && x !in seen
    ensures Distinct(r)
  {
    if s == [] then []
    else
      var f := Unseen(seen, s[..|s| - 1]);
      var x := s[|s| - 1];
      if x in seen || x in f then f else f + [x]
  }

  /** The last record in `xs` whose socket id is `id`. */
  function LastWith(xs: seq<Client>, id: string): (c: Client)
    requires id in Ids(xs)
    ensures c in xs && c.socketId == id
  {
    var n := |xs| - 1;
    if xs[n].socketId == id then xs[n]
    else
      assert id in Ids(xs[..n]) by {
        var k :| 0 <= k < |xs| && Ids(xs)[k] == id;
        assert k < n && Ids(xs[..n])[k] == id;
      }
      LastWith(xs[..n], id)
  }

  // ---------------------------------------------------------------------------
  // The operations as the page performs them
  // ---------------------------------------------------------------------------

  /** The position of the entry with socket id `id`, or -1 when there is none. */
  function IndexOf(m: seq<Client>, id: string): (k: int)
    ensures -1 <= k < |m|
    ensures k < 0 <==> id !in Ids(m)
    ensures 0 <= k ==> m[k].socketId == id
  {
    if m == [] then -1
    else if m[|m| - 1].socketId == id then |m| - 1
    else
      assert Ids(m[..|m| - 1]) == Ids(m)[..|m| - 1];
      IndexOf(m[..|m| - 1], id)
  }

  /**
   `map.set(c.socketId, c)` on a Map whose entries, in insertion order, are `m`:
   an existing key keeps its position and takes the new value; a new key goes last.
   */
  function Upsert(m: seq<Client>, c: Client): (r: seq<Client>)
    requires UniqueIds(m)
    ensures UniqueIds(r)
    ensures c.socketId in Ids(m) ==> |r| == |m|
    ensures c.socketId !in Ids(m) ==> r == m + [c]
    ensures forall i :: 0 <= i < |m| ==> r[i] == (if m[i].socketId == c.socketId then c else m[i])
  {
    var k := IndexOf(m, c.socketId);
    if k < 0 then m + [c] else m[k := c]
  }

  /** `Array.from(new Map(xs.map(c => [c.socketId, c])).values())`. */
  function MapValues(xs: seq<Client>): (r: seq<Client>)
    ensures UniqueIds(r)
  {
    if xs == [] then [] else Upsert(MapValues(xs[..|xs| - 1]), xs[|xs| - 1])
  }

  /** The `JOINED` roster update: known clients first, then the incoming list, deduplicated by id. */
  function MergeClients(prev: seq<Client>, incoming: seq<Client>): (r: seq<Client>)
    ensures UniqueIds(r)
  {
    MapValues(prev + incoming)
  }

  /** The `DISCONNECTED` roster update: drop every entry with the departed id. */
  function RemoveClient(xs: seq<Client>, id: string): (r: seq<Client>)
    ensures forall c :: c in r <==> c in xs && c.socketId != id
  {
    if xs == [] then []
    else
      assert xs == [xs[0]] + xs[1..];
      (if xs[0].socketId == id then [] else [xs[0]]) + RemoveClient(xs[1..], id)
  }

  // ---------------------------------------------------------------------------
  // Lemmas about the reference definitions
  // ---------------------------------------------------------------------------

  lemma {:induction false} IdsAppend(a: seq<Client>, b: seq<Client>)
    ensures Ids(a + b) == Ids(a) + Ids(b)
  {
  }

  /** Deduplicating a concatenation: the first part deduplicated, then what is new in the second. */
  lemma {:induction false} DedupAppend(a: seq<string>, b: seq<string>)
    ensures Dedup(a + b) == Dedup(a) + Unseen(a, b)
    decreases |b|
  {
    if b == [] {
      assert a + b == a;
    } else {
      var b' := b[..|b| - 1];
      var x := b[|b| - 1];
      assert a + b == (a + b') + [x];
      DedupAppend(a, b');
      assert Dedup(a + b) == if x in Dedup(a + b') then Dedup(a + b') else Dedup(a + b') + [x];
    }
  }

  /** A list without repeated ids is its own deduplication. */
  lemma {:induction false} DedupDistinct(s: seq<string>)
    requires Distinct(s)
    ensures Dedup(s) == s
  {
    if s != [] {
      var s' := s[..|s| - 1];
      DedupDistinct(s');
      assert s[|s| - 1] !in s';
      assert s' + [s[|s| - 1]] == s;
    }
  }

  /** Nothing is unseen when every id of `s` is already in `seen`. */
  lemma UnseenCovered(seen: seq<string>, s: seq<string>)
    requires forall x :: x in s ==> x in seen
    ensures Unseen(seen, s) == []
  {
  }

  /** The last record for an id in a concatenation comes from the second part when it has one. */
  lemma {:induction false} LastWithAppend(a: seq<Client>, b: seq<Client>, id: string)
    requires id in Ids(a + b)
    ensures id in Ids(b) ==> LastWith(a + b, id) == LastWith(b, id)
    ensures id !in Ids(b) ==> id in Ids(a) && LastWith(a + b, id) == LastWith(a, id)
    decreases |b|
  {
    IdsAppend(a, b);
    if b == [] {
      assert a + b == a;
    } else {
      var n := |b| - 1;
      var b' := b[..n];
      assert (a + b)[..|a + b| - 1] == a + b';
      IdsAppend(a, b');
      if b[n].socketId != id {
        assert id in Ids(a + b') by {
          var k :| 0 <= k < |a + b| && Ids(a + b)[k] == id;
          assert k < |a + b'| && Ids(a + b')[k] == id;
        }
        if id in Ids(b) {
          var k :| 0 <= k < |b| && Ids(b)[k] == id;
          assert k < n && Ids(b')[k] == id;
        } else {
          assert id !in Ids(b');
        }
        LastWithAppend(a, b', id);
      }
    }
  }

  /** In a list without repeated ids, the last record for an entry's id is that entry. */
  lemma {:induction false} LastWithUnique(xs: seq<Client>, i: nat)
    requires UniqueIds(xs) && i < |xs|
    ensures LastWith(xs, xs[i].socketId) == xs[i]
  {
    var n := |xs| - 1;
    if i < n {
      assert xs[n].socketId != xs[i].socketId;
      LastWithUnique(xs[..n], i);
    }
  }

  // ---------------------------------------------------------------------------
  // What the Map-based merge computes
  // ---------------------------------------------------------------------------

  /** An entry after `Upsert` is the new record when it carries its id, and the old entry otherwise. */
  lemma UpsertAt(m: seq<Client>, c: Client, i: nat)
    requires UniqueIds(m) && i < |Upsert(m, c)|
    ensures Upsert(m, c)[i].socketId == c.socketId ==> Upsert(m, c)[i] == c
    ensures Upsert(m, c)[i].socketId != c.socketId ==> i < |m| && Upsert(m, c)[i] == m[i]
  {
    var r := Upsert(m, c);
    if i < |m| {
      assert r[i] == (if m[i].socketId == c.socketId then c else m[i]);
    } else {
      assert r == m + [c];
    }
  }

  /** `map.set` on the keys alone: an existing key leaves them as they were, a new one goes last. */
  lemma UpsertIds(m: seq<Client>, c: Client)
    requires UniqueIds(m)
    ensures Ids(Upsert(m, c)) == if c.socketId in Ids(m) then Ids(m) else Ids(m) + [c.socketId]
  {
    var r := Upsert(m, c);
    if c.socketId in Ids(m) {
      forall i | 0 <= i < |m| ensures Ids(r)[i] == Ids(m)[i] {
        assert r[i] == (if m[i].socketId == c.socketId then c else m[i]);
      }
    }
  }

  /** The Map's keys are the ids of `xs` in first-occurrence order. */
  lemma {:induction false} MapValuesIds(xs: seq<Client>)
    ensures Ids(MapValues(xs)) == Dedup(Ids(xs))
  {
    if xs != [] {
      var n := |xs| - 1;
      var c := xs[n];
      var s := Ids(xs[..n]);
      assert Ids(xs) == s + [c.socketId];
      assert (s + [c.socketId])[..n] == s;
      MapValuesIds(xs[..n]);
      UpsertIds(MapValues(xs[..n]), c);
    }
  }

  /** Each of the Map's values is the last record written under its key. */
  lemma {:induction false} MapValuesRecords(xs: seq<Client>)
    ensures forall i :: 0 <= i < |MapValues(xs)| ==>
              MapValues(xs)[i].socketId in Ids(xs) &&
              MapValues(xs)[i] == LastWith(xs, MapValues(xs)[i].socketId)
  {
    if xs != [] {
      var n := |xs| - 1;
      var xs' := xs[..n];
      var c := xs[n];
      var m := MapValues(xs');
      var r := MapValues(xs);
      MapValuesRecords(xs');
      assert Ids(xs)[n] == c.socketId;
      forall i | 0 <= i < |r|
        ensures r[i].socketId in Ids(xs) && r[i] == LastWith(xs, r[i].socketId)
      {
        UpsertAt(m, c, i);
        if r[i].socketId != c.socketId {
          assert m[i].socketId in Ids(xs') && m[i] == LastWith(xs', m[i].socketId);
          var k :| 0 <= k < |xs'| && Ids(xs')[k] == m[i].socketId;
          assert Ids(xs)[k] == m[i].socketId;
        }
      }
    }
  }

  /**
   The Map's values are the ids of `xs` in first-occurrence order, each carrying the
   last record written for it.
   */
  lemma MapValuesSpec(xs: seq<Client>)
    ensures Ids(MapValues(xs)) == Dedup(Ids(xs))
    ensures forall i :: 0 <= i < |MapValues(xs)| ==>
              MapValues(xs)[i].socketId in Ids(xs) &&
              MapValues(xs)[i] == LastWith(xs, MapValues(xs)[i].socketId)
  {
    MapValuesIds(xs);
    MapValuesRecords(xs);
  }

  /** Every id from either list is in the merge, and the merge holds no other id. */
  lemma MergeClientsIds(prev: seq<Client>, incoming: seq<Client>)
    ensures forall id :: id in Ids(MergeClients(prev, incoming)) <==> id in Ids(prev) || id in Ids(incoming)
  {
    MapValuesSpec(prev + incoming);
    IdsAppend(prev, incoming);
  }

  /**
   Order: when the known list has no repeated id, the merge lists the known clients
   in their own order, followed by the ids new to it in the order `incoming` supplies them.
   */
  lemma MergeClientsOrder(prev: seq<Client>, incoming: seq<Client>)
    requires UniqueIds(prev)
    ensures Ids(MergeClients(prev, incoming)) == Ids(prev) + Unseen(Ids(prev), Ids(incoming))
  {
    MapValuesSpec(prev + incoming);
    IdsAppend(prev, incoming);
    DedupAppend(Ids(prev), Ids(incoming));
    DedupDistinct(Ids(prev));
  }

  /**
   Values: each entry of the merge is the last record supplied for its id; an id that
   `incoming` carries takes the incoming record, any other keeps the known one.
   */
  lemma MergeClientsValues(prev: seq<Client>, incoming: seq<Client>)
    ensures forall c :: c in MergeClients(prev, incoming) && c.socketId in Ids(incoming) ==>
              c == LastWith(incoming, c.socketId)
    ensures forall c :: c in MergeClients(prev, incoming) && c.socketId !in Ids(incoming) ==>
              c.socketId in Ids(prev) && c == LastWith(prev, c.socketId)
  {
    var r := MergeClients(prev, incoming);
    MapValuesSpec(prev + incoming);
    forall c | c in r
      ensures c.socketId in Ids(incoming) ==> c == LastWith(incoming, c.socketId)
      ensures c.socketId !in Ids(incoming) ==> c.socketId in Ids(prev) && c == LastWith(prev, c.socketId)
    {
      var i :| 0 <= i < |r| && r[i] == c;
      LastWithAppend(prev, incoming, c.socketId);
    }
  }

  /** A known client that the incoming list does not mention stays where it was, unchanged. */
  lemma MergeClientsKeepsKnown(prev: seq<Client>, incoming: seq<Client>, i: nat)
    requires UniqueIds(prev) && i < |prev|
    ensures i < |MergeClients(prev, incoming)|
    ensures MergeClients(prev, incoming)[i].socketId == prev[i].socketId
    ensures prev[i].socketId !in Ids(incoming) ==> MergeClients(prev, incoming)[i] == prev[i]
    ensures prev[i].socketId in Ids(incoming) ==> MergeClients(prev, incoming)[i] == LastWith(incoming, prev[i].socketId)
  {
    var r := MergeClients(prev, incoming);
    MergeClientsOrder(prev, incoming);
    assert Ids(r)[i] == Ids(prev)[i];
    MergeClientsValues(prev, incoming);
    assert r[i] in r;
    if prev[i].socketId !in Ids(incoming) {
      LastWithUnique(prev, i);
    }
  }

  /** A list without repeated ids passes through the Map unchanged. */
  lemma MapValuesOfUnique(xs: seq<Client>)
    requires UniqueIds(xs)
    ensures MapValues(xs) == xs
  {
    var r := MapValues(xs);
    assert Ids(r) == Ids(xs) by {
      MapValuesIds(xs);
      DedupDistinct(Ids(xs));
    }
    assert forall i :: 0 <= i < |r| ==> r[i] == xs[i] by {
      forall i | 0 <= i < |r| ensures r[i] == xs[i] {
        assert r[i].socketId == xs[i].socketId by {
          assert Ids(r)[i] == Ids(xs)[i];
        }
        assert r[i] == LastWith(xs, r[i].socketId) by {
          MapValuesRecords(xs);
        }
        LastWithUnique(xs, i);
      }
    }
  }

  /** The first snapshot into an empty roster is taken as it is when its ids are distinct. */
  lemma MergeIntoEmpty(incoming: seq<Client>)
    requires UniqueIds(incoming)
    ensures MergeClients([], incoming) == incoming
  {
    assert [] + incoming == incoming;
    MapValuesOfUnique(incoming);
  }

  /** Merging the same incoming list a second time changes nothing. */
  lemma {:induction false} MergeClientsIdempotent(prev: seq<Client>, incoming: seq<Client>)
    ensures MergeClients(MergeClients(prev, incoming), incoming) == MergeClients(prev, incoming)
  {
    var m := MergeClients(prev, incoming);
    var r := MergeClients(m, incoming);
    MergeClientsIds(prev, incoming);
    MergeClientsOrder(m, incoming);
    UnseenCovered(Ids(m), Ids(incoming));
    assert Ids(r) == Ids(m);
    forall i | 0 <= i < |r|
      ensures r[i] == m[i]
    {
      MergeClientsKeepsKnown(m, incoming, i);
      var id := m[i].socketId;
      if id in Ids(incoming) {
        MergeClientsValues(prev, incoming);
        assert m[i] in m;
      }
    }
  }

  // ---------------------------------------------------------------------------
  // Departures
  // ---------------------------------------------------------------------------

  /** A departure for an id the roster does not hold leaves it as it was. */
  lemma {:induction false} RemoveClientAbsent(xs: seq<Client>, id: string)
    requires id !in Ids(xs)
    ensures RemoveClient(xs, id) == xs
  {
    if xs != [] {
      assert xs[0].socketId == Ids(xs)[0] != id;
      assert Ids(xs[1..]) == Ids(xs)[1..];
      RemoveClientAbsent(xs[1..], id);
      assert [xs[0]] + xs[1..] == xs;
    }
  }

  /**
   After a departure no entry carries the departed id, exactly the other entries
   remain, and a departure for an absent id leaves the roster as it was.
   */
  lemma RemoveClientSpec(xs: seq<Client>, id: string)
    ensures id !in Ids(RemoveClient(xs, id))
    ensures forall c :: c in RemoveClient(xs, id) <==> c in xs && c.socketId != id
    ensures id !in Ids(xs) ==> RemoveClient(xs, id) == xs
  {
    if id !in Ids(xs) {
      RemoveClientAbsent(xs, id);
    }
  }

  /** The departure filter works entry by entry, so it keeps the order of the survivors. */
  lemma {:induction false} RemoveClientAppend(a: seq<Client>, b: seq<Client>, id: string)
    ensures RemoveClient(a + b, id) == RemoveClient(a, id) + RemoveClient(b, id)
  {
    if a == [] {
      assert a + b == b;
    } else {
      var head := if a[0].socketId == id then [] else [a[0]];
      var x, y := RemoveClient(a[1..], id), RemoveClient(b, id);
      calc {
        RemoveClient(a + b, id);
      == { assert (a + b)[0] == a[0]; assert (a + b)[1..] == a[1..] + b; }
        head + RemoveClient(a[1..] + b, id);
      == { RemoveClientAppend(a[1..], b, id); }
        head + (x + y);
      == { assert head + (x + y) == (head + x) + y; }
        RemoveClient(a, id) + y;
      }
    }
  }

  /** A list with one more client in front has unique ids exactly when the client's id is new. */
  lemma UniqueCons(c: Client, xs: seq<Client>)
    ensures UniqueIds([c] + xs) <==> UniqueIds(xs) && c.socketId !in Ids(xs)
  {
    assert Ids([c] + xs) == [c.socketId] + Ids(xs);
    DistinctCons(c.socketId, Ids(xs));
  }

  /** An id in front of a list without repeats keeps it so exactly when the id is new. */
  lemma DistinctCons(x: string, s: seq<string>)
    ensures Distinct([x] + s) <==> Distinct(s) && x !in s
  {
    var t := [x] + s;
    if Distinct(t) {
      forall i, j | 0 <= i < j < |s| ensures s[i] != s[j] {
        assert t[i + 1] == s[i] && t[j + 1] == s[j];
      }
      forall k | 0 <= k < |s| ensures s[k] != x {
        assert t[0] == x && t[k + 1] == s[k];
      }
    }
  }

  /** Removing a departed client keeps the rest of the roster free of repeated ids. */
  lemma {:induction false} RemoveClientUnique(xs: seq<Client>, id: string)
    requires UniqueIds(xs)
    ensures UniqueIds(RemoveClient(xs, id))
  {
    if xs != [] {
      var rest := RemoveClient(xs[1..], id);
      assert xs == [xs[0]] + xs[1..];
      UniqueCons(xs[0], xs[1..]);
      RemoveClientUnique(xs[1..], id);
      if xs[0].socketId != id {
        UniqueCons(xs[0], rest);
      }
    }
  }

  // ---------------------------------------------------------------------------
  // Worked scenarios
  // ---------------------------------------------------------------------------

  /** Merging [a, b] into [a] gives [a, b]. */
  lemma MergeKnownAndNew(a: Client, b: Client)
    requires a.socketId != b.socketId
    ensures MergeClients([a], [a, b]) == [a, b]
  {
    var r := MergeClients([a], [a, b]);
    assert Ids(r) == [a.socketId, b.socketId] by {
      MergeClientsOrder([a], [a, b]);
      assert Ids([a]) == [a.socketId];
      assert Ids([a, b]) == [a.socketId, b.socketId];
      assert [a.socketId, b.socketId][..1] == [a.socketId] && [a.socketId][..0] == [];
      assert Unseen([a.socketId], [a.socketId]) == [];
    }
    assert r[0] == a by {
      MergeClientsKeepsKnown([a], [a, b], 0);
      LastWithUnique([a, b], 0);
    }
    assert r[1] == b by {
      assert r[1] in r && r[1].socketId == b.socketId;
      assert Ids([a, b])[1] == b.socketId;
      MergeClientsValues([a], [a, b]);
      LastWithUnique([a, b], 1);
    }
  }

  /** A repeated snapshot keeps one entry per id: [a] then [a, b] gives [a, b], not [a, a, b]. */
  lemma DuplicateSnapshotScenario(a: Client, b: Client)
    requires a.socketId != b.socketId
    ensures MergeClients(MergeClients([], [a]), [a, b]) == [a, b]
  {
    MergeIntoEmpty([a]);
    MergeKnownAndNew(a, b);
  }

}

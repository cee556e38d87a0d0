/**
 metaCache as it sits in memory: a map from video id to list element and a doubly
 linked list in recency order, both updated in place.  Every operation is proved to do
 what MetaCache.Get and MetaCache.Put say, so the two structures always agree.

 The list keeps the sequence of its nodes as a ghost; each method touches a node and its two
 neighbours, and Valid says that links, map and sequence tell the same order.
 */
module MetaCacheHeap {
  import opened Common
  import opened MetaCache

  /** A list element with the entry it carries. */
  class Element<M> {
    var entry: Entry<M>
    var prev: Element?<M>
    var next: Element?<M>

    constructor (e: Entry<M>)
      ensures entry == e && prev == null && next == null
    {
      entry := e;
      prev := null;
      next := null;
    }
  }

  /** container/list: front is the most recently used element. */
  class List<M> {
    var front: Element?<M>
    var back: Element?<M>
    ghost var nodes: seq<Element<M>>

    ghost predicate Valid()
      reads this, nodes`prev, nodes`next
    {
      && (forall i, j :: 0 <= i < j < |nodes| ==> nodes[i] != nodes[j])
      && (nodes == [] ==> front == null && back == null)
      && (nodes != [] ==> front == nodes[0] && back == nodes[|nodes| - 1])
      && (forall i :: 0 <= i < |nodes| ==> Linked(nodes, i))
    }

    /** The element at position i points to its neighbours. */
    static ghost predicate Linked(ns: seq<Element<M>>, i: int)
      requires 0 <= i < |ns|
      reads ns`prev, ns`next
    {
      && ns[i].prev == (if i == 0 then null else ns[i - 1])
      && ns[i].next == (if i == |ns| - 1 then null else ns[i + 1])
    }

    constructor ()
      ensures Valid() && nodes == []
    {
      front := null;
      back := null;
      nodes := [];
    }

    /** Unlink e; its neighbours close up and every other element keeps its place. */
    method Remove(e: Element<M>, ghost at: nat)
      requires Valid() && at < |nodes| && nodes[at] == e
      modifies this, nodes`prev, nodes`next
      ensures Valid() && nodes == Without(old(nodes), at)
    {
      ghost var ns := nodes;
      assert Linked(ns, at);
      if e.prev == null {
        front := e.next;
      } else {
        assert Linked(ns, at - 1);
        e.prev.next := e.next;
      }
      if e.next == null {
        back := e.prev;
      } else {
        assert ns[at + 1] == e.next;
        e.next.prev := e.prev;
      }
      nodes := Without(ns, at);
      forall i | 0 <= i < |nodes| ensures Linked(nodes, i) {
        var j := if i < at then i else i + 1;
        assert nodes[i] == ns[j];
        assert old(Linked(ns, j));
      }
    }

    method PushFront(e: Element<M>)
      requires Valid() && e !in nodes
      modifies this, e`prev, e`next, nodes`prev
      ensures Valid() && nodes == [e] + old(nodes)
    {
      ghost var ns := nodes;
      assert forall i :: 0 <= i < |ns| ==> ns[i] != e;
      e.prev := null;
      e.next := front;
      if front == null {
        back := e;
      } else {
        assert ns[0] == front;
        front.prev := e;
      }
      front := e;
      nodes := [e] + ns;
      forall i | 0 <= i < |nodes| ensures Linked(nodes, i) {
        assert i > 0 ==> nodes[i] == ns[i - 1] && old(Linked(ns, i - 1));
      }
    }

    method MoveToFront(e: Element<M>, ghost at: nat)
      requires Valid() && at < |nodes| && nodes[at] == e
      modifies this, nodes`prev, nodes`next
      ensures Valid() && nodes == [e] + Without(old(nodes), at)
    {
      Remove(e, at);
      PushFront(e);
    }
  }

  class Cache<M> {
    const max: nat
    const ttl: int
    const negTtl: int
    var entries: map<VideoKey, Element<M>>
    const lru: List<M>
    /** The entries in recency order. */
    ghost var contents: seq<Entry<M>>

    /** The map, the list and the contents agree, and the bound holds. */
    ghost predicate Valid()
      reads this, lru, lru.nodes
    {
      && lru.Valid()
      && |contents| <= max
      && Agree(entries, lru.nodes, contents)
      && Carry(lru.nodes, contents)
    }

    /** Each key once, the map pointing at the element in the key's place, and no further keys in the map. */
    static ghost predicate Agree(m: map<VideoKey, Element<M>>, ns: seq<Element<M>>, c: seq<Entry<M>>) {
      && |ns| == |c| == |m|
      && Distinct(c)
      && (forall i :: 0 <= i < |c| ==> c[i].key in m && m[c[i].key] == ns[i])
    }

    static ghost predicate Carry(ns: seq<Element<M>>, c: seq<Entry<M>>)
      requires |ns| == |c|
      reads ns`entry
    {
      forall i :: 0 <= i < |ns| ==> ns[i].entry == c[i]
    }

    /** Every object the cache is made of. */
    ghost function Footprint(): set<object>
      reads lru`nodes
    {
      {this, lru} + set n: object | n in lru.nodes
    }

    constructor (max: nat, ttl: int, negTtl: int)
      ensures Valid() && contents == [] && fresh(lru)
      ensures this.max == max && this.ttl == ttl && this.negTtl == negTtl
    {
      this.max := max;
      this.ttl := ttl;
      this.negTtl := negTtl;
      entries := map[];
      lru := new List();
      contents := [];
    }

    /** The element leaves both structures. */
    method Drop(el: Element<M>, ghost at: nat)
      requires lru.Valid() && Agree(entries, lru.nodes, contents) && Carry(lru.nodes, contents) && |contents| <= max + 1
      requires at < |lru.nodes| && lru.nodes[at] == el
      modifies this, lru, lru.nodes`prev, lru.nodes`next
      ensures Valid() && contents == Without(old(contents), at)
      ensures Footprint() <= old(Footprint())
    {
      DropAgrees(entries, lru.nodes, contents, at);
      assert el.entry.key == contents[at].key;
      entries := entries - {el.entry.key};
      Unhook(el, at);
    }

    /** The element leaves the list, and its entry the contents. */
    method Unhook(el: Element<M>, ghost at: nat)
      requires lru.Valid() && |lru.nodes| == |contents| && Carry(lru.nodes, contents)
      requires at < |lru.nodes| && lru.nodes[at] == el
      modifies this`contents, lru, lru.nodes`prev, lru.nodes`next
      ensures lru.Valid() && lru.nodes == Without(old(lru.nodes), at)
      ensures contents == Without(old(contents), at) && Carry(lru.nodes, contents)
      ensures Footprint() <= old(Footprint())
    {
      CarryWithout(lru.nodes, contents, at);
      WithoutWithin(lru.nodes, at);
      contents := Without(contents, at);
      lru.Remove(el, at);
    }

    /** The element becomes most recent. */
    method Touch(el: Element<M>, ghost at: nat)
      requires Valid() && at < |lru.nodes| && lru.nodes[at] == el
      modifies this`contents, lru, lru.nodes`prev, lru.nodes`next
      ensures Valid() && contents == [old(contents)[at]] + Without(old(contents), at)
      ensures Footprint() <= old(Footprint())
    {
      ghost var ns, c := lru.nodes, contents;
      MoveAgrees(entries, ns, c, at);
      CarryWithout(ns, c, at);
      CarryFront(el, c[at], Without(ns, at), Without(c, at));
      contents := [c[at]] + Without(c, at);
      lru.MoveToFront(el, at);
    }

    /** get: MetaCache.Get on the contents, and nothing else about them changes. */
    method Get(videoId: VideoKey, now: int) returns (hit: Option<Entry<M>>)
      requires Valid()
      modifies Footprint()
      ensures Valid()
      ensures (contents, hit) == MetaCache.Get(old(contents), videoId, now)
      ensures Footprint() <= old(Footprint())
    {
      if videoId !in entries {
        Absent(entries, lru.nodes, contents, videoId);
        return None;
      }
      var el := entries[videoId];
      Locate(entries, lru.nodes, contents, videoId);
      ghost var at := Find(contents, videoId);
      if now > el.entry.expires {
        Drop(el, at);
        return None;
      }
      Touch(el, at);
      return Some(el.entry);
    }

    /** put: MetaCache.Put of an entry that lapses after its lifetime. */
    method Put(videoId: VideoKey, meta: Option<M>, errStatus: int, now: int)
      requires Valid()
      modifies this, lru, lru.nodes
      ensures Valid()
      ensures contents == MetaCache.Put(old(contents), max, Entry(videoId, meta, errStatus, now + Lifetime(ttl, negTtl, errStatus)))
    {
      var e := Entry(videoId, meta, errStatus, now + Lifetime(ttl, negTtl, errStatus));
      if videoId in entries {
        Refresh(e);
      } else {
        Insert(e);
      }
    }

    method Refresh(e: Entry<M>)
      requires Valid() && e.key in entries
      modifies this`contents, lru, lru.nodes
      ensures Valid() && contents == MetaCache.Put(old(contents), max, e)
      ensures Footprint() <= old(Footprint())
    {
      Locate(entries, lru.nodes, contents, e.key);
      var el := entries[e.key];
      ghost var at := Find(contents, e.key);
      Rewrite(el, at, e);
      Touch(el, at);
      assert Without(old(contents)[at := e], at) == Without(old(contents), at);
    }

    /** The entry under the same key is replaced in place. */
    method Rewrite(el: Element<M>, ghost at: nat, e: Entry<M>)
      requires Valid() && at < |lru.nodes| && lru.nodes[at] == el && contents[at].key == e.key
      modifies this`contents, el`entry
      ensures Valid() && contents == old(contents)[at := e]
    {
      el.entry := e;
      contents := contents[at := e];
    }

    method Insert(e: Entry<M>)
      requires Valid() && e.key !in entries
      modifies this, lru, lru.nodes`prev, lru.nodes`next
      ensures Valid() && contents == MetaCache.Put(old(contents), max, e)
    {
      ghost var c := contents;
      Absent(entries, lru.nodes, c, e.key);
      var el := new Element(e);
      AddFront(el, e);
      if |entries| > max {
        assert Without([e] + c, |c|) == ([e] + c)[..|c|];
        Evict();
      }
    }

    method AddFront(el: Element<M>, ghost e: Entry<M>)
      requires Valid() && e.key !in entries && el !in lru.nodes && el.entry == e
      modifies this`entries, this`contents, lru, lru.nodes`prev, el`prev, el`next
      ensures lru.Valid() && lru.nodes == [el] + old(lru.nodes) && contents == [e] + old(contents)
      ensures Agree(entries, lru.nodes, contents) && Carry(lru.nodes, contents)
      ensures Footprint() <= old(Footprint()) + {el}
    {
      AddAgrees(entries, lru.nodes, contents, el, e);
      entries := entries[el.entry.key := el];
      lru.PushFront(el);
      contents := [e] + contents;
      CarryFront(el, e, old(lru.nodes), old(contents));
    }

    /** The least recent element goes when the map outgrew max. */
    method Evict()
      requires lru.Valid() && Agree(entries, lru.nodes, contents) && Carry(lru.nodes, contents) && |contents| == max + 1
      modifies this, lru, lru.nodes`prev, lru.nodes`next
      ensures Valid() && contents == Without(old(contents), max)
      ensures Footprint() <= old(Footprint())
    {
      var back := lru.back;
      if back != null {
        Drop(back, max);
      }
    }

    // ----- the map and the list side by side -----

    /** A key of the map sits at its place in the list. */
    static lemma Locate(m: map<VideoKey, Element<M>>, ns: seq<Element<M>>, c: seq<Entry<M>>, k: VideoKey)
      requires Agree(m, ns, c) && k in m
      ensures Find(c, k) < |c| && m[k] == ns[Find(c, k)] && c[Find(c, k)].key == k
    {
      if Find(c, k) == |c| {
        var keys := set j | 0 <= j < |c| :: c[j].key;
        DistinctCount(c, |c|);
        assert keys + {k} <= m.Keys;
        SubsetSize(keys + {k}, m.Keys);
      }
    }

    static lemma Absent(m: map<VideoKey, Element<M>>, ns: seq<Element<M>>, c: seq<Entry<M>>, k: VideoKey)
      requires Agree(m, ns, c) && k !in m
      ensures Find(c, k) == |c|
    {
    }

    static lemma WithoutWithin(ns: seq<Element<M>>, at: nat)
      requires at < |ns|
      ensures forall x :: x in Without(ns, at) ==> x in ns
    {
    }

    static lemma DropAgrees(m: map<VideoKey, Element<M>>, ns: seq<Element<M>>, c: seq<Entry<M>>, at: nat)
      requires Agree(m, ns, c) && at < |c|
      ensures Agree(m - {c[at].key}, Without(ns, at), Without(c, at))
    {
    }

    static lemma MoveAgrees(m: map<VideoKey, Element<M>>, ns: seq<Element<M>>, c: seq<Entry<M>>, at: nat)
      requires Agree(m, ns, c) && at < |c|
      ensures Agree(m, [ns[at]] + Without(ns, at), [c[at]] + Without(c, at))
    {
    }

    static lemma AddAgrees(m: map<VideoKey, Element<M>>, ns: seq<Element<M>>, c: seq<Entry<M>>, el: Element<M>, e: Entry<M>)
      requires Agree(m, ns, c) && e.key !in m
      ensures Agree(m[e.key := el], [el] + ns, [e] + c)
    {
      var m', ns', c' := m[e.key := el], [el] + ns, [e] + c;
      forall i | 0 <= i < |c'| ensures c'[i].key in m' && m'[c'[i].key] == ns'[i] {
        assert i > 0 ==> c'[i] == c[i - 1] && ns'[i] == ns[i - 1];
      }
    }

    static lemma CarryWithout(ns: seq<Element<M>>, c: seq<Entry<M>>, at: nat)
      requires |ns| == |c| && at < |c| && Carry(ns, c)
      ensures Carry(Without(ns, at), Without(c, at))
    {
    }

    static lemma CarryFront(el: Element<M>, e: Entry<M>, ns: seq<Element<M>>, c: seq<Entry<M>>)
      requires |ns| == |c| && Carry(ns, c) && el.entry == e
      ensures Carry([el] + ns, [e] + c)
    {
    }
  }
}

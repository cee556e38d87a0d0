/**
 The gateway's metadata cache as a value: entries from most to least recently used,
 with distinct keys.  `Get` and `Put` are what the two locked sections of metaCache
 do to it; the heap version in MetaCacheHeap is proved to do exactly this.
 */
module MetaCache {
  import opened Common

  type VideoKey = string

  /** A cached answer: the metadata (None for a negative entry), the status of a negative one, and when it lapses. */
  datatype Entry<M> = Entry(key: VideoKey, meta: Option<M>, errStatus: int, expires: int)

  /** The position of k's entry, |c| when there is none. */
  function Find<M>(c: seq<Entry<M>>, k: VideoKey): (i: nat)
    ensures i <= |c|
    ensures i < |c| ==> c[i].key == k
    ensures forall j :: 0 <= j < i ==> c[j].key != k
  {
    if c == [] then 0
    else if c[0].key == k then 0
    else 1 + Find(c[1..], k)
  }

  function Without<T>(c: seq<T>, i: nat): seq<T>
    requires i < |c|
  {
    c[..i] + c[i + 1..]
  }

  /** A live entry is returned and becomes most recent; a lapsed one is dropped; now == expires is still live. */
  function Get<M>(c: seq<Entry<M>>, k: VideoKey, now: int): (seq<Entry<M>>, Option<Entry<M>>) {
    var i := Find(c, k);
    if i == |c| then (c, None)
    else if now > c[i].expires then (Without(c, i), None)
    else ([c[i]] + Without(c, i), Some(c[i]))
  }

  /** The entry becomes most recent; a new key may push the least recent entry out. */
  function Put<M>(c: seq<Entry<M>>, max: nat, e: Entry<M>): seq<Entry<M>> {
    var i := Find(c, e.key);
    if i < |c| then [e] + Without(c, i)
    else if |c| + 1 > max then ([e] + c)[..|c|]
    else [e] + c
  }

  /** The longer lifetime is for answers, the shorter for remembered 404s and 403s. */
  function Lifetime(ttl: int, negTtl: int, errStatus: int): int {
    if errStatus != 0 then negTtl else ttl
  }

  ghost predicate Distinct<M>(c: seq<Entry<M>>) {
    forall i, j :: 0 <= i < j < |c| ==> c[i].key != c[j].key
  }

  lemma FindAt<M>(c: seq<Entry<M>>, i: nat)
    requires Distinct(c) && i < |c|
    ensures Find(c, c[i].key) == i
  {
  }

  /** Both operations keep keys distinct and never hold more than max entries. */
  lemma StaysSmallAndDistinct<M>(c: seq<Entry<M>>, max: nat, k: VideoKey, now: int, e: Entry<M>)
    requires Distinct(c) && |c| <= max
    ensures Distinct(Get(c, k, now).0) && |Get(c, k, now).0| <= max
    ensures Distinct(Put(c, max, e)) && |Put(c, max, e)| <= max
  {
    var i := Find(c, k);
    if i < |c| {
      assert Distinct(Without(c, i));
      assert forall j :: 0 <= j < |Without(c, i)| ==> Without(c, i)[j].key != k;
    }
    var h := Find(c, e.key);
    if h < |c| {
      assert Distinct(Without(c, h));
      assert forall j :: 0 <= j < |Without(c, h)| ==> Without(c, h)[j].key != e.key;
    } else {
      assert Distinct([e] + c);
    }
  }

  // ----- recency -----

  datatype Op<M> = GetOp(key: VideoKey, now: int) | PutOp(entry: Entry<M>)

  function KeyOf<M>(op: Op<M>): VideoKey {
    match op
    case GetOp(k, _) => k
    case PutOp(e) => e.key
  }

  function Do<M>(c: seq<Entry<M>>, max: nat, op: Op<M>): seq<Entry<M>> {
    match op
    case GetOp(k, now) => Get(c, k, now).0
    case PutOp(e) => Put(c, max, e)
  }

  function DoAll<M>(c: seq<Entry<M>>, max: nat, ops: seq<Op<M>>): seq<Entry<M>> {
    if ops == [] then c else Do(DoAll(c, max, ops[..|ops| - 1]), max, ops[|ops| - 1])
  }

  function Touched<M>(ops: seq<Op<M>>): set<VideoKey> {
    set i | 0 <= i < |ops| :: KeyOf(ops[i])
  }

  /** e is held, and every entry more recent than it belongs to one of the keys. */
  ghost predicate HeldBehind<M>(c: seq<Entry<M>>, e: Entry<M>, keys: set<VideoKey>) {
    exists i :: 0 <= i < |c| && c[i] == e && forall j :: 0 <= j < i ==> c[j].key in keys
  }

  lemma KeysBound<M>(c: seq<Entry<M>>, i: nat, keys: set<VideoKey>)
    requires Distinct(c) && i <= |c|
    requires forall j :: 0 <= j < i ==> c[j].key in keys
    ensures i <= |keys|
  {
    var front := set j | 0 <= j < i :: c[j].key;
    DistinctCount(c, i);
    assert front <= keys;
    SubsetSize(front, keys);
  }

  lemma {:induction false} DistinctCount<M>(c: seq<Entry<M>>, i: nat)
    requires Distinct(c) && i <= |c|
    ensures |set j | 0 <= j < i :: c[j].key| == i
  {
    if i > 0 {
      DistinctCount(c, i - 1);
      var before := set j | 0 <= j < i - 1 :: c[j].key;
      assert (set j | 0 <= j < i :: c[j].key) == before + {c[i - 1].key};
      assert c[i - 1].key !in before;
    }
  }

  lemma {:induction false} SubsetSize<T>(a: set<T>, b: set<T>)
    requires a <= b
    ensures |a| <= |b|
  {
    if a != {} {
      var x :| x in a;
      SubsetSize(a - {x}, b - {x});
    }
  }

  /** Dropping another entry leaves e held behind no more keys. */
  lemma DropKeeps<M>(c: seq<Entry<M>>, e: Entry<M>, keys: set<VideoKey>, h: nat)
    requires HeldBehind(c, e, keys) && h < |c| && c[h].key != e.key
    ensures HeldBehind(Without(c, h), e, keys)
  {
    var i :| 0 <= i < |c| && c[i] == e && forall j :: 0 <= j < i ==> c[j].key in keys;
    var d := Without(c, h);
    var at := if h < i then i - 1 else i;
    assert d[at] == e;
    forall j | 0 <= j < at ensures d[j].key in keys {
      assert d[j] == c[if j < h then j else j + 1];
    }
  }

  /** Putting an entry of another key in front leaves e held behind one more key. */
  lemma PushKeeps<M>(c: seq<Entry<M>>, e: Entry<M>, keys: set<VideoKey>, x: Entry<M>)
    requires HeldBehind(c, e, keys)
    ensures HeldBehind([x] + c, e, keys + {x.key})
  {
    var i :| 0 <= i < |c| && c[i] == e && forall j :: 0 <= j < i ==> c[j].key in keys;
    var d := [x] + c;
    assert d[i + 1] == e;
    forall j | 0 <= j < i + 1 ensures d[j].key in keys + {x.key} {
      assert j > 0 ==> d[j] == c[j - 1];
    }
  }

  /** Cutting the list at max entries does not reach e while fewer than max keys are ahead of it. */
  lemma CutKeeps<M>(c: seq<Entry<M>>, e: Entry<M>, keys: set<VideoKey>, n: nat)
    requires Distinct(c) && HeldBehind(c, e, keys) && |keys| < n <= |c|
    ensures HeldBehind(c[..n], e, keys)
  {
    var i :| 0 <= i < |c| && c[i] == e && forall j :: 0 <= j < i ==> c[j].key in keys;
    KeysBound(c, i, keys);
    assert c[..n][i] == e;
  }

  lemma MoreKeys<M>(c: seq<Entry<M>>, e: Entry<M>, keys: set<VideoKey>, k: VideoKey)
    requires HeldBehind(c, e, keys)
    ensures HeldBehind(c, e, keys + {k})
  {
  }

  /** One operation on another key: e is still held, behind at most one more key. */
  lemma TouchKeeps<M>(c: seq<Entry<M>>, max: nat, e: Entry<M>, keys: set<VideoKey>, op: Op<M>)
    requires Distinct(c) && |c| <= max && HeldBehind(c, e, keys)
    requires KeyOf(op) != e.key && |keys + {KeyOf(op)}| < max
    ensures HeldBehind(Do(c, max, op), e, keys + {KeyOf(op)})
  {
    var k := KeyOf(op);
    var h := Find(c, k);
    if h < |c| {
      DropKeeps(c, e, keys, h);
      if op.GetOp? && op.now > c[h].expires {
        MoreKeys(Without(c, h), e, keys, k);
      } else {
        PushKeeps(Without(c, h), e, keys, if op.GetOp? then c[h] else op.entry);
      }
    } else if op.GetOp? {
      MoreKeys(c, e, keys, k);
    } else {
      PushKeeps(c, e, keys, op.entry);
      assert Distinct([op.entry] + c);
      if |c| + 1 > max {
        CutKeeps([op.entry] + c, e, keys + {k}, |c|);
      }
    }
  }

  lemma {:induction false} HeldThroughTouches<M>(c: seq<Entry<M>>, max: nat, e: Entry<M>, ops: seq<Op<M>>)
    requires Distinct(c) && |c| <= max && c != [] && c[0] == e
    requires e.key !in Touched(ops) && |Touched(ops)| < max
    ensures Distinct(DoAll(c, max, ops)) && |DoAll(c, max, ops)| <= max
    ensures HeldBehind(DoAll(c, max, ops), e, Touched(ops))
  {
    if ops != [] {
      var last := |ops| - 1;
      var op, before := ops[last], ops[..last];
      assert Touched(ops) == Touched(before) + {KeyOf(op)} by {
        assert forall i :: 0 <= i < last ==> before[i] == ops[i];
        assert KeyOf(ops[last]) in Touched(ops);
      }
      SubsetSize(Touched(before), Touched(ops));
      HeldThroughTouches(c, max, e, before);
      TouchKeeps(DoAll(c, max, before), max, e, Touched(before), op);
      var d := DoAll(c, max, before);
      StaysSmallAndDistinct(d, max, KeyOf(op), if op.GetOp? then op.now else 0, if op.PutOp? then op.entry else e);
    } else {
      assert c[0] == e;
    }
  }

  /**
   A key that was just used or stored, followed by any operations on fewer than max
   distinct other keys, is still a hit with the value last stored, up to and including
   the instant it expires.
   */
  lemma RecentKeyIsAHit<M>(c: seq<Entry<M>>, max: nat, e: Entry<M>, ops: seq<Op<M>>, now: int)
    requires Distinct(c) && |c| <= max && max >= 1
    requires e.key !in Touched(ops) && |Touched(ops)| < max && now <= e.expires
    ensures Get(DoAll(Put(c, max, e), max, ops), e.key, now).1 == Some(e)
    ensures forall t :: Get(c, e.key, t).1 == Some(e) ==>
              Get(DoAll(Get(c, e.key, t).0, max, ops), e.key, now).1 == Some(e)
  {
    StaysSmallAndDistinct(c, max, e.key, 0, e);
    HitFrom(Put(c, max, e), max, e, ops, now);
    forall t | Get(c, e.key, t).1 == Some(e)
      ensures Get(DoAll(Get(c, e.key, t).0, max, ops), e.key, now).1 == Some(e)
    {
      StaysSmallAndDistinct(c, max, e.key, t, e);
      HitFrom(Get(c, e.key, t).0, max, e, ops, now);
    }
  }

  lemma HitFrom<M>(c: seq<Entry<M>>, max: nat, e: Entry<M>, ops: seq<Op<M>>, now: int)
    requires Distinct(c) && |c| <= max && c != [] && c[0] == e
    requires e.key !in Touched(ops) && |Touched(ops)| < max && now <= e.expires
    ensures Get(DoAll(c, max, ops), e.key, now).1 == Some(e)
  {
    HeldThroughTouches(c, max, e, ops);
    var d := DoAll(c, max, ops);
    var i :| 0 <= i < |d| && d[i] == e && forall j :: 0 <= j < i ==> d[j].key in Touched(ops);
    FindAt(d, i);
  }

  /** The last put for k among ops is at i. */
  ghost predicate LastPut<M>(ops: seq<Op<M>>, k: VideoKey, i: int) {
    && 0 <= i < |ops| && ops[i].PutOp? && KeyOf(ops[i]) == k
    && forall j :: i < j < |ops| && ops[j].PutOp? ==> KeyOf(ops[j]) != k
  }

  /** e is what was last put for its key, or was there before and has not been put since. */
  ghost predicate LastStored<M>(c: seq<Entry<M>>, ops: seq<Op<M>>, e: Entry<M>) {
    || (exists i :: LastPut(ops, e.key, i) && ops[i].entry == e)
    || (e in c && forall j :: 0 <= j < |ops| && ops[j].PutOp? ==> KeyOf(ops[j]) != e.key)
  }

  lemma WithoutEntries<M>(c: seq<Entry<M>>, h: nat)
    requires Distinct(c) && h < |c|
    ensures forall x :: x in Without(c, h) ==> x in c && x.key != c[h].key
  {
    var d := Without(c, h);
    assert forall j :: 0 <= j < |d| ==> d[j] == c[if j < h then j else j + 1];
  }

  /** Both operations only rearrange entries, drop some, and put the new one first. */
  lemma DoHolds<M>(c: seq<Entry<M>>, max: nat, op: Op<M>, e: Entry<M>)
    requires Distinct(c) && e in Do(c, max, op)
    ensures if op.PutOp? && KeyOf(op) == e.key then e == op.entry else e in c
  {
    var h := Find(c, KeyOf(op));
    if h < |c| {
      WithoutEntries(c, h);
    } else if op.PutOp? {
      assert e in [op.entry] + c;
    }
  }

  lemma NewlyPut<M>(c: seq<Entry<M>>, ops: seq<Op<M>>, e: Entry<M>)
    requires ops != [] && ops[|ops| - 1] == PutOp(e)
    ensures LastStored(c, ops, e)
  {
    assert LastPut(ops, e.key, |ops| - 1);
  }

  lemma NotPutAgain<M>(c: seq<Entry<M>>, before: seq<Op<M>>, op: Op<M>, e: Entry<M>)
    requires LastStored(c, before, e) && !(op.PutOp? && KeyOf(op) == e.key)
    ensures LastStored(c, before + [op], e)
  {
    var ops := before + [op];
    assert forall j :: 0 <= j < |ops| && ops[j].PutOp? && KeyOf(ops[j]) == e.key ==> j < |before| && ops[j] == before[j];
    if i :| LastPut(before, e.key, i) && before[i].entry == e {
      assert LastPut(ops, e.key, i);
    }
  }

  lemma {:induction false} HeldIsLastStored<M>(c: seq<Entry<M>>, max: nat, ops: seq<Op<M>>, e: Entry<M>)
    requires Distinct(c) && |c| <= max && e in DoAll(c, max, ops)
    ensures LastStored(c, ops, e)
    decreases |ops|
  {
    if ops != [] {
      var last := |ops| - 1;
      var before, op := ops[..last], ops[last];
      LatestSmall(c, max, before);
      DoHolds(DoAll(c, max, before), max, op, e);
      if op.PutOp? && KeyOf(op) == e.key {
        NewlyPut(c, ops, e);
      } else {
        HeldIsLastStored(c, max, before, e);
        NotPutAgain(c, before, op, e);
        assert before + [op] == ops;
      }
    }
  }

  /**
   Whatever was done in between, a hit is the value last put for its key, or the one that was
   there from the start when none was put since, and it has not expired.
   */
  lemma HitIsTheLastPut<M>(c: seq<Entry<M>>, max: nat, ops: seq<Op<M>>, k: VideoKey, now: int)
    requires Distinct(c) && |c| <= max
    ensures var hit := Get(DoAll(c, max, ops), k, now).1;
            hit.Some? ==> hit.value.key == k && now <= hit.value.expires && LastStored(c, ops, hit.value)
  {
    var d := DoAll(c, max, ops);
    if Get(d, k, now).1.Some? {
      var e := d[Find(d, k)];
      assert e in d;
      HeldIsLastStored(c, max, ops, e);
    }
  }

  /** The bound is tight: max puts of max distinct other keys push the key out. */
  lemma EvictedAfterMaxOthers<M>(c: seq<Entry<M>>, max: nat, e: Entry<M>, ops: seq<Op<M>>)
    requires Distinct(c) && |c| <= max && max >= 1
    requires forall i :: 0 <= i < |ops| ==> ops[i].PutOp? && KeyOf(ops[i]) != e.key
    requires forall i, j :: 0 <= i < j < |ops| ==> KeyOf(ops[i]) != KeyOf(ops[j])
    requires |ops| >= max
    ensures forall now :: Get(DoAll(c, max, ops), e.key, now).1 == None
  {
    var d := DoAll(c, max, ops);
    FrontIsLatest(c, max, ops, max);
    forall now ensures Get(d, e.key, now).1 == None {
      LatestSmall(c, max, ops);
      forall j | 0 <= j < |d| ensures d[j].key != e.key {
        assert d[j] == ops[|ops| - 1 - j].entry;
      }
    }
  }

  lemma {:induction false} LatestSmall<M>(c: seq<Entry<M>>, max: nat, ops: seq<Op<M>>)
    requires Distinct(c) && |c| <= max
    ensures Distinct(DoAll(c, max, ops)) && |DoAll(c, max, ops)| <= max
  {
    if ops != [] {
      var last := |ops| - 1;
      LatestSmall(c, max, ops[..last]);
      var op := ops[last];
      var dummy := Entry(KeyOf(op), None, 0, 0);
      StaysSmallAndDistinct(DoAll(c, max, ops[..last]), max, KeyOf(op), if op.GetOp? then op.now else 0, if op.PutOp? then op.entry else dummy);
    }
  }

  /** After puts of distinct keys the front of the list is those puts, latest first. */
  lemma {:induction false} FrontIsLatest<M>(c: seq<Entry<M>>, max: nat, ops: seq<Op<M>>, n: nat)
    requires Distinct(c) && |c| <= max && n <= |ops| && n <= max
    requires forall i :: 0 <= i < |ops| ==> ops[i].PutOp?
    requires forall i, j :: 0 <= i < j < |ops| ==> KeyOf(ops[i]) != KeyOf(ops[j])
    ensures |DoAll(c, max, ops)| >= n
    ensures forall i :: 0 <= i < n ==> DoAll(c, max, ops)[i] == ops[|ops| - 1 - i].entry
  {
    if n > 0 {
      var last := |ops| - 1;
      var before := ops[..last];
      FrontIsLatest(c, max, before, n - 1);
      var d := DoAll(c, max, before);
      LatestSmall(c, max, before);
      forall i | 0 <= i < n - 1 ensures d[i] == ops[last - 1 - i].entry {
        assert before[last - 1 - i] == ops[last - 1 - i];
      }
      forall i | 0 <= i < n - 1 ensures d[i].key != ops[last].entry.key {
        assert KeyOf(ops[last - 1 - i]) != KeyOf(ops[last]);
      }
      PutShifts(d, max, ops[last].entry, n);
    }
  }

  /** A put of a key not among the first n - 1 entries goes before them. */
  lemma PutShifts<M>(c: seq<Entry<M>>, max: nat, e: Entry<M>, n: nat)
    requires 1 <= n <= max && n - 1 <= |c| <= max
    requires forall i :: 0 <= i < n - 1 ==> c[i].key != e.key
    ensures |Put(c, max, e)| >= n && Put(c, max, e)[0] == e
    ensures forall i :: 1 <= i < n ==> Put(c, max, e)[i] == c[i - 1]
  {
  }
}

/**
 The metadata service's VOD mapping and owner delete, as their handlers write them,
 and what they give on the states the pipeline reaches.
 */
module MetadataHandler {
  import opened Common
  import opened VideoTable
  import opened Ladder
  import opened Pipeline
  import opened PipelineStore

  // ----- the mapping -----

  /** PresignGetInternal on one key: no presigner wired, an error, or a URL with this query. */
  datatype Presign = Unwired | Refused | Query(query: string)

  /** The path of a clip: "/" + key, with "?" + query unless the query is empty. */
  datatype Path = Path(key: Key, query: string)

  /** GetByID's lookup of the video row. */
  datatype Lookup = Erred | Missing | Row(status: Status)

  /** 404, 500, 502 and 200. */
  datatype Response = NotReady | InternalError | BadGateway | Mapping(clips: seq<Path>)

  predicate ByBitrate(rows: seq<Rendition>) {
    forall i, j :: 0 <= i < j < |rows| ==> rows[i].bitrate <= rows[j].bitrate
  }

  predicate StrictlyByBitrate(rows: seq<Rendition>) {
    forall i, j :: 0 <= i < j < |rows| ==> rows[i].bitrate < rows[j].bitrate
  }

  /** One clip for each row, in that order: the row's key, with the query it was presigned with, if any. */
  ghost predicate SignedAs(rows: seq<Rendition>, sign: Key -> Presign, clips: seq<Path>) {
    && |clips| == |rows|
    && forall i :: 0 <= i < |rows| ==>
         && clips[i].key == rows[i].key
         && match sign(rows[i].key)
            case Query(query) => clips[i].query == query
            case Unwired => clips[i].query == ""
            case Refused => false
  }

  /** An order sort.Slice may leave: it is not stable, so rows of equal bitrate may end either way. */
  ghost predicate SortOutcome(rows: seq<Rendition>, out: seq<Rendition>) {
    multiset(out) == multiset(rows) && ByBitrate(out)
  }

  method SwapDown(a: array<Rendition>, j: nat)
    requires 0 < j < a.Length
    modifies a
    ensures a[..] == old(a[..][j - 1 := a[j]][j := a[j - 1]])
    ensures multiset(a[..]) == old(multiset(a[..]))
  {
    a[j - 1], a[j] := a[j], a[j - 1];
  }

  /** Sorted up to and including i, but for the entry at j, which may still be too high up. */
  ghost predicate SortedBut(rows: seq<Rendition>, i: int, j: int) {
    forall p, q :: 0 <= p < q <= i < |rows| && q != j ==> rows[p].bitrate <= rows[q].bitrate
  }

  /** One insertion: a[i] sinks to its place in the sorted front part. */
  method SinkInto(a: array<Rendition>, i: nat)
    requires i < a.Length && ByBitrate(a[..i])
    modifies a
    ensures ByBitrate(a[..i + 1])
    ensures multiset(a[..]) == old(multiset(a[..]))
  {
    var j := i;
    assert SortedBut(a[..], i, j) by {
      assert forall p :: 0 <= p < i ==> a[..i][p] == a[..][p];
    }
    while j > 0 && a[j].bitrate < a[j - 1].bitrate
      invariant 0 <= j <= i
      invariant SortedBut(a[..], i, j)
      invariant multiset(a[..]) == old(multiset(a[..]))
    {
      SwapDown(a, j);
      j := j - 1;
    }
    ghost var rows := a[..];
    assert rows[..i + 1] == a[..i + 1];
    forall p, q | 0 <= p < q < i + 1 ensures rows[p].bitrate <= rows[q].bitrate {
      if q == j {
        assert p == j - 1 || rows[p].bitrate <= rows[j - 1].bitrate;
      }
    }
  }

  method SortByBitrate(a: array<Rendition>)
    modifies a
    ensures SortOutcome(old(a[..]), a[..])
  {
    var i := 0;
    while i < a.Length
      invariant 0 <= i <= a.Length
      invariant ByBitrate(a[..i])
      invariant multiset(a[..]) == old(multiset(a[..]))
    {
      SinkInto(a, i);
      i := i + 1;
    }
    assert a[..i] == a[..];
  }

  /**
   GetVODMapping.  `read` is what the query for the renditions delivered: GetByID takes an
   error there for no rows, and one that breaks the rows off for their end, so a ready
   video may answer 404 or with part of its ladder.  A mapping has one clip per delivered
   row, in ascending bitrate, each carrying its presigned query.
   */
  method GetVodMapping(video: Lookup, read: seq<Rendition>, sign: Key -> Presign) returns (r: Response)
    ensures r.InternalError? <==> video.Erred?
    ensures r.NotReady? <==> video.Missing? || (video.Row? && (video.status != Ready || read == []))
    ensures r.BadGateway? <==> video == Row(Ready) && exists x :: x in read && sign(x.key) == Refused
    ensures r.Mapping? ==> exists rends :: SortOutcome(read, rends) && SignedAs(rends, sign, r.clips)
  {
    if video.Erred? {
      return InternalError;
    }
    if video.Missing? || video.status != Ready || read == [] {
      return NotReady;
    }
    var a := new Rendition[|read|](i requires 0 <= i < |read| => read[i]);
    assert a[..] == read;
    SortByBitrate(a);
    r := Sign(a[..], sign);
    SameElements(read, a[..]);
    assert forall i :: 0 <= i < |read| ==> read[i] in read;
    assert forall i :: 0 <= i < |read| ==> a[..][i] in a[..];
  }

  /** The loop over the sorted rows: one clip each, stopping at the first presign error. */
  method Sign(rends: seq<Rendition>, sign: Key -> Presign) returns (r: Response)
    ensures r.Mapping? || r.BadGateway?
    ensures r.Mapping? ==> SignedAs(rends, sign, r.clips)
    ensures r.Mapping? <==> forall x :: x in rends ==> sign(x.key) != Refused
  {
    var clips := [];
    var i := 0;
    while i < |rends|
      invariant 0 <= i <= |rends|
      invariant SignedAs(rends[..i], sign, clips)
      invariant forall j :: 0 <= j < i ==> sign(rends[j].key) != Refused
    {
      var key := rends[i].key;
      match sign(key) {
        case Refused =>
          assert rends[i] in rends;
          return BadGateway;
        case Query(query) =>
          clips := clips + [Path(key, query)];
        case Unwired =>
          clips := clips + [Path(key, "")];
      }
      i := i + 1;
    }
    assert rends[..i] == rends;
    return Mapping(clips);
  }

  lemma SameElements(a: seq<Rendition>, b: seq<Rendition>)
    requires multiset(a) == multiset(b)
    ensures forall x :: x in a <==> x in b
  {
    forall x ensures x in a <==> x in b {
      assert x in a <==> x in multiset(a);
      assert x in b <==> x in multiset(b);
    }
  }

  // ----- the mapping of a ready video -----

  /** Some of v's rendition rows, each once, in no particular order. */
  ghost predicate PartOf(t: Table, v: VideoId, rows: seq<Rendition>) {
    && (forall i, j :: 0 <= i < j < |rows| ==> rows[i].quality != rows[j].quality)
    && (forall i :: 0 <= i < |rows| ==> (v, rows[i].quality) in t.renditions && t.renditions[(v, rows[i].quality)] == rows[i])
  }

  /** All of them. */
  ghost predicate Listing(t: Table, v: VideoId, rows: seq<Rendition>) {
    PartOf(t, v, rows) && forall q :: (v, q) in t.renditions ==> t.renditions[(v, q)] in rows
  }

  function Rung(t: Table, v: VideoId, q: Quality): seq<Rendition> {
    if (v, q) in t.renditions then [Entry(v, q)] else []
  }

  /** Two strictly ascending sequences with the same elements are the same. */
  lemma {:induction false} StrictOrderIsUnique(a: seq<Rendition>, b: seq<Rendition>)
    requires StrictlyByBitrate(a) && StrictlyByBitrate(b)
    requires forall x :: x in a <==> x in b
    ensures a == b
  {
    if a == [] {
      assert forall i :: 0 <= i < |b| ==> b[i] in b;
    } else {
      assert a[0] in b && b[0] in a;
      assert a[0] == b[0];
      forall x ensures x in a[1..] <==> x in b[1..] {
        assert x in a[1..] <==> x in a && x != a[0];
        assert x in b[1..] <==> x in b && x != b[0];
      }
      StrictOrderIsUnique(a[1..], b[1..]);
    }
  }

  /** Distinct qualities of well-made rows have distinct bitrates, so sorting leaves no choice. */
  lemma SortedPartIsStrict(s: State, v: VideoId, rows: seq<Rendition>, out: seq<Rendition>)
    requires Reachable(s) && PartOf(s.store.table, v, rows) && SortOutcome(rows, out)
    ensures StrictlyByBitrate(out)
    ensures forall x :: x in out <==> x in rows
    ensures forall x :: x in out ==> !x.quality.Other? && x == Entry(v, x.quality) && (v, x.quality) in s.store.table.renditions
  {
    SameElements(rows, out);
    forall x | x in out
      ensures !x.quality.Other? && x == Entry(v, x.quality) && (v, x.quality) in s.store.table.renditions
    {
      RenditionRowsAreBacked(s, v, x.quality);
      ReachableInv(s);
      assert WellMade(v, s.store.table.renditions[(v, x.quality)]);
    }
    forall i, j | 0 <= i < j < |out|
      ensures out[i].bitrate < out[j].bitrate
    {
      assert out[i] in out && out[j] in out;
      NoRepeats(rows);
      OnceEach(out, i, j);
    }
  }

  lemma OnceEach(rows: seq<Rendition>, i: nat, j: nat)
    requires i < j < |rows| && forall x :: multiset(rows)[x] <= 1
    ensures rows[i] != rows[j]
  {
    assert rows == rows[..j] + rows[j..];
    assert rows[..j][i] in multiset(rows[..j]);
    assert rows[j..][0] in multiset(rows[j..]);
    assert multiset(rows)[rows[i]] == multiset(rows[..j])[rows[i]] + multiset(rows[j..])[rows[i]];
  }

  lemma {:induction false} NoRepeats(rows: seq<Rendition>)
    requires forall i, j :: 0 <= i < j < |rows| ==> rows[i].quality != rows[j].quality
    ensures forall x :: multiset(rows)[x] <= 1
  {
    if rows != [] {
      var last := |rows| - 1;
      NoRepeats(rows[..last]);
      assert rows == rows[..last] + [rows[last]];
      assert rows[last] !in rows[..last];
    }
  }

  lemma RungsInOrder(s: State, v: VideoId, rows: seq<Rendition>, out: seq<Rendition>)
    requires Reachable(s) && Listing(s.store.table, v, rows) && SortOutcome(rows, out)
    ensures out == Rung(s.store.table, v, P360) + Rung(s.store.table, v, P720) + Rung(s.store.table, v, P1080)
  {
    var t := s.store.table;
    SortedPartIsStrict(s, v, rows, out);
    var rungs := Rung(t, v, P360) + Rung(t, v, P720) + Rung(t, v, P1080);
    forall x ensures x in out <==> x in rungs {
      if x in rungs {
        assert x == Entry(v, P360) || x == Entry(v, P720) || x == Entry(v, P1080);
        RenditionRowsAreBacked(s, v, x.quality);
        assert t.renditions[(v, x.quality)] in rows;
      }
    }
    StrictOrderIsUnique(out, rungs);
  }

  /**
   The mapping of a ready video.  The handler reads the status in one state and the rows in
   a later one, after whatever happened in between.  However many rows arrive and in
   whatever order, the sequences are rungs of the video in strictly ascending bitrate, each
   naming an object the bucket holds.  When all rows arrive they are its rungs 360p, 720p,
   1080p in that order, as far as present, the whole ladder that went ready among them; and
   none are left exactly when the video was deleted meanwhile.
   */
  lemma ReadyMappingIsTheLadder(s: State, v: VideoId, acts: seq<Action>, t: State, read: seq<Rendition>, out: seq<Rendition>)
    requires Reachable(s) && v in s.store.table.status && s.store.table.status[v] == Ready
    requires Run(s, acts, t) && PartOf(t.store.table, v, read) && SortOutcome(read, out)
    ensures StrictlyByBitrate(out)
    ensures forall i :: 0 <= i < |out| ==> out[i] == Entry(v, out[i].quality) && out[i].key in t.store.bucket
    ensures Listing(t.store.table, v, read) ==>
              && out == Rung(t.store.table, v, P360) + Rung(t.store.table, v, P720) + Rung(t.store.table, v, P1080)
              && (out == [] <==> v !in t.store.table.status)
    ensures Listing(t.store.table, v, read) && v in t.store.table.status ==>
              && v in t.store.readyLadder
              && forall i :: 0 <= i < |t.store.readyLadder[v]| ==> t.store.readyLadder[v][i] in out
  {
    var before :| Run(EMPTY, before, s);
    RunConcat(EMPTY, before, s, acts, t);
    ReachableInv(s);
    PastStaysOverRun(s, acts, t);
    SortedPartIsStrict(t, v, read, out);
    forall i | 0 <= i < |out| ensures out[i] == Entry(v, out[i].quality) && out[i].key in t.store.bucket {
      assert out[i] in out;
      RenditionRowsAreBacked(t, v, out[i].quality);
    }
    if Listing(t.store.table, v, read) {
      RungsInOrder(t, v, read, out);
      if v in t.store.table.status {
        ReadyCoversItsLadder(t, v);
        assert t.store.table.renditions[(v, P360)] in out;
      } else if out != [] {
        assert out[0] in out;
        RenditionRowsAreBacked(t, v, out[0].quality);
      }
    }
  }

  /**
   What the player gets for a ready video, read as above: each clip is a rung of the video
   whose object the bucket holds, in strictly ascending bitrate, with the query it was presigned
   with itself; and with all rows read the clips are its rungs 360p, 720p, 1080p as far as
   present, the whole ladder that went ready among them.
   */
  lemma ReadyClipsAreServable(s: State, v: VideoId, acts: seq<Action>, t: State, read: seq<Rendition>,
                              sign: Key -> Presign, rends: seq<Rendition>, clips: seq<Path>)
    requires Reachable(s) && v in s.store.table.status && s.store.table.status[v] == Ready
    requires Run(s, acts, t) && PartOf(t.store.table, v, read) && SortOutcome(read, rends) && SignedAs(rends, sign, clips)
    ensures forall i :: 0 <= i < |clips| ==>
              && clips[i].key.RenditionObject? && clips[i].key.video == v && clips[i].key in t.store.bucket
              && (sign(clips[i].key) == Query(clips[i].query) || (sign(clips[i].key).Unwired? && clips[i].query == ""))
    ensures forall i, j :: 0 <= i < j < |clips| ==>
              Entry(v, clips[i].key.quality).bitrate < Entry(v, clips[j].key.quality).bitrate
    ensures Listing(t.store.table, v, read) ==> forall q ::
              (v, q) in t.store.table.renditions <==> exists i :: 0 <= i < |clips| && clips[i].key == RenditionObject(v, q)
    ensures Listing(t.store.table, v, read) && v in t.store.table.status ==>
              && v in t.store.readyLadder
              && forall k :: 0 <= k < |t.store.readyLadder[v]| ==> exists i :: 0 <= i < |clips| && clips[i].key == t.store.readyLadder[v][k].key
  {
    ReadyMappingIsTheLadder(s, v, acts, t, read, rends);
    RowsOfClips(s, v, acts, t, read, rends);
    hide StoreInv, Reachable, Run, SortOutcome, PartOf;
    ClipsNameRungs(t.store, v, rends, sign, clips);
    if Listing(t.store.table, v, read) {
      RowsHaveClips(t, v, read, rends, clips);
    }
  }

  lemma RowsOfClips(s: State, v: VideoId, acts: seq<Action>, t: State, read: seq<Rendition>, rends: seq<Rendition>)
    requires Reachable(s) && Run(s, acts, t) && PartOf(t.store.table, v, read) && SortOutcome(read, rends)
    ensures forall i :: 0 <= i < |rends| ==> (v, rends[i].quality) in t.store.table.renditions
    ensures forall q :: (v, q) in t.store.table.renditions ==> t.store.table.renditions[(v, q)].quality == q
  {
    var before :| Run(EMPTY, before, s);
    RunConcat(EMPTY, before, s, acts, t);
    ReachableInv(t);
    SortedPartIsStrict(t, v, read, rends);
    assert forall i :: 0 <= i < |rends| ==> rends[i] in rends;
  }

  /** Clips of rungs, in the order of the rungs. */
  lemma ClipsNameRungs(st: Store, v: VideoId, rends: seq<Rendition>, sign: Key -> Presign, clips: seq<Path>)
    requires SignedAs(rends, sign, clips) && StrictlyByBitrate(rends)
    requires forall i :: 0 <= i < |rends| ==> rends[i] == Entry(v, rends[i].quality) && rends[i].key in st.bucket
    ensures |clips| == |rends|
    ensures forall i :: 0 <= i < |clips| ==>
              && clips[i].key == RenditionObject(v, rends[i].quality) == rends[i].key && clips[i].key in st.bucket
              && (sign(clips[i].key) == Query(clips[i].query) || (sign(clips[i].key).Unwired? && clips[i].query == ""))
    ensures forall i, j :: 0 <= i < j < |clips| ==>
              Entry(v, clips[i].key.quality).bitrate < Entry(v, clips[j].key.quality).bitrate
  {
    forall i | 0 <= i < |clips| ensures clips[i].key == RenditionObject(v, rends[i].quality) {
      assert rends[i] == Entry(v, rends[i].quality);
    }
  }

  lemma RowsHaveClips(t: State, v: VideoId, read: seq<Rendition>, rends: seq<Rendition>, clips: seq<Path>)
    requires Listing(t.store.table, v, read) && SortOutcome(read, rends) && |clips| == |rends|
    requires forall q :: (v, q) in t.store.table.renditions ==> t.store.table.renditions[(v, q)].quality == q
    requires forall i :: 0 <= i < |clips| ==>
               clips[i].key == RenditionObject(v, rends[i].quality) == rends[i].key && (v, rends[i].quality) in t.store.table.renditions
    ensures forall q :: (v, q) in t.store.table.renditions <==> exists i :: 0 <= i < |clips| && clips[i].key == RenditionObject(v, q)
    ensures forall x :: x in rends ==> exists i :: 0 <= i < |clips| && clips[i].key == x.key
  {
    SameElements(read, rends);
    forall q | (v, q) in t.store.table.renditions ensures exists i :: 0 <= i < |clips| && clips[i].key == RenditionObject(v, q) {
      var row := t.store.table.renditions[(v, q)];
      assert row in read && row in rends;
      var i :| 0 <= i < |rends| && rends[i] == row;
      assert clips[i].key == RenditionObject(v, q);
    }
    forall x | x in rends ensures exists i :: 0 <= i < |clips| && clips[i].key == x.key {
      var i :| 0 <= i < |rends| && rends[i] == x;
      assert clips[i].key == x.key;
    }
  }

  // ----- the owner's delete -----

  /** Tables and bucket as they stood after some effect. */
  datatype Snapshot = Snapshot(table: Table, bucket: set<Key>)

  /** Every rendition row names an object of its own video that is present. */
  ghost predicate Backed(at: Snapshot) {
    forall k :: k in at.table.renditions ==>
      at.table.renditions[k].key.video == k.0 && at.table.renditions[k].key in at.bucket
  }

  function KeysOfVideo(bucket: set<Key>, id: VideoId): set<Key> {
    set k | k in bucket && k.video == id
  }

  /** Where the repository's Delete may meet a database error. */
  datatype DeleteFault = OnSelect | OnDelete

  class MetadataService {
    var table: Table
    var owner: map<VideoId, UserId>
    var thumbnail: map<VideoId, Key>
    var bucket: set<Key>
    ghost var past: seq<Snapshot>

    ghost predicate Valid()
      reads this
    {
      && table.status.Keys == owner.Keys
      && Backed(Now())
      && (forall i :: 0 <= i < |past| ==> Backed(past[i]))
      && (forall v :: v in thumbnail ==> thumbnail[v].video == v && !thumbnail[v].RenditionObject?)
      && (forall k :: k in table.renditions ==> k.0 in table.status)
    }

    ghost function Now(): Snapshot
      reads this
    {
      Snapshot(table, bucket)
    }

    constructor ()
      ensures Valid() && table == Table(map[], map[]) && bucket == {} && past == []
    {
      table := Table(map[], map[]);
      owner, thumbnail, bucket, past := map[], map[], {}, [];
    }

    /** One object goes, unless the store refuses; the handler does not look. */
    method Remove(k: Key, refused: set<Key>)
      requires Valid() && k.video !in table.status
      modifies this`bucket, this`past
      ensures Valid() && past == old(past) + [Now()]
      ensures bucket == if k in refused then old(bucket) else old(bucket) - {k}
    {
      if k !in refused {
        bucket := bucket - {k};
      }
      past := past + [Now()];
    }

    /** RemoveObjects over the collected keys. */
    method RemoveAll(keys: seq<Key>, refused: set<Key>, id: VideoId)
      requires Valid() && id !in table.status
      requires forall i :: 0 <= i < |keys| ==> keys[i].video == id
      modifies this`bucket, this`past
      ensures Valid() && old(past) <= past
      ensures bucket <= old(bucket)
      ensures forall k :: k in old(bucket) && k !in bucket ==> k.video == id && k !in refused
      ensures forall k :: k in keys && k in bucket ==> k in refused
    {
      var i := 0;
      while i < |keys|
        invariant 0 <= i <= |keys|
        invariant Valid() && old(past) <= past
        invariant bucket <= old(bucket)
        invariant forall k :: k in old(bucket) && k !in bucket ==> k.video == id && k !in refused
        invariant forall j :: 0 <= j < i && keys[j] in bucket ==> keys[j] in refused
      {
        Remove(keys[i], refused);
        i := i + 1;
      }
    }

    /** RemovePrefix: list what lies under the prefix, then remove it, in whatever order. */
    method RemovePrefix(under: Key -> bool, refused: set<Key>, id: VideoId)
      requires Valid() && id !in table.status
      requires forall k :: under(k) ==> k.video == id
      modifies this`bucket, this`past
      ensures Valid() && old(past) <= past
      ensures bucket <= old(bucket)
      ensures forall k :: k in old(bucket) && k !in bucket ==> k.video == id && k !in refused
      ensures forall k :: under(k) && k in bucket ==> k in refused
    {
      var left := set k | k in bucket && under(k);
      while left != {}
        invariant Valid() && old(past) <= past
        invariant bucket <= old(bucket)
        invariant forall k :: k in old(bucket) && k !in bucket ==> k.video == id && k !in refused
        invariant forall k :: k in left ==> under(k)
        invariant forall k :: under(k) && k in bucket ==> k in refused || k in left
        decreases left
      {
        var k :| k in left;
        Remove(k, refused);
        left := left - {k};
      }
    }

    /** The keys read before the row goes: its raw object, the renditions that were delivered, its thumbnail. */
    method CollectKeys(id: VideoId, rows: seq<Rendition>) returns (keys: seq<Key>)
      requires Valid() && PartOf(table, id, rows)
      ensures forall i :: 0 <= i < |keys| ==> keys[i].video == id
      ensures Raw(id) in keys && forall i :: 0 <= i < |rows| ==> rows[i].key in keys
    {
      keys := [Raw(id)];
      var i := 0;
      while i < |rows|
        invariant 0 <= i <= |rows|
        invariant forall j :: 0 <= j < |keys| ==> keys[j].video == id
        invariant Raw(id) in keys && forall j :: 0 <= j < i ==> rows[j].key in keys
      {
        assert table.renditions[(id, rows[i].quality)] == rows[i];
        keys := keys + [rows[i].key];
        i := i + 1;
      }
      keys := keys + [if id in thumbnail then thumbnail[id] else Thumbnail(id)];
    }

    /** The collected keys, then whatever is left under the video's three prefixes. */
    method RemoveObjectsOf(id: VideoId, keys: seq<Key>, refused: set<Key>)
      requires Valid() && id !in table.status
      requires forall i :: 0 <= i < |keys| ==> keys[i].video == id
      modifies this`bucket, this`past
      ensures Valid() && old(past) <= past
      ensures bucket == old(bucket) - (KeysOfVideo(old(bucket), id) - refused)
    {
      RemoveAll(keys, refused, id);
      RemovePrefix((k: Key) => k.RenditionObject? && k.video == id, refused, id);
      RemovePrefix((k: Key) => k.Raw? && k.video == id, refused, id);
      RemovePrefix((k: Key) => k.Thumbnail? && k.video == id, refused, id);
      forall k | k in old(bucket) ensures k in bucket <==> !(k.video == id && k !in refused) {
        assert k.RenditionObject? || k.Raw? || k.Thumbnail?;
      }
    }

    /** Between the lookup and the DELETE others may store renditions and report them, each object before its row. */
    method OthersWork(id: VideoId, uploaded: set<Key>, between: seq<Patch>)
      requires Valid() && id in table.status && AllStored(between, id, bucket + uploaded)
      modifies this`table, this`bucket, this`past
      ensures Valid() && old(past) <= past
      ensures table == Replay(old(table), id, between) && bucket == old(bucket) + uploaded
    {
      bucket := bucket + uploaded;
      var i := 0;
      while i < |between|
        invariant 0 <= i <= |between|
        invariant Valid() && old(past) <= past && bucket == old(bucket) + uploaded
        invariant id in table.status && table == Replay(old(table), id, between[..i])
      {
        StaysBacked(Now(), id, between[i]);
        table := Update(table, id, between[i].status, between[i].renditions).value;
        past := past + [Now()];
        i := i + 1;
        assert between[..i][..i - 1] == between[..i - 1];
      }
      assert between[..i] == between;
    }

    /**
     DELETE /videos/{id}: the row first, its objects after.  204 exactly for the owner of
     an existing row while the database answers; any other answer deletes nothing.  After
     204 the row and its renditions are gone, every object of the video the store let go is
     gone, those stored in the meantime included, nothing else moved, and at no moment in
     between did a row name a missing object.
     */
    method Delete(id: VideoId, caller: UserId, rows: seq<Rendition>, readFails: bool, dbError: Option<DeleteFault>,
                  uploaded: set<Key>, between: seq<Patch>, refused: set<Key>)
      returns (code: nat)
      requires Valid() && PartOf(table, id, rows) && AllStored(between, id, bucket + uploaded)
      modifies this
      ensures Valid() && old(past) <= past
      ensures code == 204 <==> dbError.None? && id in old(owner) && old(owner)[id] == caller
      ensures code == 404 <==> dbError != Some(OnSelect) && id !in old(owner)
      ensures code == 403 <==> dbError != Some(OnSelect) && id in old(owner) && old(owner)[id] != caller
      ensures code in {204, 403, 404, 500}
      ensures code != 204 ==> owner == old(owner)
      ensures code in {403, 404} || (code == 500 && dbError == Some(OnSelect)) ==> Now() == old(Now()) && past == old(past)
      ensures code == 500 && dbError == Some(OnDelete) ==>
                table == Replay(old(table), id, between) && bucket == old(bucket) + uploaded
      ensures code == 204 ==> table == VideoTable.Delete(old(table), id) && owner == old(owner) - {id}
      ensures code == 204 ==> bucket == old(bucket) + uploaded - (KeysOfVideo(old(bucket) + uploaded, id) - refused)
    {
      var keys := [];
      if id in table.status && !readFails {
        keys := CollectKeys(id, rows);
      }
      if dbError == Some(OnSelect) {
        return 500;
      }
      if id !in owner {
        return 404;
      }
      if owner[id] != caller {
        return 403;
      }
      ghost var start := table;
      OthersWork(id, uploaded, between);
      if dbError == Some(OnDelete) {
        return 500;
      }
      assert dbError.Some? ==> dbError.value == OnSelect || dbError.value == OnDelete;
      DeleteAfterHistory(start, id, between);
      table, owner, thumbnail := VideoTable.Delete(table, id), owner - {id}, thumbnail - {id};
      past := past + [Now()];
      RemoveObjectsOf(id, keys, refused);
      return 204;
    }
  }

  /** Every rendition a history reports for id names one of these objects, of its own video. */
  ghost predicate AllStored(history: seq<Patch>, id: VideoId, bucket: set<Key>) {
    forall i, j :: 0 <= i < |history| && 0 <= j < |history[i].renditions| ==>
      history[i].renditions[j].key.video == id && history[i].renditions[j].key in bucket
  }

  /** A status update whose renditions are stored leaves every row backed. */
  lemma StaysBacked(at: Snapshot, id: VideoId, patch: Patch)
    requires Backed(at) && id in at.table.status && AllStored([patch], id, at.bucket)
    requires forall k :: k in at.table.renditions ==> k.0 in at.table.status
    ensures Update(at.table, id, patch.status, patch.renditions).Some?
    ensures var t := Update(at.table, id, patch.status, patch.renditions).value;
            && Backed(Snapshot(t, at.bucket))
            && t.status.Keys == at.table.status.Keys
            && forall k :: k in t.renditions ==> k.0 in t.status
  {
    UpsertTakes(at.table.renditions, id, patch.renditions);
    assert [patch][0] == patch;
  }

  /** A row of an upsert was there before or is one of the entries. */
  lemma {:induction false} UpsertTakes(rows: map<(VideoId, Quality), Rendition>, id: VideoId, es: seq<Rendition>)
    ensures forall k :: k in Upsert(rows, id, es) ==>
              || (k in rows && Upsert(rows, id, es)[k] == rows[k])
              || (k.0 == id && Upsert(rows, id, es)[k] in es)
  {
    if es != [] {
      UpsertTakes(rows, id, es[..|es| - 1]);
    }
  }
}

/**
 The two metadata tables and the statements that change them: as functions on tables, and
 run one at a time by the class VideoRepo, with a database error possible at each.
 */
module VideoTable {
  import opened Common

  type VideoId = nat

  datatype Status = Uploaded | Processing | Ready | Failed

  /** The quality column is text; the transcoder only ever writes the three rungs. */
  datatype Quality = P360 | P720 | P1080 | Other(name: string)

  /** Object keys: raw/{id}/original.mp4, renditions/{id}/{quality}.mp4, thumbnails/{id}/thumb.jpg. */
  datatype Key = Raw(video: VideoId) | RenditionObject(video: VideoId, quality: Quality) | Thumbnail(video: VideoId)

  datatype Rendition = Rendition(quality: Quality, bitrate: int, width: int, height: int, key: Key)

  /** The committed content of `videos` and `video_renditions`. */
  datatype Table = Table(
    status: map<VideoId, Status>,
    renditions: map<(VideoId, Quality), Rendition>)

  /** The guard of UpdateStatus: a ready video is not taken back to processing or uploaded. */
  predicate Suppressed(current: Status, status: Status) {
    current == Ready && (status == Processing || status == Uploaded)
  }

  /** INSERT ... ON CONFLICT (video_id, quality) DO UPDATE, for each rendition in order. */
  function Upsert(rows: map<(VideoId, Quality), Rendition>, id: VideoId, renditions: seq<Rendition>)
    : (r: map<(VideoId, Quality), Rendition>)
    ensures rows.Keys <= r.Keys
    ensures forall k :: k in r && k !in rows ==> k.0 == id
    ensures forall k :: k in rows && k.0 != id ==> r[k] == rows[k]
  {
    if renditions == [] then rows
    else
      var last := |renditions| - 1;
      Upsert(rows, id, renditions[..last])[(id, renditions[last].quality) := renditions[last]]
  }

  /** One committed status update; None when SELECT ... FOR UPDATE finds no row. */
  function Update(t: Table, id: VideoId, status: Status, renditions: seq<Rendition>): Option<Table> {
    if id !in t.status then None
    else if Suppressed(t.status[id], status) then Some(t)
    else Some(Table(t.status[id := status], Upsert(t.renditions, id, renditions)))
  }

  /** DELETE FROM videos; video_renditions references it with ON DELETE CASCADE. */
  function Delete(t: Table, id: VideoId): Table {
    Table(t.status - {id}, map k | k in t.renditions && k.0 != id :: t.renditions[k])
  }

  // ----- what a sequence of upserts leaves behind -----

  /** The position of the last entry of es for quality q. */
  ghost predicate LastFor(es: seq<Rendition>, q: Quality, i: int) {
    && 0 <= i < |es|
    && es[i].quality == q
    && forall j :: i < j < |es| ==> es[j].quality != q
  }

  /** After upserting es, each quality named in es has its last value and no other row of the table moved. */
  lemma {:induction false} UpsertKeepsLast(rows: map<(VideoId, Quality), Rendition>, id: VideoId, es: seq<Rendition>)
    ensures forall i :: 0 <= i < |es| ==> (id, es[i].quality) in Upsert(rows, id, es)
    ensures forall q, i :: LastFor(es, q, i) ==> (id, q) in Upsert(rows, id, es) && Upsert(rows, id, es)[(id, q)] == es[i]
    ensures forall k :: (k in Upsert(rows, id, es) && forall i :: 0 <= i < |es| ==> k != (id, es[i].quality)) ==>
              && k in rows
              && Upsert(rows, id, es)[k] == rows[k]
  {
    if es != [] {
      var last := |es| - 1;
      var prefix := es[..last];
      UpsertKeepsLast(rows, id, prefix);
      var r := Upsert(rows, id, es);
      forall q, i | LastFor(es, q, i)
        ensures (id, q) in r && r[(id, q)] == es[i]
      {
        if i < last {
          assert LastFor(prefix, q, i);
        }
      }
      forall k | k in r && forall i :: 0 <= i < |es| ==> k != (id, es[i].quality)
        ensures k in rows && r[k] == rows[k]
      {
        assert k != (id, es[last].quality);
        assert forall i :: 0 <= i < |prefix| ==> prefix[i] == es[i];
      }
    }
  }

  lemma {:induction false} UpsertConcat(rows: map<(VideoId, Quality), Rendition>, id: VideoId, a: seq<Rendition>, b: seq<Rendition>)
    ensures Upsert(rows, id, a + b) == Upsert(Upsert(rows, id, a), id, b)
  {
    if b == [] {
      assert a + b == a;
    } else {
      var last := |b| - 1;
      UpsertConcat(rows, id, a, b[..last]);
      assert (a + b)[..|a + b| - 1] == a + b[..last];
    }
  }

  // ----- histories of one row -----

  datatype Patch = Patch(status: Status, renditions: seq<Rendition>)

  /** The row's table after a history of status updates, each one committed. */
  function Replay(t: Table, id: VideoId, history: seq<Patch>): (r: Table)
    requires id in t.status
    ensures id in r.status
  {
    if history == [] then t
    else
      var last := |history| - 1;
      Update(Replay(t, id, history[..last]), id, history[last].status, history[last].renditions).value
  }

  /** The status a row shows after a history that starts at `current`. */
  function StatusAfter(current: Status, history: seq<Patch>): Status {
    if history == [] then current
    else
      var last := |history| - 1;
      var before := StatusAfter(current, history[..last]);
      if Suppressed(before, history[last].status) then before else history[last].status
  }

  /** Every rendition the guard let through, in the order it was written. */
  function Effective(current: Status, history: seq<Patch>): seq<Rendition> {
    if history == [] then []
    else
      var last := |history| - 1;
      var before := history[..last];
      Effective(current, before)
      + if Suppressed(StatusAfter(current, before), history[last].status) then [] else history[last].renditions
  }

  /**
   Any update history of a live row: its status is the last one not suppressed,
   its renditions are the upsert of the entries the guard let through, and no
   other video's rows move.
   */
  lemma {:induction false} HistoryOfARow(t: Table, id: VideoId, history: seq<Patch>)
    requires id in t.status
    ensures Replay(t, id, history).status == t.status[id := StatusAfter(t.status[id], history)]
    ensures Replay(t, id, history).renditions == Upsert(t.renditions, id, Effective(t.status[id], history))
  {
    if history != [] {
      var last := |history| - 1;
      HistoryOfARow(t, id, history[..last]);
      UpsertConcat(t.renditions, id, Effective(t.status[id], history[..last]), history[last].renditions);
      assert Effective(t.status[id], history[..last]) + [] == Effective(t.status[id], history[..last]);
    }
  }

  /**
   The rendition table of a video over any update history: the primary key
   (video, quality) names one value, that value is the last one written for the
   quality by an update the guard did not suppress (or the one that was there
   before), and qualities never disappear while the row lives.
   */
  lemma RenditionsOverAnyHistory(t: Table, id: VideoId, history: seq<Patch>, q: Quality)
    requires id in t.status
    ensures (id, q) in t.renditions ==> (id, q) in Replay(t, id, history).renditions
    ensures (id, q) in Replay(t, id, history).renditions <==>
            (id, q) in t.renditions || exists i :: LastFor(Effective(t.status[id], history), q, i)
    ensures forall i :: LastFor(Effective(t.status[id], history), q, i) ==>
              && (id, q) in Replay(t, id, history).renditions
              && Replay(t, id, history).renditions[(id, q)] == Effective(t.status[id], history)[i]
    ensures ((id, q) in t.renditions && forall i :: !LastFor(Effective(t.status[id], history), q, i)) ==>
              && (id, q) in Replay(t, id, history).renditions
              && Replay(t, id, history).renditions[(id, q)] == t.renditions[(id, q)]
  {
    var es := Effective(t.status[id], history);
    HistoryOfARow(t, id, history);
    UpsertKeepsLast(t.renditions, id, es);
    if forall i :: !LastFor(es, q, i) {
      NoLastMeansAbsent(es, q);
    }
  }

  lemma {:induction false} NoLastMeansAbsent(es: seq<Rendition>, q: Quality)
    requires forall i :: !LastFor(es, q, i)
    ensures forall i :: 0 <= i < |es| ==> es[i].quality != q
  {
    if es != [] {
      var last := |es| - 1;
      assert !LastFor(es, q, last);
      forall i ensures !LastFor(es[..last], q, i) {
        if LastFor(es[..last], q, i) {
          assert LastFor(es, q, i);
        }
      }
      NoLastMeansAbsent(es[..last], q);
      assert forall i :: 0 <= i < last ==> es[..last][i] == es[i];
    }
  }

  /** Two updates commute with the rest of the table: only the named video's rows change. */
  lemma UpdateTouchesOneVideo(t: Table, id: VideoId, status: Status, renditions: seq<Rendition>)
    requires id in t.status
    ensures Update(t, id, status, renditions).Some?
    ensures var t' := Update(t, id, status, renditions).value;
            && t'.status.Keys == t.status.Keys
            && (forall v :: v in t.status && v != id ==> t'.status[v] == t.status[v])
            && t.renditions.Keys <= t'.renditions.Keys
            && (forall k :: k in t'.renditions && k.0 != id ==> k in t.renditions && t'.renditions[k] == t.renditions[k])
            && (t.status[id] == Ready && (status == Processing || status == Uploaded) ==> t' == t)
            && (t.status[id] == Ready && (status == Processing || status == Uploaded) <==> Suppressed(t.status[id], status))
            && (!Suppressed(t.status[id], status) ==>
                  && t'.status[id] == status
                  && forall i :: 0 <= i < |renditions| ==> (id, renditions[i].quality) in t'.renditions)
  {
    UpsertKeepsLast(t.renditions, id, renditions);
  }

  /** Deleting a row takes with it whatever was written to it before, its last moment included. */
  lemma {:induction false} DeleteAfterHistory(t: Table, id: VideoId, history: seq<Patch>)
    requires id in t.status && forall k :: k in t.renditions ==> k.0 in t.status
    ensures Delete(Replay(t, id, history), id) == Delete(t, id)
    ensures forall k :: k in Replay(t, id, history).renditions ==> k.0 in t.status
  {
    if history != [] {
      var last := |history| - 1;
      var before := Replay(t, id, history[..last]);
      DeleteAfterHistory(t, id, history[..last]);
      UpdateTouchesOneVideo(before, id, history[last].status, history[last].renditions);
      var after := Replay(t, id, history);
      HistoryOfARow(t, id, history);
      assert Delete(after, id).status == Delete(t, id).status;
      assert Delete(after, id).renditions == Delete(t, id).renditions;
    }
  }

  // ----- the repository object -----

  type UserId = nat

  datatype DeleteResult = Deleted | NotFound | Forbidden | DbError

  /**
   VideoRepo with its transactions spelled out.  `fault` is the index of the
   statement at which the database answers with an error: for UpdateStatus 0 BEGIN,
   1 SELECT, 2 UPDATE, 3.. the upserts, 3 + |renditions| COMMIT (2 when the guard
   returns early).  A COMMIT that errs may have taken effect.
   */
  class VideoRepo {
    var status: map<VideoId, Status>
    var renditions: map<(VideoId, Quality), Rendition>
    var owner: map<VideoId, UserId>

    function Contents(): Table
      reads this
    {
      Table(status, renditions)
    }

    /** Every rendition references a row, and every row has an owner. */
    predicate Valid()
      reads this
    {
      status.Keys == owner.Keys && forall k :: k in renditions ==> k.0 in status
    }

    constructor ()
      ensures Valid() && Contents() == Table(map[], map[])
    {
      status := map[];
      renditions := map[];
      owner := map[];
    }

    /** The index of COMMIT. */
    function CommitAt(id: VideoId, newStatus: Status, newRenditions: seq<Rendition>): nat
      requires id in status
      reads this
    {
      if Suppressed(status[id], newStatus) then 2 else 3 + |newRenditions|
    }

    /**
     Success means the committed table is exactly Update.  An error anywhere before COMMIT
     rolls everything back; an error at COMMIT leaves either the old table or exactly Update.
     */
    method UpdateStatus(id: VideoId, newStatus: Status, newRenditions: seq<Rendition>, fault: Option<nat>, commitTook: bool)
      returns (ok: bool)
      requires Valid()
      modifies this
      ensures Valid() && owner == old(owner)
      ensures ok <==> id in old(status) && (fault.Some? ==> fault.value > old(CommitAt(id, newStatus, newRenditions)))
      ensures if ok || (id in old(status) && fault == Some(old(CommitAt(id, newStatus, newRenditions))) && commitTook)
              then Update(old(Contents()), id, newStatus, newRenditions) == Some(Contents())
              else Contents() == old(Contents())
    {
      if fault == Some(0) || fault == Some(1) || id !in status {
        return false;
      }
      if Suppressed(status[id], newStatus) {
        return fault != Some(2);
      }
      if fault == Some(2) {
        return false;
      }
      // the transaction's own view: nothing is visible to others before COMMIT
      var txStatus := status[id := newStatus];
      var txRenditions := renditions;
      var i := 0;
      while i < |newRenditions|
        invariant 0 <= i <= |newRenditions|
        invariant txRenditions == Upsert(renditions, id, newRenditions[..i])
        invariant fault.Some? ==> fault.value >= 3 + i
      {
        if fault == Some(3 + i) {
          return false;
        }
        var rn := newRenditions[i];
        txRenditions := txRenditions[(id, rn.quality) := rn];
        i := i + 1;
        assert newRenditions[..i][..i - 1] == newRenditions[..i - 1];
      }
      assert newRenditions[..i] == newRenditions;
      if fault == Some(3 + i) && !commitTook {
        return false;
      }
      status, renditions := txStatus, txRenditions;
      return fault != Some(3 + i);
    }

    /**
     Delete: a lookup, the ownership check, then the DELETE, with any status updates of the
     video committing in between.  Only its owner's call on an existing row deletes; then row
     and renditions are gone, those just written included, and every other video is as before.
     In all other cases nothing but those updates has happened.
     */
    method DeleteVideo(id: VideoId, caller: UserId, fault: Option<nat>, between: seq<Patch>) returns (r: DeleteResult)
      requires Valid()
      modifies this
      ensures Valid()
      ensures r.Deleted? <==> fault != Some(0) && fault != Some(1) && id in old(owner) && old(owner)[id] == caller
      ensures r.NotFound? <==> fault != Some(0) && id !in old(owner)
      ensures r.Forbidden? <==> fault != Some(0) && id in old(owner) && old(owner)[id] != caller
      ensures r.Deleted? ==>
                && id !in status && (forall q :: (id, q) !in renditions)
                && owner == old(owner) - {id}
                && (forall v :: v != id ==> (v in status <==> v in old(status)) && (v in status ==> status[v] == old(status)[v]))
                && (forall k: (VideoId, Quality) :: k.0 != id ==>
                      (k in renditions <==> k in old(renditions)) && (k in renditions ==> renditions[k] == old(renditions)[k]))
      ensures r.NotFound? || r.Forbidden? || (r.DbError? && fault == Some(0)) ==> Contents() == old(Contents()) && owner == old(owner)
      ensures r.DbError? && fault != Some(0) ==> Contents() == Replay(old(Contents()), id, between) && owner == old(owner)
    {
      if fault == Some(0) {
        return DbError;
      }
      if id !in owner {
        return NotFound;
      }
      if owner[id] != caller {
        return Forbidden;
      }
      ghost var before := Contents();
      OthersUpdate(id, between);
      if fault == Some(1) {
        return DbError;
      }
      DeleteAfterHistory(before, id, between);
      owner := owner - {id};
      status := status - {id};
      renditions := map k | k in renditions && k.0 != id :: renditions[k];
      assert Contents() == Delete(before, id);
      return Deleted;
    }

    /** Status updates of one video by others. */
    method OthersUpdate(id: VideoId, between: seq<Patch>)
      requires Valid() && id in status
      modifies this`status, this`renditions
      ensures Valid() && Contents() == Replay(old(Contents()), id, between)
    {
      var i := 0;
      while i < |between|
        invariant 0 <= i <= |between|
        invariant Valid() && Contents() == Replay(old(Contents()), id, between[..i])
      {
        var t := Update(Contents(), id, between[i].status, between[i].renditions).value;
        UpdateTouchesOneVideo(Contents(), id, between[i].status, between[i].renditions);
        status, renditions := t.status, t.renditions;
        i := i + 1;
        assert between[..i][..i - 1] == between[..i - 1];
      }
      assert between[..i] == between;
    }
  }
}

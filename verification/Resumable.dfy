/**
 PUT and GET of the resumable upload of one video: a Content-Range append that reads the
 stored object, extends it and writes it back whole, with its sizes in 64-bit arithmetic.
 */
module Resumable {
  import opened Common
  import opened ContentRange

  type Byte = x: int | 0 <= x < 256

  // ----- requests and answers -----

  /** What PutObject does: an error may hide a write that took effect. */
  datatype Write = Written | Lost(stored: bool)

  /** What the Content-Range header says: absent, not a range, or a range. */
  datatype Named = Whole | Malformed | Of(range: Range)

  /** An absent header reads as the empty string. */
  function Classify(header: string): Named {
    if header == "" then Whole
    else if Parse(header).None? then Malformed
    else Of(Parse(header).value)
  }

  /** Every range a client may want to name reaches the handler as it was meant. */
  lemma NamedAsFormatted(r: Range)
    requires 0 <= r.start <= MAX_INT64 && 0 <= r.end <= MAX_INT64
    requires r.total.Some? ==> 0 <= r.total.value <= MAX_INT64
    ensures Classify(Format(r)) == Of(r)
  {
    RoundTrip(r);
  }

  /** One PUT. */
  datatype Request = Request(
    named: Named,
    body: seq<Byte>,
    readFails: bool,
    statFails: bool,
    getFails: bool,
    write: Write)

  /** Status code, and the `uploaded` field where the answer has one. */
  datatype Answer = Answer(code: nat, uploaded: Option<int>)

  type Object = Option<seq<Byte>>

  function Content(stored: Object): seq<Byte> {
    if stored.None? then [] else stored.value
  }

  /** StatObjectSize with every error, also "no such key", taken as 0. */
  function Existing(stored: Object, statFails: bool): int {
    if stored.None? || statFails then 0 else Wrap(|stored.value|)
  }

  // ----- what a request does, stated outright -----

  /** A PUT without a range replaces the object. */
  predicate Replaces(max: int, q: Request) {
    q.named.Whole? && !q.readFails && |q.body| <= max
  }

  predicate WellFormed(r: Range) {
    0 <= r.start <= r.end
  }

  /** chunkSize */
  function NamedSize(r: Range): int {
    Wrap(r.end - r.start + 1)
  }

  /** The size check as 64-bit numbers see it. */
  predicate WithinLimit(existing: int, max: int, r: Range) {
    Wrap(existing + NamedSize(r)) <= max
  }

  /** The body is exactly as long as its range. */
  predicate FillsRange(max: int, q: Request, r: Range) {
    !q.readFails && |q.body| == NamedSize(r) && |q.body| <= max && |q.body| < MAX_INT64
  }

  /** A ranged PUT is appended when it starts at the stored size, stays within the limit and fills its range. */
  predicate Appends(stored: Object, max: int, q: Request) {
    && q.named.Of? && WellFormed(q.named.range)
    && q.named.range.start == Existing(stored, q.statFails)
    && WithinLimit(q.named.range.start, max, q.named.range)
    && FillsRange(max, q, q.named.range)
    && (q.named.range.start != 0 ==> !q.getFails)
  }

  function Extended(stored: Object, q: Request): seq<Byte> {
    (if Existing(stored, q.statFails) == 0 then [] else Content(stored)) + q.body
  }

  function After(stored: Object, max: int, q: Request): Object {
    if q.write == Lost(false) then stored
    else if Replaces(max, q) then Some(q.body)
    else if Appends(stored, max, q) then Some(Extended(stored, q))
    else stored
  }

  /** The named total is reached. */
  predicate Complete(stored: Object, q: Request) {
    q.named.Of? && q.named.range.total == Some(Wrap(|Extended(stored, q)|))
  }

  // ----- what a request should do -----

  /** A PUT without a Content-Range: the body becomes the object, all of it or not at all. */
  ghost predicate WholeDone(was: Object, max: int, q: Request, a: Answer, now: Object) {
    var fits := !q.readFails && |q.body| <= max;
    && now == (if fits && q.write != Lost(false) then Some(q.body) else was)
    && a.code == (if q.readFails then 400 else if |q.body| > max then 413 else if q.write.Written? then 200 else 500)
    && a.uploaded == if a.code == 200 then Some(Wrap(|q.body|)) else None
  }

  /** What a ranged PUT that starts at the stored size runs into, in the handler's order; 0 when nothing. */
  ghost function Obstacle(held: int, max: int, q: Request, size: int): nat {
    var read := Max(0, Min(Wrap(size + 1), |q.body|));
    if Wrap(held + size) > max then 413
    else if q.readFails then 400
    else if read > max then 413
    else if read != size then 400
    else if held != 0 && q.getFails then 500
    else 0
  }

  /**
   A ranged PUT, with `held` the size its stat gave: refused when it does not start there; else
   the whole body goes behind what is stored, or is all there is when the stat gave 0.
   */
  ghost predicate RangeDone(was: Object, max: int, q: Request, r: Range, a: Answer, now: Object) {
    var held := if was.None? || q.statFails then 0 else Wrap(|was.value|);
    var size := Wrap(r.end - r.start + 1);
    var obstacle := Obstacle(held, max, q, size);
    if r.start < 0 || r.end < r.start then a == Answer(400, None) && now == was
    else if r.start != held then a == Answer(416, Some(held)) && now == was
    else if obstacle != 0 then a == Answer(obstacle, None) && now == was
    else
      var whole := (if held == 0 then [] else was.value) + q.body;
      && now == (if q.write == Lost(false) then was else Some(whole))
      && a == if !q.write.Written? then Answer(500, None)
              else Answer(if r.total == Some(Wrap(|whole|)) then 200 else 308, Some(Wrap(|whole|)))
  }

  // ----- the handler -----

  datatype Read = Bytes(data: seq<Byte>) | TooLarge | Broken

  class ResumableHandler {
    const maxBytes: int
    var stored: Object

    ghost predicate Valid()
      reads this
    {
      1 <= maxBytes <= MAX_INT64
    }

    constructor (maxBytes: int)
      requires 1 <= maxBytes <= MAX_INT64
      ensures Valid() && this.maxBytes == maxBytes && stored == None
    {
      this.maxBytes := maxBytes;
      stored := None;
    }

    /** GET: the offset to resume from. */
    method Status(statFails: bool) returns (uploaded: int)
      ensures uploaded == Existing(stored, statFails)
    {
      if stored.None? || statFails {
        return 0;
      }
      return Wrap(|stored.value|);
    }

    /** io.ReadAll over http.MaxBytesReader, behind an io.LimitReader when there is a limit. */
    method ReadBody(q: Request, limit: Option<int>) returns (r: Read)
      ensures q.readFails ==> r.Broken?
      ensures !q.readFails ==>
                var n := if limit.None? then |q.body| else Max(0, Min(limit.value, |q.body|));
                r == if n > maxBytes then TooLarge else Bytes(q.body[..n])
    {
      if q.readFails {
        return Broken;
      }
      var n := |q.body|;
      if limit.Some? {
        n := Max(0, Min(limit.value, n));
      }
      if n > maxBytes {
        return TooLarge;
      }
      return Bytes(q.body[..n]);
    }

    method PutObject(data: seq<Byte>, write: Write) returns (ok: bool)
      modifies this
      ensures stored == if write == Lost(false) then old(stored) else Some(data)
      ensures ok == write.Written?
    {
      if write.Written? || write.stored {
        stored := Some(data);
      }
      return write.Written?;
    }

    /** A PUT without Content-Range. */
    method UploadWhole(q: Request) returns (a: Answer)
      requires Valid() && q.named.Whole?
      modifies this
      ensures stored == After(old(stored), maxBytes, q)
      ensures WholeDone(old(stored), maxBytes, q, a, stored)
      ensures a.code == 200 <==> Replaces(maxBytes, q) && q.write.Written?
      ensures a.code in {200, 400, 413, 500}
      ensures a.uploaded.Some? ==> stored.Some? && a.uploaded.value == Wrap(|stored.value|)
    {
      assert q.body[..|q.body|] == q.body;
      var read := ReadBody(q, None);
      match read
      case Broken => return Answer(400, None);
      case TooLarge => return Answer(413, None);
      case Bytes(data) =>
        var ok := PutObject(data, q.write);
        return if ok then Answer(200, Some(Wrap(|data|))) else Answer(500, None);
    }

    /** The append proper: limit, body, existing data, write. */
    method Append(q: Request, r: Range) returns (a: Answer)
      requires Valid() && q.named == Of(r) && WellFormed(r) && r.start == Existing(stored, q.statFails)
      modifies this
      ensures stored == After(old(stored), maxBytes, q)
      ensures RangeDone(old(stored), maxBytes, q, r, a, stored)
      ensures a.code == 200 <==> Appends(old(stored), maxBytes, q) && q.write.Written? && Complete(old(stored), q)
      ensures a.code == 308 <==> Appends(old(stored), maxBytes, q) && q.write.Written? && !Complete(old(stored), q)
      ensures a.code in {200, 308, 400, 413, 500}
      ensures a.uploaded == if a.code in {200, 308} then Some(Wrap(|Content(stored)|)) else None
      ensures a.code in {200, 308} ==> stored.Some?
    {
      var existing := Existing(stored, q.statFails);
      var chunkSize := Wrap(r.end - r.start + 1);
      if Wrap(existing + chunkSize) > maxBytes {
        return Answer(413, None);
      }
      var read := ReadBody(q, Some(Wrap(chunkSize + 1)));
      if read.TooLarge? {
        return Answer(413, None);
      }
      if read.Broken? {
        return Answer(400, None);
      }
      if |read.data| != chunkSize {
        return Answer(400, None);
      }
      assert read.data == q.body == [] + q.body;
      var toPut := read.data;
      if existing != 0 {
        if q.getFails {
          return Answer(500, None);
        }
        toPut := Content(stored) + read.data;
      }
      var ok := PutObject(toPut, q.write);
      if !ok {
        return Answer(500, None);
      }
      var uploaded := Wrap(|toPut|);
      if r.total == Some(uploaded) {
        return Answer(200, Some(uploaded));
      }
      return Answer(308, Some(uploaded));
    }

    /**
     PUT.  Without a header the body becomes the object, with one that cannot be read nothing
     happens, and with a range the body is appended or the client told where to go on.
     The object becomes exactly After; 200 answers a whole-file PUT that was stored, or
     an append that reached its named total; 308 any other append; 416 a range that does
     not start at the stored size, with the size the client should go on from.
     */
    method Upload(header: string, q: Request) returns (a: Answer)
      requires Valid() && q.named == Classify(header)
      modifies this
      ensures stored == After(old(stored), maxBytes, q)
      ensures header == "" ==> WholeDone(old(stored), maxBytes, q, a, stored)
      ensures header != "" ==>
                match Parse(header)
                case None => a == Answer(400, None) && stored == old(stored)
                case Some(r) => RangeDone(old(stored), maxBytes, q, r, a, stored)
      ensures a.code == 200 <==>
                && q.write.Written?
                && (Replaces(maxBytes, q) || (Appends(old(stored), maxBytes, q) && Complete(old(stored), q)))
      ensures a.code == 308 <==> q.write.Written? && Appends(old(stored), maxBytes, q) && !Complete(old(stored), q)
      ensures a.code == 416 <==>
                q.named.Of? && WellFormed(q.named.range) && q.named.range.start != Existing(old(stored), q.statFails)
      ensures a.code == 416 ==> a.uploaded == Some(Existing(old(stored), q.statFails))
      ensures a.code in {200, 308} && !q.named.Whole? ==> a.uploaded == Some(Wrap(|Content(stored)|))
      ensures a.uploaded.Some? && !q.statFails ==> a.uploaded.value == Existing(stored, false)
      ensures a.code in {200, 308, 416, 400, 413, 500}
    {
      if header == "" {
        a := UploadWhole(q);
        return;
      }
      var range := Parse(header);
      if range.None? {
        return Answer(400, None);
      }
      var r := range.value;
      if r.start < 0 || r.end < r.start {
        return Answer(400, None);
      }
      var existing := Status(q.statFails);
      if r.start != existing {
        return Answer(416, Some(existing));
      }
      a := Append(q, r);
    }
  }

  // ----- runs -----

  function Run(stored: Object, max: int, qs: seq<Request>): Object
    decreases |qs|
  {
    if qs == [] then stored else Run(After(stored, max, qs[0]), max, qs[1..])
  }

  /** The body is the range of the file it names, or the whole file when it names none. */
  predicate Honest(file: seq<Byte>, q: Request) {
    match q.named
    case Whole => q.body == file
    case Malformed => true
    case Of(r) => WellFormed(r) ==> r.end < |file| && q.body == file[r.start..r.end + 1]
  }

  lemma AfterIsAPrefix(file: seq<Byte>, stored: Object, max: int, q: Request)
    requires |file| <= MAX_INT64 && Honest(file, q)
    requires Content(stored) <= file
    ensures Content(After(stored, max, q)) <= file
  {
    if Appends(stored, max, q) && !Replaces(max, q) {
      var r := q.named.range;
      assert r.start == 0 || r.start == |Content(stored)|;
      assert Extended(stored, q) == file[..r.start] + file[r.start..r.end + 1] == file[..r.end + 1];
    }
  }

  /**
   For requests that carry the ranges of one file they name, in any order, repeated, with
   any failures, stat failures included, the stored object is always a prefix of the file.
   */
  lemma {:induction false} StoredIsAPrefix(file: seq<Byte>, stored: Object, max: int, qs: seq<Request>)
    requires |file| <= MAX_INT64 && forall i :: 0 <= i < |qs| ==> Honest(file, qs[i])
    requires Content(stored) <= file
    ensures Content(Run(stored, max, qs)) <= file
    decreases |qs|
  {
    if qs != [] {
      AfterIsAPrefix(file, stored, max, qs[0]);
      StoredIsAPrefix(file, After(stored, max, qs[0]), max, qs[1..]);
    }
  }

  /** While stats answer, no ranged request makes the object shorter, and what it adds is its whole body. */
  lemma HealthyStatsNeverShrink(stored: Object, max: int, q: Request)
    requires !q.statFails && !q.named.Whole? && |Content(stored)| <= MAX_INT64
    ensures Content(stored) <= Content(After(stored, max, q))
    ensures After(stored, max, q) != stored ==> Content(After(stored, max, q)) == Content(stored) + q.body
  {
  }

  // ----- the byte limit -----

  const HALF_RANGE: int := 0x4000_0000_0000_0000

  /** No sequence of requests, whatever they carry, makes the object larger than the limit. */
  ghost predicate LimitKept(max: int) {
    forall qs :: |Content(Run(None, max, qs))| <= max
  }

  lemma {:induction false} LimitHoldsFrom(stored: Object, max: int, qs: seq<Request>)
    requires 1 <= max < HALF_RANGE && |Content(stored)| <= max
    ensures |Content(Run(stored, max, qs))| <= max
    decreases |qs|
  {
    if qs != [] {
      LimitHoldsFrom(After(stored, max, qs[0]), max, qs[1..]);
    }
  }

  function Plain(r: Range, body: seq<Byte>): Request {
    Request(Of(r), body, false, false, false, Written)
  }

  /** Two appends of 2^62 bytes each: the second one's size check wraps around and passes. */
  lemma LimitBreaks(max: int, half: seq<Byte>)
    requires HALF_RANGE <= max <= MAX_INT64 && |half| == HALF_RANGE
    ensures !LimitKept(max)
  {
    var first := Plain(Range(0, HALF_RANGE - 1, None), half);
    var second := Plain(Range(HALF_RANGE, MAX_INT64, None), half);
    var stored := Some(half);
    assert [] + half == half;
    assert After(None, max, first) == stored;
    assert After(stored, max, second) == Some(half + half);
    var qs := [first, second];
    assert qs[1..] == [second] && [second][1..] == [];
    assert Run(stored, max, [second]) == Run(Some(half + half), max, []);
    assert |Content(Run(None, max, qs))| == |half| + |half|;
  }

  /** The limit is kept by every run exactly when it is below 2^62; the default is 5 GiB. */
  lemma LimitKeptExactly(max: int)
    requires 1 <= max <= MAX_INT64
    ensures LimitKept(max) <==> max < HALF_RANGE
  {
    if max < HALF_RANGE {
      forall qs ensures |Content(Run(None, max, qs))| <= max {
        LimitHoldsFrom(None, max, qs);
      }
    } else {
      LimitBreaks(max, seq(HALF_RANGE, i => 0));
    }
  }

  // ----- a client that follows the offset -----

  /** What may go wrong with one of its requests; stats answer. */
  datatype Trouble = Trouble(readFails: bool, getFails: bool, write: Write)

  /** The next chunk of a client told that `offset` bytes are stored. */
  function NextRange(file: seq<Byte>, offset: nat, step: nat): Range
    requires offset < |file| && step >= 1
  {
    Range(offset, Min(offset + step, |file|) - 1, Some(|file|))
  }

  function NextChunk(file: seq<Byte>, offset: nat, step: nat, t: Trouble): Request
    requires offset < |file| && step >= 1
  {
    Request(Of(NextRange(file, offset, step)), file[offset..Min(offset + step, |file|)], t.readFails, false, t.getFails, t.write)
  }

  /** The request is stored, whether or not its answer says so. */
  predicate Lands(t: Trouble) {
    !t.readFails && !t.getFails && t.write != Lost(false)
  }

  /** A chunk sent from the true offset is stored whole or not at all; it is stored if it lands, and it is honest. */
  lemma ChunkIsTaken(file: seq<Byte>, stored: Object, max: int, step: nat, t: Trouble)
    requires |file| <= max <= MAX_INT64 && step >= 1
    requires Content(stored) <= file && |Content(stored)| < |file| < MAX_INT64
    ensures var q := NextChunk(file, |Content(stored)|, step, t);
            var next := Min(|Content(stored)| + step, |file|);
            && Honest(file, q)
            && After(stored, max, q) in {stored, Some(file[..next])}
            && (Lands(t) ==> After(stored, max, q) == Some(file[..next]))
            && (Appends(stored, max, q) ==> (Complete(stored, q) <==> next == |file|))
  {
    var offset := |Content(stored)|;
    var next := Min(offset + step, |file|);
    var q := NextChunk(file, offset, step, t);
    assert Content(stored) == file[..offset];
    assert Extended(stored, q) == file[..offset] + file[offset..next] == file[..next];
  }

  /** How many of the first n requests landed. */
  function Landed(troubles: nat -> Trouble, n: nat): nat {
    if n == 0 then 0 else Landed(troubles, n - 1) + if Lands(troubles(n - 1)) then 1 else 0
  }

  lemma NextHeader(file: seq<Byte>, offset: nat, step: nat)
    requires offset < |file| <= MAX_INT64 && step >= 1
    ensures Classify(Format(NextRange(file, offset, step))) == Of(NextRange(file, offset, step))
  {
    NamedAsFormatted(NextRange(file, offset, step));
  }

  /** One round: send the next chunk, go on from the offset in the answer, or ask when there is none. */
  method Send(h: ResumableHandler, file: seq<Byte>, offset: nat, step: nat, t: Trouble) returns (code: nat, next: int)
    requires h.Valid() && |file| <= h.maxBytes && |file| < MAX_INT64 && step >= 1
    requires Content(h.stored) <= file && offset == |Content(h.stored)| < |file|
    modifies h
    ensures Content(old(h.stored)) <= Content(h.stored) <= file
    ensures next == |Content(h.stored)| <= Min(offset + step, |file|)
    ensures Lands(t) ==> next == Min(offset + step, |file|)
    ensures code == 200 ==> Content(h.stored) == file
    ensures next == |file| && t.write.Written? ==> code == 200
  {
    ghost var before := h.stored;
    NextHeader(file, offset, step);
    ChunkIsTaken(file, h.stored, h.maxBytes, step, t);
    var q := NextChunk(file, offset, step, t);
    var a := h.Upload(Format(NextRange(file, offset, step)), q);
    assert Content(before) == file[..offset];
    code := a.code;
    if a.uploaded.Some? {
      next := a.uploaded.value;
    } else {
      next := h.Status(false);
    }
  }

  /**
   A client that always goes on from the offset it was told, by an answer or by a status
   request, while bodies break off, reads fail and writes fail, or take effect and are not
   confirmed.  What is stored never shrinks, and it is the whole file as soon as
   ceil(remaining / step) of its requests have landed.  `answers` are the codes of its requests:
   only the last one can be 200, only when the file is stored, and it is when the file was
   completed by a write that was confirmed.
   */
  method FollowTheOffset(h: ResumableHandler, file: seq<Byte>, step: nat, troubles: nat -> Trouble, rounds: nat)
    returns (offset: int, answers: seq<nat>)
    requires h.Valid() && |file| <= h.maxBytes && |file| < MAX_INT64 && step >= 1
    requires Content(h.stored) <= file
    modifies h
    ensures Content(old(h.stored)) <= Content(h.stored) <= file
    ensures offset == |Content(h.stored)| >= Min(|file|, |Content(old(h.stored))| + step * Landed(troubles, rounds))
    ensures |Content(old(h.stored))| + step * Landed(troubles, rounds) >= |file| ==> Content(h.stored) == file
    ensures |answers| <= rounds && (|answers| < rounds ==> Content(h.stored) == file)
    ensures forall i :: 0 <= i < |answers| && answers[i] == 200 ==> i == |answers| - 1 && Content(h.stored) == file
    ensures answers != [] && Content(h.stored) == file && troubles(|answers| - 1).write.Written? ==> answers[|answers| - 1] == 200
  {
    offset := h.Status(false);
    answers := [];
    var i := 0;
    while i < rounds && offset < |file|
      invariant 0 <= i == |answers| <= rounds
      invariant forall k :: 0 <= k < i && answers[k] == 200 ==> k == i - 1 && offset == |file|
      invariant i > 0 && offset == |file| && troubles(i - 1).write.Written? ==> answers[i - 1] == 200
      invariant Content(old(h.stored)) <= Content(h.stored) <= file
      invariant offset == |Content(h.stored)|
      invariant offset >= Min(|file|, |Content(old(h.stored))| + step * Landed(troubles, i))
    {
      OneMoreLanded(step, troubles, i);
      var code, next := Send(h, file, offset, step, troubles(i));
      offset, answers := next, answers + [code];
      i := i + 1;
    }
    MoreRoundsLand(step, troubles, i, rounds);
  }

  lemma OneMoreLanded(step: nat, troubles: nat -> Trouble, i: nat)
    ensures step * Landed(troubles, i + 1) == step * Landed(troubles, i) + if Lands(troubles(i)) then step else 0
  {
    if Lands(troubles(i)) {
      assert step * (Landed(troubles, i) + 1) == step * Landed(troubles, i) + step;
    }
  }

  lemma {:induction false} MoreRoundsLand(step: nat, troubles: nat -> Trouble, i: nat, n: nat)
    requires i <= n
    ensures i == n || step * Landed(troubles, i) <= step * Landed(troubles, n)
  {
    if i < n {
      MoreRoundsLand(step, troubles, i, n - 1);
      OneMoreLanded(step, troubles, n - 1);
    }
  }
}

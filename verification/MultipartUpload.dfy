/**
 The browser's multipart upload and the upload service behind it, run against each
 other: interruptions, failed PUTs that were stored all the same, PUTs that land late or
 from another tab, sessions aborted by the reconciler, and resumed attempts.

 Everything an attempt meets is one value, its Weather; nothing is assumed of it, and Fair says
 when the services hold up.  Later is what time alone does to the service.
 */
module MultipartUpload {
  import opened Common
  import opened Multipart

  type VideoId = nat

  // ----- the multipart session an object key resolves to -----

  datatype Upload = Upload(key: string, uploadId: string, initiated: int)

  /** The listed upload FindUploadID binds to: of those for this key the latest, the first listed among equals. */
  ghost predicate Latest(uploads: seq<Upload>, key: string, i: int) {
    && 0 <= i < |uploads| && uploads[i].key == key
    && (forall j :: 0 <= j < i && uploads[j].key == key ==> uploads[j].initiated < uploads[i].initiated)
    && (forall j :: i <= j < |uploads| && uploads[j].key == key ==> uploads[j].initiated <= uploads[i].initiated)
  }

  /** FindUploadID over one listing; the empty string doubles as "none yet", so upload IDs are never empty. */
  method FindUploadId(uploads: seq<Upload>, key: string) returns (r: Option<string>)
    requires forall i :: 0 <= i < |uploads| ==> uploads[i].uploadId != ""
    ensures r.None? <==> forall i :: 0 <= i < |uploads| ==> uploads[i].key != key
    ensures r.Some? ==> exists i :: Latest(uploads, key, i) && r.value == uploads[i].uploadId
  {
    var latest := "";
    var initiated := 0;
    ghost var at := 0;
    var i := 0;
    while i < |uploads|
      invariant 0 <= i <= |uploads|
      invariant latest == "" <==> forall j :: 0 <= j < i ==> uploads[j].key != key
      invariant latest != "" ==>
                  && at < i && Latest(uploads[..i], key, at)
                  && latest == uploads[at].uploadId && initiated == uploads[at].initiated
    {
      var u := uploads[i];
      if u.key == key {
        if latest == "" || u.initiated > initiated {
          latest, initiated := u.uploadId, u.initiated;
          at := i;
        }
      }
      i := i + 1;
    }
    assert uploads[..i] == uploads;
    return if latest == "" then None else Some(latest);
  }

  // ----- the service -----

  /** What may happen between two calls of one attempt. */
  datatype Event =
    | Land(video: VideoId, part: nat)   // a PUT sent earlier, or by another tab, is stored now
    | Abort(video: VideoId)             // the reconciler drops the session

  predicate Calm(events: seq<Event>) {
    forall i :: 0 <= i < |events| ==> events[i].Land?
  }

  /**
   The upload service with its object store.  `file` is the file each session was created
   for: a browser only ever continues a session with the file that opened it.
   */
  class Server {
    const announced: nat                                  // chunk_size in every answer
    var sessions: map<VideoId, map<nat, seq<Byte>>>
    var objects: map<VideoId, seq<Byte>>
    var queue: seq<VideoId>
    var next: VideoId
    var file: map<VideoId, seq<Byte>>

    /** chunk_size || MULTIPART_CHUNK_SIZE */
    function Chunk(): (c: nat)
      ensures c >= 1
      ensures announced > 0 ==> c == announced
      ensures announced == 0 ==> c == 8388608
    {
      if announced == 0 then MULTIPART_CHUNK_SIZE else announced
    }

    /** Part n exists for v's file and can be presigned. */
    predicate Sendable(v: VideoId, n: nat)
      reads this
    {
      v in file && 1 <= n <= PartCount(|file[v]|, Chunk()) && n <= MAX_PART_NUMBER
    }

    /** v's session has every part of its file. */
    ghost predicate HoldsAll(v: VideoId)
      reads this
    {
      v in sessions && v in file && AllStored(file[v], Chunk(), sessions[v])
    }

    ghost predicate Valid()
      reads this
    {
      && (forall v :: v in file ==> v < next)
      && (forall v :: v in sessions ==> v in file && PartsOk(file[v], Chunk(), sessions[v]))
    }

    constructor (announced: nat)
      ensures Valid() && this.announced == announced && sessions == map[] && queue == []
    {
      this.announced := announced;
      sessions, objects, queue, next, file := map[], map[], [], 0, map[];
    }

    /** A PUT of part n is stored, if the session still exists. */
    method Store(v: VideoId, n: nat)
      requires Valid() && Sendable(v, n)
      modifies this`sessions
      ensures Later(this)
      ensures sessions.Keys == old(sessions.Keys)
      ensures v in sessions ==> n in sessions[v]
    {
      if v in sessions {
        var stored: map<nat, seq<Byte>> := sessions[v][n := Slice(file[v], Chunk(), n)];
        sessions := sessions[v := stored];
      }
    }

    /** Whatever the others do meanwhile. */
    method Others(events: seq<Event>)
      requires Valid()
      modifies this`sessions
      ensures Later(this)
      ensures Calm(events) ==> sessions.Keys == old(sessions.Keys)
    {
      var i := 0;
      while i < |events|
        invariant 0 <= i <= |events|
        invariant Later(this)
        invariant Calm(events) ==> sessions.Keys == old(sessions.Keys)
        decreases |events| - i
      {
        match events[i] {
          case Land(v, n) =>
            if Sendable(v, n) {
              Store(v, n);
            }
          case Abort(v) =>
            sessions := sessions - {v};
        }
        i := i + 1;
      }
    }
  }

  /** Time passed: sessions may have ended, but none lost a part, came back, or changed its file. */
  twostate predicate Later(server: Server)
    reads server
  {
    && server.Valid()
    && old(server.next) <= server.next
    && (forall v :: v in old(server.file) ==> v in server.file && server.file[v] == old(server.file)[v])
    && (forall v :: v in server.sessions && v < old(server.next) ==>
          v in old(server.sessions) && old(server.sessions)[v].Keys <= server.sessions[v].Keys)
  }

  // ----- listing parts -----

  /** The stored part numbers in lo..hi-1, ascending. */
  function Numbers(parts: map<nat, seq<Byte>>, lo: nat, hi: nat): seq<nat>
    requires lo <= hi
  {
    if lo == hi then []
    else if hi - 1 in parts then Numbers(parts, lo, hi - 1) + [hi - 1]
    else Numbers(parts, lo, hi - 1)
  }

  lemma {:induction false} NumbersListed(parts: map<nat, seq<Byte>>, lo: nat, hi: nat)
    requires lo <= hi
    ensures forall n :: n in Numbers(parts, lo, hi) <==> lo <= n < hi && n in parts
    ensures Ascending(Numbers(parts, lo, hi))
  {
    if lo < hi {
      NumbersListed(parts, lo, hi - 1);
      var shorter := Numbers(parts, lo, hi - 1);
      assert forall i :: 0 <= i < |shorter| ==> shorter[i] in shorter;
    }
  }

  /** Cutting an ascending list leaves out only what lies beyond its last entry. */
  lemma CutAt(all: seq<nat>, size: nat)
    requires Ascending(all) && size <= |all|
    ensures Ascending(all[..size])
    ensures forall n :: n in all[..size] ==> n in all
    ensures forall n :: n in all && n !in all[..size] ==> size < |all| && forall m :: m in all[..size] ==> m < n
  {
  }

  const PAGE := 1000

  /** One ListObjectParts answer: the first 1000 parts beyond the marker, and whether there are more. */
  method ListObjectParts(server: Server, v: VideoId, marker: nat) returns (page: seq<nat>, truncated: bool, nextMarker: nat)
    requires server.Valid() && v in server.sessions && marker <= MAX_PART_NUMBER
    ensures Ascending(page)
    ensures forall n :: n in page ==> n in server.sessions[v] && n > marker
    ensures !truncated ==> forall n :: n in server.sessions[v] && n > marker ==> n in page
    ensures truncated ==> page != [] && forall n :: n in server.sessions[v] && marker < n <= nextMarker ==> n in page
    ensures page != [] ==> nextMarker == page[|page| - 1] && marker < nextMarker <= MAX_PART_NUMBER
  {
    var all := Numbers(server.sessions[v], marker + 1, MAX_PART_NUMBER + 1);
    var size := Min(PAGE, |all|);
    page := all[..size];
    truncated := |all| > PAGE;
    nextMarker := if page == [] then marker else page[|page| - 1];
    NumbersListed(server.sessions[v], marker + 1, MAX_PART_NUMBER + 1);
    CutAt(all, size);
    assert page != [] ==> page[|page| - 1] in page;
  }

  /**
   ListParts: page after page until the listing is not truncated.  With parts landing
   between the pages it lists, in ascending order, at least the parts stored when it
   started and only parts stored when it ends; None when a page fails or the session is gone.
   */
  method ListParts(server: Server, v: VideoId, weather: Weather) returns (r: Option<seq<nat>>)
    requires server.Valid() && v < server.next
    modifies server`sessions
    ensures Later(server)
    ensures r.Some? ==> v in server.sessions && Ascending(r.value)
    ensures r.Some? ==> forall n :: n in r.value ==> n in server.sessions[v]
    ensures r.Some? ==> forall n :: n in old(server.sessions)[v] ==> n in r.value
    ensures weather.Fair() && v in old(server.sessions) ==> r.Some?
    ensures weather.Fair() ==> server.sessions.Keys == old(server.sessions.Keys)
  {
    var parts := [];
    var marker := 0;
    while true
      invariant 0 <= marker <= MAX_PART_NUMBER
      invariant Later(server)
      invariant Ascending(parts) && forall n :: n in parts ==> n <= marker
      invariant v in server.sessions ==> forall n :: n in parts ==> n in server.sessions[v]
      invariant v in server.sessions ==> forall n :: n in old(server.sessions)[v] && n <= marker ==> n in parts
      invariant weather.Fair() ==> server.sessions.Keys == old(server.sessions.Keys)
      decreases MAX_PART_NUMBER - marker
    {
      server.Others(weather.others(marker));
      if weather.pageFails(marker) || v !in server.sessions {
        return None;
      }
      var page, truncated, nextMarker := ListObjectParts(server, v, marker);
      AppendPage(parts, page, marker);
      parts := parts + page;
      if !truncated || page == [] {
        return Some(parts);
      }
      LastIsGreatest(page);
      marker := nextMarker;
    }
  }

  lemma AppendPage(parts: seq<nat>, page: seq<nat>, marker: nat)
    requires Ascending(parts) && Ascending(page)
    requires forall n :: n in parts ==> n <= marker
    requires forall n :: n in page ==> n > marker
    ensures Ascending(parts + page)
    ensures forall n :: n in parts + page <==> n in parts || n in page
  {
    forall i, j | 0 <= i < j < |parts + page| ensures (parts + page)[i] < (parts + page)[j] {
      if i < |parts| <= j {
        assert parts[i] in parts && page[j - |parts|] in page;
      }
    }
  }

  lemma LastIsGreatest(page: seq<nat>)
    requires Ascending(page) && page != []
    ensures forall n :: n in page ==> n <= page[|page| - 1]
  {
  }

  // ----- what one attempt meets -----

  datatype Put = Stored | Failed(stored: bool) | Aborted(stored: bool)

  /** CompleteMultipartUpload: done, refused, or done while the caller sees an error. */
  datatype Assembly = Done | Refused | DoneButLost

  /** What one Publish call does: copies that reached the queue, and whether it answers with an error. */
  type Copies = n: nat | n <= 2
  datatype Publishing = Publishing(copies: Copies, error: bool)

  function Events(v: VideoId, p: Publishing): seq<VideoId> {
    seq(p.copies, i => v)
  }

  datatype Weather = Weather(
    others: nat -> seq<Event>,
    pageFails: nat -> bool,
    visible: nat -> bool,            // which listed part numbers the client makes out
    createFails: bool,               // content type, metadata or object store refuses
    createReplyLost: bool,           // the session is there, but the client does not learn of it
    storageFull: bool,               // localStorage.setItem throws
    presignFails: nat -> bool,
    put: (nat, nat) -> Put,
    assembly: Assembly,
    statFails: bool,
    contentType: string,
    publishing: Publishing,
    completeReplyLost: bool)         // the answer to complete does not reach the client, or does not parse
  {
    /** The PUTs of part n, and what the others do before each. */
    function Puts(n: nat): nat -> Put {
      (a: nat) => put(n, a)
    }

    function OthersDuring(n: nat): nat -> seq<Event> {
      (a: nat) => others(MAX_PART_NUMBER + 3 * n + a)
    }

    /** Nothing is aborted, every service answers, and some one of the three PUTs of each part gets through. */
    ghost predicate Fair() {
      && (forall k :: Calm(others(k)))
      && (forall k :: !pageFails(k) && !presignFails(k))
      && (forall n :: GetsThrough(Puts(n)))
      && !createFails && !createReplyLost && assembly == Done && !statFails && (contentType == "" || "video/" <= contentType)
      && !publishing.error && !completeReplyLost
    }
  }

  /** One of the three PUTs is stored, and none before it is aborted. */
  predicate GetsThrough(puts: nat -> Put) {
    || puts(0).Stored?
    || (puts(0).Failed? && puts(1).Stored?)
    || (puts(0).Failed? && puts(1).Failed? && puts(2).Stored?)
  }

  /** Complete accepts an object without a content type, or with a video one. */
  predicate VideoType(contentType: string) {
    contentType == "" || "video/" <= contentType
  }

  // ----- the handlers -----

  /** Create: a fresh video, hence a fresh key, with an empty session. */
  method Create(server: Server, file: seq<Byte>, fails: bool, replyLost: bool) returns (r: Option<VideoId>)
    requires server.Valid()
    modifies server`sessions, server`next, server`file
    ensures Later(server)
    ensures r == if fails || replyLost then None else Some(old(server.next))
    ensures fails ==> server.sessions == old(server.sessions) && server.file == old(server.file)
    ensures !fails ==>
              && server.next == old(server.next) + 1
              && server.sessions == old(server.sessions)[old(server.next) := map[]]
              && server.file == old(server.file)[old(server.next) := file]
  {
    if fails {
      return None;
    }
    var v := server.next;
    server.next := v + 1;
    server.sessions := server.sessions[v := map[]];
    server.file := server.file[v := file];
    return if replyLost then None else Some(v);
  }

  /** If everything was stored before the listing, what was listed is all of it, and it joins to the file. */
  lemma FullListing(file: seq<Byte>, chunk: nat, before: map<nat, seq<Byte>>, after: map<nat, seq<Byte>>, listed: seq<nat>)
    requires PartsOk(file, chunk, after)
    requires Ascending(listed)
    requires forall n :: n in listed ==> n in after
    requires forall n :: n in before ==> n in listed
    ensures AllStored(file, chunk, before) ==> Assemble(after, listed) == file && listed != []
  {
    if AllStored(file, chunk, before) {
      assert 1 in before;
      forall n ensures n in listed <==> n in after {
        if n in after {
          assert n in before;
        }
      }
      PartsRebuildTheFile(file, chunk, after, listed);
    }
  }

  /**
   Complete: list what is stored, assemble it, check the object, publish last.  `reached` says
   that it got as far as publishing; exactly then the event's copies are queued, and exactly
   then and when publishing answers without error the code is 200.  Whenever it got there with
   every part stored, the object is the file.
   */
  method Complete(server: Server, v: VideoId, weather: Weather) returns (code: nat, ghost reached: bool)
    requires server.Valid() && v < server.next
    modifies server
    ensures Later(server) && server.next == old(server.next)
    ensures server.queue == old(server.queue) + if reached then Events(v, weather.publishing) else []
    ensures code == 200 <==> reached && !weather.publishing.error
    ensures v !in old(server.sessions) ==> code == 404
    ensures code in {200, 400, 404, 500}
    ensures forall u :: u in old(server.objects) && u != v ==> u in server.objects && server.objects[u] == old(server.objects)[u]
    ensures reached ==> v in server.objects && server.objects[v] != [] && v !in server.sessions
    ensures reached ==> weather.contentType == "" || "video/" <= weather.contentType
    ensures reached ==> v in old(server.sessions)
    ensures reached && old(server.HoldsAll(v)) ==> server.objects[v] == server.file[v]
    ensures weather.Fair() && old(server.HoldsAll(v)) && old(server.file)[v] != [] ==> reached
  {
    if v !in server.sessions {
      return 404, false;
    }
    ghost var before := server.sessions[v];
    var listed := ListParts(server, v, weather);
    if listed.None? {
      return 500, false;
    }
    FullListing(server.file[v], server.Chunk(), before, server.sessions[v], listed.value);
    if listed.value == [] {
      return 400, false;
    }
    code, reached := Finish(server, v, listed.value, weather);
  }

  /** The half of Complete after the listing: assemble, stat, publish. */
  method Finish(server: Server, v: VideoId, listed: seq<nat>, weather: Weather) returns (code: nat, ghost reached: bool)
    requires server.Valid() && v in server.sessions
    requires forall n :: n in listed ==> n in server.sessions[v]
    modifies server`sessions, server`objects, server`queue
    ensures Later(server)
    ensures reached <==>
              && weather.assembly == Done && !weather.statFails && (weather.contentType == "" || "video/" <= weather.contentType)
              && Assemble(old(server.sessions)[v], listed) != []
    ensures code == if weather.assembly != Done then 500
                    else if weather.statFails then 404
                    else if !reached then 400
                    else if weather.publishing.error then 500 else 200
    ensures server.queue == old(server.queue) + if reached then Events(v, weather.publishing) else []
    ensures server.objects == if weather.assembly == Refused then old(server.objects)
                              else old(server.objects)[v := Assemble(old(server.sessions)[v], listed)]
    ensures server.sessions == if weather.assembly == Refused then old(server.sessions) else old(server.sessions) - {v}
  {
    if weather.assembly == Refused {
      return 500, false;
    }
    var assembled := Assemble(server.sessions[v], listed);
    server.objects := server.objects[v := assembled];
    server.sessions := server.sessions - {v};
    if weather.assembly == DoneButLost {
      return 500, false;
    }
    if weather.statFails {
      return 404, false;
    }
    if |assembled| == 0 || !VideoType(weather.contentType) {
      return 400, false;
    }
    server.queue := server.queue + Events(v, weather.publishing);
    return if weather.publishing.error then 500 else 200, true;
  }

  // ----- the browser -----

  /** localStorage: the video a file's upload is continued on. */
  class Browser {
    var remembered: Option<VideoId>

    constructor ()
      ensures remembered == None
    {
      remembered := None;
    }
  }

  /** What is remembered was created for this very file. */
  ghost predicate Remembers(browser: Browser, server: Server, file: seq<Byte>)
    reads browser, server
  {
    browser.remembered.Some? ==>
      browser.remembered.value in server.file && server.file[browser.remembered.value] == file
  }

  /** The remembered session still exists and has a part to show. */
  predicate Resumable(browser: Browser, server: Server)
    reads browser, server
  {
    browser.remembered.Some? && browser.remembered.value in server.sessions && server.sessions[browser.remembered.value] != map[]
  }

  datatype Session = Session(video: VideoId, known: set<nat>)

  /** An upload may go on from this session: it is for the file, and what is known to be stored is. */
  ghost predicate Continues(server: Server, session: Session, file: seq<Byte>)
    reads server
  {
    && session.video in server.file && server.file[session.video] == file
    && (forall n :: n in session.known ==> 1 <= n <= MAX_PART_NUMBER)
    && (session.video in server.sessions ==> forall n :: n in session.known ==> n in server.sessions[session.video])
  }

  /** Continue the remembered session.  One that lists no part at all is answered as null and given up like a missing one. */
  method Continue(server: Server, browser: Browser, file: seq<Byte>, weather: Weather) returns (r: Option<Session>)
    requires server.Valid() && Remembers(browser, server, file)
    modifies browser, server
    ensures Later(server) && Remembers(browser, server, file)
    ensures server.objects == old(server.objects) && server.queue == old(server.queue)
    ensures r.Some? ==> Continues(server, r.value, file) && Some(r.value.video) == browser.remembered == old(browser.remembered)
    ensures r.None? ==> browser.remembered == None
    ensures weather.Fair() && r.Some? ==> r.value.video in server.sessions
    ensures weather.Fair() && old(Resumable(browser, server)) ==>
              r.Some? && forall n :: n in old(server.sessions)[r.value.video] && weather.visible(n) ==> n in r.value.known
  {
    if browser.remembered.Some? {
      var v := browser.remembered.value;
      var listed := ListParts(server, v, weather);
      if listed.Some? && listed.value != [] {
        var known := set n | n in listed.value && weather.visible(n);
        return Some(Session(v, known));
      }
      browser.remembered := None;
    }
    return None;
  }

  /** The first half of uploadVideoMultipart: continue the remembered session or create one. */
  method OpenSession(server: Server, browser: Browser, file: seq<Byte>, weather: Weather) returns (r: Option<Session>)
    requires server.Valid() && Remembers(browser, server, file)
    modifies browser, server
    ensures Later(server) && Remembers(browser, server, file)
    ensures server.objects == old(server.objects) && server.queue == old(server.queue)
    ensures r.Some? ==> Continues(server, r.value, file)
    ensures r.Some? ==> browser.remembered == Some(r.value.video) || (weather.storageFull && browser.remembered == None)
    ensures r.None? ==> weather.createFails || weather.createReplyLost
    ensures weather.Fair() ==> r.Some? && r.value.video in server.sessions
    ensures weather.Fair() && old(Resumable(browser, server)) ==>
              && Some(r.value.video) == old(browser.remembered)
              && forall n :: n in old(server.sessions)[r.value.video] && weather.visible(n) ==> n in r.value.known
  {
    r := Continue(server, browser, file, weather);
    if r.Some? {
      return;
    }
    var created := Create(server, file, weather.createFails, weather.createReplyLost);
    if created.None? {
      return None;
    }
    if !weather.storageFull {
      browser.remembered := created;
    }
    return Some(Session(created.value, {}));
  }

  /** One PUT, after whatever the others did; on a session that is gone it fails. */
  method PutPart(server: Server, v: VideoId, n: nat, put: Put, others: seq<Event>) returns (r: Put)
    requires server.Valid() && server.Sendable(v, n)
    modifies server`sessions
    ensures Later(server)
    ensures Calm(others) ==> server.sessions.Keys == old(server.sessions.Keys)
    ensures r == if v in server.sessions || put.Aborted? then put else Failed(false)
    ensures r.Stored? ==> n in server.sessions[v]
  {
    server.Others(others);
    if put.Stored? || put.stored {
      server.Store(v, n);
    }
    return if v in server.sessions || put.Aborted? then put else Failed(false);
  }

  /** Up to three PUTs of one part.  A failed PUT may have been stored all the same. */
  method SendPart(server: Server, v: VideoId, n: nat, puts: nat -> Put, others: nat -> seq<Event>) returns (ok: bool, tries: nat)
    requires server.Valid() && server.Sendable(v, n)
    modifies server`sessions
    ensures Later(server)
    ensures ok && v in server.sessions ==> n in server.sessions[v]
    ensures 1 <= tries <= 3
    ensures if ok then puts(tries - 1).Stored? else tries == 3 || puts(tries - 1).Aborted?
    ensures (forall a :: Calm(others(a))) ==>
              && server.sessions.Keys == old(server.sessions.Keys)
              && (v in old(server.sessions) && GetsThrough(puts) ==> ok)
  {
    tries := 0;
    while tries < 3
      invariant 0 <= tries <= 3
      invariant Later(server)
      invariant (forall a :: Calm(others(a))) ==> server.sessions.Keys == old(server.sessions.Keys)
      invariant (forall a :: Calm(others(a))) && v in old(server.sessions) ==> forall a :: 0 <= a < tries ==> puts(a).Failed?
    {
      var put := PutPart(server, v, n, puts(tries), others(tries));
      tries := tries + 1;
      if put.Stored? || put.Aborted? {
        return put.Stored?, tries;
      }
    }
    return false, 3;
  }

  /** The bytes known to be stored before the first PUT. */
  method AlreadyUploaded(size: nat, chunk: nat, known: set<nat>) returns (uploadedBytes: int)
    requires chunk >= 1
    ensures uploadedBytes == BytesOf(size, chunk, known, PartCount(size, chunk))
  {
    uploadedBytes := 0;
    var n := 1;
    while n <= PartCount(size, chunk)
      invariant 1 <= n <= PartCount(size, chunk) + 1
      invariant uploadedBytes == BytesOf(size, chunk, known, n - 1)
    {
      if n in known {
        uploadedBytes := uploadedBytes + PartSize(size, chunk, n);
      }
      n := n + 1;
    }
  }

  /** The part loop: skip what is known, presign and PUT the rest.  When it gets through, every part is stored. */
  method SendParts(server: Server, session: Session, file: seq<Byte>, weather: Weather) returns (ok: bool, uploadedBytes: int)
    requires server.Valid() && Continues(server, session, file)
    modifies server`sessions
    ensures Later(server)
    ensures ok ==> uploadedBytes == |file| && PartCount(|file|, server.Chunk()) <= MAX_PART_NUMBER
    ensures ok && session.video in server.sessions ==> server.HoldsAll(session.video)
    ensures weather.Fair() ==> server.sessions.Keys == old(server.sessions.Keys)
    ensures weather.Fair() && session.video in old(server.sessions) && PartCount(|file|, server.Chunk()) <= MAX_PART_NUMBER ==> ok
  {
    var v := session.video;
    var chunk := server.Chunk();
    var totalParts := PartCount(|file|, chunk);
    uploadedBytes := AlreadyUploaded(|file|, chunk, session.known);
    var n := 1;
    ghost var stored := session.known;
    while n <= totalParts
      invariant 1 <= n <= totalParts + 1
      invariant Later(server)
      invariant forall m :: m in stored <==> m in session.known || 1 <= m < n
      invariant forall m :: m in stored ==> m <= MAX_PART_NUMBER
      invariant v in server.sessions ==> forall m :: m in stored ==> m in server.sessions[v]
      invariant uploadedBytes == BytesOf(|file|, chunk, stored, totalParts)
      invariant weather.Fair() ==> server.sessions.Keys == old(server.sessions.Keys)
    {
      if n !in session.known {
        if n > MAX_PART_NUMBER || v !in server.sessions || weather.presignFails(n) {
          return false, uploadedBytes;
        }
        var sent, _ := SendPart(server, v, n, weather.Puts(n), weather.OthersDuring(n));
        if !sent {
          return false, uploadedBytes;
        }
        PartShapes(file, chunk, n);
        OneMorePart(|file|, chunk, stored, n, totalParts);
        uploadedBytes := uploadedBytes + |Slice(file, chunk, n)|;
        stored := stored + {n};
      }
      n := n + 1;
    }
    SizesAddUp(|file|, chunk, stored, totalParts);
    assert totalParts in stored;
    return true, uploadedBytes;
  }

  /** A call that returned without error had reached the queue. */
  predicate Confirmed(p: Publishing) {
    !p.error ==> p.copies >= 1
  }

  /**
   uploadVideoMultipart.  `reached` is the video whose complete got as far as publishing.
   Whatever happened before and happens meanwhile, that video's object is the file byte for
   byte, and what this attempt queued is exactly the copies its publishing let through.  The
   client returns exactly when publishing answered without error and the reply arrived, and
   throws otherwise; so a throw leaves nothing queued exactly when complete did not get that
   far or no copy got through.  What the browser remembers stays this file's session, and after
   a throw it is there to continue, unless none was had or the storage is full.  The
   client does return whenever the services hold up, the file is not empty, and it has at
   most 10000 parts.
   */
  method UploadVideo(server: Server, browser: Browser, file: seq<Byte>, weather: Weather)
    returns (r: Option<VideoId>, ghost reached: Option<VideoId>)
    requires server.Valid() && Remembers(browser, server, file)
    modifies browser, server
    ensures Later(server) && Remembers(browser, server, file)
    ensures reached.Some? ==> reached.value in server.objects && server.objects[reached.value] == file
    ensures server.queue == old(server.queue) + if reached.Some? then Events(reached.value, weather.publishing) else []
    ensures r == if reached.Some? && !weather.publishing.error && !weather.completeReplyLost then reached else None
    ensures r.None? ==> (server.queue == old(server.queue) <==> reached.None? || weather.publishing.copies == 0)
    ensures r.Some? && Confirmed(weather.publishing) ==> r.value in server.queue[|old(server.queue)|..]
    ensures |server.queue| == |old(server.queue)| + if reached.Some? then weather.publishing.copies else 0
    ensures forall i :: |old(server.queue)| <= i < |server.queue| ==> Some(server.queue[i]) == reached
    ensures r.Some? ==> browser.remembered == None
    ensures r.None? ==> browser.remembered.Some? || weather.storageFull || weather.createFails || weather.createReplyLost
    ensures reached.Some? ==> file != [] && PartCount(|file|, server.Chunk()) <= 10000
    ensures reached.Some? ==> weather.contentType == "" || "video/" <= weather.contentType
    ensures weather.Fair() && file != [] && PartCount(|file|, server.Chunk()) <= 10000 ==> r.Some?
  {
    var session := OpenSession(server, browser, file, weather);
    if session.None? {
      return None, None;
    }
    ghost var queue := server.queue;
    var v := session.value.video;
    ghost var got: bool;
    var code: nat;
    code, got := SendAndComplete(server, session.value, file, weather);
    reached := if got then Some(v) else None;
    NewEvents(queue, v, weather.publishing);
    if code != 200 || weather.completeReplyLost {
      return None, reached;
    }
    browser.remembered := None;
    return Some(v), reached;
  }

  lemma NewEvents(queue: seq<VideoId>, v: VideoId, p: Publishing)
    ensures var longer := queue + Events(v, p);
            && (longer == queue <==> p.copies == 0)
            && (p.copies >= 1 ==> v in longer[|queue|..])
  {
    var longer := queue + Events(v, p);
    assert |longer| == |queue| + p.copies;
    assert longer[|queue|..] == Events(v, p);
    assert p.copies >= 1 ==> Events(v, p)[0] == v;
  }

  method SendAndComplete(server: Server, session: Session, file: seq<Byte>, weather: Weather)
    returns (code: nat, ghost reached: bool)
    requires server.Valid() && Continues(server, session, file)
    modifies server
    ensures Later(server)
    ensures server.queue == old(server.queue) + if reached then Events(session.video, weather.publishing) else []
    ensures reached ==> weather.contentType == "" || "video/" <= weather.contentType
    ensures code == 200 <==> reached && !weather.publishing.error
    ensures reached ==> session.video in server.objects && server.objects[session.video] == file && file != []
    ensures reached ==> PartCount(|file|, server.Chunk()) <= MAX_PART_NUMBER
    ensures (weather.Fair() && session.video in old(server.sessions)
             && file != [] && PartCount(|file|, server.Chunk()) <= MAX_PART_NUMBER) ==> reached
  {
    var v := session.video;
    var ok, uploadedBytes := SendParts(server, session, file, weather);
    if !ok {
      return 0, false;
    }
    server.Others(weather.others(4 * MAX_PART_NUMBER + 3));
    assert v in server.sessions ==> server.HoldsAll(v);
    code, reached := Complete(server, v, weather);
  }
}

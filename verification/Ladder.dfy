/**
 The transcoder's adaptive ladder: which rungs a probe selects, the order they
 are encoded in, and the rendition entry each one is reported with.
 */
module Ladder {
  import opened Common
  import opened VideoTable

  /** RENDITIONS_SPEC, with the entry process_message builds for each rung. */
  function Entry(v: VideoId, q: Quality): Rendition {
    var key := RenditionObject(v, q);
    match q
    case P360 => Rendition(q, 800, 640, 360, key)
    case P720 => Rendition(q, 2500, 1280, 720, key)
    case P1080 => Rendition(q, 5000, 1920, 1080, key)
    case Other(_) => Rendition(q, 0, 0, 0, key)
  }

  /** _height_from_probe: an integer height in 100..5000, or nothing. */
  function UsableHeight(height: Option<int>): Option<int> {
    if height.Some? && 100 <= height.value <= 5000 then height else None
  }

  /** select_ladder: never upscale; an unknown height gets every rung. */
  function SelectLadder(height: Option<int>): seq<Quality> {
    var h := UsableHeight(height);
    if h.None? then [P360, P720, P1080]
    else if h.value < 720 then [P360]
    else if h.value < 1080 then [P360, P720]
    else [P360, P720, P1080]
  }

  function Rank(q: Quality): nat {
    match q
    case P720 => 0
    case P360 => 1
    case P1080 => 2
    case Other(_) => 99
  }

  function InsertByRank(q: Quality, qs: seq<Quality>): seq<Quality> {
    if qs == [] || Rank(q) <= Rank(qs[0]) then [q] + qs
    else [qs[0]] + InsertByRank(q, qs[1..])
  }

  /** _ordered_for_transcode: a stable sort with 720p first. */
  function Ordered(qs: seq<Quality>): seq<Quality> {
    if qs == [] then [] else InsertByRank(qs[0], Ordered(qs[1..]))
  }

  function Entries(v: VideoId, qs: seq<Quality>): (es: seq<Rendition>)
    ensures |es| == |qs|
    ensures forall i :: 0 <= i < |qs| ==> es[i] == Entry(v, qs[i])
  {
    seq(|qs|, i requires 0 <= i < |qs| => Entry(v, qs[i]))
  }

  /** The entries one attempt produces, in encoding order. */
  function LadderFor(v: VideoId, height: Option<int>): seq<Rendition> {
    Entries(v, Ordered(SelectLadder(height)))
  }

  /** What an attempt on v may report as its complete ladder. */
  ghost predicate IsLadder(v: VideoId, es: seq<Rendition>) {
    exists height: Option<int> :: es == LadderFor(v, height)
  }

  /** An entry the transcoder could have built for v. */
  predicate WellMade(v: VideoId, rn: Rendition) {
    !rn.quality.Other? && rn == Entry(v, rn.quality)
  }

  /**
   Every probe yields one of three ladders, each in the order 720p, 360p, 1080p.  A height of
   100..5000 gets the rungs at or below it, and 360p in any case; any other probe gets all three.
   */
  lemma LadderShapes(v: VideoId, height: Option<int>)
    ensures || LadderFor(v, height) == [Entry(v, P360)]
            || LadderFor(v, height) == [Entry(v, P720), Entry(v, P360)]
            || LadderFor(v, height) == [Entry(v, P720), Entry(v, P360), Entry(v, P1080)]
    ensures forall i :: 0 <= i < |LadderFor(v, height)| ==> WellMade(v, LadderFor(v, height)[i])
    ensures forall h :: height == Some(h) && 100 <= h <= 5000 ==>
              forall q :: q in {P360, P720, P1080} ==> (Entry(v, q) in LadderFor(v, height) <==> q == P360 || Entry(v, q).height <= h)
    ensures !(height.Some? && 100 <= height.value <= 5000) ==>
              LadderFor(v, height) == [Entry(v, P720), Entry(v, P360), Entry(v, P1080)]
    ensures Entry(v, P360) == Rendition(P360, 800, 640, 360, RenditionObject(v, P360))
    ensures Entry(v, P720) == Rendition(P720, 2500, 1280, 720, RenditionObject(v, P720))
    ensures Entry(v, P1080) == Rendition(P1080, 5000, 1920, 1080, RenditionObject(v, P1080))
  {
    var qs := SelectLadder(height);
    if qs == [P360] {
      assert Ordered([P360]) == [P360];
    } else if qs == [P360, P720] {
      assert qs[1..] == [P720] && Ordered([P720]) == [P720];
      assert [P720][1..] == [] && InsertByRank(P360, []) == [P360];
      assert Ordered(qs) == InsertByRank(P360, [P720]) == [P720] + [P360] == [P720, P360];
      assert Entries(v, [P720, P360]) == [Entry(v, P720), Entry(v, P360)];
    } else {
      assert qs[1..] == [P720, P1080] && qs[1..][1..] == [P1080];
      assert Ordered([P1080]) == [P1080];
      assert Ordered(qs[1..]) == InsertByRank(P720, [P1080]) == [P720, P1080];
      assert [P720, P1080][1..] == [P1080];
      assert InsertByRank(P360, [P1080]) == [P360, P1080];
      assert Ordered(qs) == [P720] + [P360, P1080] == [P720, P360, P1080];
      assert Entries(v, [P720, P360, P1080]) == [Entry(v, P720), Entry(v, P360), Entry(v, P1080)];
    }
  }
}

/**
 The arithmetic of a multipart upload, and why a full set of parts is the file.
 */
module Multipart {
  import opened Common

  type Byte = x: int | 0 <= x < 256

  /** The client's fallback chunk size, and what the server announces: 8 MiB. */
  const MULTIPART_CHUNK_SIZE: nat := 8 * 1024 * 1024

  /** S3 takes part numbers 1..10000. */
  const MAX_PART_NUMBER: nat := 10000

  // ----- part arithmetic -----

  function CeilDiv(a: nat, b: nat): nat
    requires b >= 1
  {
    (a + b - 1) / b
  }

  /** totalParts: at least one part, also for an empty file. */
  function PartCount(size: nat, chunk: nat): nat
    requires chunk >= 1
  {
    Max(1, CeilDiv(size, chunk))
  }

  /** partSize: the last part takes what is left. */
  function PartSize(size: nat, chunk: nat, n: nat): int
    requires chunk >= 1
  {
    if n == PartCount(size, chunk) then size - (PartCount(size, chunk) - 1) * chunk else chunk
  }

  /** Blob.slice clamps both ends to the file. */
  function BlobSlice(file: seq<Byte>, start: int, end: int): seq<Byte> {
    var a := Max(0, Min(start, |file|));
    var b := Max(a, Min(end, |file|));
    file[a..b]
  }

  /** The bytes the client sends as part n. */
  function Slice(file: seq<Byte>, chunk: nat, n: nat): seq<Byte>
    requires chunk >= 1 && n >= 1
  {
    var start := (n - 1) * chunk;
    BlobSlice(file, start, start + PartSize(|file|, chunk, n))
  }

  lemma PartBounds(size: nat, chunk: nat)
    requires chunk >= 1
    ensures (PartCount(size, chunk) - 1) * chunk <= size <= PartCount(size, chunk) * chunk
    ensures size > 0 ==> (PartCount(size, chunk) - 1) * chunk < size
  {
  }

  lemma Ordered(a: int, b: int, chunk: nat)
    requires a <= b
    ensures a * chunk <= b * chunk
  {
  }

  /** Part n covers the bytes from (n-1)*chunk up to n*chunk, or up to the end for the last one. */
  lemma PartRange(size: nat, chunk: nat, n: nat)
    requires chunk >= 1 && 1 <= n <= PartCount(size, chunk)
    ensures 0 <= (n - 1) * chunk <= size
    ensures (n - 1) * chunk + PartSize(size, chunk, n) == if n == PartCount(size, chunk) then size else n * chunk
    ensures n < PartCount(size, chunk) ==> n * chunk <= size
    ensures 0 <= PartSize(size, chunk, n) <= chunk
    ensures PartSize(size, chunk, n) == 0 <==> size == 0
  {
    var total := PartCount(size, chunk);
    PartBounds(size, chunk);
    Ordered(0, n - 1, chunk);
    assert n * chunk == (n - 1) * chunk + chunk;
    if n < total {
      Ordered(n, total - 1, chunk);
    }
  }

  /** Every part but the last is a full chunk; the last holds at most one, and is empty only for an empty file. */
  lemma PartShapes(file: seq<Byte>, chunk: nat, n: nat)
    requires chunk >= 1 && 1 <= n <= PartCount(|file|, chunk)
    ensures |Slice(file, chunk, n)| == PartSize(|file|, chunk, n)
    ensures n < PartCount(|file|, chunk) ==> |Slice(file, chunk, n)| == chunk
    ensures |Slice(file, chunk, n)| <= chunk
    ensures |Slice(file, chunk, n)| == 0 <==> file == []
  {
    PartRange(|file|, chunk, n);
    ClampedSlice(file, (n - 1) * chunk, (n - 1) * chunk + PartSize(|file|, chunk, n));
  }

  lemma ClampedSlice(file: seq<Byte>, start: int, end: int)
    requires 0 <= start <= end <= |file|
    ensures BlobSlice(file, start, end) == file[start..end]
  {
  }

  lemma AppendSlice(file: seq<Byte>, start: int, end: int)
    requires 0 <= start <= end <= |file|
    ensures file[..start] + BlobSlice(file, start, end) == file[..end]
    ensures end == |file| ==> file[..end] == file
  {
  }

  /** The first k parts, one after another. */
  function Joined(file: seq<Byte>, chunk: nat, k: nat): seq<Byte>
    requires chunk >= 1
  {
    if k == 0 then [] else Joined(file, chunk, k - 1) + Slice(file, chunk, k)
  }

  lemma {:induction false} JoinedIsAPrefix(file: seq<Byte>, chunk: nat, k: nat)
    requires chunk >= 1 && k <= PartCount(|file|, chunk)
    ensures k < PartCount(|file|, chunk) ==> k * chunk <= |file| && Joined(file, chunk, k) == file[..k * chunk]
    ensures k == PartCount(|file|, chunk) ==> Joined(file, chunk, k) == file
  {
    if k > 0 {
      JoinedIsAPrefix(file, chunk, k - 1);
      PartRange(|file|, chunk, k);
      AppendSlice(file, (k - 1) * chunk, (k - 1) * chunk + PartSize(|file|, chunk, k));
    }
  }

  // ----- what a session stores -----

  /** Every stored part is the file's own slice of that number. */
  ghost predicate PartsOk(file: seq<Byte>, chunk: nat, parts: map<nat, seq<Byte>>) {
    && chunk >= 1
    && forall n :: n in parts ==> 1 <= n <= PartCount(|file|, chunk) && n <= MAX_PART_NUMBER && parts[n] == Slice(file, chunk, n)
  }

  ghost predicate AllStored(file: seq<Byte>, chunk: nat, parts: map<nat, seq<Byte>>)
    requires chunk >= 1
  {
    forall n :: 1 <= n <= PartCount(|file|, chunk) ==> n in parts
  }

  predicate Ascending(ns: seq<nat>) {
    forall i, j :: 0 <= i < j < |ns| ==> ns[i] < ns[j]
  }

  /** CompleteMultipartUpload: the named parts in the order given. */
  function Assemble(parts: map<nat, seq<Byte>>, numbers: seq<nat>): seq<Byte>
    requires forall n :: n in numbers ==> n in parts
  {
    if numbers == [] then []
    else
      var last := |numbers| - 1;
      Assemble(parts, numbers[..last]) + parts[numbers[last]]
  }

  /** An ascending listing of all of 1..total is 1, 2, ..., total. */
  lemma {:induction false} ListingOfAll(ns: seq<nat>, total: nat)
    requires Ascending(ns)
    requires forall n :: n in ns <==> 1 <= n <= total
    ensures |ns| == total
    ensures forall i :: 0 <= i < |ns| ==> ns[i] == i + 1
  {
    if ns == [] {
      assert total !in ns;
    } else {
      var last := |ns| - 1;
      assert ns[last] in ns;
      assert total in ns;
      assert forall i :: 0 <= i < |ns| ==> ns[i] in ns;
      assert ns[last] == total;
      forall n ensures n in ns[..last] <==> 1 <= n <= total - 1 {
        if 1 <= n <= total - 1 {
          assert n in ns;
        }
      }
      ListingOfAll(ns[..last], total - 1);
      assert forall i :: 0 <= i < last ==> ns[i] == ns[..last][i];
    }
  }

  lemma {:induction false} AssembleIsJoined(file: seq<Byte>, chunk: nat, parts: map<nat, seq<Byte>>, ns: seq<nat>)
    requires PartsOk(file, chunk, parts)
    requires forall n :: n in ns ==> n in parts
    requires forall i :: 0 <= i < |ns| ==> ns[i] == i + 1
    ensures Assemble(parts, ns) == Joined(file, chunk, |ns|)
  {
    if ns != [] {
      var last := |ns| - 1;
      AssembleIsJoined(file, chunk, parts, ns[..last]);
      assert ns[last] in ns;
    }
  }

  /**
   Reassembly: when a session of sound parts holds every part, they are exactly 1..N with
   N = max(1, ceil(size / chunk)), an ascending listing is 1, 2, ..., N, all but the last
   are full chunks, and joining them in listed order gives the file byte for byte.
   */
  lemma PartsRebuildTheFile(file: seq<Byte>, chunk: nat, parts: map<nat, seq<Byte>>, listed: seq<nat>)
    requires PartsOk(file, chunk, parts) && AllStored(file, chunk, parts)
    requires Ascending(listed) && forall n :: n in listed <==> n in parts
    ensures |listed| == PartCount(|file|, chunk) <= MAX_PART_NUMBER
    ensures forall i :: 0 <= i < |listed| ==> listed[i] == i + 1
    ensures forall n :: n in parts && n < PartCount(|file|, chunk) ==> |parts[n]| == chunk
    ensures Assemble(parts, listed) == file
  {
    var total := PartCount(|file|, chunk);
    assert total in parts;
    ListingOfAll(listed, total);
    AssembleIsJoined(file, chunk, parts, listed);
    JoinedIsAPrefix(file, chunk, total);
    forall n | n in parts && n < total ensures |parts[n]| == chunk {
      PartShapes(file, chunk, n);
    }
  }

  // ----- progress accounting -----

  /** Bytes of those parts among 1..k that satisfy p. */
  function BytesOf(size: nat, chunk: nat, p: set<nat>, k: nat): int
    requires chunk >= 1
  {
    if k == 0 then 0
    else BytesOf(size, chunk, p, k - 1) + if k in p then PartSize(size, chunk, k) else 0
  }

  /** The part sizes add up to the file size. */
  lemma {:induction false} SizesAddUp(size: nat, chunk: nat, p: set<nat>, k: nat)
    requires chunk >= 1 && k <= PartCount(size, chunk)
    requires forall n :: 1 <= n <= k ==> n in p
    ensures BytesOf(size, chunk, p, k) == if k == PartCount(size, chunk) then size else k * chunk
  {
    PartBounds(size, chunk);
    if k > 0 {
      SizesAddUp(size, chunk, p, k - 1);
      assert k * chunk == (k - 1) * chunk + chunk;
    }
  }

  /** Adding part n to the set adds its size once. */
  lemma {:induction false} OneMorePart(size: nat, chunk: nat, p: set<nat>, n: nat, k: nat)
    requires chunk >= 1 && n !in p
    ensures BytesOf(size, chunk, p + {n}, k) == BytesOf(size, chunk, p, k) + if 1 <= n <= k then PartSize(size, chunk, n) else 0
  {
    if k > 0 {
      OneMorePart(size, chunk, p, n, k - 1);
    }
  }
}

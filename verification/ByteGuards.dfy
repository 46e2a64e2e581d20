/** The two byte limits: the upload's read loop and the download's limited reader. */
module ByteGuards {
  import opened Wrappers

  type byte = b: int | 0 <= b < 256
  type Bytes = seq<byte>

  const MAX_INT64: int := 0x7FFF_FFFF_FFFF_FFFF
  const CHUNK: nat := 0x8000
  const SLACK: nat := 0x10_0000

  // int64 arithmetic wraps around.
  function Wrap64(n: int): int {
    (n + 0x8000_0000_0000_0000) % 0x1_0000_0000_0000_0000 - 0x8000_0000_0000_0000
  }

  function Flatten(chunks: seq<Bytes>): Bytes {
    if chunks == [] then [] else Flatten(chunks[..|chunks| - 1]) + chunks[|chunks| - 1]
  }

  lemma FlattenGrows(chunks: seq<Bytes>, i: nat)
    requires i < |chunks|
    ensures Flatten(chunks[..i + 1]) == Flatten(chunks[..i]) + chunks[i]
  {
    assert chunks[..i + 1][..i] == chunks[..i];
  }

  lemma {:induction false} FlattenPrefix(chunks: seq<Bytes>, i: nat)
    requires i <= |chunks|
    ensures Flatten(chunks[..i]) <= Flatten(chunks)
    decreases |chunks| - i
  {
    if i < |chunks| {
      FlattenGrows(chunks, i);
      FlattenPrefix(chunks, i + 1);
    } else {
      assert chunks[..i] == chunks;
    }
  }

  datatype Guarded = Accepted(data: Bytes) | TooLarge

  /** What both guards are for: a body is accepted, whole and unchanged, exactly when it is not
      longer than the limit. */
  function Guard(body: Bytes, limit: int): Guarded {
    if |body| <= limit then Accepted(body) else TooLarge
  }

  // MaxBytesReader treats a negative cap as zero.
  function Cap(limit: int): int {
    var n := Wrap64(limit + SLACK);
    if n < 0 then 0 else n
  }

  // What an upload of `body` with `framing` bytes around it comes to.
  function UploadSpec(body: Bytes, framing: nat, limit: int): Guarded {
    if framing + |body| > Cap(limit) then TooLarge else Guard(body, limit)
  }

  /** The upload: the whole form, file and `framing` bytes around it, must fit the form's cap; a
      `declared` size over the limit is refused; then the file is read in chunks of at most 32 KiB
      and measured, whatever was declared. `peak` is the most content the buffer held. */
  method Upload(chunks: seq<Bytes>, declared: nat, framing: nat, limit: int) returns (r: Guarded, peak: nat)
    requires 1 <= limit <= MAX_INT64
    requires forall i :: 0 <= i < |chunks| ==> |chunks[i]| <= CHUNK
    ensures framing + |Flatten(chunks)| <= Cap(limit) && declared <= limit ==> r == Guard(Flatten(chunks), limit)
    ensures framing + |Flatten(chunks)| > Cap(limit) || declared > limit ==> r == TooLarge
    ensures declared == |Flatten(chunks)| ==> r == UploadSpec(Flatten(chunks), framing, limit)
    ensures peak <= limit + CHUNK
  {
    peak := 0;
    if framing + |Flatten(chunks)| > Cap(limit) || declared > limit {
      return TooLarge, 0;
    }
    var data: Bytes := [];
    var i := 0;
    while i < |chunks|
      invariant 0 <= i <= |chunks| && data == Flatten(chunks[..i])
      invariant |data| <= limit && |data| <= peak <= limit + CHUNK
    {
      FlattenGrows(chunks, i);
      FlattenPrefix(chunks, i + 1);
      data := data + chunks[i];
      peak := if |data| > peak then |data| else peak;
      if |data| > limit {
        return TooLarge, peak;
      }
      i := i + 1;
    }
    assert chunks[..|chunks|] == chunks;
    r := Accepted(data);
  }

  // What the limited reader lets through.
  function Limited(body: Bytes, budget: int): Bytes {
    if budget <= 0 then [] else if |body| <= budget then body else body[..budget]
  }

  // What a download of `body` comes to when no length over the limit is advertised.
  function DownloadSpec(body: Bytes, limit: int): Guarded {
    var kept := Limited(body, Wrap64(limit + 1));
    if |kept| > limit then TooLarge else Accepted(kept)
  }

  /** The download: an advertised length over the limit is refused; otherwise a reader limited to
      limit + 1 bytes is read to its end, so a length that is absent or too small changes nothing.
      The server's own chunking is arbitrary. */
  method Download(chunks: seq<Bytes>, advertised: Option<nat>, limit: int) returns (r: Guarded, kept: nat)
    requires 1 <= limit <= MAX_INT64
    ensures r == if advertised.Some? && advertised.value > limit then TooLarge else DownloadSpec(Flatten(chunks), limit)
    ensures kept <= limit + 1
  {
    kept := 0;
    if advertised.Some? && advertised.value > limit {
      return TooLarge, 0;
    }
    var budget := Wrap64(limit + 1);
    var data: Bytes := [];
    var i := 0;
    while i < |chunks| && |data| < budget
      invariant 0 <= i <= |chunks|
      invariant data == Limited(Flatten(chunks[..i]), budget)
    {
      FlattenGrows(chunks, i);
      var room := budget - |data|;
      data := data + (if |chunks[i]| <= room then chunks[i] else chunks[i][..room]);
      i := i + 1;
    }
    kept := |data|;
    FlattenPrefix(chunks, i);
    assert chunks[..|chunks|] == chunks;
    if |data| > limit {
      return TooLarge, kept;
    }
    r := Accepted(data);
  }

  ghost predicate DownloadIsGuard(limit: int) {
    forall body :: DownloadSpec(body, limit) == Guard(body, limit)
  }

  /** The limited reader computes the guard, for all bodies, exactly when the limit leaves room for
      one more byte: at the largest int64 its budget wraps around and every body comes out empty. */
  lemma DownloadIsGuardIff(limit: int)
    requires 1 <= limit <= MAX_INT64
    ensures DownloadIsGuard(limit) <==> limit < MAX_INT64
    ensures limit == MAX_INT64 ==> forall body :: DownloadSpec(body, limit) == Accepted([])
  {
    if limit == MAX_INT64 {
      assert DownloadSpec(Zeros(1), limit) != Guard(Zeros(1), limit);
    }
  }

  ghost predicate UploadIsGuard(framing: nat, limit: int) {
    forall body :: UploadSpec(body, framing, limit) == Guard(body, limit)
  }

  function Zeros(n: nat): (b: Bytes)
    ensures |b| == n
  {
    seq(n, _ => 0)
  }

  /** The form's cap takes nothing away from the guard, for all bodies, exactly when the framing
      fits the extra mebibyte and adding that to the limit does not overflow. */
  lemma UploadIsGuardIff(framing: nat, limit: int)
    requires 1 <= limit <= MAX_INT64
    ensures UploadIsGuard(framing, limit) <==> framing <= SLACK && limit + SLACK <= MAX_INT64
  {
    if framing <= SLACK && limit + SLACK <= MAX_INT64 {
      assert Cap(limit) == limit + SLACK;
    } else {
      var body := Zeros(limit);
      assert framing + |body| > Cap(limit);
      assert UploadSpec(body, framing, limit) != Guard(body, limit);
    }
  }

  /** Both ways in apply one guard: for every body, however it is cut into chunks, an upload with an
      exact size and a download with no length or the exact one come to the same. */
  lemma GuardsAgree(framing: nat, limit: int)
    requires 1 <= limit && framing <= SLACK && limit + SLACK <= MAX_INT64
    ensures forall body :: UploadSpec(body, framing, limit) == DownloadSpec(body, limit) == Guard(body, limit)
  {
    UploadIsGuardIff(framing, limit);
    DownloadIsGuardIff(limit);
  }
}

/**
 * The read loop of ca_worker_process in assignment1: a file arrives in chunks of at most 4096
 * bytes and is copied into a 60 MiB buffer, skipping every chunk that would reach its end.
 */
module Accumulator {
  type byte = bv8

  const BUFFER := 4096
  const LIMIT := 60 * 1024 * 1024

  /** What read returns: chunks of 1 to 4096 bytes, then nothing. */
  predicate Chunks(chunks: seq<seq<byte>>) {
    forall k | 0 <= k < |chunks| :: 1 <= |chunks[k]| <= BUFFER
  }

  function File(chunks: seq<seq<byte>>): seq<byte> {
    if chunks == [] then [] else File(chunks[..|chunks| - 1]) + chunks[|chunks| - 1]
  }

  /** What accum holds up to pos after the chunks. */
  function Kept(chunks: seq<seq<byte>>): seq<byte> {
    if chunks == [] then [] else
    var kept, last := Kept(chunks[..|chunks| - 1]), chunks[|chunks| - 1];
    if |kept| + |last| < LIMIT then kept + last else kept
  }

  /** How many chunks come before the first one skipped. */
  function Untouched(chunks: seq<seq<byte>>): (n: nat)
    ensures n <= |chunks|
  {
    if chunks == [] then 0 else
    var init := chunks[..|chunks| - 1];
    if Untouched(init) == |init| && |Kept(init)| + |chunks[|init|]| < LIMIT then |chunks| else Untouched(init)
  }

  /** Before the first skip everything is kept; after it the buffer is within 4096 bytes of full
      and keeps that part of the file in front of whatever it still accepts. */
  lemma {:induction false} KeptStartsWithFile(chunks: seq<seq<byte>>)
    requires Chunks(chunks)
    ensures |Kept(chunks)| < LIMIT
    ensures File(chunks[..Untouched(chunks)]) <= Kept(chunks)
    ensures Untouched(chunks) == |chunks| ==> Kept(chunks) == File(chunks)
    ensures Untouched(chunks) < |chunks| ==> LIMIT - BUFFER <= |File(chunks[..Untouched(chunks)])|
  {
    if chunks == [] {
      assert chunks[..0] == [];
    } else {
      var init := chunks[..|chunks| - 1];
      KeptStartsWithFile(init);
      var n := Untouched(chunks);
      if n == |chunks| {
        assert chunks[..n] == chunks;
      } else {
        assert n == Untouched(init) && chunks[..n] == init[..n];
        if n == |init| {
          assert init[..n] == init;
        }
      }
    }
  }

  /** A longer run reads a longer file. */
  lemma {:induction false} FilePrefix(chunks: seq<seq<byte>>, n: nat)
    requires n <= |chunks|
    ensures File(chunks[..n]) <= File(chunks)
  {
    if n == |chunks| {
      assert chunks[..n] == chunks;
    } else {
      var init := chunks[..|chunks| - 1];
      FilePrefix(init, n);
      assert init[..n] == chunks[..n];
    }
  }

  /** For every split of every file: pos stays below 60 MiB; a file that is shorter is kept
      exactly; otherwise pos ends in the last 4096 bytes and the first 60 MiB - 4096 bytes kept
      are those of the file. */
  lemma {:induction false} Accumulated(chunks: seq<seq<byte>>)
    requires forall k | 0 <= k < |chunks| :: 1 <= |chunks[k]| <= 4096
    ensures |Kept(chunks)| < 62_914_560
    ensures |File(chunks)| < 62_914_560 ==> Kept(chunks) == File(chunks)
    ensures |File(chunks)| >= 62_914_560 ==>
              62_910_464 <= |Kept(chunks)| && Kept(chunks)[..62_910_464] == File(chunks)[..62_910_464]
  {
    KeptStartsWithFile(chunks);
    FilePrefix(chunks, Untouched(chunks));
    var first := File(chunks[..Untouched(chunks)]);
    if Untouched(chunks) < |chunks| {
      SkipMeansLong(chunks);
      assert Kept(chunks)[..LIMIT - BUFFER] == first[..LIMIT - BUFFER] == File(chunks)[..LIMIT - BUFFER];
    }
  }

  lemma {:induction false} NothingSkipped(chunks: seq<seq<byte>>)
    requires Untouched(chunks) == |chunks|
    ensures Kept(chunks) == File(chunks)
  {
    if chunks != [] {
      NothingSkipped(chunks[..|chunks| - 1]);
    }
  }

  /** A skipped chunk reaches the limit, so the file does. */
  lemma {:induction false} SkipMeansLong(chunks: seq<seq<byte>>)
    requires Untouched(chunks) < |chunks|
    ensures |File(chunks)| >= LIMIT
  {
    var init := chunks[..|chunks| - 1];
    if Untouched(init) < |init| {
      SkipMeansLong(init);
    } else {
      NothingSkipped(init);
    }
  }

  // ---- when what is kept is a prefix of the file ----

  /** The chunk at k would fit behind what was kept before the first skip. */
  predicate Fits(chunks: seq<seq<byte>>, k: nat)
    requires k < |chunks|
  {
    |File(chunks[..Untouched(chunks)])| + |chunks[k]| < LIMIT
  }

  /** No chunk from the first skipped one on fits: a matter of lengths alone. */
  predicate NothingFitsLater(chunks: seq<seq<byte>>) {
    forall k | Untouched(chunks) <= k < |chunks| :: !Fits(chunks, k)
  }

  predicate SameLengths(a: seq<seq<byte>>, b: seq<seq<byte>>) {
    |a| == |b| && forall k | 0 <= k < |a| :: |a[k]| == |b[k]|
  }

  lemma {:induction false} LengthsDecide(a: seq<seq<byte>>, b: seq<seq<byte>>)
    requires SameLengths(a, b)
    ensures |File(a)| == |File(b)| && |Kept(a)| == |Kept(b)| && Untouched(a) == Untouched(b)
  {
    if a != [] {
      LengthsDecide(a[..|a| - 1], b[..|b| - 1]);
    }
  }

  lemma LengthsDecideFits(a: seq<seq<byte>>, b: seq<seq<byte>>)
    requires SameLengths(a, b)
    ensures forall k | 0 <= k < |a| :: Fits(a, k) == Fits(b, k)
  {
    LengthsDecide(a, b);
    LengthsDecide(a[..Untouched(a)], b[..Untouched(b)]);
  }

  lemma {:induction false} UntouchedPrefix(chunks: seq<seq<byte>>, k: nat)
    requires Untouched(chunks) < k <= |chunks|
    ensures Untouched(chunks[..k]) == Untouched(chunks) && chunks[..k][..Untouched(chunks)] == chunks[..Untouched(chunks)]
  {
    if k == |chunks| {
      assert chunks[..k] == chunks;
    } else {
      var init := chunks[..|chunks| - 1];
      assert init[..k] == chunks[..k];
      UntouchedPrefix(init, k);
    }
  }

  /** If nothing fits later, what is kept is what came before the first skip. */
  lemma {:induction false} KeptStops(chunks: seq<seq<byte>>)
    requires NothingFitsLater(chunks)
    ensures Kept(chunks) == File(chunks[..Untouched(chunks)])
  {
    var n := Untouched(chunks);
    if n == |chunks| {
      assert chunks[..n] == chunks;
      NothingSkipped(chunks);
    } else {
      var init := chunks[..|chunks| - 1];
      assert Untouched(init) == n && init[..n] == chunks[..n];
      assert forall k | n <= k < |init| :: Fits(init, k) == Fits(chunks, k);
      KeptStops(init);
      assert !Fits(chunks, |init|);
    }
  }

  lemma {:induction false} FirstSkipIsLong(chunks: seq<seq<byte>>)
    requires Untouched(chunks) < |chunks|
    ensures !Fits(chunks, Untouched(chunks))
  {
    var n, init := Untouched(chunks), chunks[..|chunks| - 1];
    assert Untouched(init) == n && init[..n] == chunks[..n];
    if n < |init| {
      FirstSkipIsLong(init);
    } else {
      NothingSkipped(init);
      assert init[..n] == init;
    }
  }

  lemma {:induction false} KeptGrows(chunks: seq<seq<byte>>, k: nat)
    requires k <= |chunks|
    ensures Kept(chunks[..k]) <= Kept(chunks)
  {
    if k == |chunks| {
      assert chunks[..k] == chunks;
    } else {
      var init := chunks[..|chunks| - 1];
      KeptGrows(init, k);
      assert init[..k] == chunks[..k];
    }
  }

  /** Zeros everywhere but in the chunk at k, with the lengths of the chunks given. */
  function Marked(chunks: seq<seq<byte>>, k: nat): (w: seq<seq<byte>>)
    ensures SameLengths(chunks, w)
    ensures forall j, i | 0 <= j < |w| && 0 <= i < |w[j]| :: w[j][i] == if j == k then 1 else 0
  {
    seq(|chunks|, j requires 0 <= j < |chunks| => seq(|chunks[j]|, _ => if j == k then 1 else 0))
  }

  lemma KeptAppend(chunks: seq<seq<byte>>, last: seq<byte>)
    requires |Kept(chunks)| + |last| < LIMIT
    ensures Kept(chunks + [last]) == Kept(chunks) + last
  {
    assert (chunks + [last])[..|chunks|] == chunks;
  }

  lemma AppendedStays(w: seq<seq<byte>>, k: nat)
    requires k < |w| && |Kept(w[..k])| + |w[k]| < LIMIT
    ensures Kept(w[..k]) + w[k] <= Kept(w)
  {
    KeptAppend(w[..k], w[k]);
    assert w[..k + 1] == w[..k] + [w[k]];
    KeptGrows(w, k + 1);
  }

  lemma FitsPrefix(w: seq<seq<byte>>, k: nat)
    requires Untouched(w) < k <= |w| && forall j | Untouched(w) <= j < k :: !Fits(w, j)
    ensures Kept(w[..k]) == File(w[..Untouched(w)])
  {
    UntouchedPrefix(w, k);
    assert forall j | Untouched(w) <= j < k :: Fits(w[..k], j) == Fits(w, j);
    KeptStops(w[..k]);
  }

  /** The first chunk that fits after the skip is put behind what was kept before it... */
  lemma FirstFitKept(w: seq<seq<byte>>, k: nat)
    requires Untouched(w) < k < |w| && Fits(w, k)
    requires forall j | Untouched(w) <= j < k :: !Fits(w, j)
    ensures File(w[..Untouched(w)]) + w[k] <= Kept(w)
  {
    FitsPrefix(w, k);
    AppendedStays(w, k);
  }

  /** ... where the file has the skipped one. */
  lemma SkippedInFile(w: seq<seq<byte>>, n: nat)
    requires n < |w|
    ensures File(w[..n]) + w[n] <= File(w)
  {
    assert w[..n + 1][..n] == w[..n];
    FilePrefix(w, n + 1);
  }

  /** So if the two differ at their start, no prefix is kept. */
  lemma FirstFitShows(w: seq<seq<byte>>, k: nat)
    requires Chunks(w) && Untouched(w) < k < |w| && Fits(w, k) && w[k][0] != w[Untouched(w)][0]
    requires forall j | Untouched(w) <= j < k :: !Fits(w, j)
    ensures !(Kept(w) <= File(w))
  {
    var n := Untouched(w);
    var at := |File(w[..n])|;
    FirstFitKept(w, k);
    SkippedInFile(w, n);
    assert Kept(w)[at] == (File(w[..n]) + w[k])[at] == w[k][0];
    assert File(w)[at] == (File(w[..n]) + w[n])[at] == w[n][0];
  }

  lemma {:induction false} FirstFit(chunks: seq<seq<byte>>, k: nat) returns (j: nat)
    requires Untouched(chunks) <= k < |chunks| && Fits(chunks, k)
    ensures Untouched(chunks) <= j < |chunks| && Fits(chunks, j)
    ensures forall i | Untouched(chunks) <= i < j :: !Fits(chunks, i)
  {
    if i :| Untouched(chunks) <= i < k && Fits(chunks, i) {
      j := FirstFit(chunks, i);
    } else {
      j := k;
    }
  }

  lemma LateFitShows(chunks: seq<seq<byte>>) returns (w: seq<seq<byte>>)
    requires Chunks(chunks) && !NothingFitsLater(chunks)
    ensures SameLengths(chunks, w) && !(Kept(w) <= File(w))
  {
    var k :| Untouched(chunks) <= k < |chunks| && Fits(chunks, k);
    k := FirstFit(chunks, k);
    FirstSkipIsLong(chunks);
    w := Marked(chunks, k);
    LengthsDecide(chunks, w);
    LengthsDecideFits(chunks, w);
    FirstFitShows(w, k);
  }

  lemma KeptIsPrefixIfNothingFits(chunks: seq<seq<byte>>)
    requires NothingFitsLater(chunks)
    ensures Kept(chunks) <= File(chunks)
  {
    KeptStops(chunks);
    FilePrefix(chunks, Untouched(chunks));
  }

  /** A split into these lengths is safe, in that whatever the bytes are all that is kept is a
      prefix of the file, exactly if no chunk from the first skipped one on would still fit. */
  lemma KeptIsPrefix(chunks: seq<seq<byte>>)
    requires Chunks(chunks)
    ensures (forall c | SameLengths(chunks, c) :: Kept(c) <= File(c)) <==> NothingFitsLater(chunks)
  {
    if NothingFitsLater(chunks) {
      forall c | SameLengths(chunks, c) ensures Kept(c) <= File(c) {
        LengthsDecide(chunks, c);
        LengthsDecideFits(chunks, c);
        KeptIsPrefixIfNothingFits(c);
      }
    } else {
      var w := LateFitShows(chunks);
    }
  }

  // ---- a file that is not kept as a prefix ----

  function Zeros(n: nat): seq<byte> {
    seq(n, _ => 0)
  }

  /** n full chunks of zeros. */
  function Blocks(n: nat): (b: seq<seq<byte>>)
    ensures |b| == n && Chunks(b)
  {
    seq(n, _ => Zeros(BUFFER))
  }

  lemma {:induction false} BlocksKept(n: nat)
    requires n * BUFFER < LIMIT
    ensures Kept(Blocks(n)) == File(Blocks(n)) == Zeros(n * BUFFER)
  {
    if n > 0 {
      BlocksKept(n - 1);
      assert Blocks(n)[..n - 1] == Blocks(n - 1);
      assert Zeros((n - 1) * BUFFER) + Zeros(BUFFER) == Zeros(n * BUFFER);
    }
  }

  /** A file of 60 MiB of zeros and a final one: the last full chunk is skipped, the final byte
      is accepted in its place, and what is kept is no prefix of the file. */
  lemma Gap() returns (chunks: seq<seq<byte>>)
    ensures Chunks(chunks) && !(Kept(chunks) <= File(chunks))
  {
    var n := LIMIT / BUFFER - 1;
    var full := Blocks(n);
    var skipped := full + [Zeros(BUFFER)];
    chunks := skipped + [[1]];
    BlocksKept(n);
    assert chunks[..n + 1] == skipped && skipped[..n] == full;
    assert Kept(skipped) == Zeros(n * BUFFER);
    assert Kept(chunks) == Zeros(n * BUFFER) + [1];
    assert File(skipped) == Zeros(n * BUFFER) + Zeros(BUFFER);
    assert Kept(chunks)[n * BUFFER] == 1 && File(chunks)[n * BUFFER] == 0;
  }

  /** The loop: memcpy into accum at pos. */
  method Accumulate(chunks: seq<seq<byte>>, accum: array<byte>) returns (pos: nat)
    requires Chunks(chunks) && accum.Length == 62_914_560
    modifies accum
    ensures pos < 62_914_560 && accum[..pos] == Kept(chunks)
  {
    pos := 0;
    for k := 0 to |chunks|
      invariant pos < LIMIT && accum[..pos] == Kept(chunks[..k])
    {
      var buffer := chunks[k];
      assert chunks[..k + 1][..k] == chunks[..k];
      label Copy:
      if pos + |buffer| < LIMIT {
        forall j | 0 <= j < |buffer| {
          accum[pos + j] := buffer[j];
        }
        assert accum[..pos + |buffer|] == old@Copy(accum[..pos]) + buffer;
        pos := pos + |buffer|;
      }
    }
    assert chunks[..|chunks|] == chunks;
  }
}

/** The read loop's framing of a byte stream into lines, whatever sizes the reads come in. */
module Framing {

  newtype Byte = b: int | 0 <= b < 256

  const CR: Byte := 13
  const LF: Byte := 10
  const MaxLineWithCrLf := 512
  const MaxContent := 510
  const ReadSize := 8192
  const BufferLimit := 65536

  predicate Terminator(b: Byte) {
    b == CR || b == LF
  }

  predicate Clear(s: seq<Byte>) {
    forall i :: 0 <= i < |s| ==> !Terminator(s[i])
  }

  // ---- what the loop does ----

  /** Index of the first terminator, or the length if there is none. */
  function Find(s: seq<Byte>): (p: nat)
    ensures p <= |s| && Clear(s[..p]) && (p < |s| ==> Terminator(s[p]))
    ensures p == |s| ==> Clear(s)
  {
    if s == [] then 0
    else if Terminator(s[0]) then 0
    else
      var q := Find(s[1..]);
      assert s[..q+1] == [s[0]] + s[1..][..q];
      assert s == [s[0]] + s[1..];
      q + 1
  }

  /** One past the terminator at `p`, taking a CR-LF pair together when both are in the buffer. */
  function TermEnd(s: seq<Byte>, p: nat): (e: nat)
    requires p < |s|
    ensures p < e <= |s| && e <= p + 2
  {
    if s[p] == CR && p + 1 < |s| && s[p+1] == LF then p + 2 else p + 1
  }

  /** The segments taken out of a buffer. */
  function Lines(s: seq<Byte>): seq<seq<Byte>>
    decreases |s|
  {
    var p := Find(s);
    if p == |s| then []
    else
      var e := TermEnd(s, p);
      (if e > MaxLineWithCrLf then [] else [s[..p]]) + Lines(s[e..])
  }

  /** What is left in the buffer. */
  function Rest(s: seq<Byte>): seq<Byte>
    decreases |s|
  {
    var p := Find(s);
    if p == |s| then s else Rest(s[TermEnd(s, p)..])
  }

  datatype Reader = Reader(buf: seq<Byte>, lines: seq<seq<Byte>>, open: bool)

  const Fresh := Reader([], [], true)

  /** One read. A buffer that has grown past the limit without a terminator ends the connection. */
  function Feed(r: Reader, chunk: seq<Byte>): Reader {
    if !r.open then r
    else
      var s := r.buf + chunk;
      Reader(Rest(s), r.lines + Lines(s), |Rest(s)| <= BufferLimit)
  }

  function FeedAll(r: Reader, chunks: seq<seq<Byte>>): Reader
    decreases |chunks|
  {
    if chunks == [] then r else FeedAll(Feed(r, chunks[0]), chunks[1..])
  }

  function Concat(chunks: seq<seq<Byte>>): seq<Byte> {
    if chunks == [] then [] else chunks[0] + Concat(chunks[1..])
  }

  /** One way the stream may arrive. */
  ghost predicate Chunking(chunks: seq<seq<Byte>>, stream: seq<Byte>) {
    Concat(chunks) == stream && forall i :: 0 <= i < |chunks| ==> 1 <= |chunks[i]| <= ReadSize
  }

  // ---- what it should mean ----

  /** The stream cut at every terminator byte, without empty pieces. */
  function Pieces(s: seq<Byte>): seq<seq<Byte>>
    decreases |s|
  {
    var p := Find(s);
    if p == |s| then [] else (if p == 0 then [] else [s[..p]]) + Pieces(s[p+1..])
  }

  function Tail(s: seq<Byte>): seq<Byte>
    decreases |s|
  {
    var p := Find(s);
    if p == |s| then s else Tail(s[p+1..])
  }

  /** The non-empty segments of at most `max` bytes. */
  function UpTo(segs: seq<seq<Byte>>, max: nat): seq<seq<Byte>> {
    if segs == [] then []
    else (if 1 <= |segs[0]| <= max then [segs[0]] else []) + UpTo(segs[1..], max)
  }

  /** No run of bytes without a terminator outgrows the buffer. */
  ghost predicate RunsFit(s: seq<Byte>) {
    forall i, j :: 0 <= i <= j <= |s| && Clear(s[i..j]) ==> j - i <= BufferLimit
  }

  /** A segment of exactly 511 bytes that ends in CR-LF starts at `i`. */
  ghost predicate OverlongAt(s: seq<Byte>, i: nat) {
    && i + MaxLineWithCrLf < |s| && (i == 0 || Terminator(s[i-1]))
    && Clear(s[i..i+MaxContent+1]) && s[i+MaxContent+1] == CR && s[i+MaxContent+2] == LF
  }

  // ---- pieces and concatenation ----

  lemma {:induction false} FindIs(s: seq<Byte>, p: nat)
    requires p <= |s| && Clear(s[..p]) && (p < |s| ==> Terminator(s[p]))
    ensures Find(s) == p
    decreases |s|
  {
    if p > 0 {
      assert s[..p][0] == s[0] && s[1..][..p-1] == s[..p][1..];
      FindIs(s[1..], p - 1);
    }
  }

  lemma FindInPrefix(a: seq<Byte>, b: seq<Byte>)
    requires Find(a) < |a|
    ensures Find(a + b) == Find(a)
  {
    var p := Find(a);
    assert (a + b)[..p] == a[..p];
    FindIs(a + b, p);
  }

  /** Cutting a stream in two only defers the unterminated tail of the first part. */
  lemma {:induction false} PiecesConcat(a: seq<Byte>, b: seq<Byte>)
    ensures Pieces(a + b) == Pieces(a) + Pieces(Tail(a) + b)
    ensures Tail(a + b) == Tail(Tail(a) + b)
    decreases |a|
  {
    var p := Find(a);
    if p < |a| {
      FindInPrefix(a, b);
      assert (a + b)[p+1..] == a[p+1..] + b && (a + b)[..p] == a[..p];
      PiecesConcat(a[p+1..], b);
    }
  }

  lemma {:induction false} UpToConcat(x: seq<seq<Byte>>, y: seq<seq<Byte>>, max: nat)
    ensures UpTo(x + y, max) == UpTo(x, max) + UpTo(y, max)
    decreases |x|
  {
    if x == [] {
      assert x + y == y;
    } else {
      assert (x + y)[1..] == x[1..] + y;
      UpToConcat(x[1..], y, max);
    }
  }

  lemma UpToOne(seg: seq<Byte>, max: nat)
    ensures UpTo([seg], max) == if 1 <= |seg| <= max then [seg] else []
  {
    assert UpTo([seg][1..], max) == [];
  }

  lemma UpToNone(max: nat)
    ensures UpTo([], max) == []
  {
  }

  lemma UnfoldPieces(s: seq<Byte>)
    ensures var p := Find(s);
      Pieces(s) == if p == |s| then [] else (if p == 0 then [] else [s[..p]]) + Pieces(s[p+1..])
  {
  }

  lemma UnfoldLines(s: seq<Byte>)
    ensures var p := Find(s);
      if p == |s| then Lines(s) == [] && Rest(s) == s
      else var e := TermEnd(s, p);
        Lines(s) == (if e > MaxLineWithCrLf then [] else [s[..p]]) + Lines(s[e..]) && Rest(s) == Rest(s[e..])
  {
  }

  lemma DropFirst(t: seq<Byte>)
    requires Find(t) == 0 < |t|
    ensures Pieces(t) == Pieces(t[1..]) && Tail(t) == Tail(t[1..])
  {
    assert t[0 + 1..] == t[1..];
  }

  /** Taking a CR-LF pair together or apart only differs in an empty segment. */
  lemma PairApart(s: seq<Byte>, p: nat)
    requires p == Find(s) < |s|
    ensures Pieces(s[p+1..]) == Pieces(s[TermEnd(s, p)..]) && Tail(s[p+1..]) == Tail(s[TermEnd(s, p)..])
  {
    hide Pieces, Tail;
    if TermEnd(s, p) == p + 2 {
      var t := s[p+1..];
      assert Find(t) == 0 && t[1..] == s[p+2..];
      DropFirst(t);
    }
  }

  lemma {:induction false} RestIsTail(s: seq<Byte>)
    ensures Rest(s) == Tail(s)
    decreases |s|
  {
    var p := Find(s);
    if p < |s| {
      RestIsTail(s[TermEnd(s, p)..]);
      PairApart(s, p);
    }
  }

  /** Up to 510 bytes the loop keeps exactly the pieces of its buffer. */
  lemma {:induction false} LinesArePieces(s: seq<Byte>)
    ensures UpTo(Lines(s), MaxContent) == UpTo(Pieces(s), MaxContent)
    decreases |s|
  {
    hide UpTo, Pieces, Lines, Clear, Tail, Rest;
    var p := Find(s);
    UnfoldLines(s);
    UnfoldPieces(s);
    if p < |s| {
      var e := TermEnd(s, p);
      LinesArePieces(s[e..]);
      PairApart(s, p);
      UpToOne(s[..p], MaxContent);
      UpToNone(MaxContent);
      UpToConcat(if e > MaxLineWithCrLf then [] else [s[..p]], Lines(s[e..]), MaxContent);
      UpToConcat(if p == 0 then [] else [s[..p]], Pieces(s[p+1..]), MaxContent);
    }
  }

  // ---- runs of the reader ----

  lemma {:induction false} TailIsRun(s: seq<Byte>)
    ensures |Tail(s)| <= |s| && Clear(Tail(s)) && Tail(s) == s[|s|-|Tail(s)|..]
    decreases |s|
  {
    var p := Find(s);
    if p < |s| {
      TailIsRun(s[p+1..]);
    }
  }

  lemma ClearStream(s: seq<Byte>)
    requires Clear(s)
    ensures Tail(s) == s && Pieces(s) == [] && UpTo(Pieces(s), MaxContent) == []
  {
    FindIs(s, |s|);
  }

  lemma ClearNothing()
    ensures Clear([])
  {
  }

  lemma NothingHanded(max: nat)
    ensures UpTo(Fresh.lines, max) == []
  {
  }

  lemma FitsLater(a: seq<Byte>, b: seq<Byte>)
    requires RunsFit(a + b)
    ensures RunsFit(Tail(a) + b) && RunsFit(a)
  {
    TailIsRun(a);
    var k := |a| - |Tail(a)|;
    assert (a + b)[k..] == Tail(a) + b;
    forall i, j | 0 <= i <= j <= |Tail(a) + b| && Clear((Tail(a) + b)[i..j]) ensures j - i <= BufferLimit {
      assert (Tail(a) + b)[i..j] == (a + b)[k+i..k+j];
    }
    forall i, j | 0 <= i <= j <= |a| && Clear(a[i..j]) ensures j - i <= BufferLimit {
      assert a[i..j] == (a + b)[i..j];
    }
  }

  lemma FeedStaysOpen(r: Reader, chunk: seq<Byte>)
    requires r.open && RunsFit(r.buf + chunk)
    ensures Feed(r, chunk).open && Feed(r, chunk).buf == Tail(r.buf + chunk)
  {
    var s := r.buf + chunk;
    RestIsTail(s);
    TailIsRun(s);
    assert s[|s|-|Tail(s)|..] == s[|s|-|Tail(s)|..|s|];
  }

  /** For every way a stream arrives, the reader stays open and ends with the stream's tail. */
  lemma {:induction false} FeedAllStays(r: Reader, chunks: seq<seq<Byte>>)
    requires r.open && RunsFit(r.buf + Concat(chunks)) && Clear(r.buf)
    ensures FeedAll(r, chunks).open && FeedAll(r, chunks).buf == Tail(r.buf + Concat(chunks))
    ensures UpTo(FeedAll(r, chunks).lines, MaxContent)
         == UpTo(r.lines, MaxContent) + UpTo(Pieces(r.buf + Concat(chunks)), MaxContent)
    decreases |chunks|
  {
    hide Pieces, Tail, UpTo, Lines, Rest, RunsFit, Clear;
    if chunks == [] {
      assert r.buf + Concat(chunks) == r.buf;
      ClearStream(r.buf);
    } else {
      var s, later := r.buf + chunks[0], Concat(chunks[1..]);
      assert r.buf + Concat(chunks) == s + later;
      FitsLater(s, later);
      FeedStaysOpen(r, chunks[0]);
      TailIsRun(s);
      var r1 := Feed(r, chunks[0]);
      FeedAllStays(r1, chunks[1..]);
      PiecesConcat(s, later);
      LinesArePieces(s);
      UpToConcat(r.lines, Lines(s), MaxContent);
      UpToConcat(Pieces(s), Pieces(Tail(s) + later), MaxContent);
    }
  }

  /**
   * Framing does not depend on how the stream is cut into reads: the segments of 1 to 510
   * bytes passed on are the pieces of the whole stream, even when a CR-LF pair straddles two reads.
   */
  lemma FramingIndependent(stream: seq<Byte>, chunks: seq<seq<Byte>>)
    requires Chunking(chunks, stream) && RunsFit(stream)
    ensures FeedAll(Fresh, chunks).open
    ensures UpTo(FeedAll(Fresh, chunks).lines, MaxContent) == UpTo(Pieces(stream), MaxContent)
  {
    hide Pieces, Tail, RunsFit, FeedAll, UpTo, Clear;
    assert Fresh.buf + Concat(chunks) == stream;
    ClearNothing();
    NothingHanded(MaxContent);
    FeedAllStays(Fresh, chunks);
  }

  // ---- the one length that does depend on the cut ----

  /** No 511-byte segment of the stream ends in CR-LF. */
  ghost predicate NoOverlong(s: seq<Byte>) {
    forall i :: 0 <= i < |s| ==> !OverlongAt(s, i)
  }

  lemma OverlongInSuffix(s: seq<Byte>, k: nat, i: nat)
    requires k <= |s| && (k == 0 || Terminator(s[k-1]))
    ensures OverlongAt(s[k..], i) ==> OverlongAt(s, k + i)
  {
    if i + MaxLineWithCrLf < |s[k..]| {
      assert s[k..][i..i+MaxContent+1] == s[k+i..k+i+MaxContent+1];
    }
  }

  lemma OverlongInPrefix(a: seq<Byte>, b: seq<Byte>, i: nat)
    ensures OverlongAt(a, i) ==> OverlongAt(a + b, i)
  {
    if i + MaxLineWithCrLf < |a| {
      assert a[i..i+MaxContent+1] == (a + b)[i..i+MaxContent+1];
    }
  }

  /** The part of a stream from a segment boundary on. */
  lemma NoOverlongSuffix(s: seq<Byte>, k: nat)
    requires NoOverlong(s) && k <= |s| && (k == 0 || Terminator(s[k-1]))
    ensures NoOverlong(s[k..])
  {
    hide OverlongAt;
    forall i | 0 <= i < |s[k..]| ensures !OverlongAt(s[k..], i) {
      OverlongInSuffix(s, k, i);
    }
  }

  lemma NoOverlongPrefix(a: seq<Byte>, b: seq<Byte>)
    requires NoOverlong(a + b)
    ensures NoOverlong(a)
  {
    hide OverlongAt;
    forall i | 0 <= i < |a| ensures !OverlongAt(a, i) {
      OverlongInPrefix(a, b, i);
    }
  }

  lemma {:induction false} TailAtBoundary(s: seq<Byte>)
    ensures |Tail(s)| <= |s| && (|Tail(s)| == |s| || Terminator(s[|s|-|Tail(s)|-1]))
    decreases |s|
  {
    var p := Find(s);
    if p < |s| {
      TailAtBoundary(s[p+1..]);
    }
  }

  /** The longest segment the loop can pass on: a bare CR or LF leaves room for 511 bytes. */
  const MaxFramed := 511

  lemma {:induction false} LinesAreFramed(s: seq<Byte>)
    ensures forall i :: 0 <= i < |Lines(s)| ==> |Lines(s)[i]| <= MaxFramed
    decreases |s|
  {
    var p := Find(s);
    if p < |s| {
      LinesAreFramed(s[TermEnd(s, p)..]);
    }
  }

  /** Without such a segment the loop agrees on everything it passes on. */
  lemma {:induction false} LinesAreAllPieces(s: seq<Byte>)
    requires NoOverlong(s)
    ensures UpTo(Lines(s), MaxFramed) == UpTo(Pieces(s), MaxFramed)
    decreases |s|
  {
    hide UpTo, Pieces, Clear;
    var p := Find(s);
    if p < |s| {
      var e := TermEnd(s, p);
      FirstNotOverlong(s);
      NoOverlongSuffix(s, e);
      LinesAreAllPieces(s[e..]);
      PairApart(s, p);
      UnfoldPieces(s);
      UpToOne(s[..p], MaxFramed);
      UpToNone(MaxFramed);
      UpToConcat(if e > MaxLineWithCrLf then [] else [s[..p]], Lines(s[e..]), MaxFramed);
      UpToConcat(if p == 0 then [] else [s[..p]], Pieces(s[p+1..]), MaxFramed);
    } else {
      UnfoldPieces(s);
    }
  }

  lemma FirstNotOverlong(s: seq<Byte>)
    requires NoOverlong(s) && Find(s) < |s|
    ensures Find(s) == MaxFramed ==> TermEnd(s, Find(s)) == Find(s) + 1
  {
    hide OverlongAt;
    FirstOverlong(s);
  }

  lemma FirstOverlong(s: seq<Byte>)
    requires Find(s) < |s|
    ensures Find(s) == MaxFramed && TermEnd(s, Find(s)) != Find(s) + 1 ==> OverlongAt(s, 0)
  {
    var p := Find(s);
    assert p == MaxFramed ==> s[0..MaxFramed] == s[..p];
  }

  lemma {:induction false} FeedAllPieces(r: Reader, chunks: seq<seq<Byte>>)
    requires r.open && RunsFit(r.buf + Concat(chunks)) && Clear(r.buf) && NoOverlong(r.buf + Concat(chunks))
    ensures UpTo(FeedAll(r, chunks).lines, MaxFramed)
         == UpTo(r.lines, MaxFramed) + UpTo(Pieces(r.buf + Concat(chunks)), MaxFramed)
    decreases |chunks|
  {
    hide Pieces, Tail, UpTo, Lines, Rest, RunsFit, Clear, NoOverlong;
    if chunks == [] {
      assert r.buf + Concat(chunks) == r.buf;
      ClearStream(r.buf);
      UpToNone(MaxFramed);
    } else {
      var s, later := r.buf + chunks[0], Concat(chunks[1..]);
      assert r.buf + Concat(chunks) == s + later;
      FitsLater(s, later);
      FeedStaysOpen(r, chunks[0]);
      TailIsRun(s);
      TailNotOverlong(s, later);
      var r1 := Feed(r, chunks[0]);
      FeedAllPieces(r1, chunks[1..]);
      PiecesConcat(s, later);
      NoOverlongPrefix(s, later);
      LinesAreAllPieces(s);
      UpToConcat(r.lines, Lines(s), MaxFramed);
      UpToConcat(Pieces(s), Pieces(Tail(s) + later), MaxFramed);
    }
  }

  lemma TailNotOverlong(a: seq<Byte>, b: seq<Byte>)
    requires NoOverlong(a + b)
    ensures NoOverlong(Tail(a) + b)
  {
    hide NoOverlong, Tail;
    TailAtBoundary(a);
    TailIsRun(a);
    var k := |a| - |Tail(a)|;
    assert (a + b)[k..] == Tail(a) + b;
    assert k > 0 ==> (a + b)[k-1] == a[k-1];
    NoOverlongSuffix(a + b, k);
  }

  // ---- two ways to cut a stream ----

  function Singles(s: seq<Byte>): seq<seq<Byte>> {
    if s == [] then [] else [[s[0]]] + Singles(s[1..])
  }

  lemma {:induction false} SinglesChunk(s: seq<Byte>)
    ensures Chunking(Singles(s), s)
    decreases |s|
  {
    if s != [] {
      SinglesChunk(s[1..]);
      assert Singles(s)[1..] == Singles(s[1..]);
      assert [s[0]] + s[1..] == s;
    }
  }

  lemma {:induction false} ConcatConcat(x: seq<seq<Byte>>, y: seq<seq<Byte>>)
    ensures Concat(x + y) == Concat(x) + Concat(y)
    decreases |x|
  {
    if x == [] {
      assert x + y == y;
    } else {
      assert (x + y)[1..] == x[1..] + y;
      ConcatConcat(x[1..], y);
    }
  }

  lemma {:induction false} FeedAllConcat(r: Reader, x: seq<seq<Byte>>, y: seq<seq<Byte>>)
    ensures FeedAll(r, x + y) == FeedAll(FeedAll(r, x), y)
    decreases |x|
  {
    hide Feed;
    if x == [] {
      assert x + y == y;
    } else {
      assert (x + y)[1..] == x[1..] + y;
      FeedAllConcat(Feed(r, x[0]), x[1..], y);
    }
  }

  /** Lines already taken out never matter to what follows. */
  lemma {:induction false} FeedAllLines(r: Reader, lines: seq<seq<Byte>>, chunks: seq<seq<Byte>>)
    ensures FeedAll(r.(lines := lines + r.lines), chunks) == FeedAll(r, chunks).(lines := lines + FeedAll(r, chunks).lines)
    decreases |chunks|
  {
    if chunks != [] {
      var r1 := Feed(r, chunks[0]);
      assert r.open ==> lines + (r.lines + Lines(r.buf + chunks[0])) == (lines + r.lines) + Lines(r.buf + chunks[0]);
      FeedAllLines(r1, lines, chunks[1..]);
    }
  }

  /** The pair in one read drops a 511-byte segment; in two reads it passes it on. */
  lemma PairMatters(seg: seq<Byte>)
    requires Clear(seg) && |seg| == MaxFramed
    ensures Lines(seg + [CR]) == [seg] && Rest(seg + [CR]) == []
    ensures Lines([LF]) == [[]] && Rest([LF]) == []
    ensures Lines(seg + [CR, LF]) == [] && Rest(seg + [CR, LF]) == []
  {
    hide Lines, Rest, Find;
    var a, b := seg + [CR], seg + [CR, LF];
    assert a[..|seg|] == seg && b[..|seg|] == seg && [LF][..0] == [];
    FindIs(a, |seg|);
    FindIs(b, |seg|);
    FindIs([LF], 0);
    FindIs([], 0);
    UnfoldLines(a);
    UnfoldLines(b);
    UnfoldLines([LF]);
    UnfoldLines([]);
    assert a[|seg|+1..] == [] && b[|seg|+2..] == [] && [LF][1..] == [];
  }

  /** Everything non-empty that is passed on. */
  function Handed(chunks: seq<seq<Byte>>): seq<seq<Byte>> {
    UpTo(FeedAll(Fresh, chunks).lines, MaxFramed)
  }

  ghost predicate SameHowever(stream: seq<Byte>) {
    forall x, y :: Chunking(x, stream) && Chunking(y, stream) ==> Handed(x) == Handed(y)
  }

  lemma ChunkingConcat(x: seq<seq<Byte>>, y: seq<seq<Byte>>, s: seq<Byte>, t: seq<Byte>)
    requires Chunking(x, s) && Chunking(y, t)
    ensures Chunking(x + y, s + t)
  {
    ConcatConcat(x, y);
  }

  lemma {:induction false} TailAfterBoundary(s: seq<Byte>, i: nat)
    requires i <= |s| && (i == 0 || Terminator(s[i-1])) && Clear(s[i..])
    ensures Tail(s) == s[i..]
    decreases |s|
  {
    var p := Find(s);
    if i == 0 {
      assert s[0..] == s;
      FindIs(s, |s|);
    } else {
      assert p < i;
      assert s[p+1..][i-p-1..] == s[i..];
      TailAfterBoundary(s[p+1..], i - p - 1);
    }
  }

  /** Two ways of reading a stream with an overlong segment, one line apart. */
  lemma OverlongDepends(s: seq<Byte>, i: nat)
    requires RunsFit(s) && OverlongAt(s, i)
    ensures !SameHowever(s)
  {
    hide Lines, Rest, Tail, Find, Pieces, RunsFit, Singles, UpTo, Clear;
    var k := i + MaxFramed;
    var pre, seg, post := s[..k], s[i..k], s[k+2..];
    var x0, y := Singles(pre), Singles(post);
    SinglesChunk(pre);
    SinglesChunk(post);
    assert pre + [CR, LF] == s[..k+2] && s[..k+2] + post == s;
    var apart, joined := x0 + [[CR], [LF]], x0 + [[CR, LF]];
    CutPair();
    ChunkingConcat(x0, [[CR], [LF]], pre, [CR, LF]);
    ChunkingConcat(x0, [[CR, LF]], pre, [CR, LF]);
    ChunkingConcat(apart, y, s[..k+2], post);
    ChunkingConcat(joined, y, s[..k+2], post);
    // the reader after the first 511 bytes of the segment
    var r := FeedAll(Fresh, x0);
    assert s == pre + s[k..];
    FitsLater(pre, s[k..]);
    assert Fresh.buf + Concat(x0) == pre;
    ClearNothing();
    FeedAllStays(Fresh, x0);
    assert pre[i..] == seg && (i > 0 ==> pre[i-1] == s[i-1]);
    TailAfterBoundary(pre, i);
    PairMatters(seg);
    var one := FeedAll(r, [[CR], [LF]]);
    var two := FeedAll(r, [[CR, LF]]);
    FeedPair(r, seg);
    FeedAllConcat(Fresh, x0, [[CR], [LF]]);
    FeedAllConcat(Fresh, x0, [[CR, LF]]);
    FeedAllConcat(Fresh, apart, y);
    FeedAllConcat(Fresh, joined, y);
    CountApart(r, seg, y);
    assert Handed(apart + y) != Handed(joined + y);
  }

  lemma CutPair()
    ensures Chunking([[CR], [LF]], [CR, LF]) && Chunking([[CR, LF]], [CR, LF])
  {
    assert Concat([]) == [];
    assert [[CR], [LF]][1..] == [[LF]] && [[LF]][1..] == [] && [[CR, LF]][1..] == [];
    assert Concat([[LF]]) == [LF];
    assert Concat([[CR], [LF]]) == [CR] + [LF];
    assert Concat([[CR, LF]]) == [CR, LF];
  }

  lemma FeedPair(r: Reader, seg: seq<Byte>)
    requires r.open && r.buf == seg && Clear(seg) && |seg| == MaxFramed
    ensures FeedAll(r, [[CR], [LF]]) == Reader([], r.lines + [seg] + [[]], true)
    ensures FeedAll(r, [[CR, LF]]) == Reader([], r.lines, true)
  {
    hide Lines, Rest;
    PairMatters(seg);
    var r1 := Feed(r, [CR]);
    assert r1 == Reader([], r.lines + [seg], true);
    assert [] + [LF] == [LF];
    assert Feed(r1, [LF]) == Reader([], r.lines + [seg] + [[]], true);
    assert Feed(r, [CR, LF]) == Reader([], r.lines, true);
    FeedAllTwo(r, [CR], [LF]);
    FeedAllOne(r, [CR, LF]);
  }

  lemma FeedAllOne(r: Reader, c: seq<Byte>)
    ensures FeedAll(r, [c]) == Feed(r, c)
  {
    assert [c][1..] == [];
    assert FeedAll(Feed(r, c), []) == Feed(r, c);
  }

  lemma FeedAllTwo(r: Reader, c: seq<Byte>, d: seq<Byte>)
    ensures FeedAll(r, [c, d]) == Feed(Feed(r, c), d)
  {
    hide Feed;
    assert [c, d][1..] == [d];
    FeedAllOne(Feed(r, c), d);
  }

  lemma CountApart(r: Reader, seg: seq<Byte>, y: seq<seq<Byte>>)
    requires |seg| == MaxFramed
    ensures var one := FeedAll(Reader([], r.lines + [seg] + [[]], true), y);
      var two := FeedAll(Reader([], r.lines, true), y);
      |UpTo(one.lines, MaxFramed)| == |UpTo(two.lines, MaxFramed)| + 1
  {
    hide UpTo, FeedAll;
    var empty := Reader([], [], true);
    var out := FeedAll(empty, y).lines;
    FeedAllLines(empty, r.lines + [seg] + [[]], y);
    FeedAllLines(empty, r.lines, y);
    assert r.lines + [seg] + [[]] + empty.lines == r.lines + [seg] + [[]];
    assert r.lines + empty.lines == r.lines;
    UpToConcat(r.lines + [seg] + [[]], out, MaxFramed);
    UpToConcat(r.lines + [seg], [[]], MaxFramed);
    UpToConcat(r.lines, [seg], MaxFramed);
    UpToConcat(r.lines, out, MaxFramed);
    UpToOne(seg, MaxFramed);
    UpToOne([], MaxFramed);
  }

  /** Everything passed on is the same for every cut exactly when no 511-byte segment ends in CR-LF. */
  lemma FramingIndependentIff(stream: seq<Byte>)
    requires RunsFit(stream)
    ensures SameHowever(stream) <==> NoOverlong(stream)
  {
    hide FeedAll, UpTo, Pieces, RunsFit, OverlongAt, Clear;
    if NoOverlong(stream) {
      forall x, y | Chunking(x, stream) && Chunking(y, stream) ensures Handed(x) == Handed(y) {
        assert Fresh.buf + Concat(x) == stream && Fresh.buf + Concat(y) == stream;
        ClearNothing();
        FeedAllPieces(Fresh, x);
        FeedAllPieces(Fresh, y);
      }
    } else {
      var i :| 0 <= i < |stream| && OverlongAt(stream, i);
      OverlongDepends(stream, i);
    }
  }

  // ---- the reader itself ----

  method FindTerminator(buf: seq<Byte>) returns (pos: nat)
    ensures pos == Find(buf)
  {
    pos := 0;
    while pos < |buf|
      invariant 0 <= pos <= |buf| && Clear(buf[..pos])
    {
      if Terminator(buf[pos]) {
        FindIs(buf, pos);
        return;
      }
      pos := pos + 1;
    }
    FindIs(buf, pos);
  }

  class LineReader {
    var buf: seq<Byte>
    var lines: seq<seq<Byte>>
    var open: bool

    ghost function View(): Reader
      reads this
    {
      Reader(buf, lines, open)
    }

    constructor ()
      ensures View() == Fresh
    {
      buf, lines, open := [], [], true;
    }

    method Read(chunk: seq<Byte>)
      modifies this
      ensures View() == Feed(old(View()), chunk)
    {
      hide Lines, Rest, Find, Clear;
      if !open {
        return;
      }
      ghost var s := buf + chunk;
      ghost var before := lines;
      buf := buf + chunk;
      var pos := FindTerminator(buf);
      while pos < |buf|
        invariant pos == Find(buf) && open
        invariant Rest(buf) == Rest(s) && before + Lines(s) == lines + Lines(buf)
        decreases |buf|
      {
        UnfoldLines(buf);
        ghost var rest := Lines(buf[TermEnd(buf, pos)..]);
        assert lines + ([buf[..pos]] + rest) == lines + [buf[..pos]] + rest && lines + ([] + rest) == lines + rest;
        var end := if buf[pos] == CR && pos + 1 < |buf| && buf[pos+1] == LF then pos + 2 else pos + 1;
        if end <= MaxLineWithCrLf {
          lines := lines + [buf[..pos]];
        }
        buf := buf[end..];
        pos := FindTerminator(buf);
      }
      UnfoldLines(buf);
      open := |buf| <= BufferLimit;
    }
  }
}

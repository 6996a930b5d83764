/** From bytes to commands: framing, decoding and parsing together. */
module Intake {
  import opened Basics
  import opened Text
  import opened Framing
  import Proto

  /** Lossy UTF-8 decoding: every invalid sequence becomes a replacement character. */
  type Decoding = seq<Byte> -> string

  /** A replacement character takes three bytes and stands for at most three. */
  ghost predicate NeverShorter(decode: Decoding) {
    forall seg :: |seg| <= Bytes(decode(seg))
  }

  /** Empty segments and lines that do not parse are dropped. */
  function Commands(decode: Decoding, segs: seq<seq<Byte>>): seq<Proto.Command> {
    if segs == [] then []
    else
      var cmd := if segs[0] == [] then None else Proto.Parse(decode(segs[0]));
      (if cmd.Some? then [cmd.value] else []) + Commands(decode, segs[1..])
  }

  lemma {:induction false} OverlongSaysNothing(decode: Decoding, segs: seq<seq<Byte>>)
    requires NeverShorter(decode)
    ensures Commands(decode, segs) == Commands(decode, UpTo(segs, MaxContent))
    decreases |segs|
  {
    hide Proto.ParseUntagged;
    if segs != [] {
      OverlongSaysNothing(decode, segs[1..]);
      var rest := UpTo(segs[1..], MaxContent);
      if 1 <= |segs[0]| <= MaxContent {
        assert ([segs[0]] + rest)[1..] == rest;
      } else {
        assert [] + rest == rest;
        assert |segs[0]| <= Bytes(decode(segs[0]));
      }
    }
  }

  /** Whatever sizes the reads come in, the commands are those of splitting the whole stream at CR and LF. */
  lemma CommandsIndependent(decode: Decoding, stream: seq<Byte>, chunks: seq<seq<Byte>>)
    requires NeverShorter(decode) && Chunking(chunks, stream) && RunsFit(stream)
    ensures Commands(decode, FeedAll(Fresh, chunks).lines) == Commands(decode, Pieces(stream))
  {
    hide Commands, UpTo, Pieces, FeedAll, RunsFit, Chunking;
    FramingIndependent(stream, chunks);
    OverlongSaysNothing(decode, FeedAll(Fresh, chunks).lines);
    OverlongSaysNothing(decode, Pieces(stream));
  }
}

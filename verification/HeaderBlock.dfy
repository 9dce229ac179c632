/**
 Fragmentation of an encoded header block into HEADERS and CONTINUATION frames
 (pkg/customhttp/h2client.go, writeHeaders.writeFrame), with the reassembly a peer performs as
 its inverse.
 */
module HeaderBlock {
  import opened Basics
  import opened H2Model

  datatype Frame =
    | Headers(fragment: Octets, endStream: bool, endHeaders: bool, pad: nat)
    | Continuation(fragment: Octets, endHeaders: bool)

  function Continuations(block: Octets, maxFrame: nat): seq<Frame>
    requires maxFrame > 0
    decreases |block|
  {
    if |block| <= maxFrame then [Continuation(block, true)]
    else [Continuation(block[..maxFrame], false)] + Continuations(block[maxFrame..], maxFrame)
  }

  function Fragments(block: Octets, maxFrame: nat, endStream: bool, pad: nat): seq<Frame>
    requires maxFrame > 0
  {
    if |block| <= maxFrame then [Headers(block, endStream, true, pad)]
    else [Headers(block[..maxFrame], endStream, false, pad)] + Continuations(block[maxFrame..], maxFrame)
  }

  /** CONTINUATION frames up to END_HEADERS; the second component is what follows. */
  function ReadOn(frames: seq<Frame>, sofar: Octets): Option<(Octets, seq<Frame>)>
    decreases |frames|
  {
    if frames == [] || !frames[0].Continuation? then None
    else if frames[0].endHeaders then Some((sofar + frames[0].fragment, frames[1..]))
    else ReadOn(frames[1..], sofar + frames[0].fragment)
  }

  /** What a peer makes of the frames: the header block, and the frames after it. */
  function Reassemble(frames: seq<Frame>): Option<(Octets, seq<Frame>)> {
    if frames == [] || !frames[0].Headers? then None
    else if frames[0].endHeaders then Some((frames[0].fragment, frames[1..]))
    else ReadOn(frames[1..], frames[0].fragment)
  }

  lemma {:induction false} ReadOnInverts(block: Octets, maxFrame: nat, sofar: Octets, rest: seq<Frame>)
    requires maxFrame > 0
    ensures ReadOn(Continuations(block, maxFrame) + rest, sofar) == Some((sofar + block, rest))
    decreases |block|
  {
    var frames := Continuations(block, maxFrame) + rest;
    if |block| <= maxFrame {
      assert frames[1..] == rest;
    } else {
      var tail := Continuations(block[maxFrame..], maxFrame);
      assert frames[1..] == tail + rest;
      ReadOnInverts(block[maxFrame..], maxFrame, sofar + block[..maxFrame], rest);
      assert sofar + block[..maxFrame] + block[maxFrame..] == sofar + block;
    }
  }

  /** The peer gets the block back, and nothing of what follows it on the connection. */
  lemma ReassembleInverts(block: Octets, maxFrame: nat, endStream: bool, pad: nat, rest: seq<Frame>)
    requires maxFrame > 0
    ensures Reassemble(Fragments(block, maxFrame, endStream, pad) + rest) == Some((block, rest))
  {
    hide ReadOn, Continuations;
    var frames := Fragments(block, maxFrame, endStream, pad) + rest;
    if |block| <= maxFrame {
      assert frames[1..] == rest;
    } else {
      assert frames[1..] == Continuations(block[maxFrame..], maxFrame) + rest;
      ReadOnInverts(block[maxFrame..], maxFrame, block[..maxFrame], rest);
      assert block[..maxFrame] + block[maxFrame..] == block;
    }
  }

  /** Octets of frame payload, padding and its length octet included. */
  function PayloadLength(f: Frame): nat {
    |f.fragment| + if f.Headers? && f.pad > 0 then f.pad + 1 else 0
  }

  /** Fragments within the limit and not empty, END_HEADERS on the last frame only. */
  ghost predicate Shaped(fs: seq<Frame>, maxFrame: nat) {
    && (forall i :: 0 <= i < |fs| ==> 0 < |fs[i].fragment| <= maxFrame)
    && (forall i :: 0 <= i < |fs| ==> (fs[i].endHeaders <==> i == |fs| - 1))
  }

  lemma Prepended(f: Frame, tail: seq<Frame>, maxFrame: nat)
    requires Shaped(tail, maxFrame) && tail != [] && 0 < |f.fragment| <= maxFrame && !f.endHeaders
    ensures Shaped([f] + tail, maxFrame)
  {
    var fs := [f] + tail;
    assert forall i :: 1 <= i < |fs| ==> fs[i] == tail[i - 1];
  }

  lemma {:induction false} ContinuationsShape(block: Octets, maxFrame: nat)
    requires maxFrame > 0 && block != []
    ensures Continuations(block, maxFrame) != [] && Shaped(Continuations(block, maxFrame), maxFrame)
    ensures forall i :: 0 <= i < |Continuations(block, maxFrame)| ==> Continuations(block, maxFrame)[i].Continuation?
    decreases |block|
  {
    if |block| > maxFrame {
      ContinuationsShape(block[maxFrame..], maxFrame);
      Prepended(Continuation(block[..maxFrame], false), Continuations(block[maxFrame..], maxFrame), maxFrame);
    }
  }

  /**
   One HEADERS frame first, then CONTINUATION frames only; END_HEADERS on the last frame and on no other;
   END_STREAM and padding only on the first; fragments within the limit and, but for an empty block, not empty.
   */
  lemma FragmentsShape(block: Octets, maxFrame: nat, endStream: bool, pad: nat)
    requires maxFrame > 0
    ensures var fs := Fragments(block, maxFrame, endStream, pad);
            && |fs| > 0 && fs[0].Headers? && fs[0].endStream == endStream && fs[0].pad == pad
            && (forall i :: 1 <= i < |fs| ==> fs[i].Continuation?)
            && (block != [] ==> Shaped(fs, maxFrame))
            && (block == [] ==> fs == [Headers([], endStream, true, pad)])
  {
    if |block| > maxFrame {
      ContinuationsShape(block[maxFrame..], maxFrame);
      Prepended(Headers(block[..maxFrame], endStream, false, pad), Continuations(block[maxFrame..], maxFrame), maxFrame);
    }
  }

  /**
   The size check looks at the block alone, so padding can push the first frame past the limit; every
   payload is within it exactly when there is no padding or the first fragment leaves room for it.
   */
  lemma PayloadsFitIff(block: Octets, maxFrame: nat, endStream: bool, pad: nat)
    requires maxFrame > 0
    ensures (forall f <- Fragments(block, maxFrame, endStream, pad) :: PayloadLength(f) <= maxFrame)
            <==> pad == 0 || |block| + pad + 1 <= maxFrame
  {
    var fs := Fragments(block, maxFrame, endStream, pad);
    FragmentsShape(block, maxFrame, endStream, pad);
    assert fs[0] in fs;
    assert PayloadLength(fs[0]) == |fs[0].fragment| + if pad > 0 then pad + 1 else 0;
    if pad == 0 || |block| + pad + 1 <= maxFrame {
      forall f <- fs ensures PayloadLength(f) <= maxFrame {
        var i :| 0 <= i < |fs| && fs[i] == f;
      }
    }
  }

  /** An oversized first frame: a block that just fits, with one octet of padding. */
  lemma PaddingOverflows(block: Octets, maxFrame: nat)
    requires maxFrame > 0 && |block| == maxFrame
    ensures PayloadLength(Fragments(block, maxFrame, true, 1)[0]) == maxFrame + 2
  {
  }

  /** The conversion to uint32. */
  function Cast32(n: nat): (r: nat)
    ensures r <= n && (n < TWO32 ==> r == n)
  {
    n % TWO32
  }

  /** Taking the casted length off a block of 4 GiB or more never gets below 4 GiB. */
  lemma StaysHuge(left: nat, maxFrame: nat)
    requires left >= TWO32
    ensures var cast := Cast32(left); left - (if cast > maxFrame then maxFrame else cast) >= TWO32
  {
  }

  /**
   The loop over CONTINUATION frames; the writer accepts `budget` frames and fails on the next one. Lengths are
   cast to uint32, so from 4 GiB on only a failing writer ends the loop.
   */
  method WriteContinuations(headerBlock: Octets, maxFrame: nat, budget: nat) returns (written: seq<Frame>, ok: bool)
    requires 0 < maxFrame && headerBlock != []
    ensures |headerBlock| < TWO32 ==>
              var full := Continuations(headerBlock, maxFrame);
              ok == (|full| <= budget) && written == if ok then full else full[..budget]
    ensures |headerBlock| >= TWO32 ==> !ok && |written| == budget
  {
    hide Cast32;
    written := [];
    var block := headerBlock;
    ghost var small := |headerBlock| < TWO32;
    ghost var todo := Continuations(block, maxFrame);
    while |block| > 0
      invariant |written| <= budget && |block| <= |headerBlock| && (!small ==> |block| >= TWO32)
      invariant small ==> Continuations(headerBlock, maxFrame) == written + todo
      invariant small ==> todo == if block == [] then [] else Continuations(block, maxFrame)
      decreases budget - |written|
    {
      var chunkSize, endHeaders := Cast32(|block|), false;
      if chunkSize > maxFrame {
        chunkSize := maxFrame;
      } else {
        endHeaders := true;
      }
      var chunk := block[..chunkSize];
      assert small ==> todo[0] == Continuation(chunk, endHeaders);
      if |written| == budget {
        return written, false;
      }
      if !small {
        StaysHuge(|block|, maxFrame);
      }
      block := block[chunkSize..];
      written := written + [Continuation(chunk, endHeaders)];
      todo := if small then todo[1..] else todo;
    }
    ok := true;
  }

  /** Whether the code ever gets to the end of a header block: short of 4 GiB, or one that its cast length hides. */
  predicate Finishes(block: Octets, maxFrame: nat) {
    |block| < TWO32 || Cast32(|block|) <= maxFrame
  }

  /**
   The whole request: a single HEADERS frame, or one followed by CONTINUATION frames. It succeeds exactly when
   the code gets to the end of the block and the writer takes all its frames, and then the peer has the block.
   */
  method WriteHeaders(headerBlock: Octets, maxFrame: nat, endStream: bool, pad: nat, budget: nat)
    returns (written: seq<Frame>, ok: bool)
    requires 0 < maxFrame
    ensures |headerBlock| < TWO32 ==>
              var full := Fragments(headerBlock, maxFrame, endStream, pad);
              ok == (|full| <= budget) && written == if ok then full else full[..budget]
    ensures ok ==> forall rest :: Reassemble(written + rest) == Some((headerBlock, rest))
    ensures |headerBlock| >= TWO32 ==> (ok <==> Finishes(headerBlock, maxFrame) && budget > 0)
    ensures !Finishes(headerBlock, maxFrame) ==> |written| == budget
  {
    hide Continuations, ReadOn, Cast32;
    if Cast32(|headerBlock|) <= maxFrame {
      ok := budget > 0;
      written := if ok then [Headers(headerBlock, endStream, true, pad)] else [];
      forall rest | ok ensures Reassemble(written + rest) == Some((headerBlock, rest)) {
        assert (written + rest)[1..] == rest;
      }
      return;
    }
    if budget == 0 {
      return [], false;
    }
    var first := Headers(headerBlock[..maxFrame], endStream, false, pad);
    if |headerBlock| >= TWO32 {
      StaysHuge(|headerBlock|, maxFrame);
    }
    written, ok := WriteContinuations(headerBlock[maxFrame..], maxFrame, budget - 1);
    written := [first] + written;
    forall rest | ok ensures Reassemble(written + rest) == Some((headerBlock, rest)) {
      ReassembleInverts(headerBlock, maxFrame, endStream, pad, rest);
    }
  }
}

/**
  Bounded capture of a process stream: the leading bytes and the trailing bytes are kept while
  everything is drained, and the body says how much lies between them.
 */
module StreamCapture {
  import opened Basics
  import opened Bytes

  datatype Capture = Capture(head: seq<byte>, tail: seq<byte>, total: nat)

  /** What a capture of `stream` has to hold, however the stream was cut into reads. */
  function CaptureOf(stream: seq<byte>, headCap: nat, tailCap: nat): Capture {
    var n := |stream|;
    Capture(stream[..Min(n, headCap)], stream[n - Min(n, tailCap)..], n)
  }

  method DrainStream(chunks: seq<seq<byte>>, headCap: nat, tailCap: nat) returns (c: Capture)
    ensures c == CaptureOf(Concat(chunks), headCap, tailCap)
  {
    hide CaptureOf;
    var head: seq<byte>, tail: seq<byte>, total: nat := [], [], 0;
    NothingCaptured(headCap, tailCap);
    for i := 0 to |chunks|
      invariant Capture(head, tail, total) == CaptureOf(Concat(chunks[..i]), headCap, tailCap)
    {
      var chunk := chunks[i];
      assert chunks[..i + 1] == chunks[..i] + [chunk];
      ConcatAppend(chunks[..i], chunk);
      CaptureOneMore(Concat(chunks[..i]), chunk, headCap, tailCap);
      total := total + |chunk|;
      var room := Monus(headCap, |head|);
      if room > 0 {
        head := head + chunk[..Min(|chunk|, room)];
      }
      tail := tail + chunk;
      var excess := Monus(|tail|, tailCap);
      if excess > 0 {
        tail := tail[excess..];
      }
    }
    assert chunks[..|chunks|] == chunks;
    c := Capture(head, tail, total);
  }

  lemma NothingCaptured(headCap: nat, tailCap: nat)
    ensures CaptureOf(Concat([]), headCap, tailCap) == Capture([], [], 0)
  {
  }

  lemma CaptureOneMore(stream: seq<byte>, chunk: seq<byte>, headCap: nat, tailCap: nat)
    ensures var (c, d) := (CaptureOf(stream, headCap, tailCap), CaptureOf(stream + chunk, headCap, tailCap));
      var room := Monus(headCap, |c.head|);
      && d.head == (if room > 0 then c.head + chunk[..Min(|chunk|, room)] else c.head)
      && d.total == c.total + |chunk|
      && d.tail == (c.tail + chunk)[Monus(|c.tail + chunk|, tailCap)..]
  {
    HeadOneMore(stream, chunk, headCap);
    TailOneMore(stream, chunk, tailCap);
  }

  lemma HeadOneMore(stream: seq<byte>, chunk: seq<byte>, headCap: nat)
    ensures var (head, all) := (stream[..Min(|stream|, headCap)], stream + chunk);
      var room := Monus(headCap, |head|);
      all[..Min(|all|, headCap)] == if room > 0 then head + chunk[..Min(|chunk|, room)] else head
  {
    var all := stream + chunk;
    if |stream| < headCap {
      assert stream[..|stream|] == stream;
      assert stream + chunk[..Min(|chunk|, headCap - |stream|)] == all[..Min(|all|, headCap)];
    } else {
      assert all[..headCap] == stream[..headCap];
    }
  }

  lemma TailOneMore(stream: seq<byte>, chunk: seq<byte>, tailCap: nat)
    ensures var (tail, all) := (stream[|stream| - Min(|stream|, tailCap)..], stream + chunk);
      all[|all| - Min(|all|, tailCap)..] == (tail + chunk)[Monus(|tail + chunk|, tailCap)..]
  {
    var (tail, all) := (stream[|stream| - Min(|stream|, tailCap)..], stream + chunk);
    var kept := tail + chunk;
    assert kept == all[|all| - |kept|..];
    var excess := Monus(|kept|, tailCap);
    assert kept[excess..] == all[|all| - |kept| + excess..];
  }

  predicate Truncated(c: Capture) {
    |c.head| != c.total
  }

  function Marker(omitted: nat): seq<byte> {
    Ascii("\n... [" + Decimal(omitted) + " bytes omitted mid-stream] ...\n")
  }

  /** The marker tells the count. */
  lemma MarkersDiffer(m: nat, n: nat)
    requires Marker(m) == Marker(n)
    ensures m == n
  {
    hide Ascii, Decimal;
    var back := " bytes omitted mid-stream] ...\n";
    assert "\n... [" + Decimal(m) + back + "" + "" == "\n... [" + Decimal(m) + back;
    assert "\n... [" + Decimal(n) + back + "" + "" == "\n... [" + Decimal(n) + back;
    SameParts("\n... [", m, n, back, "", "", "");
  }

  function Body(c: Capture): seq<byte>
    requires |c.head| <= c.total
  {
    if !Truncated(c) then c.head
    else
      var covered := |c.head|;
      var beyond := Min(c.total - covered, |c.tail|);
      var omitted := c.total - covered - beyond;
      var ending := c.tail[|c.tail| - beyond..];
      if omitted > 0 then c.head + Marker(omitted) + ending else c.head + ending
  }

  /** Within the two caps the body is the stream; beyond them it is the beginning, the exact
      count of what is missing, and the true ending. */
  lemma BodyOfCapture(stream: seq<byte>, headCap: nat, tailCap: nat)
    ensures var body := Body(CaptureOf(stream, headCap, tailCap));
      var n := |stream|;
      if n <= headCap + tailCap then body == stream
      else body == stream[..headCap] + Marker(n - headCap - tailCap) + stream[n - tailCap..]
  {
    hide Marker, CaptureOf, Body, Truncated;
    var n := |stream|;
    if n <= headCap {
      CaptureParts(stream, headCap, tailCap, 0);
      BodyWhole(CaptureOf(stream, headCap, tailCap));
    } else if n <= headCap + tailCap {
      WithinBoth(stream, headCap, tailCap);
    } else {
      CaptureParts(stream, headCap, tailCap, tailCap);
      BodyCut(CaptureOf(stream, headCap, tailCap));
    }
  }

  lemma WithinBoth(stream: seq<byte>, headCap: nat, tailCap: nat)
    requires headCap < |stream| <= headCap + tailCap
    ensures Body(CaptureOf(stream, headCap, tailCap)) == stream
  {
    hide Marker, CaptureOf, Body, Truncated;
    var beyond := |stream| - headCap;
    CaptureParts(stream, headCap, tailCap, beyond);
    BodyJoined(CaptureOf(stream, headCap, tailCap), beyond);
    assert stream == stream[..headCap] + stream[headCap..];
  }

  lemma BodyWhole(c: Capture)
    requires |c.head| == c.total
    ensures Body(c) == c.head
  {
  }

  /** The tail reaches back to the head. */
  lemma BodyJoined(c: Capture, beyond: nat)
    requires |c.head| + beyond == c.total && 0 < beyond <= |c.tail|
    ensures Body(c) == c.head + c.tail[|c.tail| - beyond..]
  {
    hide Marker;
  }

  lemma BodyCut(c: Capture)
    requires |c.head| + |c.tail| < c.total
    ensures Body(c) == c.head + Marker(c.total - |c.head| - |c.tail|) + c.tail
  {
    hide Marker;
    assert c.tail[|c.tail| - |c.tail|..] == c.tail;
  }

  lemma CaptureParts(stream: seq<byte>, headCap: nat, tailCap: nat, beyond: nat)
    requires beyond <= Min(|stream|, tailCap)
    ensures var c := CaptureOf(stream, headCap, tailCap);
      var n := |stream|;
      && c.total == n && |c.head| == Min(n, headCap) && |c.tail| == Min(n, tailCap)
      && (n <= headCap ==> c.head == stream)
      && (n >= headCap ==> c.head == stream[..headCap])
      && c.tail[|c.tail| - beyond..] == stream[n - beyond..]
      && (beyond == |c.tail| ==> c.tail == stream[n - beyond..])
  {
    TailEnd(stream, tailCap, beyond);
  }

  /** The end of the ring is the end of the stream. */
  lemma TailEnd(stream: seq<byte>, tailCap: nat, beyond: nat)
    requires beyond <= Min(|stream|, tailCap)
    ensures var tail := stream[|stream| - Min(|stream|, tailCap)..];
      tail[|tail| - beyond..] == stream[|stream| - beyond..]
  {
  }

  /**
    The body is the whole stream exactly when the stream fits the caps, or when what is cut out
    happens to spell the marker that replaces it.
   */
  lemma BodyIsStreamExactly(stream: seq<byte>, headCap: nat, tailCap: nat)
    ensures Body(CaptureOf(stream, headCap, tailCap)) == stream
       <==> || |stream| <= headCap + tailCap
            || stream[headCap..|stream| - tailCap] == Marker(|stream| - headCap - tailCap)
  {
    BodyOfCapture(stream, headCap, tailCap);
    var n := |stream|;
    if n > headCap + tailCap {
      var middle := stream[headCap..n - tailCap];
      var marker := Marker(n - headCap - tailCap);
      assert stream == stream[..headCap] + middle + stream[n - tailCap..];
      var body := stream[..headCap] + marker + stream[n - tailCap..];
      if body == stream {
        assert |marker| == |middle|;
        assert body[headCap..headCap + |marker|] == marker;
      }
    }
  }

  /**
    The flag says that the stream is longer than the head's cap, not that anything is missing: from
    there to both caps it is set and the body is the whole stream, at every length in between and
    at no other.
   */
  lemma FlaggedWholeExactly(stream: seq<byte>, headCap: nat, tailCap: nat)
    ensures var c := CaptureOf(stream, headCap, tailCap);
      && (Truncated(c) <==> |stream| > headCap)
      && (Truncated(c) && Monus(c.total, |c.head| + |c.tail|) == 0 <==> headCap < |stream| <= headCap + tailCap)
      && (headCap < |stream| <= headCap + tailCap ==> Body(c) == stream)
  {
    hide Body;
    CaptureParts(stream, headCap, tailCap, 0);
    BodyOfCapture(stream, headCap, tailCap);
  }

  /** Such a stream exists: 39 bytes that say that 39 bytes are missing. */
  lemma MarkerCanBeReal(headCap: nat, tailCap: nat, head: seq<byte>, tail: seq<byte>)
    requires |head| == headCap && |tail| == tailCap
    ensures var stream := head + Marker(39) + tail;
      |stream| > headCap + tailCap && Body(CaptureOf(stream, headCap, tailCap)) == stream
  {
    assert Decimal(39) == Decimal(3) + "9" == "39";
    assert |"\n... [" + Decimal(39) + " bytes omitted mid-stream] ...\n"| == 39;
    var stream := head + Marker(39) + tail;
    assert stream[headCap..|stream| - tailCap] == Marker(39);
    BodyIsStreamExactly(stream, headCap, tailCap);
  }
}

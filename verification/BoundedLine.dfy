/** Reading newline-terminated messages of bounded size from a buffered reader. */
module BoundedLine {
  import opened Bytes
  import opened SseFraming

  datatype BoundedRead = Line | TooLarge | Eof

  /** A buffered reader: the bytes it holds, and the chunks that will arrive. */
  class BufReader {
    var available: seq<byte>
    var chunks: seq<seq<byte>>

    constructor (chunks: seq<seq<byte>>)
      requires forall i :: 0 <= i < |chunks| ==> chunks[i] != []
      ensures Valid() && Unread() == Concat(chunks)
    {
      available, this.chunks := [], chunks;
    }

    ghost predicate Valid()
      reads this
    {
      forall i :: 0 <= i < |chunks| ==> chunks[i] != []
    }

    ghost function Unread(): seq<byte>
      reads this
    {
      available + Concat(chunks)
    }

    /** Empty only at the end of the input. */
    method FillBuf() returns (bytes: seq<byte>)
      requires Valid()
      modifies this
      ensures Valid() && Unread() == old(Unread()) && bytes == available
      ensures bytes <= Unread() && (bytes == [] ==> Unread() == [])
    {
      if available == [] && chunks != [] {
        available, chunks := chunks[0], chunks[1..];
      }
      bytes := available;
    }

    method Consume(n: nat)
      requires Valid() && n <= |available|
      modifies this
      ensures Valid() && Unread() == old(Unread())[n..] && |Concat(chunks)| == old(|Concat(chunks)|)
    {
      available := available[n..];
    }
  }

  /** The bytes before the first newline of the input. */
  function Payload(input: seq<byte>): seq<byte> {
    input[..NewlineAt(input)]
  }

  /** What is left once the line and its newline are read. */
  function AfterLine(input: seq<byte>): seq<byte> {
    if NewlineAt(input) == |input| then [] else input[NewlineAt(input) + 1..]
  }

  lemma {:induction false} NewlineFar(p: seq<byte>, q: seq<byte>)
    requires NewlineAt(p) == |p|
    ensures NewlineAt(p + q) == |p| + NewlineAt(q)
  {
    if p == [] {
      assert p + q == q;
    } else {
      assert (p + q)[1..] == p[1..] + q;
      NewlineFar(p[1..], q);
    }
  }

  lemma Associative(p: seq<byte>, q: seq<byte>, r: seq<byte>)
    ensures p + (q + r) == p + q + r && (q + r)[|q|..] == r
  {
  }

  lemma LastLine(done: seq<byte>)
    requires NewlineAt(done) == |done|
    ensures Payload(done) == done && AfterLine(done) == []
  {
    hide NewlineAt;
  }

  /** The newline is in the bytes at hand. */
  lemma LineEnds(done: seq<byte>, available: seq<byte>, rest: seq<byte>)
    requires NewlineAt(done) == |done| && NewlineAt(available) < |available|
    ensures var (input, position) := (done + (available + rest), NewlineAt(available));
      && Payload(input) == done + available[..position]
      && AfterLine(input) == (available + rest)[position + 1..]
  {
    hide NewlineAt;
    NewlineOfConcat(available, rest);
    NewlineFar(done, available + rest);
    CutAt(done, available + rest, NewlineAt(available));
    PrefixOf(available, rest, NewlineAt(available));
  }

  lemma CutAt(p: seq<byte>, q: seq<byte>, i: nat)
    requires i < |q|
    ensures (p + q)[..|p| + i] == p + q[..i] && (p + q)[|p| + i + 1..] == q[i + 1..]
  {
  }

  lemma PrefixOf(p: seq<byte>, q: seq<byte>, i: nat)
    requires i <= |p|
    ensures (p + q)[..i] == p[..i]
  {
  }

  /** What is kept of the line while it grows: nothing once it is too long. */
  method AddPayload(line0: seq<byte>, overflow0: bool, payload: seq<byte>, limit: nat, ghost done: seq<byte>)
    returns (overflow: bool, line: seq<byte>)
    requires overflow0 <==> |done| > limit
    requires line0 == if overflow0 then [] else done
    ensures overflow <==> |done + payload| > limit
    ensures line == if overflow then [] else done + payload
  {
    overflow, line := overflow0, line0;
    if !overflow {
      if |line| + |payload| > limit {
        overflow := true;
        line := [];
      } else {
        line := line + payload;
      }
    }
  }

  /** What one buffer of bytes adds to the line. `done` has been consumed and holds no newline. */
  method TakeChunk(reader: BufReader, limit: nat, line0: seq<byte>, overflow0: bool, ghost done: seq<byte>)
    returns (newline: bool, overflow: bool, line: seq<byte>, ghost more: seq<byte>)
    requires reader.Valid() && reader.available != [] && NewlineAt(done) == |done|
    requires (overflow0 <==> |done| > limit) && line0 == if overflow0 then [] else done
    modifies reader
    ensures reader.Valid() && |reader.Unread()| < |old(reader.Unread())|
    ensures newline ==> reader.Unread() == AfterLine(done + old(reader.Unread()))
    ensures newline ==> more == Payload(done + old(reader.Unread()))
    ensures !newline ==>
      NewlineAt(more) == |more| && |more| > |done| && done + old(reader.Unread()) == more + reader.Unread()
    ensures (overflow <==> |more| > limit) && line == if overflow then [] else more
  {
    hide NewlineAt, Payload, AfterLine, Concat, BufReader.Unread, BufReader.Valid;
    var available := reader.available;
    ghost var rest := Concat(reader.chunks);
    UnreadParts(reader);
    var position := NewlineAt(available);
    newline := position < |available|;
    if newline {
      LineEnds(done, available, rest);
    } else {
      NewlineFar(done, available);
    }
    Associative(done, available, rest);
    var consumed := if newline then position + 1 else |available|;
    var payload := available[..if newline then consumed - 1 else consumed];
    assert !newline ==> payload == available;
    overflow, line := AddPayload(line0, overflow0, payload, limit, done);
    more := done + payload;
    reader.Consume(consumed);
  }

  /**
    For every way the input arrives: TooLarge exactly when the payload exceeds the limit, Eof
    exactly when there is no input, and otherwise the payload. In every case exactly one line is
    consumed.
   */
  method ReadBoundedLine(reader: BufReader, limit: nat) returns (read: BoundedRead, line: seq<byte>)
    requires reader.Valid()
    modifies reader
    ensures reader.Valid() && reader.Unread() == AfterLine(old(reader.Unread()))
    ensures read == TooLarge <==> |Payload(old(reader.Unread()))| > limit
    ensures read == Eof <==> old(reader.Unread()) == []
    ensures read == Line ==> line == Payload(old(reader.Unread()))
    ensures read != Line ==> line == []
  {
    hide NewlineAt, Payload, AfterLine, BufReader.Unread, BufReader.Valid, Concat;
    var overflow, sawAny := false, false;
    line := [];
    ghost var done: seq<byte> := [];  // what has been consumed: no newline so far
    NoNewline();
    while true
      invariant reader.Valid() && old(reader.Unread()) == done + reader.Unread()
      invariant NewlineAt(done) == |done|
      invariant sawAny <==> done != []
      invariant overflow <==> |done| > limit
      invariant line == if overflow then [] else done
      decreases |reader.Unread()|
    {
      var available := reader.FillBuf();
      if available == [] {
        assert done + reader.Unread() == done;
        LastLine(done);
        read := if overflow then TooLarge else if sawAny then Line else Eof;
        return;
      }
      sawAny := true;
      var newline;
      newline, overflow, line, done := TakeChunk(reader, limit, line, overflow, done);
      read := if overflow then TooLarge else Line;
      if newline {
        return;
      }
    }
  }

  lemma NoNewline()
    ensures NewlineAt([]) == 0
  {
  }

  lemma UnreadParts(reader: BufReader)
    ensures reader.Unread() == reader.available + Concat(reader.chunks)
  {
  }
}

/**
  Framing a provider's byte stream: server-sent event lines, and the tool calls that arrive in
  fragments over many of them. How the bytes are cut into chunks makes no difference.
 */
module SseFraming {
  import opened Options
  import opened Bytes

  // ----- lines

  /** The index of the first newline, or the length when there is none. */
  function NewlineAt(s: seq<byte>): (n: nat)
    ensures n <= |s| && (n < |s| ==> s[n] == NEWLINE)
    ensures forall i :: 0 <= i < n ==> s[i] != NEWLINE
  {
    if s == [] || s[0] == NEWLINE then 0 else 1 + NewlineAt(s[1..])
  }

  function StripReturn(line: seq<byte>): seq<byte> {
    if line != [] && line[|line| - 1] == CARRIAGE_RETURN then line[..|line| - 1] else line
  }

  /** The complete lines of a stream: LF or CRLF ends one (section 9.2.5 of the HTML standard). */
  function Lines(s: seq<byte>): seq<seq<byte>>
    decreases |s|
  {
    var n := NewlineAt(s);
    if n == |s| then [] else [StripReturn(s[..n])] + Lines(s[n + 1..])
  }

  /** The bytes after the last complete line. */
  function Leftover(s: seq<byte>): (r: seq<byte>)
    decreases |s|
  {
    var n := NewlineAt(s);
    if n == |s| then s else Leftover(s[n + 1..])
  }

  lemma {:induction false} NewlineOfConcat(p: seq<byte>, q: seq<byte>)
    requires NewlineAt(p) < |p|
    ensures NewlineAt(p + q) == NewlineAt(p)
  {
    if p[0] != NEWLINE {
      assert (p + q)[1..] == p[1..] + q;
      NewlineOfConcat(p[1..], q);
    }
  }

  /** Decoding may stop anywhere and go on with what was left over. */
  lemma {:induction false} LinesOfConcat(p: seq<byte>, q: seq<byte>)
    ensures Lines(p + q) == Lines(p) + Lines(Leftover(p) + q)
    ensures Leftover(p + q) == Leftover(Leftover(p) + q)
    decreases |p|
  {
    hide NewlineAt, StripReturn, Lines, Leftover;
    var n := NewlineAt(p);
    FirstLine(p);
    if n < |p| {
      NewlineOfConcat(p, q);
      FirstLine(p + q);
      assert (p + q)[..n] == p[..n] && (p + q)[n + 1..] == p[n + 1..] + q;
      LinesOfConcat(p[n + 1..], q);
    }
  }

  lemma FirstLine(s: seq<byte>)
    ensures var n := NewlineAt(s);
      if n == |s| then Lines(s) == [] && Leftover(s) == s
      else Lines(s) == [StripReturn(s[..n])] + Lines(s[n + 1..]) && Leftover(s) == Leftover(s[n + 1..])
  {
    hide NewlineAt, StripReturn, Lines, Leftover;
    if NewlineAt(s) == |s| {
      NoLine(s);
    } else {
      OneLine(s, NewlineAt(s), s[NewlineAt(s) + 1..]);
    }
  }

  lemma NoLine(s: seq<byte>)
    requires NewlineAt(s) == |s|
    ensures Lines(s) == [] && Leftover(s) == s
  {
    hide NewlineAt;
  }

  lemma OneLine(s: seq<byte>, n: nat, rest: seq<byte>)
    requires NewlineAt(s) == n < |s| && rest == s[n + 1..]
    ensures Lines(s) == [StripReturn(s[..n])] + Lines(rest) && Leftover(s) == Leftover(rest)
  {
    hide NewlineAt, StripReturn;
  }

  // ----- a stream written down line by line

  datatype StreamLine = StreamLine(text: seq<byte>, crlf: bool)

  /** A line holds no line feed, and a line that ends in CR is not ended by LF alone. */
  predicate IsLine(line: StreamLine) {
    && NEWLINE !in line.text
    && (line.crlf || line.text == [] || line.text[|line.text| - 1] != CARRIAGE_RETURN)
  }

  function Written(line: StreamLine): seq<byte> {
    line.text + (if line.crlf then [CARRIAGE_RETURN] else []) + [NEWLINE]
  }

  /** Lines, each with its ending, and the start of one more. */
  function WrittenLines(lines: seq<StreamLine>, rest: seq<byte>): seq<byte> {
    if lines == [] then rest else Written(lines[0]) + WrittenLines(lines[1..], rest)
  }

  function Texts(lines: seq<StreamLine>): seq<seq<byte>> {
    seq(|lines|, i requires 0 <= i < |lines| => lines[i].text)
  }

  ghost predicate AreLines(lines: seq<StreamLine>, rest: seq<byte>) {
    (forall i :: 0 <= i < |lines| ==> IsLine(lines[i])) && NEWLINE !in rest
  }

  lemma {:induction false} NewlineIs(s: seq<byte>, n: nat)
    requires n <= |s| && NEWLINE !in s[..n] && (n < |s| ==> s[n] == NEWLINE)
    ensures NewlineAt(s) == n
  {
    if n > 0 {
      assert s[..n][0] == s[0] && s[1..][..n - 1] == s[..n][1..];
      NewlineIs(s[1..], n - 1);
    }
  }

  lemma WrittenFirst(line: StreamLine, more: seq<byte>)
    requires IsLine(line)
    ensures Lines(Written(line) + more) == [line.text] + Lines(more)
    ensures Leftover(Written(line) + more) == Leftover(more)
  {
    hide Lines, Leftover, NewlineAt;
    var s := Written(line) + more;
    var n := |Written(line)| - 1;
    assert s[..n] == line.text + if line.crlf then [CARRIAGE_RETURN] else [];
    NewlineIs(s, n);
    FirstLine(s);
    assert s[n + 1..] == more;
    assert StripReturn(s[..n]) == line.text;
  }

  /** The lines of a stream are those it was written down from. */
  lemma {:induction false} WrittenLinesAreRead(lines: seq<StreamLine>, rest: seq<byte>)
    requires AreLines(lines, rest)
    ensures Lines(WrittenLines(lines, rest)) == Texts(lines) && Leftover(WrittenLines(lines, rest)) == rest
  {
    hide Lines, Leftover, NewlineAt, Written, IsLine;
    if lines == [] {
      assert rest[..|rest|] == rest;
      NewlineIs(rest, |rest|);
      FirstLine(rest);
    } else {
      WrittenLinesAreRead(lines[1..], rest);
      WrittenFirst(lines[0], WrittenLines(lines[1..], rest));
      assert Texts(lines) == [lines[0].text] + Texts(lines[1..]);
    }
  }

  /** Every stream can be written down in this way. */
  lemma {:induction false} EveryStreamIsWritten(s: seq<byte>) returns (lines: seq<StreamLine>)
    ensures AreLines(lines, Leftover(s)) && WrittenLines(lines, Leftover(s)) == s
    decreases |s|
  {
    hide Lines, Leftover, NewlineAt;
    var n := NewlineAt(s);
    FirstLine(s);
    if n == |s| {
      lines := [];
    } else {
      var more := EveryStreamIsWritten(s[n + 1..]);
      var line := StreamLine(StripReturn(s[..n]), n > 0 && s[n - 1] == CARRIAGE_RETURN);
      lines := [line] + more;
      assert lines[1..] == more;
      assert s == s[..n] + [NEWLINE] + s[n + 1..];
      assert Written(line) == s[..n] + [NEWLINE];
    }
  }

  /** Lines that a text decoder accepts. */
  ghost predicate AllValid(lines: seq<seq<byte>>, valid: seq<byte> -> bool) {
    forall i :: 0 <= i < |lines| ==> valid(lines[i])
  }

  /** Drains the complete lines of the buffer; None when one of them is not valid text. */
  method DecodeSseLines(buffer0: seq<byte>, chunk: seq<byte>, valid: seq<byte> -> bool)
    returns (lines: Option<seq<seq<byte>>>, buffer: seq<byte>)
    ensures if AllValid(Lines(buffer0 + chunk), valid)
      then lines == Some(Lines(buffer0 + chunk)) && buffer == Leftover(buffer0 + chunk)
      else lines == None
  {
    hide NewlineAt, StripReturn;
    buffer := buffer0 + chunk;
    ghost var all := buffer;
    var decoded := [];
    while NewlineAt(buffer) < |buffer|
      invariant AllValid(decoded, valid)
      invariant decoded + Lines(buffer) == Lines(all) && Leftover(buffer) == Leftover(all)
      decreases |buffer|
    {
      var end := NewlineAt(buffer);
      var line := StripReturn(buffer[..end]);
      buffer := buffer[end + 1..];
      assert decoded + ([line] + Lines(buffer)) == decoded + [line] + Lines(buffer);
      if !valid(line) {
        assert Lines(all)[|decoded|] == line;
        return None, buffer;
      }
      decoded := decoded + [line];
    }
    assert decoded + [] == decoded;
    lines := Some(decoded);
  }

  // ----- tool calls in fragments

  datatype Fragment = Fragment(index: nat, id: string, name: string, arguments: string)

  datatype Accumulator = Accumulator(index: nat, id: string, name: string, arguments: string)

  /** The accumulators in index order; a fragment extends its own or starts it. */
  function AddFragment(calls: seq<Accumulator>, f: Fragment): seq<Accumulator> {
    if calls == [] || f.index < calls[0].index then
      [Accumulator(f.index, f.id, f.name, f.arguments)] + calls
    else if f.index == calls[0].index then
      [Accumulator(f.index, calls[0].id + f.id, calls[0].name + f.name, calls[0].arguments + f.arguments)] + calls[1..]
    else
      [calls[0]] + AddFragment(calls[1..], f)
  }

  function AddFragments(calls: seq<Accumulator>, fragments: seq<Fragment>): seq<Accumulator> {
    if fragments == [] then calls
    else AddFragment(AddFragments(calls, fragments[..|fragments| - 1]), fragments[|fragments| - 1])
  }

  /** Strictly increasing indices. */
  ghost predicate Sorted(calls: seq<Accumulator>) {
    forall i, j :: 0 <= i < j < |calls| ==> calls[i].index < calls[j].index
  }

  /** All the fragments of one index, joined in order of arrival; None when there are none. */
  function Joined(fragments: seq<Fragment>, index: nat): Option<Accumulator> {
    if fragments == [] then None
    else
      var f := fragments[|fragments| - 1];
      var before := Joined(fragments[..|fragments| - 1], index);
      if f.index != index then before
      else match before
        case None => Some(Accumulator(index, f.id, f.name, f.arguments))
        case Some(a) => Some(Accumulator(index, a.id + f.id, a.name + f.name, a.arguments + f.arguments))
  }

  /** The accumulator of an index. */
  function Find(calls: seq<Accumulator>, index: nat): Option<Accumulator> {
    if calls == [] then None else if calls[0].index == index then Some(calls[0]) else Find(calls[1..], index)
  }

  lemma {:induction false} AddFragmentFinds(calls: seq<Accumulator>, f: Fragment, index: nat)
    requires Sorted(calls)
    ensures Sorted(AddFragment(calls, f))
    ensures calls != [] && AddFragment(calls, f) != [] ==>
      AddFragment(calls, f)[0].index == if f.index < calls[0].index then f.index else calls[0].index
    ensures Find(AddFragment(calls, f), index) ==
      if index != f.index then Find(calls, index)
      else match Find(calls, index)
        case None => Some(Accumulator(index, f.id, f.name, f.arguments))
        case Some(a) => Some(Accumulator(index, a.id + f.id, a.name + f.name, a.arguments + f.arguments))
  {
    var added := AddFragment(calls, f);
    if calls == [] || f.index < calls[0].index {
      assert added[1..] == calls;
      NotFound(calls, f.index);
    } else if f.index == calls[0].index {
      assert added[1..] == calls[1..];
    } else {
      AddFragmentFinds(calls[1..], f, index);
      assert added[1..] == AddFragment(calls[1..], f);
    }
  }

  lemma {:induction false} NotFound(calls: seq<Accumulator>, index: nat)
    requires forall i :: 0 <= i < |calls| ==> calls[i].index != index
    ensures Find(calls, index) == None
  {
    if calls != [] {
      NotFound(calls[1..], index);
    }
  }

  /** Reassembly: one call for each index, in index order, with all its fragments in order. */
  lemma {:induction false} Reassembled(fragments: seq<Fragment>, index: nat)
    ensures Sorted(AddFragments([], fragments))
    ensures Find(AddFragments([], fragments), index) == Joined(fragments, index)
  {
    if fragments != [] {
      var last := |fragments| - 1;
      Reassembled(fragments[..last], index);
      AddFragmentFinds(AddFragments([], fragments[..last]), fragments[last], index);
    }
  }

  /** Fragments of one call may come in several lines. */
  lemma {:induction false} AddInParts(calls: seq<Accumulator>, p: seq<Fragment>, q: seq<Fragment>)
    ensures AddFragments(calls, p + q) == AddFragments(AddFragments(calls, p), q)
  {
    if q == [] {
      assert p + q == p;
    } else {
      var last := |q| - 1;
      assert (p + q)[..|p + q| - 1] == p + q[..last];
      AddInParts(calls, p, q[..last]);
    }
  }
}

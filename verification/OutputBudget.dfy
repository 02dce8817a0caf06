/**
  The output budget that stdout and stderr share. A stream that does not fit is spilled to a file
  and shown as its head and tail around a marker; the marker names the file and the count.
 */
module OutputBudget {
  import opened Basics
  import opened Options
  import opened Bytes

  const SPILL_HEAD_BYTES := 64 * 1024
  const SPILL_TAIL_BYTES := 16 * 1024
  const MARKER_RESERVE := 160

  // ----- the spill path

  predicate IsSafe(c: char) {
    'a' <= c <= 'z' || 'A' <= c <= 'Z' || '0' <= c <= '9' || c == '.' || c == '-' || c == '_'
  }

  /** The call id with every unsafe character replaced, cut to 64 characters, never empty. */
  function StemOf(callId: string): (stem: string)
    ensures 1 <= |stem| <= 64 && forall i :: 0 <= i < |stem| ==> IsSafe(stem[i])
  {
    if callId == "" then "call"
    else seq(Min(|callId|, 64), i requires 0 <= i < Min(|callId|, 64) => if IsSafe(callId[i]) then callId[i] else '_')
  }

  method SpillStem(callId: string) returns (stem: string)
    ensures stem == StemOf(callId)
    ensures callId != "" ==>
      && |stem| == Min(|callId|, 64)
      && forall i :: 0 <= i < |stem| ==> stem[i] == if IsSafe(callId[i]) then callId[i] else '_'
  {
    stem := "";
    for i := 0 to Min(|callId|, 64)
      invariant |stem| == i
      invariant forall j :: 0 <= j < i ==> stem[j] == if IsSafe(callId[j]) then callId[j] else '_'
    {
      stem := stem + [if IsSafe(callId[i]) then callId[i] else '_'];
    }
    if stem == "" {
      stem := "call";
    }
  }

  function SpillPath(stem: string, stream: string, suffix: string): string {
    ".cool/spill/" + stem + "-" + stream + "-" + suffix + ".txt"
  }

  /** The path tells the stem, the stream and the suffix. */
  lemma SpillPathsDiffer(stem: string, stream: string, suffix: string, stem': string, stream': string, suffix': string)
    requires stream in {"stdout", "stderr"} && stream' in {"stdout", "stderr"} && |suffix| == 8 == |suffix'|
    requires SpillPath(stem, stream, suffix) == SpillPath(stem', stream', suffix')
    ensures stem == stem' && stream == stream' && suffix == suffix'
  {
    var (p, q) := (SpillPath(stem, stream, suffix), SpillPath(stem', stream', suffix'));
    var (n, k) := (|p|, |".cool/spill/"|);
    assert k == 12 && |".txt"| == 4;
    assert p[n - 12..n - 4] == suffix && q[n - 12..n - 4] == suffix';
    assert p[n - 19..n - 13] == stream && q[n - 19..n - 13] == stream';
    assert p[k..n - 20] == stem && q[k..n - 20] == stem';
  }

  // ----- UTF-8 boundaries

  /** An index where a character starts, or the end (section 3 of RFC 3629). */
  predicate IsBoundary(text: seq<byte>, i: nat) {
    i == 0 || i == |text| || (i < |text| && !(0x80 <= text[i] < 0xC0))
  }

  method FloorBoundary(text: seq<byte>, index: nat) returns (i: nat)
    ensures i <= Min(index, |text|) && IsBoundary(text, i)
    ensures forall j :: i < j <= Min(index, |text|) ==> !IsBoundary(text, j)
  {
    i := Min(index, |text|);
    while !IsBoundary(text, i)
      invariant i <= Min(index, |text|)
      invariant forall j :: i < j <= Min(index, |text|) ==> !IsBoundary(text, j)
      decreases i
    {
      i := i - 1;
    }
  }

  method CeilBoundary(text: seq<byte>, index: nat) returns (i: nat)
    ensures Min(index, |text|) <= i <= |text| && IsBoundary(text, i)
    ensures forall j :: Min(index, |text|) <= j < i ==> !IsBoundary(text, j)
  {
    i := Min(index, |text|);
    while !IsBoundary(text, i)
      invariant Min(index, |text|) <= i <= |text|
      invariant forall j :: Min(index, |text|) <= j < i ==> !IsBoundary(text, j)
      decreases |text| - i
    {
      i := i + 1;
    }
  }

  // ----- the view

  function ViewMarker(omitted: nat, path: string): seq<byte> {
    Ascii("\n... [truncated " + Decimal(omitted) + " bytes; full output: " + path + "] ...\n")
  }

  /** The marker tells the count and the path. */
  lemma ViewMarkersDiffer(omitted: nat, path: string, omitted': nat, path': string)
    requires IsAscii(path) && IsAscii(path')
    requires ViewMarker(omitted, path) == ViewMarker(omitted', path')
    ensures omitted == omitted' && path == path'
  {
    hide Ascii, Decimal;
    SameParts("\n... [truncated ", omitted, omitted', " bytes; full output: ", path, path', "] ...\n");
  }

  /** `view` shows text[..h] and text[t..], as much as the two limits allow, and counts what lies between. */
  ghost predicate ViewOf(text: seq<byte>, head: nat, tail: nat, path: string, view: seq<byte>, h: nat, t: nat) {
    && h <= head && |text| - tail <= t <= |text| && h <= t
    && IsBoundary(text, h) && IsBoundary(text, t)
    && (forall j :: h < j <= head ==> !IsBoundary(text, j))
    && (forall j: nat :: |text| - tail <= j < t ==> !IsBoundary(text, j))
    && view == text[..h] + ViewMarker(t - h, path) + text[t..]
  }

  /** A whole text, or its beginning and end on character boundaries around a marker with the
      exact count of what is left out. */
  method HeadTailView(text: seq<byte>, head: nat, tail: nat, path: string) returns (view: seq<byte>)
    requires |text| <= U64_MAX
    ensures |text| <= head + tail ==> view == text
    ensures |text| > head + tail ==> exists h: nat, t: nat :: ViewOf(text, head, tail, path, view, h, t)
    ensures |text| > head + tail ==> |view| <= head + tail + 63 + |path|
  {
    if |text| <= head + tail {
      return text;
    }
    var headEnd := FloorBoundary(text, head);
    var tailStart := CeilBoundary(text, |text| - tail);
    var omitted := Monus(tailStart, headEnd);
    MarkerLength(omitted, path);
    view := text[..headEnd] + ViewMarker(omitted, path) + text[tailStart..];
    assert |text| > head + tail ==> ViewOf(text, head, tail, path, view, headEnd, tailStart);
  }

  /** The marker's fixed text is 43 bytes; a 64-bit count is at most 20 more. */
  lemma MarkerLength(omitted: nat, path: string)
    requires omitted <= U64_MAX
    ensures |ViewMarker(omitted, path)| <= 63 + |path|
  {
    U64Digits(omitted);
    assert |"\n... [truncated "| == 16 && |" bytes; full output: "| == 21 && |"] ...\n"| == 6;
  }

  /** The longest spill path and any 64-bit count fit the reserve, with one byte to spare. */
  lemma ReserveSuffices(stem: string, stream: string, suffix: string, omitted: nat)
    requires |stem| <= 64 && stream in {"stdout", "stderr"} && |suffix| == 8 && omitted <= U64_MAX
    ensures |ViewMarker(omitted, SpillPath(stem, stream, suffix))| <= MARKER_RESERVE - 1
  {
    MarkerLength(omitted, SpillPath(stem, stream, suffix));
    assert |".cool/spill/"| == 12 && |".txt"| == 4;
  }

  // ----- the budget

  /**
    How one stream is shown against a budget, and what is left of it: whole if it fits; otherwise
    its head and tail around the marker, or nothing if the marker's reserve is all there is.
   */
  ghost predicate Fitted(body: seq<byte>, budget: nat, path: string, text: seq<byte>, left: nat) {
    if |body| <= budget then text == body && left == budget - |body|
    else
      var inner := Monus(budget, 160);
      var tail := Min(16 * 1024, inner / 4);
      var head := Min(64 * 1024, inner - tail);
      && left == Monus(budget, |text| + |path|)
      && (inner == 0 ==> text == [])
      && (inner > 0 ==> exists h: nat, t: nat :: ViewOf(body, head, tail, path, text, h, t))
  }

  /** One stream against what is left of the budget. */
  method FitStream(body: seq<byte>, budget: nat, stem: string, stream: string, suffix: string)
    returns (text: seq<byte>, left: nat, spilled: Option<string>)
    requires |body| <= U64_MAX && |stem| <= 64 && stream in {"stdout", "stderr"} && |suffix| == 8
    ensures spilled == None <==> |body| <= budget
    ensures spilled.Some? ==> spilled.value == SpillPath(stem, stream, suffix)
    ensures Fitted(body, budget, SpillPath(stem, stream, suffix), text, left)
    ensures |text| + left <= budget
  {
    if |body| <= budget {
      return body, budget - |body|, None;
    }
    var path := SpillPath(stem, stream, suffix);
    var inner := Monus(budget, MARKER_RESERVE);
    left := budget;
    if inner == 0 {
      text := [];
    } else {
      var tail := Min(SPILL_TAIL_BYTES, inner / 4);
      var head := Min(SPILL_HEAD_BYTES, Monus(inner, tail));
      text := HeadTailView(body, head, tail, path);
      assert |".cool/spill/"| == 12 && |".txt"| == 4;
      left := Monus(left, |text|);
    }
    left := Monus(left, |path|);
    spilled := Some(path);
  }

  /** stdout is fitted first, stderr into what is left. */
  ghost predicate SharedBudget(stdout: seq<byte>, stderr: seq<byte>, budget: nat, stem: string,
    suffixes: (string, string), out: seq<byte>, err: seq<byte>, left: nat)
  {
    && Fitted(stdout, budget, SpillPath(stem, "stdout", suffixes.0), out, left)
    && exists rest :: Fitted(stderr, left, SpillPath(stem, "stderr", suffixes.1), err, rest)
  }

  /**
    Both texts together never exceed the budget, whatever the bodies and the cap are. A stream
    that fits is returned whole, and the result says that it is truncated exactly when a capture
    was cut or a stream was spilled.
   */
  method BoundOutputs(stdout: seq<byte>, stderr: seq<byte>, stdoutCut: bool, stderrCut: bool, maxOutputBytes: nat,
    callId: string, suffixes: (string, string))
    returns (out: seq<byte>, err: seq<byte>, outSpill: Option<string>, errSpill: Option<string>, truncated: bool)
    requires |stdout| <= U64_MAX && |stderr| <= U64_MAX && |suffixes.0| == 8 == |suffixes.1|
    ensures |out| + |err| <= maxOutputBytes
    ensures exists left :: SharedBudget(stdout, stderr, maxOutputBytes, StemOf(callId), suffixes, out, err, left)
    ensures outSpill ==
      if |stdout| <= maxOutputBytes then None else Some(SpillPath(StemOf(callId), "stdout", suffixes.0))
    ensures errSpill.Some? ==> errSpill.value == SpillPath(StemOf(callId), "stderr", suffixes.1)
    ensures outSpill == None ==> out == stdout && (errSpill == None <==> |stdout| + |stderr| <= maxOutputBytes)
    ensures errSpill == None ==> err == stderr
    ensures var left := if outSpill == None then maxOutputBytes - |stdout|
                        else Monus(maxOutputBytes, |out| + |outSpill.value|);
      errSpill == None <==> |stderr| <= left
    ensures truncated <==> outSpill.Some? || errSpill.Some? || stdoutCut || stderrCut
  {
    var stem := SpillStem(callId);
    var left;
    out, left, outSpill := FitStream(stdout, maxOutputBytes, stem, "stdout", suffixes.0);
    truncated := outSpill.Some? || stdoutCut;
    ghost var afterOut := left;
    err, left, errSpill := FitStream(stderr, left, stem, "stderr", suffixes.1);
    assert SharedBudget(stdout, stderr, maxOutputBytes, stem, suffixes, out, err, afterOut);
    truncated := truncated || errSpill.Some? || stderrCut;
  }
}

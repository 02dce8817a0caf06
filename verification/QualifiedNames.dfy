/**
  The names under which the tools of operator MCP servers enter the shared registry, and when two
  servers can want the same one.
 */
module QualifiedNames {

  predicate IsWord(c: char) {
    'a' <= c <= 'z' || '0' <= c <= '9'
  }

  predicate IsSeparator(c: char) {
    c == '-' || c == '_'
  }

  /** Words of lower-case letters and digits with one separator between any two. */
  ghost predicate ValidName(name: string) {
    && 1 <= |name| <= 64
    && (forall i :: 0 <= i < |name| ==> IsWord(name[i]) || IsSeparator(name[i]))
    && IsWord(name[0]) && IsWord(name[|name| - 1])
    && forall i :: 0 <= i < |name| - 1 ==> IsWord(name[i]) || IsWord(name[i + 1])
  }

  method ValidateName(name: string) returns (ok: bool)
    ensures ok <==> ValidName(name)
  {
    if |name| > 64 || name == "" {
      return false;
    }
    var previousSeparator := true;
    for i := 0 to |name|
      invariant forall j :: 0 <= j < i ==> IsWord(name[j]) || IsSeparator(name[j])
      invariant i > 0 ==> IsWord(name[0]) && (previousSeparator <==> !IsWord(name[i - 1]))
      invariant i == 0 ==> previousSeparator
      invariant forall j :: 0 <= j < i - 1 ==> IsWord(name[j]) || IsWord(name[j + 1])
    {
      if IsWord(name[i]) {
        previousSeparator := false;
      } else if IsSeparator(name[i]) && !previousSeparator {
        previousSeparator := true;
      } else {
        assert i > 0 ==> !(IsWord(name[i - 1]) || IsWord(name[i - 1 + 1])) || !IsSeparator(name[i]);
        return false;
      }
    }
    ok := !previousSeparator;
  }

  function RawName(server: string, tool: string): string {
    "mcp_" + server + "_" + tool
  }

  predicate IsSafe(c: char) {
    'a' <= c <= 'z' || 'A' <= c <= 'Z' || '0' <= c <= '9' || c == '_' || c == '-'
  }

  /** Short and safe. */
  predicate IsPlain(raw: string) {
    |raw| <= 64 && forall i :: 0 <= i < |raw| ==> IsSafe(raw[i])
  }

  /** The raw name when it is short and safe, else a digest of it. */
  function QualifiedName(server: string, tool: string, digest: string -> string): string {
    var raw := RawName(server, tool);
    if IsPlain(raw) then raw else "mcpx_" + digest(raw)
  }

  /** `long` continues `short` after an underscore, and the tool of `short` makes up for it. */
  predicate Continues(short: string, tool: string, long: string, longTool: string) {
    && |short| < |long| && short + "_" <= long
    && tool == long[|short| + 1..] + "_" + longTool
  }

  lemma RawParts(server: string, tool: string)
    ensures RawName(server, tool)[..4] == "mcp_" && RawName(server, tool)[4..] == server + "_" + tool
  {
    assert "mcp_" + server + "_" + tool == "mcp_" + (server + "_" + tool);
  }

  lemma JoinedExactly(s1: string, t1: string, s2: string, t2: string)
    requires |s1| < |s2|
    ensures s1 + "_" + t1 == s2 + "_" + t2 <==> Continues(s1, t1, s2, t2)
  {
    var (left, right) := (s1 + "_" + t1, s2 + "_" + t2);
    var n := |s1| + 1;
    assert left[..n] == s1 + "_" && left[n..] == t1;
    assert right[..n] == s2[..n] && right[n..] == s2[n..] + "_" + t2;
    assert left == left[..n] + left[n..] && right == right[..n] + right[n..];
    assert s1 + "_" <= s2 <==> s1 + "_" == s2[..n];
  }

  lemma JoinedSameLength(s1: string, t1: string, s2: string, t2: string)
    requires |s1| == |s2|
    ensures s1 + "_" + t1 == s2 + "_" + t2 <==> s1 == s2 && t1 == t2
  {
    var (left, right) := (s1 + "_" + t1, s2 + "_" + t2);
    assert left[..|s1|] == s1 && right[..|s1|] == s2 && left[|s1| + 1..] == t1 && right[|s1| + 1..] == t2;
  }

  /** Two raw names are equal exactly when they are the same pair, or one server's name continues
      the other's after an underscore and the tools make up for it. */
  lemma RawNamesCollideExactly(s1: string, t1: string, s2: string, t2: string)
    ensures RawName(s1, t1) == RawName(s2, t2) <==>
      || (s1 == s2 && t1 == t2) || Continues(s1, t1, s2, t2) || Continues(s2, t2, s1, t1)
  {
    RawParts(s1, t1);
    RawParts(s2, t2);
    assert RawName(s1, t1) == "mcp_" + RawName(s1, t1)[4..] && RawName(s2, t2) == "mcp_" + RawName(s2, t2)[4..];
    if |s1| < |s2| {
      JoinedExactly(s1, t1, s2, t2);
    } else if |s2| < |s1| {
      JoinedExactly(s2, t2, s1, t1);
    } else {
      JoinedSameLength(s1, t1, s2, t2);
    }
  }

  /** Whatever the digest: two qualified names are equal exactly when the raw names are, or when
      neither raw name is plain and their digests are equal. */
  lemma QualifiedExactly(s1: string, t1: string, s2: string, t2: string, digest: string -> string)
    ensures var (raw1, raw2) := (RawName(s1, t1), RawName(s2, t2));
      QualifiedName(s1, t1, digest) == QualifiedName(s2, t2, digest) <==>
        raw1 == raw2 || (!IsPlain(raw1) && !IsPlain(raw2) && digest(raw1) == digest(raw2))
  {
    hide IsPlain;
    RawParts(s1, t1);
    RawParts(s2, t2);
    var (raw1, raw2) := (RawName(s1, t1), RawName(s2, t2));
    var (hashed1, hashed2) := ("mcpx_" + digest(raw1), "mcpx_" + digest(raw2));
    assert hashed1[5..] == digest(raw1) && hashed2[5..] == digest(raw2);
    assert raw1[..4][3] == '_' && raw2[..4][3] == '_' && hashed1[3] == 'x' && hashed2[3] == 'x';
  }

  /** Two tools whose long or unsafe names have the same digest. */
  ghost predicate DigestsMeet(s1: string, s2: string, digest: string -> string) {
    exists t1, t2 ::
      !IsPlain(RawName(s1, t1)) && !IsPlain(RawName(s2, t2)) && digest(RawName(s1, t1)) == digest(RawName(s2, t2))
  }

  /** With these tools the server with the shorter name takes the raw name of the other one's. */
  lemma TakesTheName(short: string, long: string, longTool: string)
    requires short + "_" <= long
    ensures RawName(short, long[|short| + 1..] + "_" + longTool) == RawName(long, longTool)
  {
    RawNamesCollideExactly(short, long[|short| + 1..] + "_" + longTool, long, longTool);
  }

  /**
    Two servers can want the same name for some tools exactly when one server's name followed by
    an underscore starts the other's, or when two of their digests meet.
   */
  lemma ServersCollideExactly(s1: string, s2: string, digest: string -> string)
    requires s1 != s2
    ensures (exists t1, t2 :: QualifiedName(s1, t1, digest) == QualifiedName(s2, t2, digest))
       <==> s1 + "_" <= s2 || s2 + "_" <= s1 || DigestsMeet(s1, s2, digest)
  {
    hide QualifiedName, IsPlain, RawName;
    if t1, t2 :| QualifiedName(s1, t1, digest) == QualifiedName(s2, t2, digest) {
      QualifiedExactly(s1, t1, s2, t2, digest);
      RawNamesCollideExactly(s1, t1, s2, t2);
    }
    if s1 + "_" <= s2 {
      var t1 := s2[|s1| + 1..] + "_" + "x";
      TakesTheName(s1, s2, "x");
      QualifiedExactly(s1, t1, s2, "x", digest);
    } else if s2 + "_" <= s1 {
      var t2 := s1[|s2| + 1..] + "_" + "x";
      TakesTheName(s2, s1, "x");
      QualifiedExactly(s1, "x", s2, t2, digest);
    } else if DigestsMeet(s1, s2, digest) {
      var t1, t2 :|
        !IsPlain(RawName(s1, t1)) && !IsPlain(RawName(s2, t2)) && digest(RawName(s1, t1)) == digest(RawName(s2, t2));
      QualifiedExactly(s1, t1, s2, t2, digest);
    }
  }

  /** Some name of this server is plain exactly when the shortest is. */
  lemma PlainFromStart(server: string, tool: string)
    requires IsPlain(RawName(server, tool))
    ensures IsPlain(RawName(server, ""))
  {
    assert forall i :: 0 <= i < |RawName(server, "")| ==> RawName(server, "")[i] == RawName(server, tool)[i];
  }

  /** A server's name leaves room for an undigested one: `mcp_` and the underscore take five of the 64
      characters. */
  predicate LeavesRoom(server: string) {
    |server| <= 59 && forall i :: 0 <= i < |server| ==>
      'a' <= server[i] <= 'z' || 'A' <= server[i] <= 'Z' || '0' <= server[i] <= '9' || server[i] in "_-"
  }

  lemma RoomExactly(server: string)
    ensures IsPlain(RawName(server, "")) <==> LeavesRoom(server)
  {
    var raw := RawName(server, "");
    assert raw == "mcp_" + server + "_";
    if IsPlain(raw) {
      assert forall i :: 0 <= i < |server| ==> raw[4 + i] == server[i];
    }
  }

  /**
    Without any digest: two servers can want the same plain name exactly when one server's name
    followed by an underscore starts the other's, and the other's name leaves room for a plain one.
   */
  lemma PlainNamesCollideExactly(s1: string, s2: string, digest: string -> string)
    requires s1 != s2
    ensures (exists t1, t2 ::
              QualifiedName(s1, t1, digest) == QualifiedName(s2, t2, digest) && IsPlain(RawName(s1, t1)))
       <==> || (s1 + "_" <= s2 && LeavesRoom(s2))
            || (s2 + "_" <= s1 && LeavesRoom(s1))
  {
    hide QualifiedName, IsPlain, RawName, LeavesRoom;
    RoomExactly(s1);
    RoomExactly(s2);
    if t1, t2 :| QualifiedName(s1, t1, digest) == QualifiedName(s2, t2, digest) && IsPlain(RawName(s1, t1)) {
      QualifiedExactly(s1, t1, s2, t2, digest);
      RawNamesCollideExactly(s1, t1, s2, t2);
      PlainFromStart(s1, t1);
      PlainFromStart(s2, t2);
    }
    if s1 + "_" <= s2 && IsPlain(RawName(s2, "")) {
      TakesTheName(s1, s2, "");
      QualifiedExactly(s1, s2[|s1| + 1..] + "_" + "", s2, "", digest);
    } else if s2 + "_" <= s1 && IsPlain(RawName(s1, "")) {
      TakesTheName(s2, s1, "");
      QualifiedExactly(s1, "", s2, s1[|s2| + 1..] + "_" + "", digest);
    }
  }

  lemma ValidNames()
    ensures ValidName("git") && ValidName("git_hub")
  {
    assert "git_hub"[0] == 'g' && "git_hub"[|"git_hub"| - 1] == 'b';
  }

  /** Two names that the configuration accepts, and tools that collide under them. */
  lemma ValidServersCollide(digest: string -> string)
    ensures ValidName("git") && ValidName("git_hub") && "git" != "git_hub"
    ensures QualifiedName("git", "hub_search", digest) == "mcp_git_hub_search"
    ensures QualifiedName("git_hub", "search", digest) == "mcp_git_hub_search"
  {
    hide ValidName;
    ValidNames();
    assert RawName("git", "hub_search") == "mcp_git_hub_search" == RawName("git_hub", "search");
  }
}

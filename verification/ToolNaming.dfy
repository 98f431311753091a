/** Names of tools from MCP servers, `mcp__<server>__<tool>`: made, split, looked up, and matched
    against permission rows. */
module ToolNaming {
  import opened Text

  const MCP_PREFIX := "mcp__"
  const SEP := "__"

  predicate IsAlnum(c: char) {
    'a' <= c <= 'z' || 'A' <= c <= 'Z' || '0' <= c <= '9'
  }

  predicate IsServerChar(c: char) {
    IsAlnum(c) || c == '-'
  }

  predicate IsToolChar(c: char) {
    IsAlnum(c) || c == '_' || c == '-'
  }

  /** Keeps letters, digits and dashes. */
  function SanitizeServerName(raw: string): (s: string)
    ensures |s| <= |raw| && forall i :: 0 <= i < |s| ==> IsServerChar(s[i])
  {
    if raw == [] then [] else (if IsServerChar(raw[0]) then [raw[0]] else []) + SanitizeServerName(raw[1..])
  }

  /** What is left of a name are its letters, digits and dashes; nothing comes in for the others. */
  lemma {:induction false} ServerNameHas(raw: string, c: char)
    ensures c in SanitizeServerName(raw) <==>
            c in raw && ('a' <= c <= 'z' || 'A' <= c <= 'Z' || '0' <= c <= '9' || c == '-')
  {
    if raw != [] {
      ServerNameHas(raw[1..], c);
      assert raw == [raw[0]] + raw[1..];
    }
  }

  lemma {:induction false} ServerNameUnchangedIff(raw: string)
    ensures SanitizeServerName(raw) == raw <==> forall i :: 0 <= i < |raw| ==> IsServerChar(raw[i])
  {
    if raw != [] {
      ServerNameUnchangedIff(raw[1..]);
      assert raw == [raw[0]] + raw[1..];
      assert (forall i :: 0 <= i < |raw| ==> IsServerChar(raw[i])) <==>
             IsServerChar(raw[0]) && forall i :: 0 <= i < |raw[1..]| ==> IsServerChar(raw[1..][i]) by {
        assert forall i :: 0 <= i < |raw| - 1 ==> raw[1..][i] == raw[i + 1];
        assert forall i :: 0 < i < |raw| ==> raw[i] == raw[1..][i - 1];
      }
    }
  }

  /** Dropping characters from a text is dropping them from its parts. */
  lemma {:induction false} ServerNameConcat(a: string, b: string)
    ensures SanitizeServerName(a + b) == SanitizeServerName(a) + SanitizeServerName(b)
  {
    if a == [] {
      assert a + b == b;
    } else {
      assert (a + b)[1..] == a[1..] + b;
      ServerNameConcat(a[1..], b);
    }
  }

  function SanitizeToolName(raw: string): (s: string)
    ensures 0 < |s| <= 56 && forall i :: 0 <= i < |s| ==> IsToolChar(s[i])
    ensures raw == [] ==> s == "tool"
    ensures raw != [] ==> |s| == (if |raw| < 56 then |raw| else 56)
    ensures raw != [] ==> forall i :: 0 <= i < |s| && s[i] != raw[i] ==> s[i] == '_' && !IsToolChar(raw[i])
  {
    var mapped := seq(|raw|, i requires 0 <= i < |raw| => if IsToolChar(raw[i]) then raw[i] else '_');
    var out := if mapped == [] then "tool" else mapped;
    if |out| > 56 then out[..56] else out
  }

  /** Letters, digits, underscores and dashes stay where they are; anything else becomes an underscore. */
  lemma {:induction false} ToolNameAt(raw: string, i: nat)
    requires i < |raw| && i < 56
    ensures var c, s := raw[i], SanitizeToolName(raw);
            && i < |s|
            && s[i] == if 'a' <= c <= 'z' || 'A' <= c <= 'Z' || '0' <= c <= '9' || c == '_' || c == '-' then c else '_'
  {
  }

  // ----- splitting

  /** Position of the first double underscore. */
  function FindSep(s: string): Option<nat> {
    FirstDouble(s, '_')
  }

  function StripPrefix(s: string, prefix: string): Option<string> {
    if prefix <= s then Some(s[|prefix|..]) else None
  }

  datatype Split = Split(server: string, tool: string)

  /** The control plane's splitter. */
  function SplitMcpName(name: string): Option<Split> {
    match StripPrefix(name, MCP_PREFIX)
    case None => None
    case Some(rest) =>
      match FindSep(rest)
      case None => None
      case Some(idx) =>
        var server, tool := rest[..idx], rest[idx..][2..];
        if server != "" && tool != "" then Some(Split(server, tool)) else None
  }

  function IndexOf(s: string): int {
    match FindSep(s) case None => -1 case Some(i) => i
  }

  /** The web client's splitter, which works on positions. */
  function SplitMcpNameWeb(name: string): Option<Split> {
    if !(MCP_PREFIX <= name) then None
    else
      var rest := name[|MCP_PREFIX|..];
      var idx := IndexOf(rest);
      if idx <= 0 || idx == |rest| - 2 then None else Some(Split(rest[..idx], rest[idx + 2..]))
  }

  function Mangled(server: string, tool: string): string {
    MCP_PREFIX + server + SEP + tool
  }

  /** A server name that no split can cut short. */
  predicate Separable(server: string) {
    server != "" && FindSep(server).None? && server[|server| - 1] != '_'
  }

  lemma {:induction false} SplittersAgree(name: string)
    ensures SplitMcpName(name) == SplitMcpNameWeb(name)
  {
    if MCP_PREFIX <= name {
      var rest := name[|MCP_PREFIX|..];
      if FindSep(rest).Some? {
        assert rest[FindSep(rest).value..][2..] == rest[FindSep(rest).value + 2..];
      }
    }
  }

  /** A name the control plane accepts for a server has no underscore. */
  lemma {:induction false} ServerNamesAreSeparable(raw: string)
    requires SanitizeServerName(raw) != ""
    ensures Separable(SanitizeServerName(raw))
  {
    SanitizedIsSeparable(SanitizeServerName(raw));
  }

  lemma {:induction false} SepOfMangled(server: string, tool: string)
    requires server != ""
    ensures var f := FindSep(server + SEP + tool);
            f.Some? && f.value <= |server| && (f.value == |server| <==> Separable(server))
  {
    var rest, n := server + SEP + tool, |server|;
    assert DoubleAt(rest, '_', n);
    assert forall i: nat :: i + 1 < n ==> (DoubleAt(rest, '_', i) <==> DoubleAt(server, '_', i));
    assert DoubleAt(rest, '_', n - 1) <==> server[n - 1] == '_';
  }

  lemma {:induction false} RestOfMangled(server: string, tool: string)
    ensures MCP_PREFIX <= Mangled(server, tool) && Mangled(server, tool)[|MCP_PREFIX|..] == server + SEP + tool
    ensures (server + SEP + tool)[..|server|] == server && (server + SEP + tool)[|server|..][2..] == tool
  {
    assert Mangled(server, tool) == MCP_PREFIX + (server + SEP + tool);
  }

  /** Splitting a name gives back its server exactly for the separable server names. */
  lemma {:induction false} SplitRecoversIff(server: string, tool: string)
    requires tool != ""
    ensures SplitMcpName(Mangled(server, tool)) == Some(Split(server, tool)) <==> Separable(server)
  {
    RestOfMangled(server, tool);
    if server != "" {
      SepOfMangled(server, tool);
    }
  }

  /** Underscore-free names are separable. */
  lemma {:induction false} SanitizedIsSeparable(server: string)
    requires server != "" && '_' !in server
    ensures Separable(server)
  {
    forall i | 0 <= i < |server| ensures server[i] != '_' { assert server[i] in server; }
  }

  /** A split name is put together again from its parts. */
  lemma {:induction false} SplitThenMangle(name: string)
    requires SplitMcpName(name).Some?
    ensures var p := SplitMcpName(name).value;
            Mangled(p.server, p.tool) == name && p.server != "" && p.tool != "" && FindSep(p.server).None?
  {
    var rest := name[|MCP_PREFIX|..];
    var idx := FindSep(rest).value;
    NoSepBefore(rest, idx);
  }

  lemma {:induction false} NoSepBefore(s: string, idx: nat)
    requires idx <= |s| && forall i: nat :: i < idx ==> !DoubleAt(s, '_', i)
    ensures FindSep(s[..idx]).None?
  {
    assert forall i: nat :: DoubleAt(s[..idx], '_', i) ==> DoubleAt(s, '_', i);
  }

  /** Tools of different servers never share a name. */
  lemma {:induction false} ServersNeverCollide(s: string, t: string, tool: string, other: string)
    requires Separable(s) && Separable(t) && tool != "" && other != ""
    requires Mangled(s, tool) == Mangled(t, other)
    ensures s == t && tool == other
  {
    SplitRecoversIff(s, tool);
    SplitRecoversIff(t, other);
  }

  // ----- giving a server's tools their names

  datatype ToolDef = ToolDef(mangled: string, original: string, description: string)

  datatype RawTool = RawTool(name: string, description: string)

  function Base(server: string, t: RawTool): string {
    MCP_PREFIX + server + SEP + SanitizeToolName(t.name)
  }

  function Numbered(base: string, n: nat): string {
    base + "_" + Decimal(n)
  }

  /** The base name if it is free, else the first free `_2`, `_3`, … */
  ghost predicate FirstFree(base: string, used: set<string>, name: string) {
    if base !in used then name == base
    else exists n: nat :: FirstFreeNumber(base, used, name, n)
  }

  ghost predicate FirstFreeNumber(base: string, used: set<string>, name: string, n: nat) {
    n >= 2 && name == Numbered(base, n) && name !in used && forall k: nat :: 2 <= k < n ==> Numbered(base, k) in used
  }

  ghost function Names(defs: seq<ToolDef>): set<string> {
    set i | 0 <= i < |defs| :: defs[i].mangled
  }

  lemma {:induction false} NumberedIsInjective(base: string, m: nat, n: nat)
    requires Numbered(base, m) == Numbered(base, n)
    ensures m == n
  {
    assert Numbered(base, m)[|base| + 1..] == Decimal(m);
    assert Numbered(base, n)[|base| + 1..] == Decimal(n);
  }

  /** The suffix loop ends: every candidate it passes is a different used name. */
  method FreeName(base: string, used: set<string>) returns (mangled: string)
    ensures mangled !in used && FirstFree(base, used, mangled)
  {
    mangled := base;
    var n: nat := 2;
    while mangled in used
      invariant n >= 2 && mangled == Candidate(base, n)
      invariant forall k: nat :: 2 <= k < n ==> Candidate(base, k) in used
      decreases |used - Passed(base, n)|
    {
      PassOne(base, used, n);
      mangled := Numbered(base, n);
      n := n + 1;
    }
    FirstOfCandidates(base, used, n);
  }

  ghost function Passed(base: string, n: nat): set<string> {
    set k: nat | 2 <= k < n :: Candidate(base, k)
  }

  lemma {:induction false} PassOne(base: string, used: set<string>, n: nat)
    requires n >= 2 && Candidate(base, n) in used
    ensures |used - Passed(base, n + 1)| < |used - Passed(base, n)|
  {
    NewCandidate(base, n);
    assert Passed(base, n + 1) == Passed(base, n) + {Candidate(base, n)};
    assert used - Passed(base, n) == (used - Passed(base, n + 1)) + {Candidate(base, n)};
  }

  /** The name tried when the counter stands at n. */
  ghost function Candidate(base: string, n: nat): string
    requires n >= 2
  {
    if n == 2 then base else Numbered(base, n - 1)
  }

  lemma {:induction false} FirstOfCandidates(base: string, used: set<string>, n: nat)
    requires n >= 2 && Candidate(base, n) !in used && forall k: nat :: 2 <= k < n ==> Candidate(base, k) in used
    ensures FirstFree(base, used, Candidate(base, n))
  {
    if n > 2 {
      assert Candidate(base, 2) in used;
      forall k: nat | 2 <= k < n - 1 ensures Numbered(base, k) in used { assert Candidate(base, k + 1) in used; }
      assert FirstFreeNumber(base, used, Candidate(base, n), n - 1);
    }
  }

  lemma {:induction false} NewCandidate(base: string, n: nat)
    requires n >= 2
    ensures Candidate(base, n) !in Passed(base, n)
  {
    forall k: nat | 2 <= k < n
      ensures Candidate(base, k) != Candidate(base, n)
    {
      if k == 2 {
        assert |Candidate(base, n)| > |base|;
      } else if Candidate(base, k) == Candidate(base, n) {
        NumberedIsInjective(base, k - 1, n - 1);
      }
    }
  }

  /** Each definition keeps its tool and takes the first name the ones before it left free. */
  ghost predicate NamedInOrder(server: string, tools: seq<RawTool>, defs: seq<ToolDef>) {
    && |defs| == |tools|
    && forall i :: 0 <= i < |defs| ==> NamedFrom(server, tools[i], Names(defs[..i]), defs[i])
  }

  ghost predicate NamedFrom(server: string, t: RawTool, used: set<string>, d: ToolDef) {
    && d.original == t.name && d.description == t.description
    && d.mangled !in used && FirstFree(Base(server, t), used, d.mangled)
  }

  method MangleTools(server: string, tools: seq<RawTool>) returns (defs: seq<ToolDef>)
    ensures NamedInOrder(server, tools, defs)
  {
    defs := [];
    var used: set<string> := {};
    for i := 0 to |tools|
      invariant used == Names(defs) && NamedInOrder(server, tools[..i], defs)
    {
      var t := tools[i];
      var mangled := FreeName(Base(server, t), used);
      var d := ToolDef(mangled, t.name, t.description);
      OneMoreName(server, tools, i, defs, d);
      defs := defs + [d];
      used := used + {mangled};
    }
    assert tools[..|tools|] == tools;
  }

  lemma {:induction false} OneMoreName(server: string, tools: seq<RawTool>, n: nat, defs: seq<ToolDef>, d: ToolDef)
    requires n < |tools| && NamedInOrder(server, tools[..n], defs) && NamedFrom(server, tools[n], Names(defs), d)
    ensures NamedInOrder(server, tools[..n + 1], defs + [d])
    ensures Names(defs + [d]) == Names(defs) + {d.mangled}
  {
    var more := defs + [d];
    forall i | 0 <= i < |more|
      ensures NamedFrom(server, tools[i], Names(more[..i]), more[i])
    {
      if i < |defs| {
        assert more[..i] == defs[..i];
        assert NamedFrom(server, tools[..n][i], Names(defs[..i]), defs[i]);
      } else {
        assert more[..i] == defs;
      }
    }
    NamesMore(defs, d);
  }

  lemma {:induction false} NamesMore(defs: seq<ToolDef>, d: ToolDef)
    ensures Names(defs + [d]) == Names(defs) + {d.mangled}
  {
    assert (defs + [d])[|defs|] == d;
    forall i | 0 <= i < |defs| ensures defs[i].mangled in Names(defs + [d]) { assert (defs + [d])[i] == defs[i]; }
  }

  // ----- looking a name up

  /** The catalog: what each connected server's tools are called. */
  type Catalog = map<string, seq<ToolDef>>

  function FindDef(defs: seq<ToolDef>, name: string): Option<ToolDef> {
    if defs == [] then None
    else if defs[0].mangled == name then Some(defs[0])
    else FindDef(defs[1..], name)
  }

  /** The server and the tool that a call goes to. */
  function Lookup(catalog: Catalog, name: string): Option<(string, string)> {
    match SplitMcpName(name)
    case None => None
    case Some(p) =>
      if p.server !in catalog then None
      else match FindDef(catalog[p.server], name) case None => None case Some(d) => Some((p.server, d.original))
  }

  lemma {:induction false} NamesAreDistinct(server: string, tools: seq<RawTool>, defs: seq<ToolDef>, i: nat, j: nat)
    requires NamedInOrder(server, tools, defs) && i < j < |defs|
    ensures defs[i].mangled != defs[j].mangled
  {
    assert NamedFrom(server, tools[j], Names(defs[..j]), defs[j]);
    assert defs[..j][i] == defs[i];
    assert defs[..j][i].mangled in Names(defs[..j]);
  }

  /** Every name carries its server's prefix and a non-empty tool part. */
  lemma {:induction false} NamesAreMangled(server: string, tools: seq<RawTool>, defs: seq<ToolDef>, i: nat)
    returns (tool: string)
    requires NamedInOrder(server, tools, defs) && i < |defs|
    ensures tool != "" && defs[i].mangled == Mangled(server, tool)
  {
    var used := Names(defs[..i]);
    assert NamedFrom(server, tools[i], used, defs[i]);
    var base := Base(server, tools[i]);
    if base !in used {
      tool := SanitizeToolName(tools[i].name);
    } else {
      var n: nat :| FirstFreeNumber(base, used, defs[i].mangled, n);
      tool := SanitizeToolName(tools[i].name) + "_" + Decimal(n);
      SuffixOnTool(MCP_PREFIX + server + SEP, SanitizeToolName(tools[i].name), "_", Decimal(n));
    }
  }

  lemma {:induction false} SuffixOnTool(prefix: string, tool: string, mark: string, number: string)
    ensures prefix + tool + mark + number == prefix + (tool + mark + number)
  {
  }

  lemma {:induction false} FindDefAt(defs: seq<ToolDef>, i: nat)
    requires i < |defs| && forall j :: 0 <= j < i ==> defs[j].mangled != defs[i].mangled
    ensures FindDef(defs, defs[i].mangled) == Some(defs[i])
  {
    if i > 0 {
      assert forall j :: 0 <= j < i - 1 ==> defs[1..][j] == defs[j + 1];
      FindDefAt(defs[1..], i - 1);
    }
  }

  /** A name leads back to the server and the tool it was made for. */
  lemma {:induction false} LookupReachesItsTool(catalog: Catalog, server: string, tools: seq<RawTool>, i: nat)
    requires Separable(server) && server in catalog && NamedInOrder(server, tools, catalog[server]) && i < |tools|
    ensures Lookup(catalog, catalog[server][i].mangled) == Some((server, tools[i].name))
  {
    var defs := catalog[server];
    var tool := NamesAreMangled(server, tools, defs, i);
    SplitRecoversIff(server, tool);
    forall j | 0 <= j < i ensures defs[j].mangled != defs[i].mangled { NamesAreDistinct(server, tools, defs, j, i); }
    FindDefAt(defs, i);
    assert NamedFrom(server, tools[i], Names(defs[..i]), defs[i]);
  }

  // ----- permissions

  datatype Tier = Allow | Ask | Deny

  function McpServerKey(name: string): Option<string> {
    match SplitMcpNameWeb(name) case None => None case Some(p) => Some(MCP_PREFIX + p.server)
  }

  /** A tool's own row, else its server's, else `Allow`. */
  function McpToolTier(rows: map<string, Tier>, name: string): Tier {
    if name in rows then rows[name]
    else
      match McpServerKey(name)
      case None => Allow
      case Some(key) => if key in rows then rows[key] else Allow
  }

  /** The control plane's own look at the same rows. */
  function TierFor(rows: map<string, Tier>, name: string): Tier {
    if name in rows then rows[name]
    else
      match SplitMcpName(name)
      case None => Allow
      case Some(p) => if MCP_PREFIX + p.server in rows then rows[MCP_PREFIX + p.server] else Allow
  }

  /** The client and the control plane never disagree about a tool. */
  lemma {:induction false} TiersAgree(rows: map<string, Tier>, name: string)
    ensures McpToolTier(rows, name) == TierFor(rows, name)
  {
    SplittersAgree(name);
  }

  /** Deleting a server removes its own row and the rows of its tools. */
  function RowsAfterDelete(rows: map<string, Tier>, server: string): map<string, Tier> {
    var prefix := MCP_PREFIX + server;
    map k | k in rows && !(k == prefix || prefix + SEP <= k) :: rows[k]
  }

  lemma {:induction false} KeyOfMangled(server: string, tool: string)
    requires Separable(server) && tool != ""
    ensures McpServerKey(Mangled(server, tool)) == Some(MCP_PREFIX + server)
  {
    SplitRecoversIff(server, tool);
    SplittersAgree(Mangled(server, tool));
  }

  /** A tool of a server is governed by its own row, and without one by the server's. */
  lemma {:induction false} TierOfServersTool(rows: map<string, Tier>, server: string, tool: string)
    requires Separable(server) && tool != ""
    ensures Mangled(server, tool) in rows ==> McpToolTier(rows, Mangled(server, tool)) == rows[Mangled(server, tool)]
    ensures Mangled(server, tool) !in rows && MCP_PREFIX + server in rows ==>
            McpToolTier(rows, Mangled(server, tool)) == rows[MCP_PREFIX + server]
    ensures Mangled(server, tool) !in rows && MCP_PREFIX + server !in rows ==>
            McpToolTier(rows, Mangled(server, tool)) == Allow
  {
    KeyOfMangled(server, tool);
  }

  /** Nothing of a deleted server's permissions stays behind. */
  lemma {:induction false} DeletedServerIsAllowed(rows: map<string, Tier>, server: string, tool: string)
    requires Separable(server) && tool != ""
    ensures McpToolTier(RowsAfterDelete(rows, server), Mangled(server, tool)) == Allow
  {
    KeyOfMangled(server, tool);
    assert Mangled(server, tool) == (MCP_PREFIX + server + SEP) + tool;
  }

  /** And no other server's permissions change. */
  lemma {:induction false} OtherServersKeepTheirTiers(rows: map<string, Tier>, server: string, other: string,
      tool: string)
    requires Separable(server) && Separable(other) && server != other && tool != ""
    ensures McpToolTier(RowsAfterDelete(rows, server), Mangled(other, tool)) == McpToolTier(rows, Mangled(other, tool))
  {
    KeyOfMangled(other, tool);
    NotUnder(server, other, tool);
    ServerRowIsNotUnder(server, other);
  }

  /** Nor those of tools that are no server's. */
  lemma {:induction false} OtherToolsKeepTheirTiers(rows: map<string, Tier>, server: string, name: string)
    requires !(MCP_PREFIX <= name)
    ensures McpToolTier(RowsAfterDelete(rows, server), name) == if name in rows then rows[name] else Allow
  {
    assert MCP_PREFIX <= MCP_PREFIX + server <= MCP_PREFIX + server + SEP;
  }

  /** Two ways to read a name agree on the server. */
  lemma {:induction false} SameServer(server: string, tail: string, other: string, tool: string)
    requires Separable(server) && Separable(other) && server + SEP + tail == other + SEP + tool
    ensures server == other
  {
    SepOfMangled(server, tail);
    SepOfMangled(other, tool);
    assert (server + SEP + tail)[..|server|] == server && (other + SEP + tool)[..|other|] == other;
  }

  /** A name of another server does not begin with this server's prefix. */
  lemma {:induction false} NotUnder(server: string, other: string, tool: string)
    requires Separable(server) && Separable(other) && server != other && tool != ""
    ensures !(MCP_PREFIX + server + SEP <= Mangled(other, tool)) && Mangled(other, tool) != MCP_PREFIX + server
  {
    RestOfMangled(other, tool);
    SepOfMangled(other, tool);
    assert (MCP_PREFIX + server)[|MCP_PREFIX|..] == server;
    if MCP_PREFIX + server + SEP <= Mangled(other, tool) {
      var tail := Mangled(other, tool)[|MCP_PREFIX + server + SEP|..];
      RestOfMangled(server, tail);
      assert Mangled(other, tool) == Mangled(server, tail);
      SameServer(server, tail, other, tool);
    }
  }

  /** Nor does its server row. */
  lemma {:induction false} ServerRowIsNotUnder(server: string, other: string)
    requires Separable(server) && Separable(other)
    ensures !(MCP_PREFIX + server + SEP <= MCP_PREFIX + other)
    ensures MCP_PREFIX + server == MCP_PREFIX + other ==> server == other
  {
    assert (MCP_PREFIX + other)[|MCP_PREFIX|..] == other && (MCP_PREFIX + server)[|MCP_PREFIX|..] == server;
    if MCP_PREFIX + server + SEP <= MCP_PREFIX + other {
      var tail := (MCP_PREFIX + other)[|MCP_PREFIX + server + SEP|..];
      RestOfMangled(server, tail);
      assert MCP_PREFIX + other == Mangled(server, tail);
      SepOfMangled(server, tail);
    }
  }
}

/** The learnings file as text: one JSON object a line, appended to and rewritten. */
module LearningsFile {
  import opened Text

  predicate IsSpace(c: char) {
    || c == ' ' || '\t' <= c <= '\r' || c == '\U{85}' || c == '\U{A0}' || c == '\U{1680}'
    || '\U{2000}' <= c <= '\U{200A}' || c == '\U{2028}' || c == '\U{2029}' || c == '\U{202F}'
    || c == '\U{205F}' || c == '\U{3000}'
  }

  /** The control plane's white space is the web client's but for two characters. */
  lemma {:induction false} SpacesDiffer(c: char)
    ensures IsSpace(c) != IsJsSpace(c) <==> c == '\U{85}' || c == '\U{FEFF}'
    ensures IsSpace('\U{85}') && IsSpace(' ') && IsSpace('\n')
  {
  }

  function Trim(s: string): string {
    Trimmed(IsSpace, s)
  }

  /** The non-blank lines, trimmed: what a reader or a rewrite of the file sees. */
  function Entries(text: string): seq<string> {
    NonBlank(Split(text, '\n'))
  }

  function NonBlank(lines: seq<string>): seq<string> {
    if lines == [] then []
    else (if Trim(lines[0]) == "" then [] else [Trim(lines[0])]) + NonBlank(lines[1..])
  }

  function LastLine(text: string): string {
    var p := Split(text, '\n');
    p[|p| - 1]
  }

  /** Nothing but white space follows the last line break. */
  predicate Terminated(text: string) {
    Trim(LastLine(text)) == ""
  }

  /** A serialized object: one line, no white space around it. */
  predicate IsLine(line: string) {
    line != "" && '\n' !in line && Trim(line) == line
  }

  function Append(text: string, line: string): string {
    text + (line + "\n")
  }

  predicate Carries(idOf: string -> Option<string>, line: string, id: string) {
    idOf(line) == Some(id)
  }

  /** The entries that do not carry `id`. Lines that parse to no object carry none. */
  function Without(idOf: string -> Option<string>, lines: seq<string>, id: string): seq<string> {
    if lines == [] then []
    else (if Carries(idOf, lines[0], id) then [] else [lines[0]]) + Without(idOf, lines[1..], id)
  }

  function Drop(idOf: string -> Option<string>, text: string, id: string): string {
    Rewritten(Without(idOf, Entries(text), id))
  }

  function Rewritten(lines: seq<string>): string {
    if lines == [] then "" else Join(lines, '\n') + "\n"
  }

  /** The rewriting loop. */
  method DropLearning(idOf: string -> Option<string>, raw: string, dropId: string) returns (content: string)
    ensures content == Drop(idOf, raw, dropId)
  {
    var lines := Split(raw, '\n');
    var keepLines: seq<string> := [];
    for i := 0 to |lines|
      invariant keepLines == Without(idOf, NonBlank(lines[..i]), dropId)
    {
      var trimmed := Trim(lines[i]);
      assert lines[..i + 1] == lines[..i] + [lines[i]];
      NonBlankConcat(lines[..i], [lines[i]]);
      WithoutConcat(idOf, NonBlank(lines[..i]), NonBlank([lines[i]]), dropId);
      if trimmed == "" {
        assert NonBlank([lines[i]]) == [];
        continue;
      }
      assert NonBlank([lines[i]]) == [trimmed];
      if idOf(trimmed) == Some(dropId) {
        continue;
      }
      keepLines := keepLines + [trimmed];
    }
    assert lines[..|lines|] == lines;
    content := if keepLines == [] then "" else Join(keepLines, '\n') + "\n";
  }

  // ----- concatenation

  lemma {:induction false} NonBlankConcat(p: seq<string>, q: seq<string>)
    ensures NonBlank(p + q) == NonBlank(p) + NonBlank(q)
  {
    if p == [] {
      assert p + q == q;
    } else {
      assert (p + q)[1..] == p[1..] + q;
      NonBlankConcat(p[1..], q);
    }
  }

  lemma {:induction false} WithoutConcat(idOf: string -> Option<string>, p: seq<string>, q: seq<string>, id: string)
    ensures Without(idOf, p + q, id) == Without(idOf, p, id) + Without(idOf, q, id)
  {
    if p == [] {
      assert p + q == q;
    } else {
      assert (p + q)[1..] == p[1..] + q;
      WithoutConcat(idOf, p[1..], q, id);
    }
  }

  lemma {:induction false} EntriesByLastLine(text: string)
    ensures var p := Split(text, '\n');
            Entries(text) == NonBlank(p[..|p| - 1]) + if Terminated(text) then [] else [Trim(LastLine(text))]
  {
    var p := Split(text, '\n');
    assert p == p[..|p| - 1] + [p[|p| - 1]];
    NonBlankConcat(p[..|p| - 1], [p[|p| - 1]]);
  }

  lemma {:induction false} SplitAppended(text: string, line: string)
    requires '\n' !in line
    ensures var p := Split(text, '\n');
            Split(Append(text, line), '\n') == p[..|p| - 1] + [LastLine(text) + line] + [""]
  {
    SplitAtFirst(line, '\n', "");
    assert line + "\n" + "" == line + "\n";
    SplitConcat(text, line + "\n", '\n');
  }

  /** An append adds its own entry and nothing else exactly when the file ends in a line break. */
  lemma {:induction false} AppendAddsEntryIff(text: string, line: string)
    requires IsLine(line)
    ensures Entries(Append(text, line)) == Entries(text) + [line] <==> Terminated(text)
    ensures Terminated(Append(text, line))
  {
    var p := Split(text, '\n');
    SplitAppended(text, line);
    var q := Split(Append(text, line), '\n');
    EntriesByLastLine(text);
    EntriesByLastLine(Append(text, line));
    assert q[..|q| - 1] == p[..|p| - 1] + [LastLine(text) + line];
    NonBlankConcat(p[..|p| - 1], [LastLine(text) + line]);
    if Terminated(text) {
      TrimBlankInFront(LastLine(text), line);
      assert NonBlank(p[..|p| - 1]) + [] == NonBlank(p[..|p| - 1]);
    }
  }

  lemma {:induction false} TrimBlankInFront(blank: string, line: string)
    requires Trim(blank) == "" && IsLine(line)
    ensures Trim(blank + line) == line
  {
    BlankIsSpaces(blank);
    SpacesInFront(blank, line);
  }

  lemma {:induction false} SpacesInFront(blank: string, line: string)
    requires forall i :: 0 <= i < |blank| ==> IsSpace(blank[i])
    ensures TrimmedStart(IsSpace, blank + line) == TrimmedStart(IsSpace, line)
  {
    if blank == [] {
      assert blank + line == line;
    } else {
      assert (blank + line)[1..] == blank[1..] + line;
      SpacesInFront(blank[1..], line);
    }
  }

  lemma {:induction false} BlankIsSpaces(s: string)
    requires Trim(s) == ""
    ensures forall i :: 0 <= i < |s| ==> IsSpace(s[i])
  {
    StartCut(s);
    EndCut(TrimmedStart(IsSpace, s));
  }

  lemma {:induction false} StartCut(s: string)
    ensures |TrimmedStart(IsSpace, s)| <= |s| && TrimmedStart(IsSpace, s) == s[|s| - |TrimmedStart(IsSpace, s)|..]
    ensures TrimmedStart(IsSpace, s) != "" ==> !IsSpace(TrimmedStart(IsSpace, s)[0])
    ensures forall i :: 0 <= i < |s| - |TrimmedStart(IsSpace, s)| ==> IsSpace(s[i])
  {
    if s != [] && IsSpace(s[0]) {
      StartCut(s[1..]);
      forall i | 0 <= i < |s| - |TrimmedStart(IsSpace, s)|
        ensures IsSpace(s[i])
      {
        if i > 0 { assert s[i] == s[1..][i - 1]; }
      }
    }
  }

  lemma {:induction false} EndCut(s: string)
    ensures |TrimmedEnd(IsSpace, s)| <= |s| && TrimmedEnd(IsSpace, s) == s[..|TrimmedEnd(IsSpace, s)|]
    ensures TrimmedEnd(IsSpace, s) != "" ==> !IsSpace(TrimmedEnd(IsSpace, s)[|TrimmedEnd(IsSpace, s)| - 1])
    ensures forall i :: |TrimmedEnd(IsSpace, s)| <= i < |s| ==> IsSpace(s[i])
  {
    if s != [] && IsSpace(s[|s| - 1]) {
      EndCut(s[..|s| - 1]);
    }
  }

  /** Text without a line break goes into the last line, which does not end there. */
  lemma {:induction false} LastLineGrows(text: string, fragment: string)
    requires '\n' !in fragment && fragment != "" && !IsSpace(fragment[0])
    ensures LastLine(text + fragment) == LastLine(text) + fragment
    ensures !Terminated(text + fragment)
  {
    SplitConcat(text, fragment, '\n');
    SplitPlain(fragment, '\n');
    var last := LastLine(text) + fragment;
    assert last[|LastLine(text)|] == fragment[0];
    if Trim(last) == "" { BlankIsSpaces(last); }
  }

  lemma {:induction false} StartsPlain(line: string)
    requires IsLine(line)
    ensures !IsSpace(line[0])
  {
    StartCut(line);
    EndCut(TrimmedStart(IsSpace, line));
  }

  /** Trimmed entries are lines. */
  lemma {:induction false} TrimmedIsLine(s: string)
    requires Trim(s) != "" && '\n' !in s
    ensures IsLine(Trim(s))
  {
    StartCut(s);
    EndCut(TrimmedStart(IsSpace, s));
    var t := Trim(s);
    assert t[0] == TrimmedStart(IsSpace, s)[0];
    assert TrimmedStart(IsSpace, t) == t && TrimmedEnd(IsSpace, t) == t;
  }

  lemma {:induction false} EntriesAreLines(lines: seq<string>)
    requires forall i :: 0 <= i < |lines| ==> '\n' !in lines[i]
    ensures forall i :: 0 <= i < |NonBlank(lines)| ==> IsLine(NonBlank(lines)[i])
  {
    if lines != [] {
      EntriesAreLines(lines[1..]);
      if Trim(lines[0]) != "" { TrimmedIsLine(lines[0]); }
    }
  }

  lemma {:induction false} WithoutKeeps(idOf: string -> Option<string>, lines: seq<string>, id: string)
    ensures forall line :: line in Without(idOf, lines, id) <==> line in lines && !Carries(idOf, line, id)
  {
    if lines != [] { WithoutKeeps(idOf, lines[1..], id); }
  }

  lemma {:induction false} SplitRewritten(lines: seq<string>)
    requires forall i :: 0 <= i < |lines| ==> '\n' !in lines[i]
    ensures Split(Rewritten(lines), '\n') == lines + [""]
  {
    if lines != [] {
      var rest := lines[1..];
      SplitRewritten(rest);
      SplitAtFirst(lines[0], '\n', Rewritten(rest));
      assert Rewritten(lines) == lines[0] + ['\n'] + Rewritten(rest);
      assert lines + [""] == [lines[0]] + (rest + [""]);
    }
  }

  lemma {:induction false} LinesAreEntries(lines: seq<string>)
    requires forall i :: 0 <= i < |lines| ==> IsLine(lines[i])
    ensures NonBlank(lines + [""]) == lines
  {
    if lines != [] {
      LinesAreEntries(lines[1..]);
      assert (lines + [""])[1..] == lines[1..] + [""];
      assert IsLine(lines[0]);
    }
  }

  /** A drop removes exactly the entries carrying the id, keeps the others in order (unparseable
      ones too), and leaves the file terminated. */
  lemma {:induction false} DropRemovesExactly(idOf: string -> Option<string>, text: string, id: string)
    ensures Entries(Drop(idOf, text, id)) == Without(idOf, Entries(text), id)
    ensures Terminated(Drop(idOf, text, id))
  {
    SplitJoin(text, '\n');
    EntriesAreLines(Split(text, '\n'));
    WithoutKeeps(idOf, Entries(text), id);
    var kept := Without(idOf, Entries(text), id);
    forall i | 0 <= i < |kept| ensures IsLine(kept[i]) { assert kept[i] in Entries(text); }
    SplitRewritten(kept);
    LinesAreEntries(kept);
  }
}

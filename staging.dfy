/** Staging of the scripts to run: the temporary file an inline script is
    written to (provisioner.go:307-331) and the list of local script paths
    (provisioner.go:332-346). */
module Staging {
  import opened Outcomes
  import opened Host

  // ---------------------------------------------------------------------------
  // The text the buffered writer produces

  /** Every line followed by a line feed, in order. */
  function Joined(lines: seq<string>): string
    decreases |lines|
  {
    if lines == [] then "" else Joined(lines[..|lines| - 1]) + (lines[|lines| - 1] + "\n")
  }

  /** Writing one more line appends it and its line feed. */
  lemma JoinedSnoc(lines: seq<string>, line: string)
    ensures Joined(lines + [line]) == Joined(lines) + (line + "\n")
  {
    assert (lines + [line])[..|lines|] == lines;
  }

  /** The same text, built from the front. */
  lemma {:induction false} JoinedCons(line: string, lines: seq<string>)
    ensures Joined([line] + lines) == line + "\n" + Joined(lines)
    decreases |lines|
  {
    if lines == [] {
      assert [line] + lines == [] + [line];
      JoinedSnoc([], line);
    } else {
      var front := lines[..|lines| - 1];
      var last := lines[|lines| - 1];
      assert [line] + lines == ([line] + front) + [last];
      JoinedSnoc([line] + front, last);
      JoinedCons(line, front);
      JoinedSnoc(front, last);
      assert lines == front + [last];
    }
  }

  // ---------------------------------------------------------------------------
  // Reading the text back, line by line

  /** The index of the first line feed, or the length when there is none. */
  function LineEnd(s: string): (k: nat)
    ensures k <= |s|
    ensures forall i :: 0 <= i < k ==> s[i] != '\n'
    ensures k < |s| ==> s[k] == '\n'
    decreases |s|
  {
    if s == [] || s[0] == '\n' then 0 else 1 + LineEnd(s[1..])
  }

  /** Splits a text into lines, each ended by a line feed (the last one may lack it). */
  function Lines(s: string): seq<string>
    decreases |s|
  {
    if s == [] then []
    else
      var k := LineEnd(s);
      if k == |s| then [s] else [s[..k]] + Lines(s[k + 1..])
  }

  /** A line without a line feed is read back whole, and reading resumes after it. */
  lemma LineEndOfLine(line: string, rest: string)
    requires '\n' !in line
    ensures LineEnd(line + "\n" + rest) == |line|
  {
    var s := line + "\n" + rest;
    assert forall i :: 0 <= i < |line| ==> s[i] == line[i];
    assert s[|line|] == '\n';
  }

  /** The file an inline script is written to reads back as its lines. */
  lemma {:induction false} LinesOfJoined(lines: seq<string>)
    requires forall i :: 0 <= i < |lines| ==> '\n' !in lines[i]
    ensures Lines(Joined(lines)) == lines
    decreases |lines|
  {
    if lines != [] {
      var head := lines[0];
      var tail := lines[1..];
      assert [head] + tail == lines;
      JoinedCons(head, tail);
      var s := Joined(lines);
      assert s == head + "\n" + Joined(tail);
      LineEndOfLine(head, Joined(tail));
      assert s[..|head|] == head;
      assert s[|head| + 1..] == Joined(tail);
      LinesOfJoined(tail);
    }
  }

  // ---------------------------------------------------------------------------
  // getInlineScriptFilePath

  /** Where the inline script went, the file system afterwards, and the error. */
  datatype Staged = Staged(path: string, disk: Disk, err: Option<Error>)

  /** No lines: no file and no error. Otherwise tmp.File creates a fresh file
      and the lines are written to it; its failure is the only error modelled. */
  function InlineScript(lines: seq<string>, d: Disk): (r: Staged)
    ensures lines == [] ==> r == Staged("", d, None)
    ensures r.err.Some? ==> r.err == Some(TempFileFailed) && r.path == "" && r.disk.files == d.files
    ensures r.err.None? && lines != [] ==>
      && r.path != "" && r.path !in d.files
      && r.path in r.disk.files && r.disk.files[r.path] == Joined(lines)
      && r.disk.files - {r.path} == d.files
    ensures r.disk.tempNames == if lines == [] || d.tempNames == [] then d.tempNames else d.tempNames[1..]
  {
    if lines == [] then Staged("", d, None)
    else if d.tempNames == [] then Staged("", d, Some(TempFileFailed))
    else
      var name := d.tempNames[0];
      var after := Disk(d.files, d.tempNames[1..]);
      if name == "" || name in d.files then Staged("", after, Some(TempFileFailed))
      else Staged(name, Disk(d.files[name := Joined(lines)], d.tempNames[1..]), None)
  }

  /** A staged inline script holds exactly the configured lines. */
  lemma InlineScriptRoundTrip(lines: seq<string>, d: Disk)
    requires forall i :: 0 <= i < |lines| ==> '\n' !in lines[i]
    requires InlineScript(lines, d).err.None? && lines != []
    ensures var r := InlineScript(lines, d); Lines(r.disk.files[r.path]) == lines
  {
    LinesOfJoined(lines);
  }

  /** The one-line scripts of the pending-reboot check and the auto-update are
      that line and a line feed. */
  lemma SingleLineScript(line: string, d: Disk)
    requires InlineScript([line], d).err.None?
    ensures var r := InlineScript([line], d); r.disk.files[r.path] == line + "\n"
  {
    JoinedSnoc([], line);
    assert [] + [line] == [line];
  }

  // ---------------------------------------------------------------------------
  // initializeScriptCollection

  /** Go's copy: the first min(|dst|, |src|) elements of dst are overwritten by src's. */
  function CopyInto(dst: seq<string>, src: seq<string>): (r: seq<string>)
    ensures |r| == |dst|
    ensures forall i :: 0 <= i < |r| && i < |src| ==> r[i] == src[i]
    ensures forall i :: |src| <= i < |r| ==> r[i] == dst[i]
  {
    if |src| < |dst| then src + dst[|src|..] else src[..|dst|]
  }

  /** make([]string, n), append of the inline path when there is one, then
      copy of the configured scripts over the zeroed front. */
  function AssembledScripts(configured: seq<string>, inlinePath: string): (r: seq<string>)
    ensures r == configured + (if inlinePath != "" then [inlinePath] else [])
  {
    var made := seq(|configured|, _ => "");
    var appended := if inlinePath != "" then made + [inlinePath] else made;
    CopyInto(appended, configured)
  }

  /** The scripts to run, the file system afterwards, and the error. */
  datatype Collection = Collection(scripts: seq<string>, disk: Disk, err: Option<Error>)

  /** The script collection for the configured inline lines and script files. */
  function ScriptCollection(inline: seq<string>, configured: seq<string>, d: Disk): (r: Collection)
    ensures r.err.Some? ==> r.scripts == [] && r.disk.files == d.files
    ensures r.err.None? && inline == [] ==> r.scripts == configured && r.disk == d
    ensures r.err.None? && inline != [] ==>
      && r.scripts == configured + [InlineScript(inline, d).path]
      && r.scripts[|configured|] !in d.files
      && r.disk.files == d.files[r.scripts[|configured|] := Joined(inline)]
  {
    var staged := InlineScript(inline, d);
    if staged.err.Some? then Collection([], staged.disk, staged.err)
    else Collection(AssembledScripts(configured, staged.path), staged.disk, None)
  }

  /** A validated configuration names either inline lines or script files, so
      the collection is the script files alone, or the inline script alone. */
  lemma CollectionOfValidConfig(inline: seq<string>, configured: seq<string>, d: Disk)
    requires (inline == []) != (configured == [])
    requires ScriptCollection(inline, configured, d).err.None?
    ensures var r := ScriptCollection(inline, configured, d);
      && |r.scripts| == 1 + |configured| - (if inline == [] then 1 else 0)
      && (inline == [] ==> r.scripts == configured)
      && (inline != [] ==> r.scripts == [r.scripts[0]] && r.scripts[0] in r.disk.files
                           && r.disk.files[r.scripts[0]] == Joined(inline))
  {
  }
}

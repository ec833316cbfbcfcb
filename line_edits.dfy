/** The line-by-line rewrites the script applies to text files: the root
    entry dropped from `pkgproto` output, Apcupsd's removal of the `rc`
    directory entries from its prototype, RubyEnterprise's `LIBS =`
    Makefile rewrite, and the `.gitignore` written by `ignore_products`.
    Files are sequences of lines, each with its newline as Python's file
    iteration gives it. */
module LineEdits {
  import opened Text
  import opened Lines

  // ---------------------------------------------------------------------
  // The root directory entry of `pkgproto` output.

  /** A `pkgproto` line for the root directory itself, which must never be
      removed by `pkgrm`. */
  predicate IsRootEntry(line: string) {
    StartsWith(line, "d none / ")
  }

  function NotRootEntry(line: string): bool {
    !IsRootEntry(line)
  }

  /** The loop of `package()` that copies `pkgproto` output into the
      prototype: every line but the root entry, in order. */
  method DropRootEntry(lines: seq<string>) returns (kept: seq<string>)
    ensures kept == Filter(lines, NotRootEntry)
    ensures forall l :: l in kept <==> l in lines && !IsRootEntry(l)
  {
    kept := [];
    var i := 0;
    while i < |lines|
      invariant 0 <= i <= |lines|
      invariant kept == Filter(lines[..i], NotRootEntry)
    {
      assert lines[..i + 1][..i] == lines[..i];
      if !IsRootEntry(lines[i]) {
        kept := kept + [lines[i]];
      }
      i := i + 1;
    }
    assert lines[..i] == lines;
  }

  // ---------------------------------------------------------------------
  // Apcupsd's `edit_prototype`.

  /** Lines naming something under `/etc/rc` go: Apcupsd's own `rc`
      scripts are removed in favour of its SMF service. */
  function NotRcEntry(line: string): bool {
    !Contains(line, "/etc/rc")
  }

  /** Copy the prototype to a temporary file without the lines that
      contain `/etc/rc`, then put it in place of the prototype. */
  method DropRcEntries(lines: seq<string>) returns (kept: seq<string>)
    ensures kept == Filter(lines, NotRcEntry)
    ensures forall l :: l in kept <==> l in lines && !Contains(l, "/etc/rc")
  {
    kept := [];
    var i := 0;
    while i < |lines|
      invariant 0 <= i <= |lines|
      invariant kept == Filter(lines[..i], NotRcEntry)
    {
      assert lines[..i + 1][..i] == lines[..i];
      if !Contains(lines[i], "/etc/rc") {
        kept := kept + [lines[i]];
      }
      i := i + 1;
    }
    assert lines[..i] == lines;
  }

  // ---------------------------------------------------------------------
  // RubyEnterprise's Makefile rewrite.

  const LibsKey := "LIBS = "
  const PrelibsKey := "LIBS = $(PRELIBS) "

  /** One line of the Makefile: `LIBS = rest` becomes `LIBS = $(PRELIBS)
      rest` ended by a newline, where `rest` stops at the line's first
      newline as `(.*)` does; any other line is kept as it is. */
  function RewriteLine(line: string): string {
    if StartsWith(line, LibsKey) then
      var rest := line[|LibsKey|..];
      PrelibsKey + rest[..LineEnd(rest)] + "\n"
    else line
  }

  /** Undo the rewrite: take `$(PRELIBS) ` back out of a `LIBS` line. */
  function RestoreLine(line: string): string {
    if StartsWith(line, PrelibsKey) then LibsKey + line[|PrelibsKey|..] else line
  }

  /** A single line of a file: its only newline is the last character. */
  predicate IsLine(line: string) {
    |line| > 0 && LineEnd(line) == |line| - 1
  }

  /** A whole `LIBS` line is the key, a newline-free value and the
      newline. */
  lemma LibsLineShape(line: string)
    requires IsLine(line) && StartsWith(line, LibsKey)
    ensures '\n' !in line[|LibsKey|..|line| - 1]
    ensures line == LibsKey + line[|LibsKey|..|line| - 1] + "\n"
  {
    var k := |line| - 1;
    var x := line[|LibsKey|..k];
    assert x == line[..k][|LibsKey|..];
    assert line[k] == '\n';
    assert line == line[..|LibsKey|] + x + [line[k]];
  }

  /** Taking `$(PRELIBS) ` out of a rewritten line. */
  lemma RestorePrelibs(x: string)
    ensures RestoreLine(PrelibsKey + x + "\n") == LibsKey + x + "\n"
  {
    AppendAssoc(PrelibsKey, x, "\n");
    SplitConcat(PrelibsKey, x + "\n");
    AppendAssoc(LibsKey, x, "\n");
  }

  /** The rewrite loses nothing from a whole line: taking the inserted
      `$(PRELIBS) ` out again gives back the original line. */
  lemma RestoreRewrite(line: string)
    requires IsLine(line)
    ensures RestoreLine(RewriteLine(line)) == line
  {
    if StartsWith(line, LibsKey) {
      LibsLineShape(line);
      var x := line[|LibsKey|..|line| - 1];
      RewriteLibsLine(x);
      RestorePrelibs(x);
    } else {
      assert PrelibsKey[..|LibsKey|] == LibsKey;
      assert |line| >= |PrelibsKey| ==> line[..|LibsKey|] == line[..|PrelibsKey|][..|LibsKey|];
    }
  }

  /** A `LIBS` line of the form `LIBS = x` plus newline gets `$(PRELIBS)`
      in front of `x`. */
  lemma RewriteLibsLine(x: string)
    requires '\n' !in x
    ensures RewriteLine(LibsKey + x + "\n") == PrelibsKey + x + "\n"
  {
    var line := LibsKey + x + "\n";
    assert line[..|LibsKey|] == LibsKey;
    assert line[|LibsKey|..] == x + "\n" + "";
    LineEndAfter(x, "");
  }

  /** Write the Makefile anew, one line rewritten for each line read. */
  method RewriteMakefile(lines: seq<string>) returns (out: seq<string>)
    ensures |out| == |lines|
    ensures forall i :: 0 <= i < |lines| ==> out[i] == RewriteLine(lines[i])
    ensures forall i :: 0 <= i < |lines| && !StartsWith(lines[i], LibsKey) ==> out[i] == lines[i]
    ensures forall i :: 0 <= i < |lines| && IsLine(lines[i]) ==> RestoreLine(out[i]) == lines[i]
  {
    out := [];
    var i := 0;
    while i < |lines|
      invariant 0 <= i <= |lines|
      invariant |out| == i
      invariant forall j :: 0 <= j < i ==> out[j] == RewriteLine(lines[j])
    {
      var line := lines[i];
      if StartsWith(line, LibsKey) {
        var rest := line[|LibsKey|..];
        out := out + [PrelibsKey + rest[..LineEnd(rest)] + "\n"];
      } else {
        out := out + [line];
      }
      i := i + 1;
    }
    forall i | 0 <= i < |lines| && IsLine(lines[i])
      ensures RestoreLine(out[i]) == lines[i]
    {
      RestoreRewrite(lines[i]);
    }
  }

  // ---------------------------------------------------------------------
  // `ignore_products`.

  /** Every untracked path `git ls-files --other` lists is written to
      `.gitignore` anchored at the top of the tree with a leading `/`. */
  method IgnoreProducts(untracked: seq<string>) returns (ignore: seq<string>)
    ensures |ignore| == |untracked|
    ensures forall i :: 0 <= i < |untracked| ==> StartsWith(ignore[i], "/") && ignore[i][1..] == untracked[i]
  {
    ignore := [];
    var i := 0;
    while i < |untracked|
      invariant 0 <= i <= |untracked|
      invariant |ignore| == i
      invariant forall j :: 0 <= j < i ==> ignore[j] == "/" + untracked[j]
    {
      ignore := ignore + ["/" + untracked[i]];
      i := i + 1;
    }
    forall i | 0 <= i < |untracked|
      ensures StartsWith(ignore[i], "/") && ignore[i][1..] == untracked[i]
    {
      assert ignore[i] == "/" + untracked[i];
    }
  }
}

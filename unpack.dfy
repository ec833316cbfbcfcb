/** `Package.unpack`: choose a decompressor for the archive, check that it
    is installed, extract, and hand the tree to root. The external tools
    are not modelled; the result is the list of actions taken, or the
    error raised. */
module Unpack {
  import opened Wrappers
  import opened Text
  import opened TarballName

  datatype Tool = Xz | Bzip2 | Gzip

  /** The command name, which is also the package to install. */
  function ToolName(t: Tool): string {
    match t
    case Xz => "xz"
    case Bzip2 => "bzip2"
    case Gzip => "gzip"
  }

  /** Where the tool must be installed. */
  function ToolPath(t: Tool): string {
    "/usr/bin/" + ToolName(t)
  }

  /** The tool as the source chooses it: `.xz` anywhere in the archive
      name first, then `.bz2`, then `.gz`; none when no test succeeds. */
  function ChooseTool(tarball: string): (t: Option<Tool>)
    ensures t == Some(Xz) <==> Contains(tarball, ".xz")
    ensures t == Some(Bzip2) <==> !Contains(tarball, ".xz") && Contains(tarball, ".bz2")
    ensures t == Some(Gzip) <==> !Contains(tarball, ".xz") && !Contains(tarball, ".bz2") && Contains(tarball, ".gz")
  {
    if Contains(tarball, ".xz") then Some(Xz)
    else if Contains(tarball, ".bz2") then Some(Bzip2)
    else if Contains(tarball, ".gz") then Some(Gzip)
    else None
  }

  /** The same ordered tests applied to the extension alone. */
  function ToolForExtension(ext: string): Option<Tool> {
    ChooseTool("." + ext)
  }

  /** What `unpack` does when it does not raise. */
  datatype Action =
    | Extract(tool: Tool, tarball: string)   // tool -dc tarball | tar -xf -
    | Chown(base: string)                    // chown -R root:root base

  datatype UnpackError =
    | MissingArchive(tarball: string)   // the `assert isfile(...)` fails
    | MissingTool(tool: Tool)           // "Please install the <tool> package"

  function ErrorMessage(e: UnpackError): string {
    match e
    case MissingArchive(_) => ""
    case MissingTool(t) => "Please install the " + ToolName(t) + " package"
  }

  /** `unpack` for a parsed archive: the archive must exist, the tool for
      its extension must be installed, and after extracting (or extracting
      nothing when no tool applies) the tree is given to root. */
  function UnpackArchive(p: Parsed, archiveExists: bool, installed: set<Tool>): (r: Result<seq<Action>, UnpackError>)
    ensures !archiveExists ==> r == Err(MissingArchive(p.tarball))
    ensures r.Err? && r.error.MissingTool? ==> ToolForExtension(p.ext) == Some(r.error.tool) && r.error.tool !in installed
    ensures r.Ok? ==> archiveExists && |r.value| > 0 && r.value[|r.value| - 1] == Chown(p.base)
    ensures r.Ok? ==> (|r.value| == 2 <==> ToolForExtension(p.ext).Some?)
    ensures r.Ok? && |r.value| == 2 ==> r.value[0] == Extract(ToolForExtension(p.ext).value, p.tarball) && r.value[0].tool in installed
  {
    if !archiveExists then Err(MissingArchive(p.tarball))
    else match ToolForExtension(p.ext)
      case None => Ok([Chown(p.base)])
      case Some(t) =>
        if t !in installed then Err(MissingTool(t))
        else Ok([Extract(t, p.tarball), Chown(p.base)])
  }

  // ---------------------------------------------------------------------
  // Why the tool is taken from the extension.

  /** A pattern starting with a dot can occur in `.` + `ext`, where `ext`
      has no dot, only at the front. */
  lemma DotPatternAtFront(ext: string, pat: string)
    requires '.' !in ext && |pat| > 0 && pat[0] == '.'
    ensures Contains("." + ext, pat) <==> StartsWith("." + ext, pat)
  {
    var s := "." + ext;
    assert forall j :: 1 <= j < |s| ==> s[j] == ext[j - 1];
    if Contains(s, pat) {
      var i :| 0 <= i <= |s| - |pat| && OccursAt(s, pat, i);
      assert s[i] == pat[0];
      assert s[..|pat|] == s[i..i + |pat|];
    }
    if StartsWith(s, pat) {
      assert OccursAt(s, pat, 0);
    }
  }

  /** The tool the first token of an extension names. */
  function FirstTokenTool(ext: string): Option<Tool> {
    if StartsWith(ext, "xz") then Some(Xz)
    else if StartsWith(ext, "bz2") then Some(Bzip2)
    else if StartsWith(ext, "gz") then Some(Gzip)
    else None
  }

  /** For every extension the later pattern accepts, the tests pick the
      tool that the extension's first token names, whatever the name and
      version of the archive. */
  lemma ExtensionToolIsFirstToken(ext: string)
    requires CompressedExt(ext)
    ensures ToolForExtension(ext) == FirstTokenTool(ext)
    ensures ToolForExtension(ext).Some?
  {
    CompressedHasNoDot(ext);
    DotPatternAtFront(ext, ".xz");
    DotPatternAtFront(ext, ".bz2");
    DotPatternAtFront(ext, ".gz");
    var s := "." + ext;
    assert StartsWith(s, ".xz") <==> StartsWith(ext, "xz") by {
      if |s| >= 3 {
        assert s[..3] == "." + ext[..2];
      }
    }
    assert StartsWith(s, ".bz2") <==> StartsWith(ext, "bz2") by {
      if |s| >= 4 {
        assert s[..4] == "." + ext[..3];
      }
    }
    assert StartsWith(s, ".gz") <==> StartsWith(ext, "gz") by {
      if |s| >= 3 {
        assert s[..3] == "." + ext[..2];
      }
    }
  }

  /** As written, the tests look at the whole archive name: a gzip archive
      whose name contains `.xz` is handed to `xz`, while the same archive
      under a name without it goes to `gzip`, the tool its extension names. */
  lemma NameDecidesTool(dotted: string, plain: string)
    requires dotted == "lib.xzutils-1.0.tar.gz" && plain == "libxzutils-1.0.tar.gz"
    ensures ParseTarball(dotted).Ok? && ParseTarball(plain).Ok?
    ensures ChooseTool(dotted) == Some(Xz)
    ensures ChooseTool(plain) == Some(Gzip) == ToolForExtension("gz")
  {
    GzExtensionTool("gz");
    Parses(dotted, "lib.xzutils", "1.0", "gz");
    Parses(plain, "libxzutils", "1.0", "gz");
    DottedGoesToXz(dotted);
    PlainGoesToGzip(plain);
  }

  lemma GzExtensionTool(e: string)
    requires e == "gz"
    ensures ToolForExtension(e) == Some(Gzip)
  {
    assert e[0] == 'g';
    assert CompressedExt(e);
    ExtensionToolIsFirstToken(e);
  }

  lemma Parses(a: string, n: string, v: string, e: string)
    requires NameOk(n) && VersionOk(v) && e == "gz" && a == n + "-" + v + ".tar." + e
    ensures ParseTarball(a).Ok?
  {
    ParseAcceptsUnpackableExtensions(n, v, e);
  }

  lemma DottedGoesToXz(a: string)
    requires a == "lib.xzutils-1.0.tar.gz"
    ensures ChooseTool(a) == Some(Xz)
  {
    assert a[3..6] == ".xz";
    assert OccursAt(a, ".xz", 3);
  }

  lemma PlainGoesToGzip(b: string)
    requires b == "libxzutils-1.0.tar.gz"
    ensures ChooseTool(b) == Some(Gzip)
  {
    assert OccursAt(b, ".gz", |b| - 3);
    NoDotXz(b);
    NoDotBz2(b);
  }

  lemma NoDotXz(b: string)
    requires b == "libxzutils-1.0.tar.gz"
    ensures !Contains(b, ".xz")
  {
    forall i | 0 <= i <= |b| - 3
      ensures !OccursAt(b, ".xz", i)
    {
      assert b[i..i + 3][0] == b[i] && b[i..i + 3][1] == b[i + 1];
    }
  }

  lemma NoDotBz2(b: string)
    requires b == "libxzutils-1.0.tar.gz"
    ensures !Contains(b, ".bz2")
  {
    forall i | 0 <= i <= |b| - 4
      ensures !OccursAt(b, ".bz2", i)
    {
      assert b[i..i + 4][0] == b[i] && b[i..i + 4][1] == b[i + 1];
    }
  }
}

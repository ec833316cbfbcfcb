/** `PkgInfoFile`: the `pkginfo(4)` description of a package, four
    `KEY=value` lines. The text is given by `PkgInfoText`; `Read` parses
    such a text back, and the two are proved inverse for values without a
    newline. */
module PkgInfo {
  import opened Wrappers
  import opened Text

  /** The category used when none is given. */
  const DefaultCategory := "application"

  /** The four values of the record: what `PKG=`, `NAME=`, `VERSION=` and
      `CATEGORY=` are set to. */
  datatype Record = Record(pkg: string, name: string, version: string, category: string)

  /** `PkgInfoFile(name, title, version)` as pkgbuild.py's `package()`
      builds it: the package name is the `PKG`, the title the `NAME`. */
  function FromTitle(name: string, title: string, version: string): Record {
    Record(name, title, version, DefaultCategory)
  }

  /** `PkgInfoFile(self.name, self.name, self.version)` as the older
      bin/pkgbuild.py builds it: the package name serves as both. */
  function FromName(name: string, version: string): (r: Record)
    ensures r.pkg == r.name == name && r.category == DefaultCategory
  {
    Record(name, name, version, DefaultCategory)
  }

  /** `close`: the text written to the `pkginfo` file. */
  function PkgInfoText(r: Record): string {
    "PKG=" + r.pkg + "\nNAME=" + r.name + "\nVERSION=" + r.version + "\nCATEGORY=" + r.category + "\n"
  }

  // ---------------------------------------------------------------------
  // Reading the text back.

  /** The value on the first line of `s` if that line starts with `key`,
      and the text after the line's newline. */
  function ReadLine(s: string, key: string): Option<(string, string)> {
    var e := LineEnd(s);
    if e < |s| && StartsWith(s[..e], key) then Some((s[|key|..e], s[e + 1..])) else None
  }

  /** The four values of a `pkginfo` text in the order written, or `None`
      when the text is not exactly four such lines. */
  function Read(text: string): Option<Record> {
    match ReadLine(text, "PKG=")
    case None => None
    case Some((pkg, t1)) =>
      match ReadLine(t1, "NAME=")
      case None => None
      case Some((name, t2)) =>
        match ReadLine(t2, "VERSION=")
        case None => None
        case Some((version, t3)) =>
          match ReadLine(t3, "CATEGORY=")
          case None => None
          case Some((category, t4)) =>
            if t4 == "" then Some(Record(pkg, name, version, category)) else None
  }

  /** A line `key + value` is read back as `value`, and reading goes on
      after its newline. */
  lemma ReadLineAfter(key: string, value: string, rest: string)
    requires '\n' !in key && '\n' !in value
    ensures ReadLine(key + value + "\n" + rest, key) == Some((value, rest))
  {
    var line := key + value;
    assert '\n' !in line by {
      forall i | 0 <= i < |line| ensures line[i] != '\n' {
        if i < |key| {
          assert line[i] == key[i];
        } else {
          assert line[i] == value[i - |key|];
        }
      }
    }
    LineEndAfter(line, rest);
    var s := key + value + "\n" + rest;
    assert s == line + "\n" + rest;
    assert s[..|line|] == line;
    assert s[|line| + 1..] == rest;
    assert line[..|key|] == key;
    assert s[|key|..|line|] == value;
  }

  /** Four lines read in turn, the last one ending the text, give the
      record. */
  lemma ReadFourLines(text: string, t1: string, t2: string, t3: string, r: Record)
    requires ReadLine(text, "PKG=") == Some((r.pkg, t1))
    requires ReadLine(t1, "NAME=") == Some((r.name, t2))
    requires ReadLine(t2, "VERSION=") == Some((r.version, t3))
    requires ReadLine(t3, "CATEGORY=") == Some((r.category, ""))
    ensures Read(text) == Some(r)
  {
  }

  /** The text is the `PKG=` line followed by the rest, line by line. */
  lemma TextByLines(r: Record)
    ensures PkgInfoText(r) ==
              "PKG=" + r.pkg + "\n" + ("NAME=" + r.name + "\n" + ("VERSION=" + r.version + "\n" + ("CATEGORY=" + r.category + "\n" + "")))
  {
  }

  /** Reading the written text gives back the record, whenever no value
      contains a newline (which would add a line to the file). */
  lemma ReadRoundTrip(r: Record)
    requires '\n' !in r.pkg && '\n' !in r.name && '\n' !in r.version && '\n' !in r.category
    ensures Read(PkgInfoText(r)) == Some(r)
  {
    var t3 := "CATEGORY=" + r.category + "\n" + "";
    var t2 := "VERSION=" + r.version + "\n" + t3;
    var t1 := "NAME=" + r.name + "\n" + t2;
    TextByLines(r);
    assert ReadLine(PkgInfoText(r), "PKG=") == Some((r.pkg, t1)) by {
      ReadLineAfter("PKG=", r.pkg, t1);
    }
    assert ReadLine(t1, "NAME=") == Some((r.name, t2)) by {
      ReadLineAfter("NAME=", r.name, t2);
    }
    assert ReadLine(t2, "VERSION=") == Some((r.version, t3)) by {
      ReadLineAfter("VERSION=", r.version, t3);
    }
    assert ReadLine(t3, "CATEGORY=") == Some((r.category, "")) by {
      ReadLineAfter("CATEGORY=", r.category, "");
    }
    ReadFourLines(PkgInfoText(r), t1, t2, t3, r);
  }
}

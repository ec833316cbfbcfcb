/** The archive-name parser of `Package.__init__`: the regular expression
    `(([^0-9]+?)-([-0-9_.]+))\.tar\.EXT$` applied with `re.match`, written
    out as a decision procedure over characters. EXT is `(gz|bz2|xz)+` in
    pkgbuild.py and `[a-z]+` in bin/pkgbuild.py. */
module TarballName {
  import opened Wrappers
  import opened Text

  /** Which extension pattern a variant of the script uses. */
  datatype ExtRule = Compressed | Lowercase

  /** The regular expression's groups: group 0 is `tarball`, group 1 is
      `base`, group 2 is `name`, group 3 is `version`; `ext` is what the
      trailing extension pattern consumed. */
  datatype Parsed = Parsed(tarball: string, base: string, name: string, version: string, ext: string)

  /** "Cannot parse tarball name: " followed by the argument. */
  datatype ParseError = CannotParse(tarball: string)

  /** `[^0-9]+` */
  predicate NameOk(n: string) {
    |n| > 0 && forall i :: 0 <= i < |n| ==> !IsDigit(n[i])
  }

  /** `[-0-9_.]` */
  predicate VersionChar(c: char) {
    c == '-' || IsDigit(c) || c == '_' || c == '.'
  }

  /** `[-0-9_.]+` */
  predicate VersionOk(v: string) {
    |v| > 0 && forall i :: 0 <= i < |v| ==> VersionChar(v[i])
  }

  /** `(gz|bz2|xz)+`, decided left to right: the three alternatives start
      with different letters, so at most one of them applies at each step. */
  predicate CompressedExt(e: string)
    decreases |e|
  {
    if StartsWith(e, "gz") then |e| == 2 || CompressedExt(e[2..])
    else if StartsWith(e, "bz2") then |e| == 3 || CompressedExt(e[3..])
    else if StartsWith(e, "xz") then |e| == 2 || CompressedExt(e[2..])
    else false
  }

  /** The extension alternatives have no dot, so neither has an extension
      made of them. */
  lemma {:induction false} CompressedHasNoDot(e: string)
    requires CompressedExt(e)
    ensures '.' !in e
    decreases |e|
  {
    var k := if StartsWith(e, "gz") || (!StartsWith(e, "bz2") && StartsWith(e, "xz")) then 2 else 3;
    assert '.' !in e[..k];
    if |e| > k {
      CompressedHasNoDot(e[k..]);
    }
    assert e == e[..k] + e[k..];
  }

  /** `[a-z]+` */
  predicate LowercaseExt(e: string) {
    |e| > 0 && forall i :: 0 <= i < |e| ==> 'a' <= e[i] <= 'z'
  }

  predicate ExtOk(rule: ExtRule, e: string) {
    match rule
    case Compressed => CompressedExt(e)
    case Lowercase => LowercaseExt(e)
  }

  /** `s` is `n-v.tar.e` with every part in its character class. */
  predicate IsSplit(s: string, rule: ExtRule, n: string, v: string, e: string) {
    s == n + "-" + v + ".tar." + e && NameOk(n) && VersionOk(v) && ExtOk(rule, e)
  }

  // ---------------------------------------------------------------------
  // The extension alternatives as tokens: the reading of `(gz|bz2|xz)+`
  // that the decision procedure above has to agree with.

  function Concat(ts: seq<string>): string
    decreases |ts|
  {
    if |ts| == 0 then "" else ts[0] + Concat(ts[1..])
  }

  predicate IsExtToken(t: string) {
    t == "gz" || t == "bz2" || t == "xz"
  }

  predicate IsTokenSplit(ts: seq<string>, e: string) {
    |ts| > 0 && (forall i :: 0 <= i < |ts| ==> IsExtToken(ts[i])) && Concat(ts) == e
  }

  lemma {:induction false} TokensGiveCompressedExt(ts: seq<string>, e: string)
    requires IsTokenSplit(ts, e)
    ensures CompressedExt(e)
    decreases |ts|
  {
    var t := ts[0];
    assert e == t + Concat(ts[1..]);
    assert e[..|t|] == t;
    assert e[|t|..] == Concat(ts[1..]);
    if |ts| > 1 {
      assert IsExtToken(ts[1..][0]);
      assert |Concat(ts[1..])| > 0;
      assert forall i :: 0 <= i < |ts[1..]| ==> IsExtToken(ts[1..][i]);
      TokensGiveCompressedExt(ts[1..], Concat(ts[1..]));
    }
    if t == "gz" {
      assert StartsWith(e, "gz");
    } else if t == "bz2" {
      assert e[0] == 'b';
      assert !StartsWith(e, "gz") && StartsWith(e, "bz2");
    } else {
      assert e[0] == 'x';
      assert !StartsWith(e, "gz") && !StartsWith(e, "bz2") && StartsWith(e, "xz");
    }
  }

  lemma {:induction false} CompressedExtGivesTokens(e: string)
    requires CompressedExt(e)
    ensures exists ts :: IsTokenSplit(ts, e)
    decreases |e|
  {
    var k := if StartsWith(e, "gz") || (!StartsWith(e, "bz2") && StartsWith(e, "xz")) then 2 else 3;
    var t := e[..k];
    assert IsExtToken(t);
    if |e| == k {
      assert IsTokenSplit([t], e);
    } else {
      CompressedExtGivesTokens(e[k..]);
      var rest :| IsTokenSplit(rest, e[k..]);
      var ts := [t] + rest;
      assert ts[1..] == rest;
      assert e == t + e[k..];
      assert IsTokenSplit(ts, e);
    }
  }

  /** The decision procedure accepts exactly the concatenations of one or
      more of `gz`, `bz2` and `xz`. */
  lemma CompressedExtIsTokens(e: string)
    ensures CompressedExt(e) <==> exists ts :: IsTokenSplit(ts, e)
  {
    if CompressedExt(e) {
      CompressedExtGivesTokens(e);
    }
    if exists ts :: IsTokenSplit(ts, e) {
      var ts :| IsTokenSplit(ts, e);
      TokensGiveCompressedExt(ts, e);
    }
  }

  // ---------------------------------------------------------------------
  // The decision procedure.

  /** Length of the longest prefix of `r` made of version characters: where
      the greedy `[-0-9_.]+` stops before it backs off. */
  function VersionRun(r: string): (k: nat)
    ensures k <= |r|
    ensures forall i :: 0 <= i < k ==> VersionChar(r[i])
    ensures k < |r| ==> !VersionChar(r[k])
    decreases |r|
  {
    if |r| == 0 || !VersionChar(r[0]) then 0 else 1 + VersionRun(r[1..])
  }

  /** Splits what follows `NAME-` into VERSION `.tar.` EXT. The version
      can only end one character before the first non-version character,
      because `.tar.` starts with a dot and continues with a letter. */
  function SplitRest(r: string, rule: ExtRule): (o: Option<(string, string)>)
    ensures o.Some? ==> VersionOk(o.value.0) && ExtOk(rule, o.value.1)
    ensures o.Some? ==> r == o.value.0 + ".tar." + o.value.1
  {
    var k := VersionRun(r);
    if 2 <= k && r[k - 1] == '.' && StartsWith(r[k..], "tar.") && ExtOk(rule, r[k + 4..]) then
      assert r == r[..k - 1] + ".tar." + r[k + 4..];
      Some((r[..k - 1], r[k + 4..]))
    else None
  }

  /** Any way of reading `r` as VERSION `.tar.` EXT is the one `SplitRest`
      finds. */
  lemma SplitRestComplete(r: string, rule: ExtRule, v: string, e: string)
    requires r == v + ".tar." + e && VersionOk(v) && ExtOk(rule, e)
    ensures SplitRest(r, rule) == Some((v, e))
  {
    var k := VersionRun(r);
    assert r[|v|] == '.' && r[|v| + 1] == 't';
    assert forall i :: 0 <= i < |v| ==> r[i] == v[i];
    assert k == |v| + 1;
    assert r[..k - 1] == v;
    assert r[k..] == "tar." + e;
    assert r[k + 4..] == e;
  }

  /** Lazy `[^0-9]+?`: try name lengths k, k+1, ... and stop at the first
      that lets the rest match, or at the first digit. */
  function ParseFrom(s: string, rule: ExtRule, k: nat): (o: Option<(string, string, string)>)
    requires 1 <= k
    requires forall i :: 0 <= i < k - 1 && i < |s| ==> !IsDigit(s[i])
    ensures o.Some? ==> k <= |o.value.0|
    decreases |s| - k
  {
    if k >= |s| || IsDigit(s[k - 1]) then None
    else if s[k] == '-' && SplitRest(s[k + 1..], rule).Some? then
      var ve := SplitRest(s[k + 1..], rule).value;
      Some((s[..k], ve.0, ve.1))
    else ParseFrom(s, rule, k + 1)
  }

  /** A name free of digits, a dash and a rest `SplitRest` accepts make a
      reading. */
  lemma SplitAtDash(s: string, rule: ExtRule, k: nat)
    requires 1 <= k < |s|
    requires forall i :: 0 <= i < k ==> !IsDigit(s[i])
    requires s[k] == '-' && SplitRest(s[k + 1..], rule).Some?
    ensures IsSplit(s, rule, s[..k], SplitRest(s[k + 1..], rule).value.0, SplitRest(s[k + 1..], rule).value.1)
  {
    var n, r := s[..k], s[k + 1..];
    var v, e := SplitRest(r, rule).value.0, SplitRest(r, rule).value.1;
    var d := "-";
    assert s == n + d + r by {
      assert [s[k]] == d;
      AroundIndex(s, k);
    }
    var x := n + d;
    AppendAssoc(x, v + ".tar.", e);
    AppendAssoc(x, v, ".tar.");
    assert forall i :: 0 <= i < |n| ==> !IsDigit(n[i]);
  }

  /** Whatever the search returns is a reading of `s`. */
  lemma {:induction false} ParseFromSound(s: string, rule: ExtRule, k: nat)
    requires 1 <= k
    requires forall i :: 0 <= i < k - 1 && i < |s| ==> !IsDigit(s[i])
    ensures var o := ParseFrom(s, rule, k);
      o.Some? ==> IsSplit(s, rule, o.value.0, o.value.1, o.value.2)
    decreases |s| - k
  {
    if k >= |s| || IsDigit(s[k - 1]) {
    } else if s[k] == '-' && SplitRest(s[k + 1..], rule).Some? {
      SplitAtDash(s, rule, k);
    } else {
      ParseFromSound(s, rule, k + 1);
    }
  }

  /** The pieces of a reading, by position. */
  lemma SplitPieces(s: string, rule: ExtRule, n: string, v: string, e: string)
    requires IsSplit(s, rule, n, v, e)
    ensures |n| < |s| && s[..|n|] == n && s[|n|] == '-' && s[|n| + 1..] == v + ".tar." + e
  {
    AppendAssoc(n + "-" + v, ".tar.", e);
    AppendAssoc(n + "-", v, ".tar." + e);
    AppendAssoc(n, "-", v + (".tar." + e));
    SplitConcat(n, "-" + (v + (".tar." + e)));
    SplitConcat("-", v + (".tar." + e));
  }

  /** Trying name lengths from `k` on reaches, at the latest, a length `m`
      at which the name is followed by a dash and a valid rest. */
  lemma {:induction false} ParseFromStopsBy(s: string, rule: ExtRule, k: nat, m: nat)
    requires 1 <= k <= m < |s|
    requires forall i :: 0 <= i < m ==> !IsDigit(s[i])
    requires s[m] == '-' && SplitRest(s[m + 1..], rule).Some?
    ensures ParseFrom(s, rule, k).Some?
    ensures |ParseFrom(s, rule, k).value.0| <= m
    decreases m - k
  {
    if s[k] == '-' && SplitRest(s[k + 1..], rule).Some? {
      var ve := SplitRest(s[k + 1..], rule).value;
      assert ParseFrom(s, rule, k) == Some((s[..k], ve.0, ve.1));
    } else {
      ParseFromStopsBy(s, rule, k + 1, m);
      assert ParseFrom(s, rule, k) == ParseFrom(s, rule, k + 1);
    }
  }

  /** `re.match(...)` on the whole argument; failure raises "Cannot parse
      tarball name". */
  function Parse(s: string, rule: ExtRule): (r: Result<Parsed, ParseError>)
    ensures r.Ok? ==> IsSplit(s, rule, r.value.name, r.value.version, r.value.ext)
    ensures r.Ok? ==> r.value.tarball == s && r.value.base == r.value.name + "-" + r.value.version
    ensures r.Err? ==> r.error == CannotParse(s)
  {
    ParseFromSound(s, rule, 1);
    match ParseFrom(s, rule, 1)
    case Some((n, v, e)) => Ok(Parsed(s, n + "-" + v, n, v, e))
    case None => Err(CannotParse(s))
  }

  /** Whenever `s` can be read as NAME-VERSION.tar.EXT the parse succeeds,
      and its name is no longer than that of any such reading. */
  lemma ParseFindsShortestName(s: string, rule: ExtRule, n: string, v: string, e: string)
    requires IsSplit(s, rule, n, v, e)
    ensures Parse(s, rule).Ok?
    ensures |Parse(s, rule).value.name| <= |n|
  {
    SplitPieces(s, rule, n, v, e);
    SplitRestComplete(s[|n| + 1..], rule, v, e);
    forall i | 0 <= i < |n|
      ensures !IsDigit(s[i])
    {
      assert s[i] == s[..|n|][i];
    }
    ParseFromStopsBy(s, rule, 1, |n|);
  }

  /** A reading is fixed by the length of its name: version and extension
      follow. So the parse result is THE reading with the shortest name. */
  lemma SplitDeterminedByName(s: string, rule: ExtRule, n1: string, v1: string, e1: string, n2: string, v2: string, e2: string)
    requires IsSplit(s, rule, n1, v1, e1) && IsSplit(s, rule, n2, v2, e2)
    requires |n1| == |n2|
    ensures n1 == n2 && v1 == v2 && e1 == e2
  {
    assert n1 == s[..|n1|] && n2 == s[..|n2|];
    var r := s[|n1| + 1..];
    assert r == v1 + ".tar." + e1 && r == v2 + ".tar." + e2;
    SplitRestComplete(r, rule, v1, e1);
    SplitRestComplete(r, rule, v2, e2);
  }

  /** pkgbuild.py: extension `(gz|bz2|xz)+`. */
  function ParseTarball(s: string): (r: Result<Parsed, ParseError>)
    ensures r.Ok? ==> CompressedExt(r.value.ext) && s == r.value.base + ".tar." + r.value.ext
  {
    Parse(s, Compressed)
  }

  /** bin/pkgbuild.py: extension `[a-z]+`. */
  function ParseTarballBin(s: string): (r: Result<Parsed, ParseError>)
    ensures r.Ok? ==> LowercaseExt(r.value.ext) && s == r.value.base + ".tar." + r.value.ext
  {
    Parse(s, Lowercase)
  }

  /** A name accepted by the older pattern ends in a lower-case letter. */
  lemma BinParseEndsInLetter(s: string)
    requires ParseTarballBin(s).Ok?
    ensures |s| > 0 && 'a' <= s[|s| - 1] <= 'z'
  {
    var e := ParseTarballBin(s).value.ext;
    assert s[|s| - 1] == e[|e| - 1];
  }

  /** As written, the older pattern `[a-z]+` refuses every `.tar.bz2`
      archive, although its own `unpack` has a branch for `.bz2`. */
  lemma BinRejectsBz2()
    ensures ParseTarballBin("db-4.8.30.tar.bz2").Err?
  {
    var s := "db-4.8.30.tar.bz2";
    if ParseTarballBin(s).Ok? {
      BinParseEndsInLetter(s);
    }
  }

  /** The later pattern `(gz|bz2|xz)+` accepts every archive whose
      extension `unpack` knows how to decompress. */
  lemma ParseAcceptsUnpackableExtensions(n: string, v: string, ext: string)
    requires NameOk(n) && VersionOk(v)
    requires ext == "gz" || ext == "bz2" || ext == "xz"
    ensures ParseTarball(n + "-" + v + ".tar." + ext).Ok?
  {
    assert ext[0] == 'g' || ext[0] == 'b' || ext[0] == 'x';
    assert CompressedExt(ext);
    ParseFindsShortestName(n + "-" + v + ".tar." + ext, Compressed, n, v, ext);
  }

  // ---------------------------------------------------------------------
  // `Package.__init__` in pkgbuild.py.

  /** The identity fields of a package object; "" is the class default. A
      variant may preset `title` (and, when it passes no archive, every
      field) before the base initialiser runs. */
  datatype Identity = Identity(tarball: string, base: string, name: string, title: string, version: string)

  /** With an archive name (`if tarball:`, so not ""), parse it and fill in
      the fields; `title` takes the name only if the variant left it unset. */
  function Identify(tarball: string, preset: Identity): (r: Result<Identity, ParseError>)
    ensures tarball == "" ==> r == Ok(preset)
    ensures tarball != "" ==> (r.Ok? <==> ParseTarball(tarball).Ok?)
    ensures tarball != "" && r.Ok? ==>
      && r.value.tarball == tarball
      && r.value.name == ParseTarball(tarball).value.name
      && r.value.version == ParseTarball(tarball).value.version
      && r.value.base == r.value.name + "-" + r.value.version
      && r.value.title == (if preset.title == "" then r.value.name else preset.title)
    ensures r.Err? ==> r.error == CannotParse(tarball)
  {
    if tarball == "" then Ok(preset)
    else match ParseTarball(tarball)
      case Ok(p) => Ok(Identity(p.tarball, p.base, p.name, if preset.title == "" then p.name else preset.title, p.version))
      case Err(e) => Err(e)
  }
}

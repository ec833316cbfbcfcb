/** `PkgBuild.main` and the `__main__` loop of bin/pkgbuild.py: which
    package class handles each archive named on the command line, what the
    variant classes preset before and after `Package.__init__`, and the
    batch that stops at the first exception. */
module Dispatch {
  import opened Wrappers
  import opened Text
  import opened Errors
  import opened TarballName
  import opened Smf
  import opened Prototype
  import opened Assembly
  import Pipeline

  /** The package classes an archive can be handed to. */
  datatype Kind = Generic | Apcupsd | BerkeleyDB | Dovecot | Glib | Netatalk | Ngircd | RubyEnterprise

  /** `PkgBuild.pkgmap`, in the order it is written. */
  const Registry: seq<(string, Kind)> := [
    ("apcupsd", Apcupsd),
    ("db", BerkeleyDB),
    ("dovecot", Dovecot),
    ("glib", Glib),
    ("netatalk", Netatalk),
    ("ngircd", Ngircd),
    ("ruby-enterprise", RubyEnterprise)
  ]

  /** `re.match(key + '-', path)`: none of the keys holds a character the
      regular expression treats specially, so this is a prefix test. */
  predicate KeyMatches(key: string, path: string) {
    StartsWith(path, key + "-")
  }

  /** The position of the first entry whose key matches, in the order the
      dictionary is iterated. */
  function FirstMatch(order: seq<(string, Kind)>, path: string): (r: Option<nat>)
    ensures r.None? <==> forall i :: 0 <= i < |order| ==> !KeyMatches(order[i].0, path)
    ensures r.Some? ==> r.value < |order| && KeyMatches(order[r.value].0, path)
    ensures r.Some? ==> forall j :: 0 <= j < r.value ==> !KeyMatches(order[j].0, path)
  {
    if |order| == 0 then None
    else if KeyMatches(order[0].0, path) then Some(0)
    else match FirstMatch(order[1..], path)
      case None => None
      case Some(i) => Some(i + 1)
  }

  /** The class `PkgBuild.main` instantiates for `path` when the keys are
      visited in `order`: the first matching one's, else `Package`. */
  function Choose(order: seq<(string, Kind)>, path: string): Kind {
    match FirstMatch(order, path)
    case None => Generic
    case Some(i) => order[i].1
  }

  function Dispatch(path: string): Kind {
    Choose(Registry, path)
  }

  /** A key is chosen only when the path starts with it and a dash, and
      `Package` only when no key does. */
  lemma DispatchChoice(path: string)
    ensures Dispatch(path) == Generic <==> forall i :: 0 <= i < |Registry| ==> !KeyMatches(Registry[i].0, path)
    ensures Dispatch(path) != Generic ==>
      exists i :: 0 <= i < |Registry| && Registry[i].1 == Dispatch(path) && KeyMatches(Registry[i].0, path)
  {
    match FirstMatch(Registry, path)
    case None =>
    case Some(i) =>
      assert Registry[i].1 != Generic;
  }

  /** A matching key fixes the path's first two characters. */
  lemma MatchFirstTwo(key: string, path: string)
    requires |key| >= 2 && KeyMatches(key, path)
    ensures |path| >= 2 && path[0] == key[0] && path[1] == key[1]
  {
    assert path[..|key| + 1][0] == path[0] && path[..|key| + 1][1] == path[1];
  }

  /** The first two characters of the seven keys all differ. */
  lemma RegistryHeadsDiffer(i: nat, j: nat)
    requires i < |Registry| && j < |Registry| && i != j
    ensures |Registry[i].0| >= 2 && |Registry[j].0| >= 2
    ensures Registry[i].0[0] != Registry[j].0[0] || Registry[i].0[1] != Registry[j].0[1]
  {
  }

  /** At most one key matches any path. */
  lemma KeysExclusive(path: string, i: nat, j: nat)
    requires i < |Registry| && j < |Registry|
    requires KeyMatches(Registry[i].0, path) && KeyMatches(Registry[j].0, path)
    ensures i == j
  {
    if i != j {
      RegistryHeadsDiffer(i, j);
      MatchFirstTwo(Registry[i].0, path);
      MatchFirstTwo(Registry[j].0, path);
    }
  }

  /** Dictionary iteration order is unspecified, but it does not matter:
      any order of the same entries hands every path to the same class. */
  lemma OrderIrrelevant(order: seq<(string, Kind)>, path: string)
    requires forall e :: e in order <==> e in Registry
    ensures Choose(order, path) == Dispatch(path)
  {
    match FirstMatch(order, path)
    case None =>
      forall j | 0 <= j < |Registry|
        ensures !KeyMatches(Registry[j].0, path)
      {
        assert Registry[j] in order;
      }
    case Some(i) =>
      assert order[i] in Registry;
      var i' :| 0 <= i' < |Registry| && Registry[i'] == order[i];
      var j := FirstMatch(Registry, path).value;
      KeysExclusive(path, i', j);
  }

  // ---------------------------------------------------------------------
  // The older chain.

  /** bin/pkgbuild.py: `dovecot-`, `apcupsd-`, `ruby-` and `db-` are tried
      in that order; anything else is a plain `Package`. */
  function DispatchBin(path: string): (k: Kind)
    ensures k == Generic <==>
      !KeyMatches("dovecot", path) && !KeyMatches("apcupsd", path) && !KeyMatches("ruby", path) && !KeyMatches("db", path)
  {
    if KeyMatches("dovecot", path) then Dovecot
    else if KeyMatches("apcupsd", path) then Apcupsd
    else if KeyMatches("ruby", path) then RubyEnterprise
    else if KeyMatches("db", path) then BerkeleyDB
    else Generic
  }

  lemma HeadsDiffer(path: string, a: string, b: string)
    requires |a| >= 2 && |b| >= 2 && (a[0] != b[0] || a[1] != b[1])
    requires KeyMatches(a, path)
    ensures !KeyMatches(b, path)
  {
    MatchFirstTwo(a, path);
    if KeyMatches(b, path) {
      MatchFirstTwo(b, path);
    }
  }

  /** `ruby-enterprise-` starts with `ruby-`. */
  lemma RubyEnterpriseIsRuby(path: string)
    requires KeyMatches("ruby-enterprise", path)
    ensures KeyMatches("ruby", path)
  {
    assert path[..5] == path[..16][..5];
  }

  /** The two scripts agree on every archive the current one gives to a
      class the older one also has. */
  lemma BinChainAgrees(path: string)
    requires Dispatch(path) in {Apcupsd, BerkeleyDB, Dovecot, RubyEnterprise}
    ensures DispatchBin(path) == Dispatch(path)
  {
    var i := FirstMatch(Registry, path).value;
    if i == 0 {
      HeadsDiffer(path, "apcupsd", "dovecot");
    } else if i == 1 {
      HeadsDiffer(path, "db", "dovecot");
      HeadsDiffer(path, "db", "apcupsd");
      HeadsDiffer(path, "db", "ruby");
    } else if i == 6 {
      RubyEnterpriseIsRuby(path);
      HeadsDiffer(path, "ruby", "dovecot");
      HeadsDiffer(path, "ruby", "apcupsd");
    }
  }

  /** They differ on other Ruby archives: the older chain hands any
      `ruby-` archive to the Ruby Enterprise class, the current map only
      `ruby-enterprise-` ones. */
  lemma BinRubyWider(path: string)
    requires KeyMatches("ruby", path) && !KeyMatches("ruby-enterprise", path)
    ensures DispatchBin(path) == RubyEnterprise
    ensures Dispatch(path) == Generic
  {
    HeadsDiffer(path, "ruby", "dovecot");
    HeadsDiffer(path, "ruby", "apcupsd");
    forall i | 0 <= i < 6
      ensures !KeyMatches(Registry[i].0, path)
    {
      HeadsDiffer(path, "ruby", Registry[i].0);
    }
  }

  // ---------------------------------------------------------------------
  // What the variant classes set up.

  /** A title set before `Package.__init__`, which then keeps it; the other
      classes leave it empty and get the name. */
  function PresetTitle(k: Kind): string {
    match k
    case Ngircd => "ngIRCd: Next Generation IRC Daemon"
    case Dovecot => "Dovecot: Secure IMAP server"
    case _ => ""
  }

  /** The `ServiceManifest` a variant builds after `Package.__init__`, from
      the parsed name and title. */
  function VariantManifest(k: Kind, id: Identity): (d: Option<Descriptor>)
    ensures d.Some? <==> k in {Apcupsd, Netatalk, Ngircd, Dovecot}
    ensures d.Some? ==> d.value.name == id.name && d.value.title == id.title
  {
    match k
    case Apcupsd =>
      Some(Descriptor(id.name, id.title, "system/ups/apcupsd", ["filesystem"],
                      ["/etc/opt/apcupsd/apcupsd.conf"], Some("/etc/init.d/apcupsd"),
                      None, None, None, None))
    case Netatalk =>
      Some(Descriptor(id.name, id.title, "network/afp/netatalk", ["filesystem", "network"],
                      ["/etc/netatalk/netatalk.conf", "/etc/netatalk/afpd.conf", "/etc/netatalk/AppleVolumes.default"],
                      Some("/etc/init.d/netatalk"), None, None, None, None))
    case Ngircd =>
      Some(Descriptor(id.name, id.title, "network/irc/ngircd", ["filesystem", "network"],
                      ["/etc/ngircd.conf"], None,
                      Some(Command("/usr/sbin/ngircd", DefaultTimeout)),
                      Some(Command("/usr/bin/pkill ngircd", DefaultTimeout)), None, None))
    case Dovecot =>
      Some(Descriptor(id.name, id.title, "network/imap/dovecot", ["filesystem", "network"],
                      ["/etc/dovecot/dovecot.conf"], None,
                      Some(Command("/usr/sbin/dovecot", DefaultTimeout)),
                      Some(Command("/usr/sbin/dovecot stop", DefaultTimeout)), None, None))
    case _ => None
  }

  /** The variants' `__init__` step by step, through the `ServiceManifest`
      class and its setters. */
  method BuildManifest(k: Kind, id: Identity) returns (m: ServiceManifest?)
    ensures m == null <==> VariantManifest(k, id).None?
    ensures m != null ==> fresh(m) && m.Value() == VariantManifest(k, id).value
  {
    match k
    case Apcupsd =>
      m := new ServiceManifest(id.name, id.title, "system/ups/apcupsd", ["filesystem"],
                               ["/etc/opt/apcupsd/apcupsd.conf"], initScript := Some("/etc/init.d/apcupsd"));
    case Netatalk =>
      m := new ServiceManifest(id.name, id.title, "network/afp/netatalk", ["filesystem", "network"],
                               ["/etc/netatalk/netatalk.conf", "/etc/netatalk/afpd.conf", "/etc/netatalk/AppleVolumes.default"],
                               initScript := Some("/etc/init.d/netatalk"));
    case Ngircd =>
      m := new ServiceManifest(id.name, id.title, "network/irc/ngircd", ["filesystem", "network"], ["/etc/ngircd.conf"]);
      m.SetCommand(Start, "/usr/sbin/ngircd");
      m.SetCommand(Stop, "/usr/bin/pkill ngircd");
    case Dovecot =>
      m := new ServiceManifest(id.name, id.title, "network/imap/dovecot", ["filesystem", "network"], ["/etc/dovecot/dovecot.conf"]);
      m.SetCommand(Start, "/usr/sbin/dovecot");
      m.SetCommand(Stop, "/usr/sbin/dovecot stop");
    case _ =>
      m := null;
  }

  /** Apcupsd and Netatalk name an init script and set no command: their
      services get the four init-script methods, whose `%s` is never
      filled in. */
  lemma InitScriptVariants(k: Kind, id: Identity)
    requires k in {Apcupsd, Netatalk}
    ensures Methods(VariantManifest(k, id).value) == InitScriptMethods
  {
  }

  /** Ngircd and Dovecot set start and stop: refresh and restart run start
      then stop, with both timeouts added. */
  lemma CommandVariants(k: Kind, id: Identity)
    requires k in {Ngircd, Dovecot}
    ensures var d := VariantManifest(k, id).value;
      && |Methods(d)| == 4
      && Methods(d)[2] == ExecMethod("refresh", d.start.value.command + "; " + d.stop.value.command, 2 * DefaultTimeout)
      && Methods(d)[3] == ExecMethod("restart", d.start.value.command + "; " + d.stop.value.command, 2 * DefaultTimeout)
  {
    RefreshRestartDefaults(VariantManifest(k, id).value);
  }

  /** What the program is given besides the archive names: the working
      directory, the `<name>.xml` files in it (by name, with their text),
      and the two texts Dovecot's `extend_prototype` sends. */
  datatype Env = Env(cwd: string, siblings: map<string, string>, dovecotPostinstall: string, dovecotPostremove: string)

  function VariantHooks(k: Kind, env: Env): Hooks {
    Hooks(if k == Dovecot then Some([(Postinstall, env.dovecotPostinstall), (Postremove, env.dovecotPostremove)]) else None,
          if k == Apcupsd then Some(DropRcScripts) else None)
  }

  /** `Package.__init__` finds a `<name>.xml` beside the tarball. */
  function Sibling(id: Identity, env: Env): ManifestSource {
    if id.name in env.siblings then SiblingFile(Join(env.cwd, id.name + ".xml"), env.siblings[id.name])
    else NoManifest
  }

  /** Constructing the package object: parse (unless the name is empty),
      look for a sibling manifest, then let the variant put its own
      `ServiceManifest` in its place. */
  function MakeJob(k: Kind, tarball: string, env: Env): (r: Result<Job, Raised>)
    ensures r.Err? <==> tarball != "" && ParseTarball(tarball).Err?
    ensures r.Err? ==> r.error == Raised.CannotParse(tarball)
    ensures r.Ok? ==> WellFormed(r.value) && r.value.variant == Current
    ensures r.Ok? && tarball != "" ==> r.value.id.tarball == tarball && r.value.id.base == r.value.id.name + "-" + r.value.id.version
  {
    match Identify(tarball, Identity("", "", "", PresetTitle(k), ""))
    case Err(_) => Err(Raised.CannotParse(tarball))
    case Ok(id) =>
      var m := VariantManifest(k, id);
      Ok(Job(Current, id, if m.Some? then Generated(m.value) else Sibling(id, env), VariantHooks(k, env)))
  }

  /** A variant's own manifest replaces the `<name>.xml` found beside the
      tarball; only the other classes package that file. */
  lemma VariantManifestWins(k: Kind, tarball: string, env: Env)
    requires MakeJob(k, tarball, env).Ok?
    ensures var job := MakeJob(k, tarball, env).value;
      && (k in {Apcupsd, Netatalk, Ngircd, Dovecot} ==> job.manifest == Generated(VariantManifest(k, job.id).value))
      && (k !in {Apcupsd, Netatalk, Ngircd, Dovecot} ==> (job.manifest.SiblingFile? <==> job.id.name in env.siblings))
  {
  }

  /** The title: the variant's preset when it has one, else the name. */
  lemma TitleRule(k: Kind, tarball: string, env: Env)
    requires tarball != "" && MakeJob(k, tarball, env).Ok?
    ensures var id := MakeJob(k, tarball, env).value.id;
      id.title == (if k in {Ngircd, Dovecot} then PresetTitle(k) else id.name)
  {
  }

  /** The older constructor: always parses, with any lower-case extension;
      there is no title and no `ServiceManifest`, only a sibling file. */
  function MakeJobBin(k: Kind, tarball: string, env: Env): (r: Result<Job, Raised>)
    ensures r.Err? <==> ParseTarballBin(tarball).Err?
    ensures r.Err? ==> r.error == Raised.CannotParse(tarball)
    ensures r.Ok? ==> WellFormed(r.value) && r.value.variant == Older && !r.value.manifest.Generated?
  {
    match ParseTarballBin(tarball)
    case Err(_) => Err(Raised.CannotParse(tarball))
    case Ok(p) =>
      var id := Identity(p.tarball, p.base, p.name, p.name, p.version);
      Ok(Job(Older, id, Sibling(id, env), VariantHooks(k, env)))
  }

  // ---------------------------------------------------------------------
  // The batch.

  /** One archive: the class chosen for it and how its `main` ended. */
  datatype Handled = Handled(path: string, kind: Kind, outcome: Pipeline.Outcome)

  /** Construct the package object and run its `main`; what `main` does
      for a given class and object is the parameter. */
  function Attempt(path: string, env: Env, main: (Kind, Job) -> Pipeline.Outcome): Pipeline.Outcome {
    var k := Dispatch(path);
    match MakeJob(k, path, env)
    case Err(e) => Pipeline.Failed(e)
    case Ok(job) => main(k, job)
  }

  /** One turn of the loop: choose the class, construct, run `main`. */
  function Handle(path: string, env: Env, main: (Kind, Job) -> Pipeline.Outcome): Handled {
    Handled(path, Dispatch(path), Attempt(path, env, main))
  }

  /** The loop over the archives, each handled in turn until one raises;
      the archives after it are never looked at. */
  function Batch(paths: seq<string>, handle: string -> Handled): seq<Handled> {
    if |paths| == 0 then []
    else if handle(paths[0]).outcome.Failed? then [handle(paths[0])]
    else [handle(paths[0])] + Batch(paths[1..], handle)
  }

  /** `PkgBuild.main`: the archives in order, each by exactly one class. */
  function PkgBuildMain(paths: seq<string>, env: Env, main: (Kind, Job) -> Pipeline.Outcome): seq<Handled> {
    Batch(paths, p => Handle(p, env, main))
  }

  /** The archives handled are the first ones, in order; none but the last
      raised, and the batch ends early only when the last one did. */
  lemma {:induction false} BatchStopsAtFirstFailure(paths: seq<string>, handle: string -> Handled)
    ensures var r := Batch(paths, handle);
      && |r| <= |paths|
      && (|paths| > 0 ==> |r| > 0)
      && (forall i :: 0 <= i < |r| ==> r[i] == handle(paths[i]))
      && (forall i :: 0 <= i < |r| - 1 ==> !r[i].outcome.Failed?)
      && (|r| < |paths| ==> r[|r| - 1].outcome.Failed?)
  {
    if |paths| > 0 && !handle(paths[0]).outcome.Failed? {
      BatchStopsAtFirstFailure(paths[1..], handle);
    }
  }

  /** Each archive handled went to the class `Dispatch` chooses for it. */
  lemma EachByItsClass(paths: seq<string>, env: Env, main: (Kind, Job) -> Pipeline.Outcome)
    ensures var r := PkgBuildMain(paths, env, main);
      |r| <= |paths| && forall i :: 0 <= i < |r| ==> r[i].path == paths[i] && r[i].kind == Dispatch(paths[i])
  {
    BatchStopsAtFirstFailure(paths, p => Handle(p, env, main));
  }

  lemma BatchStep(paths: seq<string>, i: nat, handle: string -> Handled)
    requires i < |paths|
    ensures Batch(paths[i..], handle) ==
      if handle(paths[i]).outcome.Failed? then [handle(paths[i])] else [handle(paths[i])] + Batch(paths[i + 1..], handle)
  {
    assert paths[i..][1..] == paths[i + 1..];
  }

  /** The loop of `PkgBuild.main`. */
  method RunBatch(paths: seq<string>, handle: string -> Handled) returns (handled: seq<Handled>)
    ensures handled == Batch(paths, handle)
  {
    handled := [];
    var i := 0;
    var failed := false;
    while i < |paths| && !failed
      invariant 0 <= i <= |paths|
      invariant !failed ==> Batch(paths, handle) == handled + Batch(paths[i..], handle)
      invariant failed ==> Batch(paths, handle) == handled
      decreases |paths| - i, !failed
    {
      BatchStep(paths, i, handle);
      var h := handle(paths[i]);
      handled := handled + [h];
      failed := h.outcome.Failed?;
      i := i + 1;
    }
    if !failed {
      assert paths[i..] == [];
    }
  }
}

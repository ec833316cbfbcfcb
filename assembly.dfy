/** `Package.package` (pkgbuild.py and bin/pkgbuild.py): stage the
    installed software, attach the service manifest, give staged
    directories the owners the running system has, write the prototype and
    its scripts, run the variant's hooks and write `pkginfo`.

    The file system is a map from paths to nodes. The staging directory
    starts empty, so its tree is keyed by paths relative to it; the running
    system's tree is keyed by absolute paths. What the external tools do
    (`make install`, `pkgproto`, `pkgmk`, `pkgtrans`) is an input. The
    function `Package` states the outcome; the method `Assemble` follows the
    source's loops and is proved to reach it. */
module Assembly {
  import opened Wrappers
  import opened Text
  import opened Lines
  import opened Errors
  import opened TarballName
  import opened Smf
  import opened Prototype
  import opened PkgInfo
  import opened LineEdits

  /** Where the manifest is copied, relative to the staging directory. */
  const ProfileDir := "etc/svc/profile"

  /** A file or a directory; a directory has an owner, a group and a mode. */
  datatype Node = Dir(uid: int, gid: int, mode: int) | File(content: string)

  type Tree = map<string, Node>

  /** pkgbuild.py, or the older bin/pkgbuild.py. */
  datatype Variant = Current | Older

  /** What `self.manifest` holds when `package()` starts: nothing, the path
      of the `NAME.xml` found beside the tarball (with the text it holds), or
      a `ServiceManifest` a variant built. */
  datatype ManifestSource =
    | NoManifest
    | SiblingFile(path: string, content: string)
    | Generated(descriptor: Descriptor)

  /** The `edit_prototype` overrides: only Apcupsd has one. */
  datatype EditHook = DropRcScripts

  /** The hooks `maybe_call` looks up: the lines an `extend_prototype`
      sends to the scripts, and an `edit_prototype`. */
  datatype Hooks = Hooks(extend: Option<seq<(Slot, string)>>, edit: Option<EditHook>)

  /** The package object as `package()` sees it. */
  datatype Job = Job(variant: Variant, id: Identity, manifest: ManifestSource, hooks: Hooks)

  /** The older script has no `ServiceManifest` class. */
  predicate WellFormed(job: Job) {
    job.variant == Older ==> !job.manifest.Generated?
  }

  /** What the world outside the script contributes. */
  datatype World = World(
    madeDir: Node,                  // a directory as `os.makedirs` creates it
    install: Result<Tree, Raised>,  // what `make install` puts under the staging directory
    live: Tree,                     // the running system, by absolute path
    pkgproto: seq<string>,          // the lines `pkgproto` prints for the staging tree
    mkpkg: Option<Raised>)          // the failure of `pkgmk` or `pkgtrans`, if any

  /** What a successful `package()` leaves: the prototype, the scripts and
      which are executable, the `pkginfo` record, the tree that was packaged
      and the path of the package. */
  datatype Built = Built(
    prototype: seq<string>,
    scripts: map<Slot, seq<string>>,
    executable: set<Slot>,
    pkginfo: Record,
    staging: Tree,
    path: string)

  // ---------------------------------------------------------------------
  // The manifest.

  /** The name under `etc/svc/profile` the manifest is copied to, and its
      text. A generated manifest is first written to `TMPDIR/<name>.xml`. */
  function ManifestFile(m: ManifestSource): (f: Option<(string, string)>)
    ensures f.None? <==> m.NoManifest?
  {
    match m
    case NoManifest => None
    case SiblingFile(path, content) => Some((Basename(path), content))
    case Generated(d) => Some((Basename(Join(TmpDir, d.name + ".xml")), Render(d)))
  }

  /** A sibling file keeps its own base name; a generated manifest is
      copied as `<name>.xml` holding the rendered document. */
  lemma ManifestFileName(m: ManifestSource)
    ensures m.SiblingFile? ==> ManifestFile(m).value == (Basename(m.path), m.content)
    ensures m.Generated? ==> ManifestFile(m).value == (Basename(m.descriptor.name + ".xml"), Render(m.descriptor))
  {
    if m.Generated? {
      BasenameOfJoin(TmpDir, m.descriptor.name + ".xml");
    }
  }

  /** The staging tree before `make install`: the profile directory, made
      with its parents, holding the manifest. */
  function Staged(madeDir: Node, f: Option<(string, string)>): Tree {
    if f.None? then map[]
    else map["etc" := madeDir, "etc/svc" := madeDir, ProfileDir := madeDir,
             ProfileDir + "/" + f.value.0 := File(f.value.1)]
  }

  /** The three lines that import the service after installation, disable
      it before removal and delete it after. */
  function LifecycleLines(f: Option<(string, string)>, name: string): seq<(Slot, string)> {
    if f.None? then []
    else [(Postinstall, ImportLine(f.value.0)), (Preremove, DisableLine(name)), (Postremove, DeleteLine(name))]
  }

  function ImportLine(b: string): string { "svccfg import /etc/svc/profile/" + b }
  function DisableLine(name: string): string { "svcadm disable " + name }
  function DeleteLine(name: string): string { "svccfg delete " + name }

  // ---------------------------------------------------------------------
  // Ownership.

  /** A staged directory takes the owner, group and mode of the directory
      at the same path on the running system, when there is one. */
  function Inherit(p: string, n: Node, live: Tree): Node {
    var path := "/" + p;
    if n.Dir? && path in live && live[path].Dir? then live[path] else n
  }

  /** The staging tree after the `os.walk` loop. */
  function Inherited(staging: Tree, live: Tree): (r: Tree)
    ensures r.Keys == staging.Keys
    ensures forall p :: p in r ==> r[p].Dir? == staging[p].Dir?
    ensures forall p :: p in r && staging[p].File? ==> r[p] == staging[p]
  {
    map p | p in staging :: Inherit(p, staging[p], live)
  }

  /** Running the loop twice changes nothing more. */
  lemma InheritIdempotent(staging: Tree, live: Tree)
    ensures Inherited(Inherited(staging, live), live) == Inherited(staging, live)
  {
    var once := Inherited(staging, live);
    assert forall p | p in once :: Inherit(p, once[p], live) == once[p];
  }

  /** Exactly the staged directories with a live directory behind them
      change, and they then match it. */
  lemma InheritMatchesLive(staging: Tree, live: Tree, p: string)
    requires p in staging
    ensures Inherited(staging, live)[p] != staging[p] ==>
              staging[p].Dir? && "/" + p in live && live["/" + p].Dir?
    ensures staging[p].Dir? && "/" + p in live && live["/" + p].Dir? ==>
              Inherited(staging, live)[p] == live["/" + p]
  {
  }

  /** The `os.walk` loop: every staged directory is visited once, in an
      order the model leaves open. */
  method InheritOwnership(staging: Tree, live: Tree) returns (owned: Tree)
    ensures owned == Inherited(staging, live)
  {
    owned := staging;
    var todo := set p | p in staging && staging[p].Dir?;
    while todo != {}
      invariant todo <= staging.Keys
      invariant owned.Keys == staging.Keys
      invariant forall p :: p in staging ==> owned[p] == if p in todo then staging[p] else Inherit(p, staging[p], live)
      decreases todo
    {
      var p :| p in todo;
      var path := "/" + p;
      if path in live && live[path].Dir? {
        owned := owned[p := live[path]];
      }
      todo := todo - {p};
    }
  }

  // ---------------------------------------------------------------------
  // The hooks.

  /** `p` is `dir` or lies below it. */
  predicate Under(p: string, dir: string) {
    p == dir || StartsWith(p, dir + "/")
  }

  /** `shutil.rmtree`: the directory and everything below it go; it
      raises when the directory is not there. */
  function RemoveTree(t: Tree, dir: string): (r: Result<Tree, Raised>)
    ensures r.Err? <==> !(dir in t && t[dir].Dir?)
    ensures r.Err? ==> r.error == NoSuchDirectory(dir)
    ensures r.Ok? ==> forall p :: p in r.value <==> p in t && !Under(p, dir)
    ensures r.Ok? ==> forall p :: p in r.value ==> r.value[p] == t[p]
  {
    if dir in t && t[dir].Dir? then Ok(map p | p in t && !Under(p, dir) :: t[p])
    else Err(NoSuchDirectory(dir))
  }

  /** `maybe_call('extend_prototype', ...)`: the lines the hook sends, none
      when the package has no such method. */
  function Extension(h: Hooks): seq<(Slot, string)> {
    if h.extend.Some? then h.extend.value else []
  }

  /** `maybe_call('edit_prototype', ...)` on the closed prototype's lines
      and the staging tree. Apcupsd removes its `rc` directories, then
      rewrites the prototype without the lines naming `/etc/rc`. */
  function EditPrototype(h: Option<EditHook>, lines: seq<string>, t: Tree): Result<(seq<string>, Tree), Raised> {
    match h
    case None => Ok((lines, t))
    case Some(DropRcScripts) =>
      match RemoveTree(t, "etc/rc0.d")
      case Err(e) => Err(e)
      case Ok(t0) =>
        match RemoveTree(t0, "etc/rc1.d")
        case Err(e) => Err(e)
        case Ok(t1) =>
          match RemoveTree(t1, "etc/rc2.d")
          case Err(e) => Err(e)
          case Ok(t2) => Ok((Filter(lines, NotRcEntry), t2))
  }

  /** Apcupsd's edit succeeds exactly when the three `rc` directories are
      staged; it keeps the prototype lines without `/etc/rc` in order and
      every path outside the three directories. */
  lemma ApcupsdEdit(lines: seq<string>, t: Tree)
    ensures EditPrototype(Some(DropRcScripts), lines, t).Ok? <==>
              ("etc/rc0.d" in t && t["etc/rc0.d"].Dir?) && ("etc/rc1.d" in t && t["etc/rc1.d"].Dir?) &&
              ("etc/rc2.d" in t && t["etc/rc2.d"].Dir?)
    ensures EditPrototype(Some(DropRcScripts), lines, t).Ok? ==>
              var (kept, t') := EditPrototype(Some(DropRcScripts), lines, t).value;
              && kept == Filter(lines, NotRcEntry)
              && (forall p :: p in t' <==> p in t && !Under(p, "etc/rc0.d") && !Under(p, "etc/rc1.d") && !Under(p, "etc/rc2.d"))
              && (forall p :: p in t' ==> t'[p] == t[p])
  {
    RcDirsApart("etc/rc0.d", "etc/rc1.d", "etc/rc2.d");
  }

  /** No `rc` directory lies below another. */
  lemma RcDirsApart(a: string, b: string, c: string)
    requires a == "etc/rc0.d" && b == "etc/rc1.d" && c == "etc/rc2.d"
    ensures !Under(b, a) && !Under(c, a) && !Under(c, b)
  {
    assert b[6] != a[6] && c[6] != a[6] && c[6] != b[6];
  }

  // ---------------------------------------------------------------------
  // The whole of `package()`.

  function Sends(lines: seq<(Slot, string)>): (r: seq<Call>)
    ensures |r| == |lines|
  {
    seq(|lines|, i requires 0 <= i < |lines| => Call.Send(lines[i].0, lines[i].1))
  }

  function Writes(lines: seq<string>): (r: seq<Call>)
    ensures |r| == |lines|
  {
    seq(|lines|, i requires 0 <= i < |lines| => Call.Write(lines[i]))
  }

  /** Every call made on the prototype before `close`, in order: the
      lifecycle lines, the `pkgproto` lines but the root entry, `i pkginfo`,
      then the extension's lines. */
  function PrototypeCalls(f: Option<(string, string)>, job: Job, pkgproto: seq<string>): seq<Call> {
    Sends(LifecycleLines(f, job.id.name)) + Writes(Filter(pkgproto, NotRootEntry)) +
      [Call.Include("pkginfo", None)] + Sends(Extension(job.hooks))
  }

  /** pkgbuild.py passes the title as `NAME`; bin/pkgbuild.py the name. */
  function Info(job: Job): Record {
    if job.variant == Current then FromTitle(job.id.name, job.id.title, job.id.version)
    else FromName(job.id.name, job.id.version)
  }

  /** `join(TMPDIR, '%s.pkg' % self.base)`, where `pkgtrans` puts the package. */
  function PackagePath(base: string): string {
    Join(TmpDir, base + ".pkg")
  }

  /** pkgbuild.py only: with no manifest and an init script staged, the
      manifest it tries to build raises a TypeError before anything else. */
  predicate InitScriptTrap(job: Job, staging: Tree) {
    var p := "etc/init.d/" + job.id.base;
    job.variant == Current && job.manifest.NoManifest? && p in staging && staging[p].File?
  }

  /** The prototype object once `close` has run. */
  function Prototyped(job: Job, pkgproto: seq<string>): State {
    Closed(Run(PrototypeCalls(ManifestFile(job.manifest), job, pkgproto)))
  }

  /** The staging tree once `make install` has run: the profile directory
      with the manifest, then whatever the install wrote over it. */
  function Staging(job: Job, world: World): Tree
    requires world.install.Ok?
  {
    Staged(world.madeDir, ManifestFile(job.manifest)) + world.install.value
  }

  /** What `edit_prototype` makes of the closed prototype and the staging
      tree once ownership has been inherited. */
  function Edited(job: Job, world: World): Result<(seq<string>, Tree), Raised>
    requires world.install.Ok?
  {
    EditPrototype(job.hooks.edit, Prototyped(job, world.pkgproto).prototype, Inherited(Staging(job, world), world.live))
  }

  /** The outcome of `package()`: the first of `make install`, the init
      script's `TypeError`, `edit_prototype` and `pkgmk`/`pkgtrans` that
      raises ends it; otherwise the package is at `TMPDIR/<base>.pkg`. */
  function Package(job: Job, world: World): (r: Result<Built, Raised>)
    requires WellFormed(job)
    ensures world.install.Err? ==> r == Err(world.install.error)
    ensures world.install.Ok? && InitScriptTrap(job, Staging(job, world)) ==> r == Err(NotAllArgumentsConverted)
    ensures world.install.Ok? && !InitScriptTrap(job, Staging(job, world)) && Edited(job, world).Err? ==>
              r == Err(Edited(job, world).error)
    ensures world.install.Ok? && !InitScriptTrap(job, Staging(job, world)) && Edited(job, world).Ok? && world.mkpkg.Some? ==>
              r == Err(world.mkpkg.value)
    ensures r.Ok? <==>
              world.install.Ok? && !InitScriptTrap(job, Staging(job, world)) && Edited(job, world).Ok? && world.mkpkg.None?
    ensures r.Ok? ==> r.value.pkginfo == Info(job) && r.value.path == PackagePath(job.id.base)
    ensures r.Ok? ==> (r.value.prototype, r.value.staging) == Edited(job, world).value
    ensures r.Ok? ==> && r.value.scripts == Prototyped(job, world.pkgproto).scripts
                      && r.value.executable == Prototyped(job, world.pkgproto).executable
    ensures r.Ok? && job.hooks.edit.None? ==>
              && r.value.prototype == Prototyped(job, world.pkgproto).prototype
              && r.value.staging == Inherited(Staging(job, world), world.live)
  {
    match world.install
    case Err(e) => Err(e)
    case Ok(installed) =>
      if InitScriptTrap(job, Staging(job, world)) then Err(NotAllArgumentsConverted)
      else
        var st := Prototyped(job, world.pkgproto);
        match Edited(job, world)
        case Err(e) => Err(e)
        case Ok((lines, tree)) =>
          if world.mkpkg.Some? then Err(world.mkpkg.value)
          else Ok(Built(lines, st.scripts, st.executable, Info(job), tree, PackagePath(job.id.base)))
  }

  /** pkgbuild.py raises the `TypeError` exactly when no manifest is
      attached and `make install` put a file at `etc/init.d/<base>`;
      bin/pkgbuild.py never does. */
  lemma InitScriptRaises(job: Job, world: World)
    requires WellFormed(job) && world.install.Ok?
    ensures InitScriptTrap(job, Staging(job, world)) <==>
              && job.variant == Current && job.manifest.NoManifest?
              && "etc/init.d/" + job.id.base in world.install.value
              && world.install.value["etc/init.d/" + job.id.base].File?
    ensures job.variant == Older ==> !InitScriptTrap(job, Staging(job, world))
  {
    if job.manifest.NoManifest? {
      assert Staging(job, world) == world.install.value;
    }
  }

  /** The manifest's path in the staging tree lies outside the three `rc`
      directories Apcupsd removes. */
  lemma ProfileOutsideRc(p: string)
    requires StartsWith(p, ProfileDir + "/")
    ensures !Under(p, "etc/rc0.d") && !Under(p, "etc/rc1.d") && !Under(p, "etc/rc2.d")
  {
    assert p[4] == (ProfileDir + "/")[4] == 's';
  }

  /** The manifest is packaged under `etc/svc/profile/<basename>` with its
      text, whatever hook runs, as long as `make install` wrote nothing at
      that path. */
  lemma ManifestPackaged(job: Job, world: World)
    requires WellFormed(job) && world.install.Ok? && Package(job, world).Ok? && !job.manifest.NoManifest?
    requires ProfileDir + "/" + ManifestFile(job.manifest).value.0 !in world.install.value
    ensures var f := ManifestFile(job.manifest).value;
      var p := ProfileDir + "/" + f.0;
      p in Package(job, world).value.staging && Package(job, world).value.staging[p] == File(f.1)
  {
    var f := ManifestFile(job.manifest).value;
    var p := ProfileDir + "/" + f.0;
    var owned := Inherited(Staging(job, world), world.live);
    assert p in Staging(job, world) && Staging(job, world)[p] == File(f.1);
    assert p in owned && owned[p] == File(f.1);
    if job.hooks.edit.Some? {
      ProfileOutsideRc(p);
      ApcupsdEdit(Prototyped(job, world.pkgproto).prototype, owned);
    }
  }

  // ---------------------------------------------------------------------
  // Runs of calls.

  lemma RunSnoc(calls: seq<Call>, c: Call)
    ensures Run(calls + [c]) == Step(Run(calls), c)
  {
    assert (calls + [c])[..|calls|] == calls;
  }

  lemma {:induction false} RunOpen(calls: seq<Call>)
    ensures !Run(calls).closed
    decreases |calls|
  {
    if |calls| > 0 {
      RunOpen(calls[..|calls| - 1]);
    }
  }

  /** Calls only ever append: to the prototype, and to every open script. */
  lemma {:induction false} RunExtends(a: seq<Call>, b: seq<Call>)
    ensures Run(a).prototype <= Run(a + b).prototype
    ensures forall s :: s in Run(a).scripts ==> s in Run(a + b).scripts && Run(a).scripts[s] <= Run(a + b).scripts[s]
    decreases |b|
  {
    if |b| == 0 {
      assert a + b == a;
    } else {
      var b', c := b[..|b| - 1], b[|b| - 1];
      RunExtends(a, b');
      assert a + b == (a + b') + [c];
      RunSnoc(a + b', c);
      var st := Run(a + b');
      forall s | s in st.scripts
        ensures s in Step(st, c).scripts && st.scripts[s] <= Step(st, c).scripts[s]
      {
      }
    }
  }

  lemma WritesSnoc(lines: seq<string>, x: string)
    ensures Writes(lines + [x]) == Writes(lines) + [Call.Write(x)]
  {
  }

  /** Writes only append their lines to the prototype. */
  lemma {:induction false} RunWrites(a: seq<Call>, lines: seq<string>)
    ensures Run(a + Writes(lines)).prototype == Run(a).prototype + lines
    ensures Run(a + Writes(lines)).scripts == Run(a).scripts
    decreases |lines|
  {
    if |lines| == 0 {
      assert a + Writes(lines) == a;
    } else {
      var init, x := lines[..|lines| - 1], lines[|lines| - 1];
      RunWrites(a, init);
      assert lines == init + [x];
      WritesSnoc(init, x);
      AppendAssoc(a, Writes(init), [Call.Write(x)]);
      RunSnoc(a + Writes(init), Call.Write(x));
    }
  }

  lemma SendsSnoc(lines: seq<(Slot, string)>, x: (Slot, string))
    ensures Sends(lines + [x]) == Sends(lines) + [Call.Send(x.0, x.1)]
  {
  }

  /** A line sent to a script not yet open opens it. */
  lemma SendOpens(calls: seq<Call>, s: Slot, line: string)
    requires s !in Run(calls).scripts
    ensures Run(calls + [Call.Send(s, line)]) ==
              Run(calls).(prototype := Run(calls).prototype + [SlotEntry(s)],
                          scripts := Run(calls).scripts[s := [Shebang, line, "\n"]])
  {
    RunSnoc(calls, Call.Send(s, line));
  }

  /** Two lines sent to two different scripts on a fresh file. */
  lemma RunTwoSends(l0: string, l1: string)
    ensures Run([Call.Send(Postinstall, l0), Call.Send(Preremove, l1)]) ==
              State([SlotEntry(Postinstall), SlotEntry(Preremove)],
                    map[Postinstall := [Shebang, l0, "\n"], Preremove := [Shebang, l1, "\n"]], {}, false)
  {
    var c0, c1 := Call.Send(Postinstall, l0), Call.Send(Preremove, l1);
    SendOpens([], Postinstall, l0);
    assert [] + [c0] == [c0];
    SendOpens([c0], Preremove, l1);
    assert [c0] + [c1] == [c0, c1];
  }

  /** Three lines sent to three different scripts on a fresh file. */
  lemma RunThreeSends(l0: string, l1: string, l2: string)
    ensures var st := Run([Call.Send(Postinstall, l0), Call.Send(Preremove, l1), Call.Send(Postremove, l2)]);
      && st.prototype == [SlotEntry(Postinstall), SlotEntry(Preremove), SlotEntry(Postremove)]
      && st.scripts == map[Postinstall := [Shebang, l0, "\n"], Preremove := [Shebang, l1, "\n"], Postremove := [Shebang, l2, "\n"]]
  {
    var c0, c1, c2 := Call.Send(Postinstall, l0), Call.Send(Preremove, l1), Call.Send(Postremove, l2);
    RunTwoSends(l0, l1);
    SendOpens([c0, c1], Postremove, l2);
    assert [c0, c1] + [c2] == [c0, c1, c2];
  }

  /** The entries that come first in the prototype: the three scripts
      when a manifest is attached. */
  function ScriptEntries(job: Job): seq<string> {
    if job.manifest.NoManifest? then [] else [SlotEntry(Postinstall), SlotEntry(Preremove), SlotEntry(Postremove)]
  }

  /** Whatever follows the lifecycle lines, the three scripts keep them
      at their head. */
  lemma LifecycleStaysFirst(f: Option<(string, string)>, name: string, rest: seq<Call>)
    requires f.Some?
    ensures var st := Run(Sends(LifecycleLines(f, name)) + rest);
      && Postinstall in st.scripts && [Shebang, ImportLine(f.value.0), "\n"] <= st.scripts[Postinstall]
      && Preremove in st.scripts && [Shebang, DisableLine(name), "\n"] <= st.scripts[Preremove]
      && Postremove in st.scripts && [Shebang, DeleteLine(name), "\n"] <= st.scripts[Postremove]
  {
    var life := Sends(LifecycleLines(f, name));
    assert life == [Call.Send(Postinstall, ImportLine(f.value.0)),
                    Call.Send(Preremove, DisableLine(name)),
                    Call.Send(Postremove, DeleteLine(name))];
    RunThreeSends(ImportLine(f.value.0), DisableLine(name), DeleteLine(name));
    RunExtends(life, rest);
  }

  lemma PrototypedLifecycle(job: Job, pkgproto: seq<string>)
    requires !job.manifest.NoManifest?
    ensures var st := Prototyped(job, pkgproto);
      var b := ManifestFile(job.manifest).value.0;
      && Postinstall in st.scripts && [Shebang, ImportLine(b), "\n"] <= st.scripts[Postinstall]
      && Preremove in st.scripts && [Shebang, DisableLine(job.id.name), "\n"] <= st.scripts[Preremove]
      && Postremove in st.scripts && [Shebang, DeleteLine(job.id.name), "\n"] <= st.scripts[Postremove]
      && {Postinstall, Preremove, Postremove} <= st.executable
  {
    var f := ManifestFile(job.manifest);
    var life := Sends(LifecycleLines(f, job.id.name));
    var calls := PrototypeCalls(f, job, pkgproto);
    assert calls[..|life|] == life;
    assert calls == life + calls[|life|..];
    LifecycleStaysFirst(f, job.id.name, calls[|life|..]);
  }

  /** The scripts the lifecycle lines open. */
  function LifecycleSlots(job: Job): set<Slot> {
    if job.manifest.NoManifest? then {} else {Postinstall, Preremove, Postremove}
  }

  /** The lifecycle lines alone put the script entries in the prototype
      and open the three scripts. */
  lemma LifecycleEntries(job: Job)
    ensures Run(Sends(LifecycleLines(ManifestFile(job.manifest), job.id.name))).prototype == ScriptEntries(job)
    ensures Run(Sends(LifecycleLines(ManifestFile(job.manifest), job.id.name))).scripts.Keys == LifecycleSlots(job)
  {
    var f := ManifestFile(job.manifest);
    var life := Sends(LifecycleLines(f, job.id.name));
    if f.Some? {
      var b := f.value.0;
      assert life == [Call.Send(Postinstall, ImportLine(b)),
                      Call.Send(Preremove, DisableLine(job.id.name)),
                      Call.Send(Postremove, DeleteLine(job.id.name))];
      RunThreeSends(ImportLine(b), DisableLine(job.id.name), DeleteLine(job.id.name));
    } else {
      assert life == [];
    }
  }

  /** The scripts `lines` opens that are not open already, in the order of
      the first line each receives. */
  function FirstUses(open: set<Slot>, lines: seq<(Slot, string)>): seq<Slot>
    decreases |lines|
  {
    if |lines| == 0 then []
    else
      var before := FirstUses(open, lines[..|lines| - 1]);
      var s := lines[|lines| - 1].0;
      if s in open || s in before then before else before + [s]
  }

  /** A script is first opened by `lines` exactly when it was not open and
      some line goes to it. */
  lemma {:induction false} FirstUsesAreNew(open: set<Slot>, lines: seq<(Slot, string)>, s: Slot)
    ensures s in FirstUses(open, lines) <==> s !in open && exists i :: 0 <= i < |lines| && lines[i].0 == s
    decreases |lines|
  {
    if |lines| > 0 {
      var init := lines[..|lines| - 1];
      FirstUsesAreNew(open, init, s);
      if s !in open && (exists i :: 0 <= i < |lines| && lines[i].0 == s) {
        var i :| 0 <= i < |lines| && lines[i].0 == s;
        if i < |init| {
          assert init[i].0 == s;
        }
      }
      if exists i :: 0 <= i < |init| && init[i].0 == s {
        var i :| 0 <= i < |init| && init[i].0 == s;
        assert lines[i].0 == s;
      }
    }
  }

  /** The prototype entries of the scripts, in order. */
  function Entries(slots: seq<Slot>): (r: seq<string>)
    ensures |r| == |slots|
  {
    seq(|slots|, i requires 0 <= i < |slots| => SlotEntry(slots[i]))
  }

  /** Lines sent after the calls `a` add an entry for each script they
      open, in the order they open them, and open exactly those. */
  lemma {:induction false} RunSends(a: seq<Call>, lines: seq<(Slot, string)>)
    ensures Run(a + Sends(lines)).prototype == Run(a).prototype + Entries(FirstUses(Run(a).scripts.Keys, lines))
    ensures forall s :: s in Run(a + Sends(lines)).scripts <==> s in Run(a).scripts || s in FirstUses(Run(a).scripts.Keys, lines)
    decreases |lines|
  {
    if |lines| == 0 {
      assert a + Sends(lines) == a;
      assert Entries([]) == [];
    } else {
      var init := lines[..|lines| - 1];
      RunSends(a, init);
      RunAfterSend(a, lines);
      SendOneMore(Run(a).scripts.Keys, Run(a).prototype, lines, Run(a + Sends(init)));
    }
  }

  lemma RunAfterSend(a: seq<Call>, lines: seq<(Slot, string)>)
    requires |lines| > 0
    ensures var x := lines[|lines| - 1];
      Run(a + Sends(lines)) == Step(Run(a + Sends(lines[..|lines| - 1])), Call.Send(x.0, x.1))
  {
    var init, x := lines[..|lines| - 1], lines[|lines| - 1];
    ButLastAndLast(lines);
    SendsSnoc(init, x);
    AppendAssoc(a, Sends(init), [Call.Send(x.0, x.1)]);
    RunSnoc(a + Sends(init), Call.Send(x.0, x.1));
  }

  /** One more line sent: the state before it is described by all but the
      last line, so the state after it is described by all of them. */
  lemma SendOneMore(open: set<Slot>, start: seq<string>, lines: seq<(Slot, string)>, st: State)
    requires |lines| > 0
    requires st.prototype == start + Entries(FirstUses(open, lines[..|lines| - 1]))
    requires forall s :: s in st.scripts <==> s in open || s in FirstUses(open, lines[..|lines| - 1])
    ensures var x := lines[|lines| - 1];
      Step(st, Call.Send(x.0, x.1)).prototype == start + Entries(FirstUses(open, lines))
    ensures var x := lines[|lines| - 1];
      forall s :: s in Step(st, Call.Send(x.0, x.1)).scripts <==> s in open || s in FirstUses(open, lines)
  {
    var x := lines[|lines| - 1];
    var before := FirstUses(open, lines[..|lines| - 1]);
    if x.0 in open || x.0 in before {
      assert FirstUses(open, lines) == before;
      assert x.0 in st.scripts;
    } else {
      assert FirstUses(open, lines) == before + [x.0];
      SendOpensEntry(start, before, x.0, x.1, st);
    }
  }

  /** A line to a script not yet open adds its entry after those before. */
  lemma SendOpensEntry(start: seq<string>, before: seq<Slot>, t: Slot, line: string, st: State)
    requires st.prototype == start + Entries(before)
    requires t !in st.scripts
    ensures Step(st, Call.Send(t, line)).prototype == start + Entries(before + [t])
  {
    assert Entries(before + [t]) == Entries(before) + [SlotEntry(t)];
    AppendAssoc(start, Entries(before), [SlotEntry(t)]);
  }

  /** The whole prototype: the script entries of the lifecycle lines, the
      `pkgproto` lines but the root entry, `i pkginfo`, then an entry for
      each script `extend_prototype` opens; the executable scripts are
      those the lifecycle lines and the extension open. */
  lemma PrototypeContent(job: Job, pkgproto: seq<string>)
    ensures var st := Prototyped(job, pkgproto);
      && st.prototype == ScriptEntries(job) + Filter(pkgproto, NotRootEntry) + ["i pkginfo\n"] +
                           Entries(FirstUses(LifecycleSlots(job), Extension(job.hooks)))
      && forall s :: s in st.executable <==> s in LifecycleSlots(job) || s in FirstUses(LifecycleSlots(job), Extension(job.hooks))
  {
    var f := ManifestFile(job.manifest);
    var calls := Sends(LifecycleLines(f, job.id.name)) + Writes(Filter(pkgproto, NotRootEntry)) + [Call.Include("pkginfo", None)];
    BeforeExtension(job, pkgproto);
    RunSends(calls, Extension(job.hooks));
  }

  /** The calls before `extend_prototype` leave the script entries, the
      kept `pkgproto` lines and `i pkginfo`, with the lifecycle's scripts
      open. */
  lemma BeforeExtension(job: Job, pkgproto: seq<string>)
    ensures var calls := Sends(LifecycleLines(ManifestFile(job.manifest), job.id.name)) +
                         Writes(Filter(pkgproto, NotRootEntry)) + [Call.Include("pkginfo", None)];
      && Run(calls).prototype == ScriptEntries(job) + Filter(pkgproto, NotRootEntry) + ["i pkginfo\n"]
      && Run(calls).scripts.Keys == LifecycleSlots(job)
  {
    var f := ManifestFile(job.manifest);
    var life := Sends(LifecycleLines(f, job.id.name));
    var kept := Filter(pkgproto, NotRootEntry);
    var inc := Call.Include("pkginfo", None);
    LifecycleEntries(job);
    RunWrites(life, kept);
    var st := Run(life + Writes(kept));
    assert st.prototype == ScriptEntries(job) + kept;
    RunSnoc(life + Writes(kept), inc);
    PkgInfoEntry();
    assert Run(life + Writes(kept) + [inc]) == st.(prototype := st.prototype + ["i pkginfo\n"]);
  }

  lemma PkgInfoEntry()
    ensures IncludeLine("pkginfo", None) == "i pkginfo\n"
  {
    assert "i " + "pkginfo" + "\n" == "i pkginfo\n";
  }

  /** With no manifest and no `extend_prototype`, no script is written and
      the prototype is the `pkgproto` lines and `i pkginfo`. */
  lemma NoScriptsWithoutManifest(job: Job, pkgproto: seq<string>)
    requires job.manifest.NoManifest? && job.hooks.extend.None?
    ensures Prototyped(job, pkgproto).scripts == map[]
    ensures Prototyped(job, pkgproto).executable == {}
    ensures Prototyped(job, pkgproto).prototype == Filter(pkgproto, NotRootEntry) + ["i pkginfo\n"]
  {
    PrototypeContent(job, pkgproto);
    assert FirstUses({}, []) == [];
    assert Entries([]) == [];
    assert Prototyped(job, pkgproto).scripts.Keys == {};
  }

  lemma WritesStep(done: seq<Call>, lines: seq<string>, i: nat)
    requires i < |lines|
    ensures IsRootEntry(lines[i]) ==>
              done + Writes(Filter(lines[..i + 1], NotRootEntry)) == done + Writes(Filter(lines[..i], NotRootEntry))
    ensures !IsRootEntry(lines[i]) ==>
              done + Writes(Filter(lines[..i + 1], NotRootEntry)) ==
              done + Writes(Filter(lines[..i], NotRootEntry)) + [Call.Write(lines[i])]
  {
    WritesFilterStep(lines, i);
    AppendAssoc(done, Writes(Filter(lines[..i], NotRootEntry)), [Call.Write(lines[i])]);
  }

  lemma WritesFilterStep(lines: seq<string>, i: nat)
    requires i < |lines|
    ensures IsRootEntry(lines[i]) ==> Filter(lines[..i + 1], NotRootEntry) == Filter(lines[..i], NotRootEntry)
    ensures !IsRootEntry(lines[i]) ==>
              Writes(Filter(lines[..i + 1], NotRootEntry)) == Writes(Filter(lines[..i], NotRootEntry)) + [Call.Write(lines[i])]
  {
    FilterStep(lines, i, NotRootEntry);
    if !IsRootEntry(lines[i]) {
      WritesSnoc(Filter(lines[..i], NotRootEntry), lines[i]);
    }
  }

  /** The `pkgproto` loop: every line but the root entry is written to the
      prototype, in order. */
  method WriteEntries(proto: PrototypeFile, lines: seq<string>, ghost done: seq<Call>)
    requires proto.Value() == Run(done)
    modifies proto
    ensures proto.Value() == Run(done + Writes(Filter(lines, NotRootEntry)))
  {
    var i := 0;
    assert Writes(Filter(lines[..0], NotRootEntry)) == [];
    assert done + [] == done;
    while i < |lines|
      invariant 0 <= i <= |lines|
      invariant proto.Value() == Run(done + Writes(Filter(lines[..i], NotRootEntry)))
    {
      WritesStep(done, lines, i);
      ghost var calls := done + Writes(Filter(lines[..i], NotRootEntry));
      RunOpen(calls);
      if !IsRootEntry(lines[i]) {
        proto.Write(lines[i]);
        RunSnoc(calls, Call.Write(lines[i]));
      }
      i := i + 1;
    }
    assert lines[..i] == lines;
  }

  lemma SendsStep(done: seq<Call>, lines: seq<(Slot, string)>, k: nat)
    requires k < |lines|
    ensures done + Sends(lines[..k + 1]) == done + Sends(lines[..k]) + [Call.Send(lines[k].0, lines[k].1)]
  {
    assert lines[..k + 1] == lines[..k] + [lines[k]];
    SendsSnoc(lines[..k], lines[k]);
    AppendAssoc(done, Sends(lines[..k]), [Call.Send(lines[k].0, lines[k].1)]);
  }

  /** Each line to its script, in order. */
  method SendAll(proto: PrototypeFile, lines: seq<(Slot, string)>, ghost done: seq<Call>)
    requires proto.Value() == Run(done)
    modifies proto
    ensures proto.Value() == Run(done + Sends(lines))
  {
    var k := 0;
    assert Sends(lines[..0]) == [];
    assert done + [] == done;
    while k < |lines|
      invariant 0 <= k <= |lines|
      invariant proto.Value() == Run(done + Sends(lines[..k]))
    {
      SendsStep(done, lines, k);
      ghost var calls := done + Sends(lines[..k]);
      RunOpen(calls);
      proto.Send(lines[k].0, lines[k].1);
      RunSnoc(calls, Call.Send(lines[k].0, lines[k].1));
      k := k + 1;
    }
    assert lines[..k] == lines;
  }

  /** The prototype object through to `close`. */
  method WritePrototype(job: Job, pkgproto: seq<string>) returns (proto: PrototypeFile)
    ensures proto.Value() == Prototyped(job, pkgproto)
  {
    var f := ManifestFile(job.manifest);
    proto := new PrototypeFile();
    assert [] + Sends(LifecycleLines(f, job.id.name)) == Sends(LifecycleLines(f, job.id.name));
    SendAll(proto, LifecycleLines(f, job.id.name), []);
    ghost var done := Sends(LifecycleLines(f, job.id.name));
    WriteEntries(proto, pkgproto, done);
    done := done + Writes(Filter(pkgproto, NotRootEntry));
    RunOpen(done);
    proto.Include("pkginfo");
    RunSnoc(done, Call.Include("pkginfo", None));
    done := done + [Call.Include("pkginfo", None)];
    SendAll(proto, Extension(job.hooks), done);
    done := done + Sends(Extension(job.hooks));
    assert done == PrototypeCalls(f, job, pkgproto);
    RunOpen(done);
    proto.Close();
  }

  /** Apcupsd's `edit_prototype`, step by step. */
  method RunEditHook(h: Option<EditHook>, lines: seq<string>, t: Tree) returns (r: Result<(seq<string>, Tree), Raised>)
    ensures r == EditPrototype(h, lines, t)
  {
    if h.None? {
      return Ok((lines, t));
    }
    var removed := RemoveTree(t, "etc/rc0.d");
    if removed.Err? { return Err(removed.error); }
    removed := RemoveTree(removed.value, "etc/rc1.d");
    if removed.Err? { return Err(removed.error); }
    removed := RemoveTree(removed.value, "etc/rc2.d");
    if removed.Err? { return Err(removed.error); }
    var kept := DropRcEntries(lines);
    r := Ok((kept, removed.value));
  }

  /** `package()` in the source's order. */
  method Assemble(job: Job, world: World) returns (r: Result<Built, Raised>)
    requires WellFormed(job)
    ensures r == Package(job, world)
  {
    var f := ManifestFile(job.manifest);
    if world.install.Err? {
      return Err(world.install.error);
    }
    var staging := Staged(world.madeDir, f) + world.install.value;
    var initScript := "etc/init.d/" + job.id.base;
    if job.variant == Current && job.manifest.NoManifest? && initScript in staging && staging[initScript].File? {
      return Err(NotAllArgumentsConverted);
    }
    var owned := InheritOwnership(staging, world.live);
    var proto := WritePrototype(job, world.pkgproto);
    var edited := RunEditHook(job.hooks.edit, proto.prototype, owned);
    if edited.Err? {
      return Err(edited.error);
    }
    if world.mkpkg.Some? {
      return Err(world.mkpkg.value);
    }
    r := Ok(Built(edited.value.0, proto.scripts, proto.executable, Info(job), edited.value.1, PackagePath(job.id.base)));
  }
}

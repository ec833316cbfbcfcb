/** `ServiceManifest` of pkgbuild.py: a description of an SMF service and
    its rendering as a `service_bundle` document (service_bundle.dtd.1).
    The setters become methods of a class; `generate_manifest` becomes a
    method whose loops build the text, proved equal to the function
    `Render` of the fields. The file write is dropped.

    The document is described first as a sequence of pieces, each either
    a fixed fragment of the templates or a substituted field value; the
    text is the concatenation of the pieces. Properties of the document
    are proved on the pieces, where the long template literals stay
    folded. */
module Smf {
  import opened Wrappers
  import opened Text
  import opened Lines

  /** The temporary directory the rendered manifest is written to. */
  const TmpDir := "/tmp"

  /** Timeout, in seconds, of a command set without one. */
  const DefaultTimeout := 60

  /** `(command, timeout)` as the setters store it. */
  datatype Command = Command(command: string, timeout: int)

  /** The four lifecycle actions that have a setter and an `exec_method`. */
  datatype Action = Start | Stop | Refresh | Restart

  function ActionName(a: Action): string {
    match a
    case Start => "start"
    case Stop => "stop"
    case Refresh => "refresh"
    case Restart => "restart"
  }

  /** The fields `generate_manifest` reads. */
  datatype Descriptor = Descriptor(
    name: string,
    title: string,
    serviceName: string,
    dependencies: seq<string>,
    configFiles: seq<string>,
    initScript: Option<string>,
    start: Option<Command>,
    stop: Option<Command>,
    refresh: Option<Command>,
    restart: Option<Command>)

  /** One `exec_method` element. */
  datatype ExecMethod = ExecMethod(name: string, command: string, timeout: int)

  /** `self.start_command and self.stop_command`: both set (a stored tuple is
      always true, whatever its command). */
  predicate HasStartStop(d: Descriptor) {
    d.start.Some? && d.stop.Some?
  }

  /** `self.init_script` as a condition: set and not the empty string. */
  predicate HasInitScript(d: Descriptor) {
    d.initScript.Some? && d.initScript.value != ""
  }

  /** What an unset refresh or restart runs: the start command, then the
      stop command, with the sum of their timeouts. */
  function Fallback(d: Descriptor): Command
    requires HasStartStop(d)
  {
    Command(d.start.value.command + "; " + d.stop.value.command,
            d.start.value.timeout + d.stop.value.timeout)
  }

  function MethodOf(a: Action, c: Command): ExecMethod {
    ExecMethod(ActionName(a), c.command, c.timeout)
  }

  /** The init-script methods. Their commands are the literal text of the
      source: the `%s` is never filled in with the script's path. */
  const InitScriptMethods: seq<ExecMethod> := [
    ExecMethod("start", "%s start", DefaultTimeout),
    ExecMethod("stop", "%s stop", DefaultTimeout),
    ExecMethod("refresh", "%s stop; %s start", DefaultTimeout),
    ExecMethod("restart", "%s stop; %s start", DefaultTimeout)
  ]

  /** The methods `generate_manifest` emits, in order: explicit start and
      stop commands win, an init script comes second, otherwise none. */
  function Methods(d: Descriptor): seq<ExecMethod> {
    if HasStartStop(d) then
      [ MethodOf(Start, d.start.value),
        MethodOf(Stop, d.stop.value),
        MethodOf(Refresh, if d.refresh.Some? then d.refresh.value else Fallback(d)),
        MethodOf(Restart, if d.restart.Some? then d.restart.value else Fallback(d)) ]
    else if HasInitScript(d) then InitScriptMethods
    else []
  }

  // ---------------------------------------------------------------------
  // The document as pieces.

  /** The fixed text between two substitutions of the templates. */
  datatype Fragment =
    | BundleOpen | ServiceOpen | InstanceOpen | TemplateOpen | BundleClose
    | NetworkDependency | FilesystemDependency
    | ConfigOpen | ConfigFmri | ConfigClose
    | MethodOpen | MethodExec | MethodTimeout | MethodClose

  function FragmentText(f: Fragment): string {
    match f
    // manifest_template, split at %(name)s, %(service_name)s,
    // %(dependencies)s and %(title)s
    case BundleOpen =>
      "<?xml version=\"1.0\"?>\n<!DOCTYPE service_bundle SYSTEM \"/usr/share/lib/xml/dtd/service_bundle.dtd.1\">\n<service_bundle type=\"manifest\" name=\""
    case ServiceOpen => "\">\n  <service name=\""
    case InstanceOpen => "\" type=\"service\" version=\"1\">\n    <create_default_instance enabled=\"true\"/>\n    "
    case TemplateOpen => "\n    <template>\n      <common_name>\n        <loctext xml:lang=\"C\">"
    case BundleClose => "</loctext>\n      </common_name>\n    </template>\n  </service>\n</service_bundle>\n"
    // network_dependency and filesystem_dependency
    case NetworkDependency =>
      "\n    <dependency name=\"network\"\n                grouping=\"require_all\"\n                restart_on=\"error\"\n                type=\"service\">\n      <service_fmri value=\"svc:/milestone/network:default\" />\n    </dependency>\n"
    case FilesystemDependency =>
      "\n    <dependency name=\"filesystem-local\"\n                grouping=\"require_all\"\n                restart_on=\"none\"\n                type=\"service\">\n      <service_fmri value=\"svc:/system/filesystem/local:default\" />\n    </dependency>\n"
    // config_dependency, split at %(name)s and %(path)s
    case ConfigOpen => "\n    <dependency name=\""
    case ConfigFmri =>
      "-config-file\" \n                grouping=\"require_all\" \n                restart_on=\"none\" \n                type=\"path\">\n      <service_fmri value=\"file://"
    case ConfigClose => "\" />\n    </dependency>\n"
    // method_template, split at %(name)s, %(command)s and %(timeout)d
    case MethodOpen => "\n    <exec_method name=\""
    case MethodExec => "\"\n                 type=\"method\" \n                 exec=\""
    case MethodTimeout => "\" \n                 timeout_seconds=\""
    case MethodClose => "\">\n    </exec_method>\n"
  }

  datatype Piece = Fixed(fragment: Fragment) | Field(value: string)

  function PieceText(p: Piece): string {
    match p
    case Fixed(f) => FragmentText(f)
    case Field(s) => s
  }

  /** The text of a document: its pieces, one after another. */
  function Flatten(ps: seq<Piece>): string
    decreases |ps|
  {
    if |ps| == 0 then "" else Flatten(ps[..|ps| - 1]) + PieceText(ps[|ps| - 1])
  }

  lemma {:induction false} FlattenConcat(a: seq<Piece>, b: seq<Piece>)
    ensures Flatten(a + b) == Flatten(a) + Flatten(b)
    decreases |b|
  {
    if |b| == 0 {
      assert a + b == a;
    } else {
      assert (a + b)[..|a + b| - 1] == a + b[..|b| - 1];
      FlattenConcat(a, b[..|b| - 1]);
    }
  }

  lemma FlattenSingle(p: Piece)
    ensures Flatten([p]) == PieceText(p)
  {
    assert [p][..0] == [];
  }

  /** The pieces of every element of `xs`, in order: the shape of the
      three `for` loops of `generate_manifest`. */
  function Each<T>(xs: seq<T>, pieces: T -> seq<Piece>): seq<Piece>
    decreases |xs|
  {
    if |xs| == 0 then [] else Each(xs[..|xs| - 1], pieces) + pieces(xs[|xs| - 1])
  }

  lemma {:induction false} EachConcat<T>(a: seq<T>, b: seq<T>, pieces: T -> seq<Piece>)
    ensures Each(a + b, pieces) == Each(a, pieces) + Each(b, pieces)
    decreases |b|
  {
    if |b| == 0 {
      assert a + b == a;
    } else {
      assert (a + b)[..|a + b| - 1] == a + b[..|b| - 1];
      EachConcat(a, b[..|b| - 1], pieces);
    }
  }

  /** `'network'` and `'filesystem'` have a fragment; any other string
      contributes nothing. */
  predicate KnownDependency(dep: string) {
    dep == "network" || dep == "filesystem"
  }

  function DependencyPieces(dep: string): seq<Piece> {
    if dep == "network" then [Fixed(NetworkDependency)]
    else if dep == "filesystem" then [Fixed(FilesystemDependency)]
    else []
  }

  /** The name a watched configuration file gets: its base name with every
      dot made a dash. */
  function ConfigName(path: string): string {
    DotsToDashes(Basename(path))
  }

  function ConfigPieces(path: string): seq<Piece> {
    [Fixed(ConfigOpen), Field(ConfigName(path)), Fixed(ConfigFmri), Field(path), Fixed(ConfigClose)]
  }

  function MethodPieces(m: ExecMethod): seq<Piece> {
    [Fixed(MethodOpen), Field(m.name), Fixed(MethodExec), Field(m.command),
     Fixed(MethodTimeout), Field(IntToDecimal(m.timeout)), Fixed(MethodClose)]
  }

  function DependenciesDoc(deps: seq<string>): seq<Piece> {
    Each(deps, DependencyPieces)
  }

  function ConfigDoc(files: seq<string>): seq<Piece> {
    Each(files, ConfigPieces)
  }

  function MethodsDoc(ms: seq<ExecMethod>): seq<Piece> {
    Each(ms, MethodPieces)
  }

  /** What is substituted for `%(dependencies)s`. */
  function BodyDoc(d: Descriptor): seq<Piece> {
    DependenciesDoc(d.dependencies) + ConfigDoc(d.configFiles) + MethodsDoc(Methods(d))
  }

  function HeaderDoc(name: string, serviceName: string): seq<Piece> {
    [Fixed(BundleOpen), Field(name), Fixed(ServiceOpen), Field(serviceName), Fixed(InstanceOpen)]
  }

  function FooterDoc(title: string): seq<Piece> {
    [Fixed(TemplateOpen), Field(title), Fixed(BundleClose)]
  }

  function Document(d: Descriptor): seq<Piece> {
    HeaderDoc(d.name, d.serviceName) + BodyDoc(d) + FooterDoc(d.title)
  }

  /** `generate_manifest`: the text written to the manifest file. */
  function Render(d: Descriptor): string {
    Flatten(Document(d))
  }

  // ---------------------------------------------------------------------
  // Reading a document back: the partner of the rendering.

  /** The `exec_method` elements of a run of method pieces, or `None` when
      the pieces are not a run of whole elements. */
  function ReadMethods(ps: seq<Piece>): Option<seq<ExecMethod>>
    decreases |ps|
  {
    if |ps| == 0 then Some([])
    else if |ps| < 7 then None
    else
      var g := ps[|ps| - 7..];
      if g[0] == Fixed(MethodOpen) && g[1].Field? && g[2] == Fixed(MethodExec) && g[3].Field?
         && g[4] == Fixed(MethodTimeout) && g[5].Field? && g[6] == Fixed(MethodClose)
         && DecimalToInt(g[5].value).Some?
      then
        match ReadMethods(ps[..|ps| - 7])
        case Some(ms) => Some(ms + [ExecMethod(g[1].value, g[3].value, DecimalToInt(g[5].value).value)])
        case None => None
      else None
  }

  /** One more `exec_method` element read after the earlier ones. */
  lemma ReadMethodsSnoc(pre: seq<Piece>, m: ExecMethod)
    ensures ReadMethods(pre + MethodPieces(m)) ==
              match ReadMethods(pre)
              case Some(ms) => Some(ms + [m])
              case None => None
  {
    SplitConcat(pre, MethodPieces(m));
    assert DecimalToInt(IntToDecimal(m.timeout)) == Some(m.timeout);
  }

  /** Every method, with its name, command and timeout, can be read back
      from the document, in the order it was emitted. */
  lemma {:induction false} ReadMethodsRoundTrip(ms: seq<ExecMethod>)
    ensures ReadMethods(MethodsDoc(ms)) == Some(ms)
    decreases |ms|
  {
    if |ms| > 0 {
      var init, last := ms[..|ms| - 1], ms[|ms| - 1];
      ReadMethodsRoundTrip(init);
      ReadMethodsSnoc(MethodsDoc(init), last);
      ButLastAndLast(ms);
    }
  }

  /** The configuration files a run of configuration dependencies watches,
      or `None` when the pieces are not such a run or a dependency's name
      does not belong to its path. */
  function ReadConfigFiles(ps: seq<Piece>): Option<seq<string>>
    decreases |ps|
  {
    if |ps| == 0 then Some([])
    else if |ps| < 5 then None
    else
      var g := ps[|ps| - 5..];
      if g[0] == Fixed(ConfigOpen) && g[1].Field? && g[2] == Fixed(ConfigFmri) && g[3].Field?
         && g[4] == Fixed(ConfigClose) && g[1].value == ConfigName(g[3].value)
      then
        match ReadConfigFiles(ps[..|ps| - 5])
        case Some(files) => Some(files + [g[3].value])
        case None => None
      else None
  }

  /** One more configuration dependency read after the earlier ones. */
  lemma ReadConfigFilesSnoc(pre: seq<Piece>, path: string)
    ensures ReadConfigFiles(pre + ConfigPieces(path)) ==
              match ReadConfigFiles(pre)
              case Some(files) => Some(files + [path])
              case None => None
  {
    SplitConcat(pre, ConfigPieces(path));
  }

  /** Every configuration file can be read back from the document, in
      list order, each under the dependency name derived from it. */
  lemma {:induction false} ReadConfigFilesRoundTrip(files: seq<string>)
    ensures ReadConfigFiles(ConfigDoc(files)) == Some(files)
    decreases |files|
  {
    if |files| > 0 {
      var init, last := files[..|files| - 1], files[|files| - 1];
      ReadConfigFilesRoundTrip(init);
      ReadConfigFilesSnoc(ConfigDoc(init), last);
      ButLastAndLast(files);
    }
  }

  // ---------------------------------------------------------------------
  // Properties of the rendering.

  /** Only `network` and `filesystem` reach the document: the dependency
      pieces are those of the known dependencies alone, in list order. */
  lemma {:induction false} OnlyKnownDependenciesRendered(deps: seq<string>)
    ensures DependenciesDoc(deps) == DependenciesDoc(Filter(deps, KnownDependency))
    decreases |deps|
  {
    if |deps| > 0 {
      var init, last := deps[..|deps| - 1], deps[|deps| - 1];
      OnlyKnownDependenciesRendered(init);
      EachConcat(Filter(init, KnownDependency), [last], DependencyPieces);
      assert Each([last], DependencyPieces) == DependencyPieces(last);
    }
  }

  /** A dependency other than `network` and `filesystem` leaves the
      document as if it were not in the list. */
  lemma UnknownDependencyIgnored(a: seq<string>, dep: string, b: seq<string>)
    requires !KnownDependency(dep)
    ensures DependenciesDoc(a + [dep] + b) == DependenciesDoc(a + b)
  {
    EachConcat(a + [dep], b, DependencyPieces);
    EachConcat(a, [dep], DependencyPieces);
    EachConcat(a, b, DependencyPieces);
    assert Each([dep], DependencyPieces) == DependencyPieces(dep);
  }

  /** The dependency name of a configuration file has no dot and keeps
      every other character of the file's base name. */
  lemma ConfigNameShape(path: string)
    ensures '.' !in ConfigName(path)
    ensures |ConfigName(path)| == |Basename(path)|
    ensures forall i :: 0 <= i < |Basename(path)| && Basename(path)[i] != '.' ==> ConfigName(path)[i] == Basename(path)[i]
  {
  }

  /** Explicit start and stop commands take precedence: whatever the init
      script, the document is the same, with start, stop, refresh and
      restart methods in that order. */
  lemma CommandsOverrideInitScript(d: Descriptor, script: Option<string>)
    requires HasStartStop(d)
    ensures Render(d.(initScript := script)) == Render(d)
    ensures |Methods(d)| == 4
    ensures forall i :: 0 <= i < 4 ==> Methods(d)[i].name == ActionName([Start, Stop, Refresh, Restart][i])
    ensures Methods(d)[0].command == d.start.value.command && Methods(d)[1].command == d.stop.value.command
  {
    StartStopMethods(d);
    var d' := d.(initScript := script);
    assert Methods(d') == Methods(d);
    assert BodyDoc(d') == BodyDoc(d);
    assert Document(d') == Document(d);
  }

  lemma StartStopMethods(d: Descriptor)
    requires HasStartStop(d)
    ensures |Methods(d)| == 4
    ensures forall i :: 0 <= i < 4 ==> Methods(d)[i].name == ActionName([Start, Stop, Refresh, Restart][i])
    ensures Methods(d)[0].command == d.start.value.command && Methods(d)[1].command == d.stop.value.command
  {
  }

  /** An unset refresh or restart runs `start; stop` (start first) with the
      summed timeout; a set one is used as given. */
  lemma RefreshRestartDefaults(d: Descriptor)
    requires HasStartStop(d)
    ensures Methods(d)[2] == ExecMethod("refresh",
      if d.refresh.Some? then d.refresh.value.command else d.start.value.command + "; " + d.stop.value.command,
      if d.refresh.Some? then d.refresh.value.timeout else d.start.value.timeout + d.stop.value.timeout)
    ensures Methods(d)[3] == ExecMethod("restart",
      if d.restart.Some? then d.restart.value.command else d.start.value.command + "; " + d.stop.value.command,
      if d.restart.Some? then d.restart.value.timeout else d.start.value.timeout + d.stop.value.timeout)
  {
  }

  /** Without both start and stop, any two init scripts give the same
      document: the script's path never reaches it. */
  lemma InitScriptPathNotRendered(d: Descriptor, other: string)
    requires !HasStartStop(d) && HasInitScript(d) && other != ""
    ensures Methods(d.(initScript := Some(other))) == Methods(d) == InitScriptMethods
    ensures Render(d.(initScript := Some(other))) == Render(d)
  {
    assert Document(d.(initScript := Some(other))) == Document(d);
  }

  /** With neither start and stop nor an init script, no `exec_method`
      is emitted at all. */
  lemma NoMethodsWithoutCommands(d: Descriptor)
    requires !HasStartStop(d) && !HasInitScript(d)
    ensures ReadMethods(MethodsDoc(Methods(d))) == Some([])
    ensures BodyDoc(d) == DependenciesDoc(d.dependencies) + ConfigDoc(d.configFiles)
  {
    assert MethodsDoc([]) == [];
  }

  // ---------------------------------------------------------------------
  // The object the variants build and mutate.

  class ServiceManifest {
    var name: string
    var title: string
    var serviceName: string
    var dependencies: seq<string>
    var configFiles: seq<string>
    var initScript: Option<string>
    var start: Option<Command>
    var stop: Option<Command>
    var refresh: Option<Command>
    var restart: Option<Command>

    function Value(): Descriptor
      reads this
    {
      Descriptor(name, title, serviceName, dependencies, configFiles, initScript, start, stop, refresh, restart)
    }

    /** `ServiceManifest(name, title, service_name, dependencies =
        ['filesystem'], config_files = [], init_script = None)`; no command
        is set. */
    constructor (name: string, title: string, serviceName: string,
                 dependencies: seq<string> := ["filesystem"],
                 configFiles: seq<string> := [],
                 initScript: Option<string> := None)
      ensures Value() == Descriptor(name, title, serviceName, dependencies, configFiles, initScript,
                                    None, None, None, None)
    {
      this.name := name;
      this.title := title;
      this.serviceName := serviceName;
      this.dependencies := dependencies;
      this.configFiles := configFiles;
      this.initScript := initScript;
      start, stop, refresh, restart := None, None, None, None;
    }

    method AddDependency(dep: string)
      modifies this
      ensures Value() == old(Value()).(dependencies := old(dependencies) + [dep])
    {
      dependencies := dependencies + [dep];
    }

    method AddConfigFile(path: string)
      modifies this
      ensures Value() == old(Value()).(configFiles := old(configFiles) + [path])
    {
      configFiles := configFiles + [path];
    }

    method SetInitScript(script: string)
      modifies this
      ensures Value() == old(Value()).(initScript := Some(script))
    {
      initScript := Some(script);
    }

    /** `set_start_command`, `set_stop_command`, `set_refresh_command` and
        `set_restart_command`: store `(command, timeout)`, 60 by default. */
    method SetCommand(action: Action, command: string, timeout: int := DefaultTimeout)
      modifies this
      ensures action == Start ==> Value() == old(Value()).(start := Some(Command(command, timeout)))
      ensures action == Stop ==> Value() == old(Value()).(stop := Some(Command(command, timeout)))
      ensures action == Refresh ==> Value() == old(Value()).(refresh := Some(Command(command, timeout)))
      ensures action == Restart ==> Value() == old(Value()).(restart := Some(Command(command, timeout)))
    {
      match action
      case Start => start := Some(Command(command, timeout));
      case Stop => stop := Some(Command(command, timeout));
      case Refresh => refresh := Some(Command(command, timeout));
      case Restart => restart := Some(Command(command, timeout));
    }

    /** `generate_manifest`: the dependency, configuration and method
        fragments accumulated in order, then substituted into the bundle
        template. */
    method GenerateManifest() returns (text: string)
      ensures text == Render(Value())
    {
      var d := Value();
      var xml := "";
      var i := 0;
      while i < |dependencies|
        invariant 0 <= i <= |dependencies|
        invariant xml == Flatten(DependenciesDoc(dependencies[..i]))
      {
        EachConcat(dependencies[..i], [dependencies[i]], DependencyPieces);
        assert dependencies[..i + 1] == dependencies[..i] + [dependencies[i]];
        FlattenConcat(DependenciesDoc(dependencies[..i]), DependencyPieces(dependencies[i]));
        if dependencies[i] == "network" {
          FlattenSingle(Fixed(NetworkDependency));
          xml := xml + FragmentText(NetworkDependency);
        } else if dependencies[i] == "filesystem" {
          FlattenSingle(Fixed(FilesystemDependency));
          xml := xml + FragmentText(FilesystemDependency);
        }
        i := i + 1;
      }
      assert dependencies[..i] == dependencies;
      var deps := xml;
      xml := "";
      i := 0;
      while i < |configFiles|
        invariant 0 <= i <= |configFiles|
        invariant xml == Flatten(ConfigDoc(configFiles[..i]))
      {
        EachConcat(configFiles[..i], [configFiles[i]], ConfigPieces);
        assert configFiles[..i + 1] == configFiles[..i] + [configFiles[i]];
        FlattenConcat(ConfigDoc(configFiles[..i]), ConfigPieces(configFiles[i]));
        xml := xml + Flatten(ConfigPieces(configFiles[i]));
        i := i + 1;
      }
      assert configFiles[..i] == configFiles;
      var methods := Flatten(MethodsDoc(Methods(d)));
      FlattenConcat(DependenciesDoc(d.dependencies), ConfigDoc(d.configFiles));
      FlattenConcat(DependenciesDoc(d.dependencies) + ConfigDoc(d.configFiles), MethodsDoc(Methods(d)));
      FlattenConcat(HeaderDoc(name, serviceName), BodyDoc(d));
      FlattenConcat(HeaderDoc(name, serviceName) + BodyDoc(d), FooterDoc(title));
      text := Flatten(HeaderDoc(name, serviceName)) + (deps + xml + methods) + Flatten(FooterDoc(title));
    }

    /** `manifest_path`: the document is rendered to `<name>.xml` in the
        temporary directory, and the path returned. */
    method ManifestPath() returns (path: string, text: string)
      ensures !StartsWith(name + ".xml", "/") ==> path == TmpDir + "/" + name + ".xml"
      ensures Basename(path) == Basename(name + ".xml")
      ensures text == Render(Value())
    {
      path := Join(TmpDir, name + ".xml");
      BasenameOfJoin(TmpDir, name + ".xml");
      text := GenerateManifest();
    }
  }

  /** Joining a directory in front never changes the base name. */
  lemma BasenameOfJoin(dir: string, file: string)
    ensures Basename(Join(dir, file)) == Basename(file)
  {
    var j := Join(dir, file);
    if !StartsWith(file, "/") {
      BasenameOfSuffix(j, file);
    }
  }

  /** The base name depends only on the part after the last slash. */
  lemma {:induction false} BasenameOfSuffix(p: string, file: string)
    requires |file| <= |p| && p[|p| - |file|..] == file
    requires '/' in file || (|file| < |p| ==> p[|p| - |file| - 1] == '/')
    ensures Basename(p) == Basename(file)
    decreases |file|
  {
    if |file| > 0 && file[|file| - 1] != '/' {
      assert p[|p| - 1] == file[|file| - 1];
      var p' := p[..|p| - 1];
      var f' := file[..|file| - 1];
      assert p'[|p'| - |f'|..] == f' by {
        forall i | 0 <= i < |f'|
          ensures p'[|p'| - |f'|..][i] == f'[i]
        {
          assert p'[|p'| - |f'| + i] == p[|p| - |file| + i] == p[|p| - |file|..][i];
        }
      }
      if '/' in file {
        var j :| 0 <= j < |file| && file[j] == '/';
        assert f'[j] == '/';
      }
      BasenameOfSuffix(p', f');
    }
  }
}

# pkgbuild in Dafny

pkgbuild turns a source tarball named `NAME-VERSION.tar.EXT` into a Solaris
SVR4 package. It unpacks the archive, configures, builds and installs it into
a staging tree. It then writes the `prototype(4)` file, the install scripts,
the `pkginfo(4)` record and, for services, an SMF manifest, and calls `pkgmk`
and `pkgtrans`. Two versions of the script are modelled:

- `pkgbuild.py`, the current one;
- `bin/pkgbuild.py`, the older one.

The model covers the deterministic logic around the external tools:

- the archive-name parser;
- the SMF manifest renderer;
- the prototype and install-script accumulator;
- the `pkginfo` record;
- the bookkeeping of `package()`;
- the stage pipeline of `main` with its `try`/`finally`;
- the dispatcher that picks a package class for each argument;
- the small line rewrites.

| file | module | what it holds |
|---|---|---|
| wrappers.dfy | Wrappers | `Option` and `Result` |
| text.dfy | Text | prefixes, substrings, `basename`, `join`, decimal numbers, line ends |
| lines.dfy | Lines | order-preserving filtering of lines |
| errors.dfy | Errors | the exceptions that end a run |
| tarball_name.dfy | TarballName | the regular expression of `Package.__init__` as a decision procedure |
| service_manifest.dfy | Smf | `ServiceManifest`: the descriptor, the document, the class and its setters |
| prototype_file.dfy | Prototype | `PrototypeFile`: the state machine and the class |
| pkg_info.dfy | PkgInfo | `PkgInfoFile` |
| line_edits.dfy | LineEdits | root-entry filter, Apcupsd's `rc` filter, Ruby's `LIBS` rewrite, `ignore_products` |
| unpack.dfy | Unpack | the choice of decompressor |
| assembly.dfy | Assembly | `package()`: manifest copy, lifecycle lines, ownership, prototype, hooks |
| pipeline.dfy | Pipeline | `main`: stage order, first failure, restoring the process, clean-up |
| dispatch.dfy | Dispatch | `PkgBuild.main`, the older `if`/`elif` chain, the variant presets, the batch |

Each piece of state the source updates in place is a class:

- `ServiceManifest` and `PrototypeFile`, whose fields are sequences and maps;
- `Process`, which holds the output streams, the working directory and the existing files.

Each method is proved equal to a specification function, and the properties
are proved about those functions. Loops in the source are loops in the model:

- the `os.walk` ownership loop;
- the `pkgproto` copy;
- the manifest's fragment loops;
- the stage sequence;
- the argument loop;
- the line filters.

Where the code and its documentation disagree, the model follows the code:

- An unset refresh or restart command runs `start; stop`, start first, with
  the two timeouts added (pkgbuild.py:335-350).
- The init-script methods carry the literal text `%s start`, `%s stop` and
  `%s stop; %s start`, and the script path is never substituted
  (pkgbuild.py:351-367).
- `NAME` is the shortest digit-free prefix that lets the rest match, because
  the group is lazy (`+?`).
- A variant that builds its own `ServiceManifest` replaces the `NAME.xml`
  found beside the tarball (for example pkgbuild.py:711-716).
- When there is no manifest and `make install` staged `etc/init.d/<base>`,
  `'etc/init.d' % self.base` raises a `TypeError` (pkgbuild.py:605-609). The
  model has that as an error of `package()`, not as a synthesized manifest.
- When `main` starts in `TMPDIR` itself, `shutil.copy(path, cwd)` would copy
  the package onto itself and raises, so the package and the log stay and
  the batch stops (pkgbuild.py:684-693).
- No archive is isolated from the others: `main` has a `finally` but no
  `except`, so the first exception ends the whole batch (pkgbuild.py:986-995).

## Model

| member | source | states |
|---|---|---|
| TarballName.Parse | pkgbuild.py:484-493 | on success the argument is `name-version.tar.ext` with `base == name + "-" + version` and each group in its character class; failure is "Cannot parse tarball name" for that argument |
| TarballName.ParseFindsShortestName | pkgbuild.py:484-486 | whenever any reading `NAME-VERSION.tar.EXT` exists the parse succeeds, and its name is no longer than any reading's (lazy `+?`) |
| TarballName.SplitDeterminedByName | pkgbuild.py:484-493 | two readings with names of equal length are the same reading, so the parse result is unique |
| TarballName.ParseTarball | pkgbuild.py:484-486 | the current pattern's extension is one or more of `gz`/`bz2`/`xz` and the groups recombine to the whole argument |
| TarballName.ParseTarballBin | bin/pkgbuild.py:167-174 | the older pattern's extension is lower-case letters and the groups recombine to the whole argument |
| TarballName.CompressedExtIsTokens | pkgbuild.py:484 | the character-level extension check accepts exactly the concatenations of `gz`, `bz2` and `xz` |
| TarballName.BinParseEndsInLetter | bin/pkgbuild.py:167 | every name the older pattern accepts ends in a lower-case letter |
| TarballName.BinRejectsBz2 | bin/pkgbuild.py:167 | the older pattern refuses `db-4.8.30.tar.bz2` |
| TarballName.ParseAcceptsUnpackableExtensions | pkgbuild.py:484-486 | every `NAME-VERSION.tar.gz`, `.bz2` and `.xz` with well-formed name and version parses |
| TarballName.Identify | pkgbuild.py:480-493 | an empty argument keeps the preset fields; otherwise it succeeds exactly when the parse does, and the title is the preset one if set, else the name |
| Smf.ServiceManifest.constructor | pkgbuild.py:224-232 | the fields are the arguments, with defaults `['filesystem']`, `[]` and no init script, and no command is set |
| Smf.ServiceManifest.AddDependency | pkgbuild.py:234-235 | the dependency is appended and nothing else changes |
| Smf.ServiceManifest.AddConfigFile | pkgbuild.py:237-238 | the file is appended and nothing else changes |
| Smf.ServiceManifest.SetInitScript | pkgbuild.py:240-241 | only the init script changes |
| Smf.ServiceManifest.SetCommand | pkgbuild.py:243-250 | the setter stores `(command, timeout)` for its action alone, with 60 as the default timeout |
| Smf.ServiceManifest.GenerateManifest | pkgbuild.py:302-375 | the loops over dependencies and config files, followed by the method fragments, produce exactly the document `Render` describes |
| Smf.ServiceManifest.ManifestPath | pkgbuild.py:377-380 | the path is `TMPDIR/<name>.xml` with basename `<name>.xml`, holding the rendered document |
| Smf.ReadMethodsRoundTrip | pkgbuild.py:317-367 | every `exec_method` emitted can be read back, with its name, command and timeout, in emission order |
| Smf.ReadConfigFilesRoundTrip | pkgbuild.py:310-315 | every config file can be read back, in list order, under the dependency name derived from its basename |
| Smf.OnlyKnownDependenciesRendered | pkgbuild.py:305-309 | the dependency fragments are those of `network` and `filesystem` entries alone, in list order |
| Smf.UnknownDependencyIgnored | pkgbuild.py:305-309 | any other dependency string contributes nothing to the document |
| Smf.ConfigNameShape | pkgbuild.py:312-313 | the dependency name is the file's basename with every `.` replaced by `-` |
| Smf.CommandsOverrideInitScript | pkgbuild.py:317-350 | with start and stop set, the init script has no effect and the methods are start, stop, refresh and restart in that order |
| Smf.RefreshRestartDefaults | pkgbuild.py:329-350 | an unset refresh or restart runs `start; stop` with the summed timeout; a set one is used as given |
| Smf.InitScriptPathNotRendered | pkgbuild.py:351-367 | otherwise, with an init script, the four methods have the literal `%s` commands and timeout 60, whatever the script path |
| Smf.NoMethodsWithoutCommands | pkgbuild.py:317-367 | with neither start and stop nor an init script, no `exec_method` is emitted |
| Smf.BasenameOfJoin | pkgbuild.py:378 | joining a directory in front does not change the basename |
| Prototype.IncludeLine | pkgbuild.py:445-449 | `include` writes `i name=path` when a non-empty path is given, else `i name`, each ended by a newline |
| Prototype.Step | pkgbuild.py:395-444 | a write or include changes only the prototype; the first line sent to a slot adds its `i <slot>` entry, and later lines change only that script |
| Prototype.Closed | pkgbuild.py:398-411 | `close` marks as executable exactly the slots that have a script, and changes nothing else |
| Prototype.ScriptsRecordSends | pkgbuild.py:413-444 | a slot has a script exactly when a line was sent to it; the script is `#!/bin/sh` followed by each line sent, each ended by a newline |
| Prototype.OneEntryPerUsedSlot | pkgbuild.py:413-444 | the prototype holds exactly one `i <slot>` entry for each used slot, beyond those written directly |
| Prototype.CloseMarksUsedSlots | pkgbuild.py:398-411 | after `close`, a slot is executable exactly when a line was sent to it |
| Prototype.RunKeepsInv | pkgbuild.py:413-444 | every script starts with the shebang, and every slot with a script is registered in the prototype |
| Prototype.PrototypeFile.constructor | pkgbuild.py:389-390 | a new prototype is empty, with no scripts |
| Prototype.PrototypeFile.Write | pkgbuild.py:395-396 | the object moves by `Step` with a write |
| Prototype.PrototypeFile.Include | pkgbuild.py:445-449 | the object moves by `Step` with an include |
| Prototype.PrototypeFile.Send | pkgbuild.py:413-444 | `preinstall` … `postremove` move the object by `Step` with a send to their slot |
| Prototype.PrototypeFile.Close | pkgbuild.py:398-411 | the object becomes `Closed` of what it was |
| PkgInfo.FromName | bin/pkgbuild.py:303 | the older `package()` uses the package name for both `PKG` and `NAME`, with category `application` |
| PkgInfo.ReadRoundTrip | pkgbuild.py:457-469 | the `pkginfo` text is exactly the four `KEY=value` lines, and reading it back gives the record |
| PkgInfo.ReadLineAfter | pkgbuild.py:463-469 | each `KEY=value` line is read back up to its newline |
| LineEdits.DropRootEntry | pkgbuild.py:625-627 | the prototype receives every `pkgproto` line except the `d none / ` root entries, in order |
| LineEdits.DropRcEntries | pkgbuild.py:727-733 | Apcupsd keeps exactly the prototype lines without `/etc/rc`, in order |
| LineEdits.RestoreRewrite | bin/pkgbuild.py:413-421 | the `LIBS =` rewrite loses nothing from a line: removing `$(PRELIBS) ` restores it |
| LineEdits.RewriteLibsLine | pkgbuild.py:824-832 | `LIBS = x` becomes `LIBS = $(PRELIBS) x` |
| LineEdits.RewriteMakefile | pkgbuild.py:824-832 | one output line per input line; non-`LIBS` lines are unchanged and every rewritten line can be restored |
| LineEdits.IgnoreProducts | pkgbuild.py:558-563 | each untracked path is written once, in order, behind a `/` |
| Lines.FilterConcat | pkgbuild.py:625-627 | filtering distributes over concatenation, so kept lines keep their order |
| Unpack.ChooseTool | pkgbuild.py:517-533 | `xz` exactly when the name contains `.xz`; `bzip2` when it has `.bz2` and not `.xz`; `gzip` when it has `.gz` and neither of the others |
| Unpack.UnpackArchive | bin/pkgbuild.py:194-218 | a missing archive fails the assertion; a missing tool raises "Please install"; otherwise it extracts with the extension's tool (or does nothing) and then runs `chown` |
| Unpack.ExtensionToolIsFirstToken | pkgbuild.py:484-533 | for every extension the parser accepts, the tests applied to the extension pick the tool its first token names |
| Unpack.NameDecidesTool | pkgbuild.py:517-533 | as written, `lib.xzutils-1.0.tar.gz` parses but goes to `xz`, while its extension calls for `gzip` |
| Assembly.ManifestFileName | pkgbuild.py:580-589 | a sibling manifest is copied under its own basename, and a generated one as `<name>.xml` with the rendered text |
| Assembly.Inherited | pkgbuild.py:614-620 | ownership changes no path, no file, and no directory into a file |
| Assembly.InheritMatchesLive | pkgbuild.py:614-620 | a staged directory changes only when `/` plus its path is a live directory, and then takes its uid, gid and mode |
| Assembly.InheritIdempotent | pkgbuild.py:614-620 | running the ownership loop again changes nothing |
| Assembly.InheritOwnership | pkgbuild.py:614-620 | the walk over the staging tree yields `Inherited` |
| Assembly.RemoveTree | pkgbuild.py:723-725 | `rmtree` removes the directory and everything below it, and raises when the directory is absent |
| Assembly.ApcupsdEdit | pkgbuild.py:722-733 | Apcupsd's edit succeeds exactly when the three `rc` directories exist; it keeps the lines without `/etc/rc` and every path outside those directories |
| Assembly.Package | pkgbuild.py:569-645 | it raises the first of: the `make install` error, the `TypeError` of the init-script trap, the `edit_prototype` error, the `pkgmk`/`pkgtrans` error; it succeeds exactly when none of them happens. On success the `pkginfo` record is `Info(job)`, the package is at `TMPDIR/<base>.pkg`, the prototype and tree are what `edit_prototype` left, and the scripts and executables are those of the closed prototype. Without an edit hook the prototype is the closed prototype's, and the tree is the manifest plus the installed files after ownership inheritance |
| Assembly.PrototypedLifecycle | pkgbuild.py:593-596 | with a manifest attached, the three scripts start with `svccfg import /etc/svc/profile/<basename>`, `svcadm disable <name>` and `svccfg delete <name>`, and all three are executable |
| Assembly.PrototypeContent | pkgbuild.py:625-631 | the prototype is exactly the script entries, then the non-root `pkgproto` lines in order, then `i pkginfo`, then one entry for each script `extend_prototype` opens, in the order it opens them; the executable scripts are the lifecycle's and those the extension opens |
| Assembly.FirstUsesAreNew | pkgbuild.py:630 | a script gets an entry from `extend_prototype` exactly when it was not open yet and the hook sends it a line |
| Assembly.NoScriptsWithoutManifest | pkgbuild.py:578-632 | with no manifest and no extension hook there are no scripts, nothing is executable, and the prototype is the non-root `pkgproto` lines and `i pkginfo` |
| Assembly.ManifestPackaged | bin/pkgbuild.py:259-263 | after a successful `package()`, the manifest is in the packaged tree under `etc/svc/profile/<basename>` with its text, with or without Apcupsd's edit |
| Assembly.InitScriptRaises | pkgbuild.py:605-609 | the trap that makes `package()` raise the `TypeError` holds exactly when the current script has no manifest and `make install` put a file at `etc/init.d/<base>`; it never holds for the older script |
| Assembly.WritePrototype | pkgbuild.py:578-630 | the prototype object built step by step is `Prototyped`: lifecycle lines, filtered `pkgproto`, `i pkginfo`, extension, then `close` |
| Assembly.RunEditHook | pkgbuild.py:722-733 | Apcupsd's edit run step by step equals `EditPrototype` |
| Assembly.Assemble | pkgbuild.py:569-645 | `package()` in the source's order equals `Package` |
| Pipeline.Stages | pkgbuild.py:663-677 | the stages are clean, unpack, chdir and so on to package; `prepare` and `ignore_products` are present exactly when git is |
| Pipeline.StagesKeepOrder | pkgbuild.py:663-677 | the stage list with git and the stage list without it, written out |
| Pipeline.FirstFailureStops | pkgbuild.py:658-682 | the stages run are a prefix of the list; all run when none raises; when one raises it is the last to run, and all before it returned |
| Pipeline.RunStagesStep | pkgbuild.py:663-677 | one stage either raises and ends the run, or returns and the run continues from the machine it left |
| Pipeline.Cleaned | pkgbuild.py:510-512 | `clean` removes exactly the source tree and everything below it |
| Pipeline.MainRun | pkgbuild.py:652-701 | the working directory after `main` is the one it started in. `main` raises exactly when a stage raised, or the package exists and the copy would land on it. It reports success exactly when no stage raised, `TMPDIR/<base>.pkg` exists and the copy is elsewhere. It reports the failure to package exactly when no stage raised and there is no package. Unless it succeeds, every file is as the stages left it |
| Pipeline.BuiltLeavesPackage | pkgbuild.py:684-693 | after success the package is beside the tarball, and the temporary package, the log and everything under `<cwd>/<base>` are gone; every other file is as the stages left it |
| Pipeline.PackageDecidesOutcome | pkgbuild.py:663-693 | when every stage before `package()` returns, `main` raises what `package()` raised, and after a successful `package()` it reports success exactly when the copy is not the package itself |
| Pipeline.Process.RunAll | pkgbuild.py:663-677 | running the stages in turn ends as `RunStages` ends, and the streams are not touched |
| Pipeline.Process.RunMain | pkgbuild.py:652-701 | stdout, stderr and cwd are restored on every path, and the outcome and files are `MainRun`'s |
| Pipeline.Process.RunBinMain | bin/pkgbuild.py:316-341 | the older `main` ends as `BinMainRun` does |
| Pipeline.BinMainRun | bin/pkgbuild.py:316-341 | the older `main` leaves the machine where the last stage left it |
| Pipeline.BinStaysInSource | bin/pkgbuild.py:316-341 | after a successful older run the process is still in `<cwd>/<base>`, while the current `main` is back in `<cwd>` |
| Dispatch.FirstMatch | pkgbuild.py:986-995 | no position when no key matches; otherwise a matching key with no matching key before it |
| Dispatch.DispatchChoice | pkgbuild.py:986-995 | `Package` is chosen exactly when no key matches, and any other class only by a key the path starts with, followed by `-` |
| Dispatch.KeysExclusive | pkgbuild.py:976-984 | at most one of the seven keys matches any path |
| Dispatch.OrderIrrelevant | pkgbuild.py:976-995 | any iteration order of the dictionary chooses the same class for every path |
| Dispatch.DispatchBin | bin/pkgbuild.py:512-523 | the older chain falls back to `Package` exactly when none of `dovecot-`, `apcupsd-`, `ruby-` and `db-` is a prefix |
| Dispatch.BinChainAgrees | bin/pkgbuild.py:512-523 | the two scripts choose the same class for every archive that the current one gives to Apcupsd, BerkeleyDB, Dovecot or RubyEnterprise |
| Dispatch.BinRubyWider | bin/pkgbuild.py:518-519 | any other `ruby-` archive goes to RubyEnterprise in the older script and to `Package` in the current one |
| Dispatch.VariantManifest | pkgbuild.py:707-900 | Apcupsd, Netatalk, Ngircd and Dovecot build a manifest, and they alone do, under their own parsed name and title |
| Dispatch.BuildManifest | pkgbuild.py:711-896 | the variants' constructor and setter calls build exactly that manifest |
| Dispatch.InitScriptVariants | pkgbuild.py:711-760 | the Apcupsd and Netatalk services get the four literal init-script methods |
| Dispatch.CommandVariants | pkgbuild.py:769-896 | the Ngircd and Dovecot services get four methods, refresh and restart running start then stop with timeout 120 |
| Dispatch.MakeJob | pkgbuild.py:480-503 | construction fails with "Cannot parse" exactly when a non-empty argument does not parse; otherwise it records the archive, with `base` being `name-version` |
| Dispatch.VariantManifestWins | pkgbuild.py:501-503 | a variant's own manifest replaces the sibling `NAME.xml`; other classes package the sibling exactly when it exists |
| Dispatch.TitleRule | pkgbuild.py:491-492 | the title is the variant's preset for Ngircd and Dovecot, and the name otherwise |
| Dispatch.MakeJobBin | bin/pkgbuild.py:166-183 | the older construction fails exactly when the older pattern does, and only ever uses a sibling manifest |
| Dispatch.BatchStopsAtFirstFailure | pkgbuild.py:986-995 | the archives handled are the first ones, in order; only the last may have raised, and the batch ends early only when it did |
| Dispatch.EachByItsClass | pkgbuild.py:986-995 | each archive handled went to the class the dispatcher chooses for it |
| Dispatch.RunBatch | pkgbuild.py:986-995 | the argument loop equals `Batch` |

## Left out

- Command-line parsing, logging, syslog and exit codes are not modelled.
  The log's messages, the `print` banners and `sys.exit` have no effect the
  model tracks.
- The subprocess helpers and every external tool are left out. This covers
  `tar`, the decompressors, `git`, `configure`, `make`, `pkgproto`, `pkgmk`,
  `pkgtrans`, `patch` and `svccfg`. A stage is a function from the stage and
  the machine to "returned" or "raised". `pkgproto` output is a list of lines,
  and `make install` and `pkgmk` are results the caller supplies.
- File-system effects are modelled as values:
  - a staging tree is a map from paths to files and directories;
  - the machine is a working directory and a set of files;
  - stdout and stderr are values in the `Process` class.
  Dates, which `os.walk` also aligns in the comment but not in the code, are
  not modelled.
- Pipeline.Process.RunMain, Pipeline.Process.RunBinMain: opening and closing
  the log file, and the flush after each stage, are not modelled. The log is
  a path added to the set of files.
- Pipeline.MainRun: `shutil.copy` onto the package itself is recognised
  by equal path strings. Python compares the files, so a starting
  directory that reaches `TMPDIR` through a link is not recognised.
- Assembly.ManifestPackaged: says nothing when `make install` itself
  writes a file at the manifest's path. The installed file then wins.
- Assembly.EditPrototype, Assembly.ApcupsdEdit: Apcupsd re-reads the
  prototype file line by line (pkgbuild.py:727-730), while the model filters
  the chunks that were written. The two agree as long as every chunk is one
  line ending in exactly one newline. This holds for the `include` entries
  and for the lines read from `pkgproto`, except a last line without a
  newline, which the model does not distinguish.
- Dispatch.Attempt, Dispatch.Handle: what `main` does for a class and its
  object is a parameter of the batch. Pipeline.PackageDecidesOutcome ties
  `main` to `package()`, but no lemma composes the two inside the batch.
- The flag-only overrides are left out: `configure`, `build` and `install`
  of the variants, BerkeleyDB's and RubyEnterprise's `chdir`, Glib's retry of
  `make`, the `GooglePerftools` nested build and RubyEnterprise's patch. Each
  is a stage function like any other.
- Dovecot's embedded shell text is a parameter: the two texts its
  `extend_prototype` sends.
- Init-script synthesis (pkgbuild.py:605-609) is modelled only as the
  `TypeError` it raises, because the descriptor it would build is never
  rendered.
- Per-archive isolation is not modelled, because the source has none: the
  batch stops at the first exception.
- Some Python quirks are not modelled:
  - the regular expression's `$` also matching before a final newline;
  - the shared mutable default lists of `ServiceManifest`;
  - `PrototypeFile.__del__` closing a second time.
  The model's parse requires the extension to reach the end of the string.
- Smf.ServiceManifest.GenerateManifest: the document is returned as text
  rather than written to the file.
- The XML itself is not checked against the SMF DTD. The round trips read
  back the substituted fields, not the XML syntax.
- Unpack.UnpackArchive chooses the tool from the extension, as the
  corrected behaviour in the findings below. The source's own choice is
  Unpack.ChooseTool.

## Findings

| source | as written | input that shows it | evidently intended | confidence | as-written member | corrected member |
|---|---|---|---|---|---|---|
| bin/pkgbuild.py:167 | the extension pattern is `[a-z]+`, which has no digits, so `.tar.bz2` never parses, although `unpack` (bin/pkgbuild.py:204-208) has a `bzip2` branch | `db-4.8.30.tar.bz2` | accept every extension `unpack` can decompress, as the later pattern `(gz\|bz2\|xz)+` does | high, not executed | TarballName.BinRejectsBz2 | TarballName.ParseAcceptsUnpackableExtensions |
| pkgbuild.py:517-533 | the decompressor is chosen by searching the whole archive name for `.xz`, `.bz2` and `.gz` | `lib.xzutils-1.0.tar.gz`, a gzip archive that is handed to `xz` | choose by the archive's extension | medium, not executed | Unpack.NameDecidesTool | Unpack.ExtensionToolIsFirstToken |
| bin/pkgbuild.py:316-341 | `main` changes into the source tree and never changes back, so the next relative argument of the batch (bin/pkgbuild.py:512-523) is looked up inside the previous package's tree | `a-1.0.tar.gz b-1.0.tar.gz`: `b-1.0.tar.gz` is sought in `a-1.0/` | return to the starting directory, as the later `finally` does (pkgbuild.py:679-682) | medium, not executed | Pipeline.BinStaysInSource | Pipeline.MainRun |

/** The argument parser and builder of the argument-comment lint wrapper. What the
    builder prints is read by the same parser. */
module LintWrapper {
  import opened Common

  datatype Parsed = Parsed(
    lintArgs: seq<string>,
    cargoArgs: seq<string>,
    hasManifestPath: bool,
    hasPackageSelection: bool,
    hasNoDeps: bool,
    hasLibrarySelection: bool,
    hasCargoTargetSelection: bool,
    hasFix: bool)

  const SEPARATOR: string := "--"
  const MANIFEST_PATH: string := "--manifest-path"
  const WORKSPACE: string := "--workspace"
  const NO_DEPS: string := "--no-deps"
  const ALL_TARGETS: string := "--all-targets"

  /** Cargo arguments that select targets. */
  predicate SelectsTarget(arg: string) {
    || arg == ALL_TARGETS || arg == "--lib" || arg == "--bins" || arg == "--tests" || arg == "--examples"
    || arg == "--benches" || arg == "--doc"
    || arg == "--bin" || arg == "--test" || arg == "--example" || arg == "--bench"
    || StartsWith(arg, "--bin=") || StartsWith(arg, "--test=") || StartsWith(arg, "--example=") || StartsWith(arg, "--bench=")
  }

  /** What the lint arguments say, and what the next one would be the value of. */
  datatype Expected = Nothing | ManifestValue | PackageValue | LibraryValue

  datatype Flags = Flags(manifest: bool, package: bool, noDeps: bool, library: bool, fix: bool, expected: Expected)

  const NO_FLAGS := Flags(false, false, false, false, false, Nothing)

  /** What kind of lint argument a string is when no value is expected. */
  datatype ArgKind =
    | ManifestOption | ManifestInline | PackageOption | PackageInline | Fix | Workspace | NoDeps
    | LibraryOption | LibraryInline | Plain

  function Classify(arg: string): ArgKind {
    if arg == MANIFEST_PATH then ManifestOption
    else if StartsWith(arg, "--manifest-path=") then ManifestInline
    else if arg == "-p" || arg == "--package" then PackageOption
    else if StartsWith(arg, "--package=") then PackageInline
    else if arg == "--fix" then Fix
    else if arg == WORKSPACE then Workspace
    else if arg == NO_DEPS then NoDeps
    else if arg == "--lib" || arg == "--lib-path" then LibraryOption
    else if StartsWith(arg, "--lib=") || StartsWith(arg, "--lib-path=") then LibraryInline
    else Plain
  }

  /** One lint argument: the value of the option before it, or an option of its own. */
  function NextFlags(f: Flags, kind: ArgKind): Flags {
    var free := f.expected.Nothing?;
    Flags(
      f.manifest || f.expected.ManifestValue? || (free && kind.ManifestInline?),
      f.package || f.expected.PackageValue? || (free && (kind.PackageInline? || kind.Workspace?)),
      f.noDeps || (free && kind.NoDeps?),
      f.library || f.expected.LibraryValue? || (free && kind.LibraryInline?),
      f.fix || (free && kind.Fix?),
      if !free then Nothing
      else if kind.ManifestOption? then ManifestValue
      else if kind.PackageOption? then PackageValue
      else if kind.LibraryOption? then LibraryValue
      else Nothing)
  }

  function ScanFlags(f: Flags, args: seq<string>): Flags {
    if args == [] then f else NextFlags(ScanFlags(f, args[..|args| - 1]), Classify(args[|args| - 1]))
  }

  /** The position of the first separator, or the length. */
  function SeparatorAt(argv: seq<string>): (i: nat)
    ensures i <= |argv| && SEPARATOR !in argv[..i] && (i < |argv| ==> argv[i] == SEPARATOR)
  {
    if argv == [] || argv[0] == SEPARATOR then 0 else 1 + SeparatorAt(argv[1..])
  }

  /** The parse in closed form: lint arguments up to the first separator, cargo arguments after it;
      a separator inside the cargo arguments is an ordinary argument. */
  function Parse(argv: seq<string>): Parsed {
    var i := SeparatorAt(argv);
    ParsedFrom(argv[..i], if i < |argv| then argv[i + 1..] else [])
  }

  function ParsedFrom(lint: seq<string>, cargo: seq<string>): Parsed {
    var f := ScanFlags(NO_FLAGS, lint);
    Parsed(lint, cargo, f.manifest, f.package, f.noDeps, f.library,
           AnySelects(cargo), f.fix)
  }

  predicate AnySelects(cargo: seq<string>) {
    cargo != [] && (AnySelects(cargo[..|cargo| - 1]) || SelectsTarget(cargo[|cargo| - 1]))
  }

  /** The parser's loop variables stand for the first `i` arguments. */
  ghost predicate Read(argv: seq<string>, i: nat, lint: seq<string>, cargo: seq<string>, afterSeparator: bool) {
    var at := SeparatorAt(argv);
    && i <= |argv|
    && afterSeparator == (at < i)
    && lint == argv[..if i <= at then i else at]
    && cargo == if at < i then argv[at + 1..i] else []
  }

  lemma ReadNext(argv: seq<string>, i: nat, lint: seq<string>, cargo: seq<string>, afterSeparator: bool)
    requires i < |argv| && Read(argv, i, lint, cargo, afterSeparator)
    ensures afterSeparator ==> Read(argv, i + 1, lint, cargo + [argv[i]], true)
    ensures !afterSeparator && argv[i] == SEPARATOR ==> Read(argv, i + 1, lint, cargo, true)
    ensures !afterSeparator && argv[i] != SEPARATOR ==> Read(argv, i + 1, lint + [argv[i]], cargo, false)
  {
    var at := SeparatorAt(argv);
    if afterSeparator {
      SliceSnoc(argv, at + 1, i);
    } else {
      if i < at {
        assert argv[i] in argv[..at];
      }
      assert argv[..i + 1] == argv[..i] + [argv[i]];
    }
  }

  method TakeLintArg(before: Flags, kind: ArgKind) returns (flags: Flags)
    ensures flags == NextFlags(before, kind)
  {
    flags := before.(expected := Nothing);
    match before.expected {
      case ManifestValue => return flags.(manifest := true);
      case PackageValue => return flags.(package := true);
      case LibraryValue => return flags.(library := true);
      case Nothing =>
    }
    match kind {
      case ManifestOption => flags := flags.(expected := ManifestValue);
      case ManifestInline => flags := flags.(manifest := true);
      case PackageOption => flags := flags.(expected := PackageValue);
      case PackageInline => flags := flags.(package := true);
      case Fix => flags := flags.(fix := true);
      case Workspace => flags := flags.(package := true);
      case NoDeps => flags := flags.(noDeps := true);
      case LibraryOption => flags := flags.(expected := LibraryValue);
      case LibraryInline => flags := flags.(library := true);
      case Plain =>
    }
  }

  /** The parser's variables. */
  datatype Cursor = Cursor(lint: seq<string>, cargo: seq<string>, afterSeparator: bool, flags: Flags, hasTarget: bool)

  function NextCursor(c: Cursor, arg: string): Cursor {
    if c.afterSeparator then Cursor(c.lint, c.cargo + [arg], true, c.flags, c.hasTarget || SelectsTarget(arg))
    else if arg == SEPARATOR then Cursor(c.lint, c.cargo, true, c.flags, c.hasTarget)
    else Cursor(c.lint + [arg], c.cargo, false, NextFlags(c.flags, Classify(arg)), c.hasTarget)
  }

  /** What the variables stand for after `i` arguments. */
  ghost predicate Progress(argv: seq<string>, i: nat, c: Cursor) {
    && Read(argv, i, c.lint, c.cargo, c.afterSeparator)
    && c.flags == ScanFlags(NO_FLAGS, c.lint)
    && c.hasTarget == AnySelects(c.cargo)
  }

  lemma ProgressNext(argv: seq<string>, i: nat, c: Cursor)
    requires i < |argv| && Progress(argv, i, c)
    ensures Progress(argv, i + 1, NextCursor(c, argv[i]))
  {
    ReadNext(argv, i, c.lint, c.cargo, c.afterSeparator);
    assert (c.cargo + [argv[i]])[..|c.cargo|] == c.cargo;
    assert (c.lint + [argv[i]])[..|c.lint|] == c.lint;
  }

  function ParsedOf(c: Cursor): Parsed {
    Parsed(c.lint, c.cargo, c.flags.manifest, c.flags.package, c.flags.noDeps, c.flags.library, c.hasTarget, c.flags.fix)
  }

  lemma ProgressDone(argv: seq<string>, c: Cursor)
    requires Progress(argv, |argv|, c)
    ensures Parse(argv) == ParsedOf(c)
  {
    var at := SeparatorAt(argv);
    assert argv[..|argv|] == argv;
    assert at < |argv| ==> argv[at + 1..|argv|] == argv[at + 1..];
  }

  /** Take one argument. */
  method TakeArg(argv: seq<string>, i: nat, before: Cursor) returns (c: Cursor)
    requires i < |argv| && Progress(argv, i, before)
    ensures Progress(argv, i + 1, c)
  {
    ProgressNext(argv, i, before);
    var arg := argv[i];
    c := before;
    if c.afterSeparator {
      c := c.(cargo := c.cargo + [arg]);
      if SelectsTarget(arg) {
        c := c.(hasTarget := true);
      }
      return;
    }
    if arg == SEPARATOR {
      return c.(afterSeparator := true);
    }
    var flags := TakeLintArg(c.flags, Classify(arg));
    c := c.(lint := c.lint + [arg], flags := flags);
  }

  method ParseWrapperArgs(argv: seq<string>) returns (parsed: Parsed)
    ensures parsed == Parse(argv)
  {
    var c := Cursor([], [], false, NO_FLAGS, false);
    for i := 0 to |argv|
      invariant Progress(argv, i, c)
    {
      c := TakeArg(argv, i, c);
    }
    ProgressDone(argv, c);
    parsed := ParsedOf(c);
  }

  // ---- The builder ----------------------------------------------------------------

  function Defaults(p: Parsed, manifest: string): seq<string> {
    (if p.hasManifestPath then [] else [MANIFEST_PATH, manifest])
    + (if p.hasPackageSelection || p.hasManifestPath then [] else [WORKSPACE])
    + (if p.hasNoDeps then [] else [NO_DEPS])
  }

  function CargoArgs(p: Parsed): seq<string> {
    p.cargoArgs + if p.hasFix || p.hasCargoTargetSelection then [] else [ALL_TARGETS]
  }

  function Build(p: Parsed, manifest: string): seq<string> {
    Defaults(p, manifest) + p.lintArgs + if CargoArgs(p) == [] then [] else [SEPARATOR] + CargoArgs(p)
  }

  method BuildFinalArgs(p: Parsed, manifest: string) returns (args: seq<string>)
    ensures args == Build(p, manifest)
  {
    args := [];
    var cargoArgs := p.cargoArgs;
    if !p.hasManifestPath {
      args := args + [MANIFEST_PATH, manifest];
    }
    if !p.hasPackageSelection && !p.hasManifestPath {
      args := args + [WORKSPACE];
    }
    if !p.hasNoDeps {
      args := args + [NO_DEPS];
    }
    assert args == Defaults(p, manifest);
    if !p.hasFix && !p.hasCargoTargetSelection {
      cargoArgs := cargoArgs + [ALL_TARGETS];
    }
    args := args + p.lintArgs;
    if cargoArgs != [] {
      args := args + ([SEPARATOR] + cargoArgs);
    }
  }

  // ---- Parsing what was built -----------------------------------------------------

  lemma {:induction false} ScanConcat(f: Flags, a: seq<string>, b: seq<string>)
    ensures ScanFlags(f, a + b) == ScanFlags(ScanFlags(f, a), b)
  {
    if b == [] {
      assert a + b == a;
    } else {
      assert (a + b)[..|a + b| - 1] == a + b[..|b| - 1];
      ScanConcat(f, a, b[..|b| - 1]);
    }
  }

  /** `h` has the flags of `f` on top of those of `g`, and expects what `g` does. */
  predicate OnTop(f: Flags, g: Flags, h: Flags) {
    && h.manifest == (f.manifest || g.manifest)
    && h.package == (f.package || g.package)
    && h.noDeps == (f.noDeps || g.noDeps)
    && h.library == (f.library || g.library)
    && h.fix == (f.fix || g.fix)
    && h.expected == g.expected
  }

  lemma NextOnTop(f: Flags, g: Flags, h: Flags, kind: ArgKind)
    requires OnTop(f, g, h)
    ensures OnTop(f, NextFlags(g, kind), NextFlags(h, kind))
  {
  }

  /** Flags seen before stay, whatever follows. */
  lemma {:induction false} ScanOnTop(f: Flags, args: seq<string>)
    requires f.expected.Nothing?
    ensures OnTop(f, ScanFlags(NO_FLAGS, args), ScanFlags(f, args))
  {
    if args != [] {
      var init := args[..|args| - 1];
      ScanOnTop(f, init);
      NextOnTop(f, ScanFlags(NO_FLAGS, init), ScanFlags(f, init), Classify(args[|args| - 1]));
    }
  }

  lemma ScanOne(f: Flags, arg: string)
    ensures ScanFlags(f, [arg]) == NextFlags(f, Classify(arg))
  {
    assert [arg][..0] == [];
  }

  lemma PrefixAgrees(arg: string, prefix: string, i: nat)
    requires i < |arg| && i < |prefix|
    ensures StartsWith(arg, prefix) ==> arg[i] == prefix[i]
  {
    if StartsWith(arg, prefix) {
      assert arg[..|prefix|][i] == arg[i];
    }
  }

  lemma KindsOfDefaults()
    ensures Classify(MANIFEST_PATH).ManifestOption? && Classify(WORKSPACE).Workspace? && Classify(NO_DEPS).NoDeps?
  {
    assert WORKSPACE[2] == 'w' && NO_DEPS[2] == 'n' && "--fix"[2] == 'f' && "--package"[2] == 'p' && MANIFEST_PATH[2] == 'm';
    PrefixAgrees(WORKSPACE, "--manifest-path=", 2);
    PrefixAgrees(WORKSPACE, "--package=", 2);
    PrefixAgrees(NO_DEPS, "--manifest-path=", 2);
    PrefixAgrees(NO_DEPS, "--package=", 2);
    assert |WORKSPACE| > |"-p"| && |NO_DEPS| > |"-p"|;
  }

  /** What the parser makes of the defaults the builder puts in front. */
  lemma ScanDefaults(p: Parsed, manifest: string)
    ensures ScanFlags(NO_FLAGS, Defaults(p, manifest)) ==
            Flags(!p.hasManifestPath, !p.hasPackageSelection && !p.hasManifestPath, !p.hasNoDeps, false, false, Nothing)
  {
    var a := if p.hasManifestPath then [] else [MANIFEST_PATH, manifest];
    var b := if p.hasPackageSelection || p.hasManifestPath then [] else [WORKSPACE];
    var c := if p.hasNoDeps then [] else [NO_DEPS];
    assert [MANIFEST_PATH, manifest] == [MANIFEST_PATH] + [manifest];
    ScanConcat(NO_FLAGS, [MANIFEST_PATH], [manifest]);
    KindsOfDefaults();
    ScanOne(NO_FLAGS, MANIFEST_PATH);
    ScanOne(NextFlags(NO_FLAGS, ManifestOption), manifest);
    var f := ScanFlags(NO_FLAGS, a);
    ScanConcat(NO_FLAGS, a, b);
    ScanOne(f, WORKSPACE);
    var g := ScanFlags(f, b);
    ScanConcat(NO_FLAGS, a + b, c);
    ScanOne(g, NO_DEPS);
  }

  lemma {:induction false} SeparatorAfter(front: seq<string>, rest: seq<string>)
    requires SEPARATOR !in front
    requires rest == [] || rest[0] == SEPARATOR
    ensures SeparatorAt(front + rest) == |front|
  {
    if front == [] {
      assert front + rest == rest;
    } else {
      assert (front + rest)[1..] == front[1..] + rest;
      assert (front + rest)[0] == front[0] && front[0] in front;
      assert forall a :: a in front[1..] ==> a in front;
      SeparatorAfter(front[1..], rest);
    }
  }

  /** Reading back: the defaults and lint arguments are the lint arguments, the cargo arguments are
      the cargo arguments. */
  lemma ParseOfBuild(lint: seq<string>, cargo: seq<string>, front: seq<string>)
    requires SEPARATOR !in front && SEPARATOR !in lint
    ensures Parse(front + lint + if cargo == [] then [] else [SEPARATOR] + cargo) == ParsedFrom(front + lint, cargo)
  {
    var rest := if cargo == [] then [] else [SEPARATOR] + cargo;
    var all := front + lint + rest;
    SeparatorAfter(front + lint, rest);
    var i := |front + lint|;
    assert all[..i] == front + lint;
    if cargo == [] {
      assert all == front + lint;
    } else {
      assert all[i + 1..] == cargo;
    }
  }

  lemma DefaultsHaveNoSeparator(p: Parsed, manifest: string)
    requires manifest != SEPARATOR || p.hasManifestPath
    ensures SEPARATOR !in Defaults(p, manifest)
  {
    assert |SEPARATOR| == 2 && |MANIFEST_PATH| > 2 && |WORKSPACE| > 2 && |NO_DEPS| > 2;
  }

  /** Unless fixing, the cargo arguments as built select a target. */
  lemma BuiltSelects(p: Parsed)
    requires !p.hasFix && p.hasCargoTargetSelection == AnySelects(p.cargoArgs)
    ensures AnySelects(CargoArgs(p))
  {
    if p.hasCargoTargetSelection {
      assert CargoArgs(p) == p.cargoArgs;
    } else {
      assert CargoArgs(p)[..|p.cargoArgs|] == p.cargoArgs;
      assert SelectsTarget(ALL_TARGETS);
    }
  }

  /** The builder has nothing to add to its own output. */
  lemma BuiltIsComplete(p: Parsed, manifest: string)
    requires p == ParsedFrom(p.lintArgs, p.cargoArgs)
    ensures
      var q := ParsedFrom(Defaults(p, manifest) + p.lintArgs, CargoArgs(p));
      q.hasManifestPath && q.hasNoDeps && q.hasFix == p.hasFix && (p.hasFix || q.hasCargoTargetSelection)
  {
    var front := Defaults(p, manifest);
    ScanConcat(NO_FLAGS, front, p.lintArgs);
    ScanDefaults(p, manifest);
    ScanOnTop(ScanFlags(NO_FLAGS, front), p.lintArgs);
    if !p.hasFix {
      BuiltSelects(p);
    }
  }

  lemma NothingToAdd(q: Parsed, manifest: string)
    requires q.hasManifestPath && q.hasNoDeps && (q.hasFix || q.hasCargoTargetSelection)
    ensures Build(q, manifest) == q.lintArgs + if q.cargoArgs == [] then [] else [SEPARATOR] + q.cargoArgs
  {
    assert Defaults(q, manifest) == [];
    assert CargoArgs(q) == q.cargoArgs;
    assert [] + q.lintArgs == q.lintArgs;
  }

  lemma RebuildIsSame(argv: seq<string>, manifest: string)
    requires manifest != SEPARATOR || Parse(argv).hasManifestPath
    ensures Build(Parse(Build(Parse(argv), manifest)), manifest) == Build(Parse(argv), manifest)
  {
    var p := Parse(argv);
    DefaultsHaveNoSeparator(p, manifest);
    ParseOfBuild(p.lintArgs, CargoArgs(p), Defaults(p, manifest));
    BuiltIsComplete(p, manifest);
    NothingToAdd(ParsedFrom(Defaults(p, manifest) + p.lintArgs, CargoArgs(p)), manifest);
  }

  /** With the separator itself as manifest path, reading back takes the path for the separator and
      the arguments grow. */
  lemma SeparatorAsManifestGrows(argv: seq<string>)
    requires !Parse(argv).hasManifestPath
    ensures |Build(Parse(Build(Parse(argv), SEPARATOR)), SEPARATOR)| > |Build(Parse(argv), SEPARATOR)|
  {
    var built := Build(Parse(argv), SEPARATOR);
    assert built[0] == MANIFEST_PATH && built[1] == SEPARATOR;
    ParseBareManifest(built);
    BareManifestGrows(built[2..]);
  }

  lemma ParseBareManifest(built: seq<string>)
    requires |built| >= 2 && built[0] == MANIFEST_PATH && built[1] == SEPARATOR
    ensures Parse(built) == ParsedFrom([MANIFEST_PATH], built[2..])
  {
    assert |MANIFEST_PATH| > |SEPARATOR|;
    SeparatorAfter([MANIFEST_PATH], built[1..]);
    assert built == [MANIFEST_PATH] + built[1..];
    assert built[..1] == [MANIFEST_PATH];
  }

  lemma BareManifestGrows(cargo: seq<string>)
    ensures |Build(ParsedFrom([MANIFEST_PATH], cargo), SEPARATOR)| > |cargo| + 2
  {
    KindsOfDefaults();
    ScanOne(NO_FLAGS, MANIFEST_PATH);
    assert |Defaults(ParsedFrom([MANIFEST_PATH], cargo), SEPARATOR)| == 4;
  }

  /** For every argument list, feeding the built arguments back through parser and builder returns
      them unchanged, dangling value options and repeated separators included, if and only if the
      manifest path is not the separator itself or is not used. */
  lemma RebuildIff(argv: seq<string>, manifest: string)
    ensures Build(Parse(Build(Parse(argv), manifest)), manifest) == Build(Parse(argv), manifest) <==>
            manifest != SEPARATOR || Parse(argv).hasManifestPath
  {
    if manifest != SEPARATOR || Parse(argv).hasManifestPath {
      RebuildIsSame(argv, manifest);
    } else {
      SeparatorAsManifestGrows(argv);
    }
  }

  // ---- What the flags mean, told from the arguments -------------------------------

  /** The option takes the next argument as its value. */
  predicate TakesValue(arg: string) {
    arg == "--manifest-path" || arg == "-p" || arg == "--package" || arg == "--lib" || arg == "--lib-path"
  }

  /** The next argument would be the value of the last one. */
  predicate AwaitsValue(args: seq<string>) {
    args != [] && !AwaitsValue(args[..|args| - 1]) && TakesValue(args[|args| - 1])
  }

  /** Some argument that is no other's value satisfies `p`. */
  ghost predicate Stands(args: seq<string>, p: string -> bool) {
    exists i :: 0 <= i < |args| && p(args[i]) && !AwaitsValue(args[..i])
  }

  /** Such an argument stands with another argument after it. */
  ghost predicate StandsWithValue(args: seq<string>, p: string -> bool) {
    args != [] && Stands(args[..|args| - 1], p)
  }

  predicate NamesManifest(arg: string) { arg == "--manifest-path" }

  predicate GivesManifest(arg: string) { StartsWith(arg, "--manifest-path=") }

  predicate NamesPackage(arg: string) { arg == "-p" || arg == "--package" }

  predicate GivesPackage(arg: string) { StartsWith(arg, "--package=") || arg == "--workspace" }

  predicate NamesLibrary(arg: string) { arg == "--lib" || arg == "--lib-path" }

  predicate GivesLibrary(arg: string) { StartsWith(arg, "--lib=") || StartsWith(arg, "--lib-path=") }

  predicate SwitchesDepsOff(arg: string) { arg == "--no-deps" }

  predicate Fixes(arg: string) { arg == "--fix" }

  /** The flags told from the arguments: an option with its value, in one argument or two, or a
      plain switch; the value of another option is never one. */
  ghost predicate FlagsMean(args: seq<string>, manifest: bool, package: bool, library: bool, noDeps: bool, fix: bool) {
    && manifest == (StandsWithValue(args, NamesManifest) || Stands(args, GivesManifest))
    && package == (StandsWithValue(args, NamesPackage) || Stands(args, GivesPackage))
    && library == (StandsWithValue(args, NamesLibrary) || Stands(args, GivesLibrary))
    && noDeps == Stands(args, SwitchesDepsOff)
    && fix == Stands(args, Fixes)
  }

  /** The option the last argument leaves open. */
  predicate ExpectedMeans(args: seq<string>, expected: Expected) {
    var last := if args != [] && AwaitsValue(args) then args[|args| - 1] else "";
    && (expected.ManifestValue? <==> NamesManifest(last))
    && (expected.PackageValue? <==> NamesPackage(last))
    && (expected.LibraryValue? <==> NamesLibrary(last))
    && (expected.Nothing? <==> !AwaitsValue(args))
  }

  /** The kinds of arguments exclude each other. */
  lemma KindIs(arg: string)
    ensures
      var kind := Classify(arg);
      && (kind.ManifestOption? <==> NamesManifest(arg)) && (kind.ManifestInline? <==> GivesManifest(arg))
      && (kind.PackageOption? <==> NamesPackage(arg))
      && (kind.PackageInline? || kind.Workspace? <==> GivesPackage(arg))
      && (kind.LibraryOption? <==> NamesLibrary(arg)) && (kind.LibraryInline? <==> GivesLibrary(arg))
      && (kind.NoDeps? <==> SwitchesDepsOff(arg)) && (kind.Fix? <==> Fixes(arg))
  {
    if |arg| > 2 {
      PrefixAgrees(arg, "--manifest-path=", 2);
      PrefixAgrees(arg, "--package=", 2);
      PrefixAgrees(arg, "--lib=", 2);
      PrefixAgrees(arg, "--lib-path=", 2);
      assert "--manifest-path="[2] == 'm' && "--package="[2] == 'p' && "--lib="[2] == 'l' && "--lib-path="[2] == 'l';
      assert "--manifest-path"[2] == 'm' && "--package"[2] == 'p' && "--fix"[2] == 'f' && "--workspace"[2] == 'w';
      assert "--no-deps"[2] == 'n' && "--lib"[2] == 'l' && "--lib-path"[2] == 'l';
      PrefixAgrees("--lib-path", "--lib=", 5);
      assert "--lib-path"[5] == '-' && "--lib="[5] == '=';
    }
  }

  lemma StandsNext(args: seq<string>, p: string -> bool)
    requires args != []
    ensures
      var init := args[..|args| - 1];
      Stands(args, p) <==> Stands(init, p) || (!AwaitsValue(init) && p(args[|args| - 1]))
  {
    var init := args[..|args| - 1];
    assert forall i :: 0 <= i < |args| ==> args[..i] == init[..i];
    assert init[..|init|] == init;
  }

  lemma {:induction false} ExpectedIs(args: seq<string>)
    ensures ExpectedMeans(args, ScanFlags(NO_FLAGS, args).expected)
  {
    if args != [] {
      ExpectedIs(args[..|args| - 1]);
      KindIs(args[|args| - 1]);
      assert |""| != |"--manifest-path"| && |""| != |"-p"| && |""| != |"--package"| && |""| != |"--lib"| && |""| != |"--lib-path"|;
    }
  }

  /** An option has its value once one more argument follows. */
  lemma StandsWithValueNext(args: seq<string>, p: string -> bool)
    requires args != []
    ensures
      var init := args[..|args| - 1];
      StandsWithValue(args, p) <==>
        StandsWithValue(init, p) || (init != [] && !AwaitsValue(init[..|init| - 1]) && p(init[|init| - 1]))
  {
    var init := args[..|args| - 1];
    if init != [] {
      StandsNext(init, p);
    }
  }

  lemma {:induction false} FlagsAreMeant(args: seq<string>)
    ensures
      var f := ScanFlags(NO_FLAGS, args);
      FlagsMean(args, f.manifest, f.package, f.library, f.noDeps, f.fix)
  {
    if args != [] {
      var init := args[..|args| - 1];
      FlagsAreMeant(init);
      ExpectedIs(init);
      KindIs(args[|args| - 1]);
      StandsWithValueNext(args, NamesManifest);
      StandsWithValueNext(args, NamesPackage);
      StandsWithValueNext(args, NamesLibrary);
      StandsNext(args, GivesManifest);
      StandsNext(args, GivesPackage);
      StandsNext(args, GivesLibrary);
      StandsNext(args, SwitchesDepsOff);
      StandsNext(args, Fixes);
    }
  }

  const WHOLE_TARGETS := ["--all-targets", "--lib", "--bins", "--tests", "--examples", "--benches", "--doc"]
  const NAMED_TARGETS := ["--bin", "--test", "--example", "--bench"]

  /** The argument selects all targets of a sort, or one by name in one argument or two. */
  ghost predicate Selects(arg: string) {
    arg in WHOLE_TARGETS || exists option :: option in NAMED_TARGETS && (arg == option || StartsWith(arg, option + "="))
  }

  lemma SelectsIff(arg: string)
    ensures SelectsTarget(arg) <==> Selects(arg)
  {
    var whole, named := WHOLE_TARGETS, NAMED_TARGETS;
    assert whole[0] == ALL_TARGETS && whole[1] == "--lib" && whole[2] == "--bins" && whole[3] == "--tests" && whole[4] == "--examples";
    assert whole[5] == "--benches" && whole[6] == "--doc";
    assert named[0] == "--bin" && named[1] == "--test" && named[2] == "--example" && named[3] == "--bench";
    assert "--bin" + "=" == "--bin=" && "--test" + "=" == "--test=";
    assert "--example" + "=" == "--example=" && "--bench" + "=" == "--bench=";
  }

  lemma {:induction false} AnySelectsIff(cargo: seq<string>)
    ensures AnySelects(cargo) <==> exists i :: 0 <= i < |cargo| && Selects(cargo[i])
  {
    if cargo != [] {
      AnySelectsIff(cargo[..|cargo| - 1]);
      SelectsIff(cargo[|cargo| - 1]);
    }
  }

  /** The parse told from the arguments alone: the arguments split at the first separator, every flag
      holds exactly if the lint arguments say so, and a target is selected exactly if a cargo
      argument does. */
  lemma ParseMeans(argv: seq<string>)
    ensures
      var p := Parse(argv);
      && "--" !in p.lintArgs
      && (argv == p.lintArgs + ["--"] + p.cargoArgs || (argv == p.lintArgs && p.cargoArgs == []))
      && FlagsMean(p.lintArgs, p.hasManifestPath, p.hasPackageSelection, p.hasLibrarySelection, p.hasNoDeps, p.hasFix)
      && (p.hasCargoTargetSelection <==> exists i :: 0 <= i < |p.cargoArgs| && Selects(p.cargoArgs[i]))
  {
    FlagsAreMeant(Parse(argv).lintArgs);
    AnySelectsIff(Parse(argv).cargoArgs);
    SplitAtSeparator(argv, SeparatorAt(argv));
  }

  lemma SplitAtSeparator(argv: seq<string>, i: nat)
    requires i <= |argv| && (i < |argv| ==> argv[i] == SEPARATOR)
    ensures if i < |argv| then argv == argv[..i] + ["--"] + argv[i + 1..] else argv == argv[..i]
  {
  }

  /** Parsed as `p` before the builder and as `q` after it: the given arguments are kept in place, and
      what is put in front is a manifest path, the workspace and the switch against dependencies,
      each exactly if it is missing. */
  ghost predicate KeepsArgs(p: Parsed, q: Parsed, manifest: string) {
    var added := |q.lintArgs| - |p.lintArgs|;
    && added == (if p.hasManifestPath then 0 else 2) + (if p.hasPackageSelection || p.hasManifestPath then 0 else 1)
                + (if p.hasNoDeps then 0 else 1)
    && q.lintArgs[added..] == p.lintArgs
    && (!p.hasManifestPath ==> q.lintArgs[..2] == ["--manifest-path", manifest])
    && q.cargoArgs == p.cargoArgs + if p.hasFix || p.hasCargoTargetSelection then [] else ["--all-targets"]
  }

  /** The flags after the builder: a manifest path and no dependencies, the workspace if nothing
      selected what to check, and the others as they were. */
  predicate CompletesFlags(p: Parsed, q: Parsed) {
    && q.hasManifestPath && q.hasNoDeps
    && (q.hasPackageSelection <==> p.hasPackageSelection || !p.hasManifestPath)
    && q.hasLibrarySelection == p.hasLibrarySelection && q.hasFix == p.hasFix
  }

  lemma BuiltKeepsArgs(p: Parsed, manifest: string)
    ensures KeepsArgs(p, ParsedFrom(Defaults(p, manifest) + p.lintArgs, CargoArgs(p)), manifest)
  {
    var front := Defaults(p, manifest);
    assert (front + p.lintArgs)[|front|..] == p.lintArgs;
    if !p.hasManifestPath {
      assert (front + p.lintArgs)[..2] == [front[0], front[1]];
    }
  }

  lemma BuiltCompletesFlags(p: Parsed, manifest: string)
    requires p == ParsedFrom(p.lintArgs, p.cargoArgs)
    ensures CompletesFlags(p, ParsedFrom(Defaults(p, manifest) + p.lintArgs, CargoArgs(p)))
  {
    var front := Defaults(p, manifest);
    ScanConcat(NO_FLAGS, front, p.lintArgs);
    ScanDefaults(p, manifest);
    ScanOnTop(ScanFlags(NO_FLAGS, front), p.lintArgs);
  }

  /** What the builder adds, told by parsing its output: exactly what is missing, and nothing else. */
  lemma BuildAdds(argv: seq<string>, manifest: string)
    requires manifest != "--" || Parse(argv).hasManifestPath
    ensures
      var p, q := Parse(argv), Parse(Build(Parse(argv), manifest));
      KeepsArgs(p, q, manifest) && CompletesFlags(p, q)
  {
    var p := Parse(argv);
    DefaultsHaveNoSeparator(p, manifest);
    ParseOfBuild(p.lintArgs, CargoArgs(p), Defaults(p, manifest));
    BuiltKeepsArgs(p, manifest);
    BuiltCompletesFlags(p, manifest);
  }
}

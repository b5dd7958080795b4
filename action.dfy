/** `stationary/action.py`: the task table and the tasks `build`, `clean`,
    `sanity_check` and `help`, with their helper `check_dir`, and the MIME
    lookup `mimeof`. */
module Action {
  import opened Common
  import opened Paths
  import opened Disk
  import opened Host
  import opened Config
  import opened Build
  import opened Utils

  // ---------------------------------------------------------------------
  // Tasks

  datatype Command = BuildCommand | DevelopCommand | CleanCommand | SanityCheckCommand | HelpCommand

  /** The record `task` stores: name, docstring (`None` when there is
      none), priority and the function. */
  datatype Task = Task(name: string, help: Option<string>, priority: int, command: Command)

  /** The `@task(...)` decorators of the module, in source order. */
  const Declarations: seq<Task> := [
    Task("build", Some("Rebuilds the site.\n    "), 1, BuildCommand),
    Task("develop", Some("Starts a webserver that rerenders and serves dynamically\n    generated pages\n    "), 1, DevelopCommand),
    Task("clean", Some("Deletes the contents of the build directory.\n    "), 1, CleanCommand),
    Task("sanity_check", None, 0, SanityCheckCommand),
    Task("help", Some("Prints a helpful help message.\n    "), -1, HelpCommand)
  ]

  /** `TASKS` after the decorators `ds` ran on `t`. */
  function Declared(t: map<string, Task>, ds: seq<Task>): map<string, Task> {
    if ds == [] then t
    else Declared(t, ds[..|ds| - 1])[ds[|ds| - 1].name := ds[|ds| - 1]]
  }

  /** A name is registered exactly when it was there before or some
      decorator gave it. */
  lemma {:induction false} DeclaredNames(t: map<string, Task>, ds: seq<Task>, n: string)
    ensures n in Declared(t, ds) <==> n in t || exists i :: 0 <= i < |ds| && ds[i].name == n
    decreases |ds|
  {
    if ds != [] {
      var init := ds[..|ds| - 1];
      DeclaredNames(t, init, n);
      assert Declared(t, ds) == Declared(t, init)[ds[|ds| - 1].name := ds[|ds| - 1]];
      if exists i :: 0 <= i < |ds| && ds[i].name == n {
        var i :| 0 <= i < |ds| && ds[i].name == n;
        if i < |init| {
          assert init[i] == ds[i];
        }
      }
      if exists i :: 0 <= i < |init| && init[i].name == n {
        var i :| 0 <= i < |init| && init[i].name == n;
        assert ds[i] == init[i];
      }
    }
  }

  /** The last decorator that gave a name decides what it holds. */
  lemma {:induction false} DeclaredLastWins(t: map<string, Task>, ds: seq<Task>, n: string, i: nat)
    requires i < |ds| && ds[i].name == n
    requires forall j :: i < j < |ds| ==> ds[j].name != n
    ensures n in Declared(t, ds) && Declared(t, ds)[n] == ds[i]
    decreases |ds|
  {
    var init := ds[..|ds| - 1];
    var last := ds[|ds| - 1];
    assert Declared(t, ds) == Declared(t, init)[last.name := last];
    if i < |init| {
      assert last.name != n;
      forall j | i < j < |init| ensures init[j].name != n {
        assert init[j] == ds[j];
      }
      DeclaredLastWins(t, init, n, i);
    }
  }

  /** A name no decorator gave keeps what it held before. */
  lemma {:induction false} DeclaredKeepsOthers(t: map<string, Task>, ds: seq<Task>, n: string)
    requires n in t
    requires forall i :: 0 <= i < |ds| ==> ds[i].name != n
    ensures n in Declared(t, ds) && Declared(t, ds)[n] == t[n]
    decreases |ds|
  {
    if ds != [] {
      var init := ds[..|ds| - 1];
      var last := ds[|ds| - 1];
      assert Declared(t, ds) == Declared(t, init)[last.name := last];
      forall j | 0 <= j < |init| ensures init[j].name != n {
        assert init[j] == ds[j];
      }
      DeclaredKeepsOthers(t, init, n);
      assert last.name != n;
    }
  }

  /** The table once the module is loaded. */
  lemma InstalledTasks()
    ensures var t := Declared(map[], Declarations);
      t.Keys == {"build", "develop", "clean", "sanity_check", "help"} &&
      (forall n :: n in t ==> t[n].name == n) &&
      t["build"].priority == 1 && t["develop"].priority == 1 && t["clean"].priority == 1 &&
      t["sanity_check"].priority == 0 && t["help"].priority == -1 &&
      t["sanity_check"].help == None
  {
    var d := Declarations;
    assert d[..1][..0] == [] && d[..1][0] == d[0];
    assert Declared(map[], d[..1][..0]) == map[];
    var t1 := Declared(map[], d[..1]);
    assert t1 == map[][d[0].name := d[0]];
    assert d[..2][..1] == d[..1];
    var t2 := Declared(map[], d[..2]);
    assert t2 == t1["develop" := d[1]];
    assert d[..3][..2] == d[..2];
    var t3 := Declared(map[], d[..3]);
    assert t3 == t2["clean" := d[2]];
    assert d[..4][..3] == d[..3];
    var t4 := Declared(map[], d[..4]);
    assert t4 == t3["sanity_check" := d[3]];
    assert d[..5][..4] == d[..4] && d[..5] == d;
    assert Declared(map[], d) == t4["help" := d[4]];
  }

  // ---------------------------------------------------------------------
  // String order, as `sorted` compares names

  predicate StrLess(a: string, b: string)
    decreases |a|
  {
    if a == [] then b != []
    else if b == [] then false
    else if a[0] == b[0] then StrLess(a[1..], b[1..])
    else a[0] < b[0]
  }

  lemma {:induction false} StrLessIrreflexive(a: string)
    ensures !StrLess(a, a)
    decreases |a|
  {
    if a != [] {
      StrLessIrreflexive(a[1..]);
    }
  }

  lemma {:induction false} StrLessTransitive(a: string, b: string, c: string)
    requires StrLess(a, b) && StrLess(b, c)
    ensures StrLess(a, c)
    decreases |a|
  {
    if a != [] && b != [] && c != [] && a[0] == b[0] && b[0] == c[0] {
      StrLessTransitive(a[1..], b[1..], c[1..]);
    }
  }

  lemma {:induction false} StrLessTotal(a: string, b: string)
    requires a != b
    ensures StrLess(a, b) || StrLess(b, a)
    decreases |a|
  {
    if a != [] && b != [] && a[0] == b[0] {
      assert a == [a[0]] + a[1..] && b == [b[0]] + b[1..];
      StrLessTotal(a[1..], b[1..]);
    }
  }

  predicate StrictlySorted(s: seq<string>) {
    forall i, j :: 0 <= i < j < |s| ==> StrLess(s[i], s[j])
  }

  /** Insertion of a new name into a sorted list of names. */
  function InsertName(s: seq<string>, k: string): (r: seq<string>)
    requires StrictlySorted(s) && k !in s
    ensures StrictlySorted(r)
    ensures forall x :: x in r <==> x in s || x == k
    ensures |r| == |s| + 1
  {
    if s == [] then [k]
    else if StrLess(k, s[0]) then
      assert forall j :: 0 < j < |s| ==> StrLess(k, s[j]) by {
        forall j | 0 < j < |s| ensures StrLess(k, s[j]) {
          StrLessTransitive(k, s[0], s[j]);
        }
      }
      [k] + s
    else
      StrLessTotal(k, s[0]);
      assert StrictlySorted(s[1..]) by {
        forall i, j | 0 <= i < j < |s[1..]| ensures StrLess(s[1..][i], s[1..][j]) {
          assert s[1..][i] == s[i + 1] && s[1..][j] == s[j + 1];
        }
      }
      var rest := InsertName(s[1..], k);
      assert forall x :: x in rest ==> StrLess(s[0], x) by {
        forall x | x in rest ensures StrLess(s[0], x) {
          if x != k {
            var j :| 1 <= j < |s| && s[j] == x;
          }
        }
      }
      [s[0]] + rest
  }

  /** `sorted(names)` */
  method SortedNames(keys: set<string>) returns (names: seq<string>)
    ensures StrictlySorted(names)
    ensures forall n :: n in names <==> n in keys
  {
    names := [];
    var rest := keys;
    while rest != {}
      invariant rest <= keys
      invariant StrictlySorted(names)
      invariant forall n :: n in names <==> n in keys && n !in rest
      decreases rest
    {
      var k :| k in rest;
      names := InsertName(names, k);
      rest := rest - {k};
    }
  }

  /** What `help` reports: one task's name and docstring, an error about an
      unknown task, or the list of task names. */
  datatype HelpOutput =
    | TaskHelp(name: string, help: Option<string>)
    | UnknownTask(name: string)
    | Listing(names: seq<string>)

  /** What `help(config, *args)` reports over the task table `tasks`: with
      exactly one argument, that task's name and docstring, or an error for
      an unknown name (nothing is raised); otherwise every task name, in
      sorted order. */
  ghost predicate HelpAnswers(tasks: map<string, Task>, args: seq<string>, out: HelpOutput) {
    (|args| == 1 && args[0] in tasks ==> out == TaskHelp(tasks[args[0]].name, tasks[args[0]].help)) &&
    (|args| == 1 && args[0] !in tasks ==> out == UnknownTask(args[0])) &&
    (|args| != 1 ==> out.Listing? && StrictlySorted(out.names) && (forall n :: n in out.names <==> n in tasks))
  }

  /** `TASKS`, updated in place by the decorators. */
  class TaskRegistry {
    var tasks: map<string, Task>

    constructor()
      ensures tasks == map[]
    {
      tasks := map[];
    }

    /** `task(priority)(func)`, which hands the function back. */
    method Register(t: Task) returns (c: Command)
      modifies this
      ensures c == t.command
      ensures tasks == old(tasks)[t.name := t]
    {
      tasks := tasks[t.name := t];
      c := t.command;
    }

    method Install()
      modifies this
      ensures tasks == Declared(old(tasks), Declarations)
    {
      for i := 0 to |Declarations|
        invariant tasks == Declared(old(tasks), Declarations[..i])
      {
        assert Declarations[..i + 1][..i] == Declarations[..i];
        var _ := Register(Declarations[i]);
      }
      assert Declarations[..|Declarations|] == Declarations;
    }

    /** `help(config, *args)` */
    method Help(args: seq<string>) returns (out: HelpOutput)
      ensures HelpAnswers(tasks, args, out)
    {
      if |args| == 1 {
        if args[0] in tasks {
          var t := tasks[args[0]];
          return TaskHelp(t.name, t.help);
        }
        return UnknownTask(args[0]);
      }
      var names := SortedNames(tasks.Keys);
      return Listing(names);
    }
  }

  // ---------------------------------------------------------------------
  // check_dir and sanity_check

  /** The access list `check_dir` hands to `all`. */
  function Granted(host: Host, dir: Path, access: seq<Mode>): (r: seq<bool>)
    ensures |r| == |access| && forall i :: 0 <= i < |access| ==> r[i] == host.access(dir, access[i])
  {
    seq(|access|, i requires 0 <= i < |access| => host.access(dir, access[i]))
  }

  /** `check_dir(dir, exists, access, make)`. A missing directory is made
      when `make` is set, and the answer is then whether it exists, with no
      access check; an existing one passes when every listed access mode is
      granted. An absent access list and an empty one behave alike. */
  function CheckDirSpec(fs: Fs, host: Host, dir: Path, mustExist: bool, access: seq<Mode>, make: bool): Step<bool> {
    if mustExist && !Exists(fs, dir) then
      if make then
        match AfterMakeDirs(fs, dir)
        case Err(e) => Step(fs, Err(e))
        case Ok(made) => Step(made, Ok(Exists(made, dir)))
      else Step(fs, Ok(Exists(fs, dir)))
    else if access != [] && !All(Granted(host, dir, access))
    then Step(fs, Ok(false))
    else Step(fs, Ok(true))
  }

  /** Each case of `check_dir`, stated on its own. */
  lemma CheckDirCases(fs: Fs, host: Host, dir: Path, mustExist: bool, access: seq<Mode>, make: bool)
    ensures mustExist && !Exists(fs, dir) && !make ==>
      CheckDirSpec(fs, host, dir, mustExist, access, make) == Step(fs, Ok(false))
    ensures mustExist && !Exists(fs, dir) && make ==>
      CheckDirSpec(fs, host, dir, mustExist, access, make) ==
        (if AfterMakeDirs(fs, dir).Ok? then Step(AfterMakeDirs(fs, dir).value, Ok(true)) else Step(fs, Err(OSError)))
    ensures (!mustExist || Exists(fs, dir)) ==>
      CheckDirSpec(fs, host, dir, mustExist, access, make) ==
        Step(fs, Ok(forall i :: 0 <= i < |access| ==> host.access(dir, access[i])))
  {
    AllIff(Granted(host, dir, access));
  }

  /** With `make` a missing directory is judged without its access modes. */
  lemma CheckDirMakeIgnoresAccess(fs: Fs, host: Host, dir: Path, access: seq<Mode>)
    requires !Exists(fs, dir)
    ensures CheckDirSpec(fs, host, dir, true, access, true) == CheckDirSpec(fs, host, dir, true, [], true)
  {
  }

  /** Only directories are ever created by `check_dir`. */
  lemma CheckDirOnlyMakesDirs(fs: Fs, host: Host, dir: Path, mustExist: bool, access: seq<Mode>, make: bool)
    ensures CheckDirSpec(fs, host, dir, mustExist, access, make).fs.files == fs.files
    ensures fs.dirs <= CheckDirSpec(fs, host, dir, mustExist, access, make).fs.dirs
    ensures !make ==> CheckDirSpec(fs, host, dir, mustExist, access, make).fs == fs
  {
  }

  method CheckDir(fsys: FileSystem, host: Host, dir: Path, mustExist: bool, access: seq<Mode>, make: bool)
    returns (r: Result<bool>)
    modifies fsys
    ensures Step(fsys.State(), r) == CheckDirSpec(old(fsys.State()), host, dir, mustExist, access, make)
  {
    if mustExist && !Exists(fsys.State(), dir) {
      if make {
        var made := fsys.MakeDirs(dir);
        if made.Err? {
          return Err(made.error);
        }
      }
      return Ok(Exists(fsys.State(), dir));
    }
    var granted: seq<bool> := [];
    for i := 0 to |access|
      invariant granted == seq(i, j requires 0 <= j < i => host.access(dir, access[j]))
    {
      granted := granted + [host.access(dir, access[i])];
    }
    assert granted == Granted(host, dir, access);
    if access != [] && !All(granted) {
      return Ok(false);
    }
    return Ok(true);
  }

  /** A fatal check: a failed `check_dir` ends the run with SystemExit. */
  function Fatal(s: Step<bool>): Step<()> {
    if s.result.Err? then Step(s.fs, Err(s.result.error))
    else if !s.result.value then Step(s.fs, Err(SystemExit))
    else Step(s.fs, Ok(()))
  }

  /** `sanity_check(config)`: the build and build data directories must be
      writable (they are made when missing), the source directory must be
      readable; an unreadable data directory is only logged. */
  function SanityCheckSpec(fs: Fs, host: Host, c: Config): Step<()> {
    match Get(c, "build_directory")
    case Err(e) => Step(fs, Err(e))
    case Ok(buildDir) =>
      var s1 := Fatal(CheckDirSpec(fs, host, buildDir, true, [WriteOk], true));
      if s1.result.Err? then s1 else CheckBuildDataDirectory(s1.fs, host, c)
  }

  /** The stages of `sanity_check` after the build directory passed. */
  function CheckBuildDataDirectory(fs: Fs, host: Host, c: Config): Step<()> {
    match Get(c, "build_data_directory")
    case Err(e) => Step(fs, Err(e))
    case Ok(dataBuildDir) =>
      var s2 := Fatal(CheckDirSpec(fs, host, dataBuildDir, true, [WriteOk], true));
      if s2.result.Err? then s2 else CheckSourceDirectory(s2.fs, host, c)
  }

  function CheckSourceDirectory(fs: Fs, host: Host, c: Config): Step<()> {
    match Get(c, "src_directory")
    case Err(e) => Step(fs, Err(e))
    case Ok(srcDir) =>
      var s3 := Fatal(CheckDirSpec(fs, host, srcDir, true, [ReadOk], false));
      if s3.result.Err? then s3 else CheckDataDirectory(s3.fs, host, c)
  }

  /** Only logged: the outcome is success whatever `check_dir` answers. */
  function CheckDataDirectory(fs: Fs, host: Host, c: Config): Step<()> {
    match Get(c, "data_directory")
    case Err(e) => Step(fs, Err(e))
    case Ok(dataDir) => Step(CheckDirSpec(fs, host, dataDir, true, [ReadOk], false).fs, Ok(()))
  }

  /** `sanity_check` creates directories only. */
  lemma SanityCheckOnlyMakesDirs(fs: Fs, host: Host, c: Config)
    ensures SanityCheckSpec(fs, host, c).fs.files == fs.files
    ensures fs.dirs <= SanityCheckSpec(fs, host, c).fs.dirs
  {
    if Get(c, "build_directory").Ok? {
      var bd := Get(c, "build_directory").value;
      CheckDirOnlyMakesDirs(fs, host, bd, true, [WriteOk], true);
      var s1 := Fatal(CheckDirSpec(fs, host, bd, true, [WriteOk], true));
      assert s1.fs == CheckDirSpec(fs, host, bd, true, [WriteOk], true).fs;
      if s1.result.Ok? {
        assert SanityCheckSpec(fs, host, c) == CheckBuildDataDirectory(s1.fs, host, c);
        BuildDataStageOnlyMakesDirs(s1.fs, host, c);
      }
    }
  }

  /** The stages from `build_data_directory` on create directories only. */
  lemma BuildDataStageOnlyMakesDirs(fs: Fs, host: Host, c: Config)
    ensures CheckBuildDataDirectory(fs, host, c).fs.files == fs.files
    ensures fs.dirs <= CheckBuildDataDirectory(fs, host, c).fs.dirs
  {
    if Get(c, "build_data_directory").Ok? {
      var bdd := Get(c, "build_data_directory").value;
      CheckDirOnlyMakesDirs(fs, host, bdd, true, [WriteOk], true);
      var s2 := Fatal(CheckDirSpec(fs, host, bdd, true, [WriteOk], true));
      assert s2.fs == CheckDirSpec(fs, host, bdd, true, [WriteOk], true).fs;
      if s2.result.Ok? {
        assert CheckBuildDataDirectory(fs, host, c) == CheckSourceDirectory(s2.fs, host, c);
        ReadStagesKeepFs(s2.fs, host, c);
      }
    }
  }

  /** The checks of the source and data directories change nothing. */
  lemma ReadStagesKeepFs(fs: Fs, host: Host, c: Config)
    ensures CheckSourceDirectory(fs, host, c).fs == fs
  {
    if Get(c, "src_directory").Ok? {
      var src := Get(c, "src_directory").value;
      CheckDirOnlyMakesDirs(fs, host, src, true, [ReadOk], false);
      if Get(c, "data_directory").Ok? {
        CheckDirOnlyMakesDirs(fs, host, Get(c, "data_directory").value, true, [ReadOk], false);
      }
    }
  }

  /** When `sanity_check` passes, the build directories exist (an existing
      build directory was writable), and the source directory exists and is
      readable. */
  lemma SanityCheckPasses(fs: Fs, host: Host, c: Config)
    requires SanityCheckSpec(fs, host, c).result.Ok?
    ensures "build_directory" in c.properties && "build_data_directory" in c.properties
    ensures "src_directory" in c.properties && "data_directory" in c.properties
    ensures var after := SanityCheckSpec(fs, host, c).fs;
      var bd := c.properties["build_directory"];
      var src := c.properties["src_directory"];
      Exists(after, bd) && Exists(after, c.properties["build_data_directory"]) &&
      (Exists(fs, bd) ==> host.access(bd, WriteOk)) &&
      Exists(after, src) && host.access(src, ReadOk)
  {
    var bd := c.properties["build_directory"];
    CheckDirCases(fs, host, bd, true, [WriteOk], true);
    var s1 := Fatal(CheckDirSpec(fs, host, bd, true, [WriteOk], true));
    assert s1.result.Ok? && s1.fs == CheckDirSpec(fs, host, bd, true, [WriteOk], true).fs;
    assert SanityCheckSpec(fs, host, c) == CheckBuildDataDirectory(s1.fs, host, c);
    assert Exists(s1.fs, bd) && (Exists(fs, bd) ==> host.access(bd, WriteOk));
    BuildDataStagePasses(s1.fs, host, c);
    BuildDataStageOnlyMakesDirs(s1.fs, host, c);
  }

  /** When the stages from `build_data_directory` on pass, that directory
      exists and the source directory exists and is readable. */
  lemma BuildDataStagePasses(fs: Fs, host: Host, c: Config)
    requires CheckBuildDataDirectory(fs, host, c).result.Ok?
    ensures "build_data_directory" in c.properties
    ensures "src_directory" in c.properties && "data_directory" in c.properties
    ensures var after := CheckBuildDataDirectory(fs, host, c).fs;
      Exists(after, c.properties["build_data_directory"]) &&
      Exists(after, c.properties["src_directory"]) && host.access(c.properties["src_directory"], ReadOk)
  {
    var bdd := c.properties["build_data_directory"];
    CheckDirCases(fs, host, bdd, true, [WriteOk], true);
    var s2 := Fatal(CheckDirSpec(fs, host, bdd, true, [WriteOk], true));
    assert s2.result.Ok? && s2.fs == CheckDirSpec(fs, host, bdd, true, [WriteOk], true).fs;
    assert CheckBuildDataDirectory(fs, host, c) == CheckSourceDirectory(s2.fs, host, c);
    assert Exists(s2.fs, bdd);
    SourceStagePasses(s2.fs, host, c);
  }

  lemma SourceStagePasses(fs: Fs, host: Host, c: Config)
    requires CheckSourceDirectory(fs, host, c).result.Ok?
    ensures "src_directory" in c.properties && "data_directory" in c.properties
    ensures CheckSourceDirectory(fs, host, c).fs == fs
    ensures Exists(fs, c.properties["src_directory"]) && host.access(c.properties["src_directory"], ReadOk)
  {
    var src := c.properties["src_directory"];
    CheckDirCases(fs, host, src, true, [ReadOk], false);
    ReadStagesKeepFs(fs, host, c);
  }

  /** The data directory is checked only to log a warning: whatever it is
      set to, the outcome of `sanity_check` is the same. */
  lemma DataDirectoryOnlyWarns(fs: Fs, host: Host, c: Config, other: string)
    requires "data_directory" in c.properties
    ensures SanityCheckSpec(fs, host, Config(c.properties["data_directory" := other])) == SanityCheckSpec(fs, host, c)
  {
    var c' := Config(c.properties["data_directory" := other]);
    assert Get(c', "build_directory") == Get(c, "build_directory");
    assert Get(c', "build_data_directory") == Get(c, "build_data_directory");
    if Get(c, "build_directory").Ok? {
      var bd := Get(c, "build_directory").value;
      var s1 := Fatal(CheckDirSpec(fs, host, bd, true, [WriteOk], true));
      if s1.result.Ok? {
        assert SanityCheckSpec(fs, host, c) == CheckBuildDataDirectory(s1.fs, host, c);
        assert SanityCheckSpec(fs, host, c') == CheckBuildDataDirectory(s1.fs, host, c');
        BuildDataStageIgnoresDataDirectory(s1.fs, host, c, other);
      }
    }
  }

  lemma BuildDataStageIgnoresDataDirectory(fs: Fs, host: Host, c: Config, other: string)
    requires "data_directory" in c.properties
    ensures CheckBuildDataDirectory(fs, host, Config(c.properties["data_directory" := other])) ==
      CheckBuildDataDirectory(fs, host, c)
  {
    var c' := Config(c.properties["data_directory" := other]);
    assert Get(c', "build_data_directory") == Get(c, "build_data_directory");
    if Get(c, "build_data_directory").Ok? {
      var bdd := Get(c, "build_data_directory").value;
      var s2 := Fatal(CheckDirSpec(fs, host, bdd, true, [WriteOk], true));
      if s2.result.Ok? {
        assert CheckBuildDataDirectory(fs, host, c) == CheckSourceDirectory(s2.fs, host, c);
        assert CheckBuildDataDirectory(fs, host, c') == CheckSourceDirectory(s2.fs, host, c');
        SourceStageIgnoresDataDirectory(s2.fs, host, c, other);
      }
    }
  }

  lemma SourceStageIgnoresDataDirectory(fs: Fs, host: Host, c: Config, other: string)
    requires "data_directory" in c.properties
    ensures CheckSourceDirectory(fs, host, Config(c.properties["data_directory" := other])) ==
      CheckSourceDirectory(fs, host, c)
  {
    var c' := Config(c.properties["data_directory" := other]);
    assert Get(c', "src_directory") == Get(c, "src_directory");
    assert Get(c', "data_directory") == Ok(other) && Get(c, "data_directory") == Ok(c.properties["data_directory"]);
    CheckDirOnlyMakesDirs(fs, host, other, true, [ReadOk], false);
    CheckDirOnlyMakesDirs(fs, host, c.properties["data_directory"], true, [ReadOk], false);
    assert CheckDataDirectory(fs, host, c') == Step(fs, Ok(()));
    assert CheckDataDirectory(fs, host, c) == Step(fs, Ok(()));
  }

  /** A configuration without `build_data_directory` never passes, and
      neither does any configuration `read_config` produces, since none of
      them sets that property. */
  lemma SanityCheckNeedsBuildDataDirectory(fs: Fs, host: Host, c: Config)
    requires "build_data_directory" !in c.properties
    ensures SanityCheckSpec(fs, host, c).result.Err?
  {
  }

  lemma ReadConfigFailsSanityCheck(fs0: Fs, fs: Fs, host: Host, fname: Option<string>, c: Config)
    requires ReadConfigSpec(fs0, host, fname).Ok? && ReadConfigSpec(fs0, host, fname).value.0 == c
    ensures SanityCheckSpec(fs, host, c).result.Err?
  {
    ReadConfigKeys(fs0, host, fname, c);
  }

  method SanityCheck(fsys: FileSystem, host: Host, c: Config) returns (r: Result<()>)
    modifies fsys
    ensures Step(fsys.State(), r) == SanityCheckSpec(old(fsys.State()), host, c)
  {
    ghost var spec := SanityCheckSpec(fsys.State(), host, c);
    var buildDir := Get(c, "build_directory");
    if buildDir.Err? {
      return Err(buildDir.error);
    }
    var ok := CheckDir(fsys, host, buildDir.value, true, [WriteOk], true);
    if ok != Ok(true) {
      return if ok.Err? then Err(ok.error) else Err(SystemExit);
    }
    assert spec == CheckBuildDataDirectory(fsys.State(), host, c);
    var dataBuildDir := Get(c, "build_data_directory");
    if dataBuildDir.Err? {
      return Err(dataBuildDir.error);
    }
    ok := CheckDir(fsys, host, dataBuildDir.value, true, [WriteOk], true);
    if ok != Ok(true) {
      return if ok.Err? then Err(ok.error) else Err(SystemExit);
    }
    assert spec == CheckSourceDirectory(fsys.State(), host, c);
    var srcDir := Get(c, "src_directory");
    if srcDir.Err? {
      return Err(srcDir.error);
    }
    ok := CheckDir(fsys, host, srcDir.value, true, [ReadOk], false);
    if ok != Ok(true) {
      return if ok.Err? then Err(ok.error) else Err(SystemExit);
    }
    assert spec == CheckDataDirectory(fsys.State(), host, c);
    var dataDir := Get(c, "data_directory");
    if dataDir.Err? {
      return Err(dataDir.error);
    }
    ok := CheckDir(fsys, host, dataDir.value, true, [ReadOk], false);
    return Ok(());
  }

  // ---------------------------------------------------------------------
  // clean

  predicate Distinct<T(==)>(s: seq<T>) {
    forall i, j :: 0 <= i < j < |s| ==> s[i] != s[j]
  }

  function Reversed<T>(s: seq<T>): (r: seq<T>)
    ensures |r| == |s| && forall i :: 0 <= i < |s| ==> r[i] == s[|s| - 1 - i]
  {
    seq(|s|, i requires 0 <= i < |s| => s[|s| - 1 - i])
  }

  /** `osp.join(root, n)` for each name. */
  function JoinAll(root: Path, names: seq<string>): (r: seq<Path>)
    ensures |r| == |names| && forall i :: 0 <= i < |names| ==> r[i] == Join(root, names[i])
  {
    seq(|names|, i requires 0 <= i < |names| => Join(root, names[i]))
  }

  /** The files a walk lists, in walk order. */
  function WalkFiles(entries: seq<WalkEntry>): seq<Path> {
    if entries == [] then []
    else WalkFiles(entries[..|entries| - 1]) + JoinAll(entries[|entries| - 1].root, entries[|entries| - 1].files)
  }

  /** The directories a walk lists, in walk order: `rmdirs`. */
  function WalkDirs(entries: seq<WalkEntry>): seq<Path> {
    if entries == [] then []
    else WalkDirs(entries[..|entries| - 1]) + JoinAll(entries[|entries| - 1].root, entries[|entries| - 1].dirs)
  }

  /** `os.unlink` on each path in turn, stopping at the first failure. */
  function UnlinkAll(fs: Fs, ps: seq<Path>): Step<()> {
    if ps == [] then Step(fs, Ok(()))
    else
      var s := UnlinkAll(fs, ps[..|ps| - 1]);
      if s.result.Err? then s
      else
        match AfterUnlink(s.fs, ps[|ps| - 1])
        case Err(e) => Step(s.fs, Err(e))
        case Ok(fs1) => Step(fs1, Ok(()))
  }

  /** `os.rmdir` on each path in turn, stopping at the first failure. */
  function RmDirAll(fs: Fs, ps: seq<Path>): Step<()> {
    if ps == [] then Step(fs, Ok(()))
    else
      var s := RmDirAll(fs, ps[..|ps| - 1]);
      if s.result.Err? then s
      else
        match AfterRmDir(s.fs, ps[|ps| - 1])
        case Err(e) => Step(s.fs, Err(e))
        case Ok(fs1) => Step(fs1, Ok(()))
  }

  /** `clean(config)`, removing the queued directories in walk order
      (`bottomUp` false, as the module does) or in reverse. The build
      directory needs read and write access; the walk starts at its absolute
      path with a trailing slash. */
  function CleanOrdered(fs: Fs, host: Host, c: Config, bottomUp: bool): Step<()> {
    match Get(c, "build_directory")
    case Err(e) => Step(fs, Err(e))
    case Ok(buildDir) =>
      if CheckDirSpec(fs, host, buildDir, true, [WriteOk, ReadOk], false).result != Ok(true)
      then Step(fs, Err(SystemExit))
      else
        var entries := host.walk(fs, host.abspath(buildDir) + "/");
        var u := UnlinkAll(fs, WalkFiles(entries));
        if u.result.Err? then u
        else RmDirAll(u.fs, if bottomUp then Reversed(WalkDirs(entries)) else WalkDirs(entries))
  }

  /** `clean` as the module writes it: parents before children. */
  function CleanAsWritten(fs: Fs, host: Host, c: Config): Step<()> {
    CleanOrdered(fs, host, c, false)
  }

  /** `clean` with the queued directories removed deepest first. */
  function CleanSpec(fs: Fs, host: Host, c: Config): Step<()> {
    CleanOrdered(fs, host, c, true)
  }

  lemma {:induction false} UnlinkAllErrorSticks(fs: Fs, a: seq<Path>, b: seq<Path>)
    requires UnlinkAll(fs, a).result.Err?
    ensures UnlinkAll(fs, a + b) == UnlinkAll(fs, a)
    decreases |b|
  {
    if b == [] {
      assert a + b == a;
    } else {
      assert (a + b)[..|a + b| - 1] == a + b[..|b| - 1];
      UnlinkAllErrorSticks(fs, a, b[..|b| - 1]);
    }
  }

  /** Unlinking distinct existing files removes exactly them. */
  lemma {:induction false} UnlinkAllRemoves(fs: Fs, ps: seq<Path>)
    requires Distinct(ps) && forall p :: p in ps ==> p in fs.files
    ensures UnlinkAll(fs, ps) == Step(Fs(fs.files - (set p | p in ps), fs.dirs), Ok(()))
    decreases |ps|
  {
    if ps != [] {
      var init := ps[..|ps| - 1];
      var last := ps[|ps| - 1];
      assert Distinct(init);
      UnlinkAllRemoves(fs, init);
      assert last !in init;
      assert (set p | p in ps) == (set p | p in init) + {last};
      assert fs.files - (set p | p in ps) == (fs.files - (set p | p in init)) - {last};
    }
  }

  /** Unlinking never touches directories. */
  lemma {:induction false} UnlinkAllKeepsDirs(fs: Fs, ps: seq<Path>)
    ensures UnlinkAll(fs, ps).fs.dirs == fs.dirs
    decreases |ps|
  {
    if ps != [] {
      UnlinkAllKeepsDirs(fs, ps[..|ps| - 1]);
    }
  }

  /** Removing directories removes only the ones named, and no file. */
  lemma {:induction false} RmDirAllOnlyRemoves(fs: Fs, ps: seq<Path>)
    ensures RmDirAll(fs, ps).fs.files == fs.files
    ensures fs.dirs - (set p | p in ps) <= RmDirAll(fs, ps).fs.dirs
    decreases |ps|
  {
    if ps != [] {
      var init := ps[..|ps| - 1];
      RmDirAllOnlyRemoves(fs, init);
      assert (set p | p in init) <= (set p | p in ps);
    }
  }

  /** Each directory comes after every directory inside it. */
  predicate ChildFirst(fs: Fs, ds: seq<Path>) {
    forall i, q :: 0 <= i < |ds| && q in fs.dirs && q != ds[i] && Dirname(q) == ds[i] ==> q in ds[..i]
  }

  /** Each directory comes before every directory inside it, as in a
      top-down walk. */
  predicate ParentFirst(fs: Fs, ds: seq<Path>) {
    forall i, q :: 0 <= i < |ds| && q in fs.dirs && q != ds[i] && Dirname(q) == ds[i] ==> q in ds[i + 1..]
  }

  /** Directories that hold no file, removed children first, all go. */
  lemma {:induction false} RmDirAllChildFirst(fs: Fs, ds: seq<Path>)
    requires Distinct(ds) && (forall d :: d in ds ==> d in fs.dirs)
    requires forall p :: p in fs.files ==> Dirname(p) !in ds
    requires ChildFirst(fs, ds)
    ensures RmDirAll(fs, ds) == Step(Fs(fs.files, fs.dirs - (set d | d in ds)), Ok(()))
    decreases |ds|
  {
    if ds != [] {
      var init := ds[..|ds| - 1];
      var last := ds[|ds| - 1];
      ChildFirstPrefix(fs, ds);
      RmDirAllChildFirst(fs, init);
      LastIsEmpty(fs, ds);
      RmDirAllLastEmpty(fs, ds);
    }
  }

  /** The last removal of a run that emptied all the others. */
  lemma RmDirAllLastEmpty(fs: Fs, ds: seq<Path>)
    requires ds != []
    requires var init := ds[..|ds| - 1];
      var mid := Fs(fs.files, fs.dirs - (set d | d in init));
      RmDirAll(fs, init) == Step(mid, Ok(())) && ds[|ds| - 1] in mid.dirs && EmptyDir(mid, ds[|ds| - 1])
    ensures RmDirAll(fs, ds) == Step(Fs(fs.files, fs.dirs - (set d | d in ds)), Ok(()))
  {
    var init := ds[..|ds| - 1];
    var last := ds[|ds| - 1];
    var mid := Fs(fs.files, fs.dirs - (set d | d in init));
    assert AfterRmDir(mid, last) == Ok(Fs(fs.files, mid.dirs - {last}));
    assert RmDirAll(fs, ds) == Step(Fs(fs.files, mid.dirs - {last}), Ok(()));
    assert ds == init + [last];
    SetOfSnoc(init, last);
    assert mid.dirs - {last} == fs.dirs - (set d | d in ds);
  }

  lemma SetOfSnoc(init: seq<Path>, last: Path)
    ensures (set d | d in init + [last]) == (set d | d in init) + {last}
  {
  }

  lemma ChildFirstPrefix(fs: Fs, ds: seq<Path>)
    requires ds != [] && Distinct(ds) && (forall d :: d in ds ==> d in fs.dirs)
    requires forall p :: p in fs.files ==> Dirname(p) !in ds
    requires ChildFirst(fs, ds)
    ensures var init := ds[..|ds| - 1];
      Distinct(init) && (forall d :: d in init ==> d in fs.dirs) &&
      (forall p :: p in fs.files ==> Dirname(p) !in init) && ChildFirst(fs, init)
  {
    var init := ds[..|ds| - 1];
    forall i, q | 0 <= i < |init| && q in fs.dirs && q != init[i] && Dirname(q) == init[i]
      ensures q in init[..i]
    {
      assert init[i] == ds[i] && init[..i] == ds[..i];
    }
  }

  /** Once everything before it is gone, the last directory is empty and
      present. */
  lemma LastIsEmpty(fs: Fs, ds: seq<Path>)
    requires ds != [] && Distinct(ds) && (forall d :: d in ds ==> d in fs.dirs)
    requires forall p :: p in fs.files ==> Dirname(p) !in ds
    requires ChildFirst(fs, ds)
    ensures var init := ds[..|ds| - 1];
      var mid := Fs(fs.files, fs.dirs - (set d | d in init));
      ds[|ds| - 1] in mid.dirs && EmptyDir(mid, ds[|ds| - 1])
  {
    var init := ds[..|ds| - 1];
    var last := ds[|ds| - 1];
    var mid := Fs(fs.files, fs.dirs - (set d | d in init));
    assert last !in init;
    forall q | q in mid.dirs && q != last ensures Dirname(q) != last {
      assert q in fs.dirs && q !in init && ds[..|ds| - 1] == init;
      assert (q != last && Dirname(q) == last) ==> q in init;
    }
  }

  lemma ReversedChildFirst(fs: Fs, ds: seq<Path>)
    requires Distinct(ds) && ParentFirst(fs, ds)
    ensures Distinct(Reversed(ds)) && ChildFirst(fs, Reversed(ds))
    ensures forall d :: d in Reversed(ds) <==> d in ds
  {
    var rs := Reversed(ds);
    var n := |ds|;
    forall i, q | 0 <= i < n && q in fs.dirs && q != rs[i] && Dirname(q) == rs[i]
      ensures q in rs[..i]
    {
      var k := n - 1 - i;
      assert rs[i] == ds[k];
      assert q in ds[k + 1..];
      var m :| k + 1 <= m < n && ds[m] == q;
      assert rs[n - 1 - m] == q;
    }
    forall d | d in ds ensures d in rs {
      var k :| 0 <= k < n && ds[k] == d;
      assert rs[n - 1 - k] == d;
    }
  }

  /** A file or directory lies directly inside the walked root or inside a
      listed directory. */
  predicate Inside(root: Path, dirs: seq<Path>, p: Path) {
    Dirname(p) == root || Dirname(p) in dirs
  }

  /** What makes a walk's files faithful to the tree below `root`: they are
      distinct and present, and every file directly inside the root or a
      listed directory is listed. */
  predicate ListsFiles(fs: Fs, root: Path, files: seq<Path>, dirs: seq<Path>) {
    Distinct(files) && (forall p :: p in files ==> p in fs.files) &&
    (forall p :: p in fs.files && Inside(root, dirs, p) ==> p in files)
  }

  /** What makes a walk faithful to the tree below `root`: its files are
      (`ListsFiles`); its directories are distinct and present, every
      directory other than the root directly inside the root or a listed
      directory is listed, and parents come before children. */
  predicate ListsTree(fs: Fs, root: Path, files: seq<Path>, dirs: seq<Path>) {
    ListsFiles(fs, root, files, dirs) &&
    Distinct(dirs) && (forall d :: d in dirs ==> d in fs.dirs) &&
    (forall q :: q in fs.dirs && q != root && Inside(root, dirs, q) ==> q in dirs) &&
    ParentFirst(fs, dirs)
  }

  /** Without read and write access to the build directory, `clean` raises
      SystemExit before deleting anything. */
  lemma CleanRefusesUnusable(fs: Fs, host: Host, c: Config, bottomUp: bool)
    requires "build_directory" in c.properties
    requires CheckDirSpec(fs, host, c.properties["build_directory"], true, [WriteOk, ReadOk], false).result != Ok(true)
    ensures CleanOrdered(fs, host, c, bottomUp) == Step(fs, Err(SystemExit))
  {
  }

  /** Whatever the order of removal, `clean` first unlinks every file of a
      faithful walk: no file directly inside the build root or a listed
      directory survives, and every other file is kept. */
  lemma CleanUnlinksAll(fs: Fs, host: Host, c: Config, bottomUp: bool)
    requires "build_directory" in c.properties
    requires CheckDirSpec(fs, host, c.properties["build_directory"], true, [WriteOk, ReadOk], false).result == Ok(true)
    requires var root := host.abspath(c.properties["build_directory"]);
      var entries := host.walk(fs, root + "/");
      ListsFiles(fs, root, WalkFiles(entries), WalkDirs(entries))
    ensures var root := host.abspath(c.properties["build_directory"]);
      var entries := host.walk(fs, root + "/");
      var order := if bottomUp then Reversed(WalkDirs(entries)) else WalkDirs(entries);
      CleanOrdered(fs, host, c, bottomUp) ==
        RmDirAll(Fs(fs.files - (set p | p in WalkFiles(entries)), fs.dirs), order) &&
      CleanOrdered(fs, host, c, bottomUp).fs.files == fs.files - (set p | p in WalkFiles(entries)) &&
      forall p :: p in fs.files && Inside(root, WalkDirs(entries), p) ==> p !in CleanOrdered(fs, host, c, bottomUp).fs.files
  {
    var bd := c.properties["build_directory"];
    var root := host.abspath(bd);
    var entries := host.walk(fs, root + "/");
    var files := WalkFiles(entries);
    var order := if bottomUp then Reversed(WalkDirs(entries)) else WalkDirs(entries);
    assert Get(c, "build_directory") == Ok(bd);
    UnlinkAllRemoves(fs, files);
    var fs1 := Fs(fs.files - (set p | p in files), fs.dirs);
    assert CleanOrdered(fs, host, c, bottomUp) == RmDirAll(fs1, order);
    RmDirAllOnlyRemoves(fs1, order);
  }

  /** Given a faithful walk of the build tree, `clean` unlinks every listed
      file and removes every listed directory, and nothing else: no file
      and no directory other than the root directly inside the root or a
      removed directory is left. */
  lemma CleanRemovesTree(fs: Fs, host: Host, c: Config)
    requires "build_directory" in c.properties
    requires CheckDirSpec(fs, host, c.properties["build_directory"], true, [WriteOk, ReadOk], false).result == Ok(true)
    requires var root := host.abspath(c.properties["build_directory"]);
      var entries := host.walk(fs, root + "/");
      ListsTree(fs, root, WalkFiles(entries), WalkDirs(entries))
    ensures var root := host.abspath(c.properties["build_directory"]);
      var entries := host.walk(fs, root + "/");
      CleanSpec(fs, host, c) ==
        Step(Fs(fs.files - (set p | p in WalkFiles(entries)), fs.dirs - (set d | d in WalkDirs(entries))), Ok(()))
    ensures var root := host.abspath(c.properties["build_directory"]);
      var entries := host.walk(fs, root + "/");
      var after := CleanSpec(fs, host, c).fs;
      (forall p :: p in fs.files && Inside(root, WalkDirs(entries), p) ==> p !in after.files) &&
      (forall q :: q in fs.dirs && q != root && Inside(root, WalkDirs(entries), q) ==> q !in after.dirs)
  {
    var root := host.abspath(c.properties["build_directory"]);
    var entries := host.walk(fs, root + "/");
    var files := WalkFiles(entries);
    var dirs := WalkDirs(entries);
    CleanUnlinksAll(fs, host, c, true);
    UnlinkAllRemoves(fs, files);
    var fs1 := Fs(fs.files - (set p | p in files), fs.dirs);
    ReversedChildFirst(fs, dirs);
    var rs := Reversed(dirs);
    assert (set d | d in rs) == (set d | d in dirs);
    RmDirAllChildFirst(fs1, rs);
  }

  /** Every directory a walk from `top` lists lies strictly below `top`,
      provided it yields roots under `top` and plain directory names. */
  predicate WalkUnder(entries: seq<WalkEntry>, top: Path) {
    forall e :: e in entries ==> StartsWith(e.root, top) && forall d :: d in e.dirs ==> d != [] && '/' !in d
  }

  lemma {:induction false} WalkDirsBelow(entries: seq<WalkEntry>, top: Path)
    requires WalkUnder(entries, top)
    ensures forall p :: p in WalkDirs(entries) ==> StartsWith(p, top) && |p| > |top|
    decreases |entries|
  {
    if entries != [] {
      var init := entries[..|entries| - 1];
      var e := entries[|entries| - 1];
      assert WalkUnder(init, top) by {
        forall x | x in init ensures x in entries {
        }
      }
      WalkDirsBelow(init, top);
      forall i | 0 <= i < |e.dirs| ensures StartsWith(Join(e.root, e.dirs[i]), top) && |Join(e.root, e.dirs[i])| > |top| {
        var d := e.dirs[i];
        assert d in e.dirs;
        assert d[0] != '/';
        JoinKeepsPrefix(e.root, d, top);
      }
    }
  }

  /** When the walk lists only what is below the build directory, `clean`
      never removes the build directory itself, in either order. */
  lemma CleanKeepsRoot(fs: Fs, host: Host, c: Config, bottomUp: bool)
    requires "build_directory" in c.properties
    requires var top := host.abspath(c.properties["build_directory"]) + "/";
      WalkUnder(host.walk(fs, top), top)
    ensures var root := host.abspath(c.properties["build_directory"]);
      root in fs.dirs ==> root in CleanOrdered(fs, host, c, bottomUp).fs.dirs
  {
    var bd := c.properties["build_directory"];
    var root := host.abspath(bd);
    var top := root + "/";
    assert Get(c, "build_directory") == Ok(bd);
    if CheckDirSpec(fs, host, bd, true, [WriteOk, ReadOk], false).result == Ok(true) {
      var entries := host.walk(fs, top);
      var dirs := WalkDirs(entries);
      var u := UnlinkAll(fs, WalkFiles(entries));
      var order := if bottomUp then Reversed(dirs) else dirs;
      assert CleanOrdered(fs, host, c, bottomUp) == if u.result.Err? then u else RmDirAll(u.fs, order);
      UnlinkAllKeepsDirs(fs, WalkFiles(entries));
      if u.result.Ok? {
        WalkDirsBelow(entries, top);
        assert root !in dirs;
        assert root !in order;
        RmDirAllOnlyRemoves(u.fs, order);
      }
    }
  }

  /** The tree of the counterexample: `/b` holds `a`, which holds `c`. */
  const NestedTree: Fs := Fs(map[], {"/b", "/b/a", "/b/a/c"})
  const NestedWalk: seq<WalkEntry> := [WalkEntry("/b/", ["a"], []), WalkEntry("/b/a", ["c"], []), WalkEntry("/b/a/c", [], [])]

  lemma NestedDirnames()
    ensures Dirname("/b/a/c") == "/b/a" && Dirname("/b/a") == "/b" && Dirname("/b") == "/"
  {
    assert RFind("/b/a/c", '/') == 4 by { RFindIs("/b/a/c", '/', 4); }
    assert "/b/a/c"[..5] == "/b/a/";
    assert RStripSlashes("/b/a/") == "/b/a";
    assert RFind("/b/a", '/') == 2 by { RFindIs("/b/a", '/', 2); }
    assert "/b/a"[..3] == "/b/";
    assert RStripSlashes("/b/") == "/b";
    assert RFind("/b", '/') == 0 by { RFindIs("/b", '/', 0); }
    assert "/b"[..1] == "/";
  }

  lemma NestedJoins()
    ensures Join("/b/", "a") == "/b/a" && Join("/b/a", "c") == "/b/a/c"
  {
    assert "a"[0] == 'a' && "c"[0] == 'c';
    assert "/b/"[2..] == "/";
    assert "/b/a"[3..] != "/";
  }

  lemma NestedWalkLists()
    ensures WalkFiles(NestedWalk) == []
    ensures WalkDirs(NestedWalk) == ["/b/a", "/b/a/c"]
  {
    var e0 := WalkEntry("/b/", ["a"], []);
    var e1 := WalkEntry("/b/a", ["c"], []);
    var e2 := WalkEntry("/b/a/c", [], []);
    NestedWalkTwo(e0, e1);
    WalkSnoc([e0, e1], e2);
    assert [e0, e1] + [e2] == NestedWalk;
  }

  /** The first two entries of the counterexample walk. */
  lemma NestedWalkTwo(e0: WalkEntry, e1: WalkEntry)
    requires e0 == WalkEntry("/b/", ["a"], []) && e1 == WalkEntry("/b/a", ["c"], [])
    ensures WalkFiles([e0, e1]) == []
    ensures WalkDirs([e0, e1]) == ["/b/a", "/b/a/c"]
  {
    NestedJoins();
    assert JoinAll("/b/", ["a"]) == ["/b/a"];
    assert JoinAll("/b/a", ["c"]) == ["/b/a/c"];
    WalkSnoc([], e0);
    assert [] + [e0] == [e0];
    WalkSnoc([e0], e1);
    assert [e0] + [e1] == [e0, e1];
  }

  /** One more walk entry appends its files and directories. */
  lemma WalkSnoc(entries: seq<WalkEntry>, e: WalkEntry)
    ensures WalkFiles(entries + [e]) == WalkFiles(entries) + JoinAll(e.root, e.files)
    ensures WalkDirs(entries + [e]) == WalkDirs(entries) + JoinAll(e.root, e.dirs)
  {
    assert (entries + [e])[..|entries|] == entries;
  }

  /** A host whose build directory `/b` is the counterexample tree. */
  predicate NestedHost(host: Host, c: Config) {
    c.properties == map["build_directory" := "/b"] &&
    host.abspath("/b") == "/b" && host.access("/b", WriteOk) && host.access("/b", ReadOk) &&
    host.walk(NestedTree, "/b/") == NestedWalk
  }

  lemma NestedCheckPasses(host: Host, c: Config)
    requires NestedHost(host, c)
    ensures CheckDirSpec(NestedTree, host, "/b", true, [WriteOk, ReadOk], false) == Step(NestedTree, Ok(true))
  {
    CheckDirCases(NestedTree, host, "/b", true, [WriteOk, ReadOk], false);
  }

  /** On the counterexample both orders reduce to removing the two queued
      directories. */
  lemma NestedClean(host: Host, c: Config, bottomUp: bool)
    requires NestedHost(host, c)
    ensures CleanOrdered(NestedTree, host, c, bottomUp) ==
      RmDirAll(NestedTree, if bottomUp then Reversed(["/b/a", "/b/a/c"]) else ["/b/a", "/b/a/c"])
  {
    assert Get(c, "build_directory") == Ok("/b");
    NestedCheckPasses(host, c);
    assert "/b" + "/" == "/b/";
    NestedWalkLists();
    assert UnlinkAll(NestedTree, []) == Step(NestedTree, Ok(()));
  }

  lemma TopDownRemoval()
    ensures RmDirAll(NestedTree, ["/b/a", "/b/a/c"]) == Step(NestedTree, Err(OSError))
  {
    NestedDirnames();
    assert ["/b/a", "/b/a/c"][..1] == ["/b/a"] && ["/b/a"][..0] == [];
    assert "/b/a/c" in NestedTree.dirs && Dirname("/b/a/c") == "/b/a";
    assert !EmptyDir(NestedTree, "/b/a");
  }

  lemma ChildFirstRemoval()
    ensures RmDirAll(NestedTree, ["/b/a/c", "/b/a"]) == Step(Fs(map[], {"/b"}), Ok(()))
  {
    var mid := Fs(map[], {"/b", "/b/a"});
    assert ["/b/a/c", "/b/a"][..1] == ["/b/a/c"];
    LeafRemoval();
    NestedDirnames();
    assert EmptyDir(mid, "/b/a");
    assert mid.dirs - {"/b/a"} == {"/b"};
    assert AfterRmDir(mid, "/b/a") == Ok(Fs(map[], {"/b"}));
  }

  /** The first step of the deepest-first order: `/b/a/c` is empty. */
  lemma LeafRemoval()
    ensures RmDirAll(NestedTree, ["/b/a/c"]) == Step(Fs(map[], {"/b", "/b/a"}), Ok(()))
  {
    assert ["/b/a/c"][..0] == [];
    forall q | q in NestedTree.dirs && q != "/b/a/c" ensures Dirname(q) != "/b/a/c" {
      assert |q| < |"/b/a/c"|;
    }
    assert EmptyDir(NestedTree, "/b/a/c");
    assert NestedTree.dirs - {"/b/a/c"} == {"/b", "/b/a"};
    assert AfterRmDir(NestedTree, "/b/a/c") == Ok(Fs(map[], {"/b", "/b/a"}));
  }

  /** As written, `clean` on a build tree two directories deep raises
      OSError: it tries `/b/a` while `/b/a/c` is still inside it. */
  lemma CleanAsWrittenFailsOnNesting(host: Host, c: Config)
    requires NestedHost(host, c)
    ensures CleanAsWritten(NestedTree, host, c) == Step(NestedTree, Err(OSError))
  {
    NestedClean(host, c, false);
    TopDownRemoval();
  }

  /** Deepest first, the same tree is emptied and `/b` stays. */
  lemma CleanEmptiesNesting(host: Host, c: Config)
    requires NestedHost(host, c)
    ensures CleanSpec(NestedTree, host, c) == Step(Fs(map[], {"/b"}), Ok(()))
  {
    NestedClean(host, c, true);
    assert Reversed(["/b/a", "/b/a/c"]) == ["/b/a/c", "/b/a"];
    ChildFirstRemoval();
  }

  /** Unlinking a list in two parts: the second part runs on what the first
      left, unless the first failed. */
  lemma {:induction false} UnlinkAllAppend(fs: Fs, a: seq<Path>, b: seq<Path>)
    ensures UnlinkAll(fs, a + b) ==
      if UnlinkAll(fs, a).result.Err? then UnlinkAll(fs, a) else UnlinkAll(UnlinkAll(fs, a).fs, b)
    decreases |b|
  {
    if b == [] {
      assert a + b == a;
    } else {
      assert (a + b)[..|a + b| - 1] == a + b[..|b| - 1];
      UnlinkAllAppend(fs, a, b[..|b| - 1]);
    }
  }

  lemma {:induction false} RmDirAllAppend(fs: Fs, a: seq<Path>, b: seq<Path>)
    ensures RmDirAll(fs, a + b) ==
      if RmDirAll(fs, a).result.Err? then RmDirAll(fs, a) else RmDirAll(RmDirAll(fs, a).fs, b)
    decreases |b|
  {
    if b == [] {
      assert a + b == a;
    } else {
      assert (a + b)[..|a + b| - 1] == a + b[..|b| - 1];
      RmDirAllAppend(fs, a, b[..|b| - 1]);
    }
  }

  /** A failure while unlinking the files of entry `i` is the failure of
      the whole unlinking. */
  lemma {:induction false} UnlinkErrorAcrossEntries(fs: Fs, entries: seq<WalkEntry>, i: nat)
    requires i < |entries|
    requires UnlinkAll(fs, WalkFiles(entries[..i + 1])).result.Err?
    ensures UnlinkAll(fs, WalkFiles(entries)) == UnlinkAll(fs, WalkFiles(entries[..i + 1]))
    decreases |entries|
  {
    if i + 1 == |entries| {
      assert entries[..i + 1] == entries;
    } else {
      var init := entries[..|entries| - 1];
      assert init[..i + 1] == entries[..i + 1];
      UnlinkErrorAcrossEntries(fs, init, i);
      var e := entries[|entries| - 1];
      UnlinkAllAppend(fs, WalkFiles(init), JoinAll(e.root, e.files));
    }
  }

  lemma JoinAllSnoc(root: Path, names: seq<string>, j: nat)
    requires j < |names|
    ensures JoinAll(root, names[..j + 1]) == JoinAll(root, names[..j]) + [Join(root, names[j])]
  {
  }

  lemma UnlinkAllSnoc(fs: Fs, a: seq<Path>, x: Path)
    requires UnlinkAll(fs, a).result.Ok?
    ensures UnlinkAll(fs, a + [x]) ==
      match AfterUnlink(UnlinkAll(fs, a).fs, x)
      case Err(e) => Step(UnlinkAll(fs, a).fs, Err(e))
      case Ok(fs1) => Step(fs1, Ok(()))
  {
    assert (a + [x])[..|a|] == a;
  }

  lemma {:induction false} UnlinkNamesError(fs: Fs, root: Path, names: seq<string>, j: nat)
    requires j < |names|
    requires UnlinkAll(fs, JoinAll(root, names[..j + 1])).result.Err?
    ensures UnlinkAll(fs, JoinAll(root, names)) == UnlinkAll(fs, JoinAll(root, names[..j + 1]))
  {
    JoinAllSplit(root, names, j + 1);
    UnlinkAllErrorSticks(fs, JoinAll(root, names[..j + 1]), JoinAll(root, names[j + 1..]));
  }

  lemma JoinAllSplit(root: Path, names: seq<string>, k: nat)
    requires k <= |names|
    ensures JoinAll(root, names[..k]) + JoinAll(root, names[k..]) == JoinAll(root, names)
  {
    var a := JoinAll(root, names[..k]);
    var b := JoinAll(root, names[k..]);
    forall i | 0 <= i < |names| ensures (a + b)[i] == JoinAll(root, names)[i] {
      if i < k {
        assert names[..k][i] == names[i];
      } else {
        assert names[k..][i - k] == names[i];
      }
    }
  }

  /** The inner loop of `clean`: unlink the files of one walk entry. */
  method UnlinkEntry(fsys: FileSystem, root: Path, names: seq<string>) returns (r: Result<()>)
    modifies fsys
    ensures Step(fsys.State(), r) == UnlinkAll(old(fsys.State()), JoinAll(root, names))
  {
    ghost var fs0 := fsys.State();
    for j := 0 to |names|
      invariant Step(fsys.State(), Ok(())) == UnlinkAll(fs0, JoinAll(root, names[..j]))
    {
      var fp := Join(root, names[j]);
      JoinAllSnoc(root, names, j);
      UnlinkAllSnoc(fs0, JoinAll(root, names[..j]), fp);
      var unlinked := fsys.Unlink(fp);
      if unlinked.Err? {
        UnlinkNamesError(fs0, root, names, j);
        return Err(unlinked.error);
      }
    }
    assert names[..|names|] == names;
    return Ok(());
  }

  /** The final loop of `clean`: remove the directories in the order given. */
  method RemoveDirs(fsys: FileSystem, ds: seq<Path>) returns (r: Result<()>)
    modifies fsys
    ensures Step(fsys.State(), r) == RmDirAll(old(fsys.State()), ds)
  {
    ghost var fs0 := fsys.State();
    for k := 0 to |ds|
      invariant Step(fsys.State(), Ok(())) == RmDirAll(fs0, ds[..k])
    {
      assert ds[..k + 1][..k] == ds[..k];
      var removed := fsys.RmDir(ds[k]);
      if removed.Err? {
        RmDirAllAppend(fs0, ds[..k + 1], ds[k + 1..]);
        assert ds[..k + 1] + ds[k + 1..] == ds;
        return Err(removed.error);
      }
    }
    assert ds[..|ds|] == ds;
    return Ok(());
  }

  /** `clean(config)`, removing the queued directories deepest first. */
  method Clean(fsys: FileSystem, host: Host, c: Config) returns (r: Result<()>)
    modifies fsys
    ensures Step(fsys.State(), r) == CleanSpec(old(fsys.State()), host, c)
  {
    var rmdirs: seq<Path> := [];
    var buildDir := Get(c, "build_directory");
    if buildDir.Err? {
      return Err(buildDir.error);
    }
    CheckDirOnlyMakesDirs(fsys.State(), host, buildDir.value, true, [WriteOk, ReadOk], false);
    var usable := CheckDir(fsys, host, buildDir.value, true, [WriteOk, ReadOk], false);
    if usable != Ok(true) {
      return Err(SystemExit);
    }
    ghost var fs0 := fsys.State();
    var entries := host.walk(fsys.State(), host.abspath(buildDir.value) + "/");
    for i := 0 to |entries|
      invariant Step(fsys.State(), Ok(())) == UnlinkAll(fs0, WalkFiles(entries[..i]))
      invariant rmdirs == WalkDirs(entries[..i])
    {
      var e := entries[i];
      assert entries[..i + 1][..i] == entries[..i];
      UnlinkAllAppend(fs0, WalkFiles(entries[..i]), JoinAll(e.root, e.files));
      var unlinked := UnlinkEntry(fsys, e.root, e.files);
      if unlinked.Err? {
        UnlinkErrorAcrossEntries(fs0, entries, i);
        return Err(unlinked.error);
      }
      rmdirs := rmdirs + JoinAll(e.root, e.dirs);
    }
    assert entries[..|entries|] == entries;
    r := RemoveDirs(fsys, Reversed(rmdirs));
  }

  // ---------------------------------------------------------------------
  // build

  /** A call `build` makes to `build_file` or `build_data`. */
  datatype Call = BuildFileCall(src: Path, dest: Path) | BuildDataCall(src: Path, dest: Path)

  /** The builder table, the file system, the outcome and the calls made,
      after `build` or the part of it that ran. */
  datatype Run = Run(table: Table, fs: Fs, result: Result<()>, calls: seq<Call>)

  /** `abspath` applied `n` times: the loop reassigns `root` to its absolute
      path once per file. */
  function AbsIter(host: Host, root: Path, n: nat): Path {
    if n == 0 then root else host.abspath(AbsIter(host, root, n - 1))
  }

  /** The files of one walk entry, as source path and bare name. */
  function EntrySources(host: Host, root: Path, names: seq<string>): (r: seq<(Path, string)>)
    ensures |r| == |names|
  {
    seq(|names|, i requires 0 <= i < |names| => (Join(AbsIter(host, root, i + 1), names[i]), names[i]))
  }

  /** The `i`-th file of an entry is joined to `root` made absolute `i + 1`
      times. */
  lemma EntrySourceAt(host: Host, root: Path, names: seq<string>, i: nat)
    requires i < |names|
    ensures EntrySources(host, root, names)[i] == (Join(AbsIter(host, root, i + 1), names[i]), names[i])
  {
  }

  /** Every file of the walk, in walk order. */
  function WalkSources(host: Host, entries: seq<WalkEntry>): seq<(Path, string)> {
    if entries == [] then []
    else WalkSources(host, entries[..|entries| - 1]) +
         EntrySources(host, entries[|entries| - 1].root, entries[|entries| - 1].files)
  }

  /** The body of the walk loop for one file: build it into the build
      directory, and for a page its data into the build data directory. */
  function BuildItem(t: Table, fs: Fs, calls: seq<Call>, host: Host, c: Config, srcDir: Path, buildDir: Path,
                     dataDir: Path, item: (Path, string)): Run
  {
    var src := item.0;
    match host.reroot(src, srcDir, buildDir)
    case None => Run(t, fs, Err(RerootError), calls)
    case Some(dest) =>
      AfterBuildFile(BuildFileSpec(t, fs, host, c, src, dest), calls + [BuildFileCall(src, dest)],
                     host, srcDir, dataDir, item)
  }

  /** The rest of one iteration once `build_file` returned `built`: a page
      also goes through `build_data`. */
  function AfterBuildFile(built: (Table, Step<Path>), calls: seq<Call>, host: Host, srcDir: Path, dataDir: Path,
                          item: (Path, string)): Run
  {
    var (t1, s1) := built;
    if s1.result.Err? then Run(t1, s1.fs, Err(s1.result.error), calls)
    else if !EndsWith(item.1, ".html") then Run(t1, s1.fs, Ok(()), calls)
    else
      match host.reroot(item.0, srcDir, dataDir)
      case None => Run(t1, s1.fs, Err(RerootError), calls)
      case Some(dataDest) =>
        var s2 := host.buildData(s1.fs, item.0, dataDest);
        Run(t1, s2.fs, s2.result, calls + [BuildDataCall(item.0, dataDest)])
  }

  /** The walk loop over `items`, stopping at the first exception. */
  function BuildItems(r: Run, host: Host, c: Config, srcDir: Path, buildDir: Path, dataDir: Path,
                      items: seq<(Path, string)>): Run
  {
    if items == [] then r
    else
      var prev := BuildItems(r, host, c, srcDir, buildDir, dataDir, items[..|items| - 1]);
      if prev.result.Err? then prev
      else BuildItem(prev.table, prev.fs, prev.calls, host, c, srcDir, buildDir, dataDir, items[|items| - 1])
  }

  /** The global data file, handled once after the walk. */
  function BuildGlobal(t: Table, fs: Fs, calls: seq<Call>, host: Host, c: Config, dataDir: Path): Run {
    match Get(c, "data_directory")
    case Err(e) => Run(t, fs, Err(e), calls)
    case Ok(dataDirectory) =>
      match Get(c, "base_context_filename")
      case Err(e) => Run(t, fs, Err(e), calls)
      case Ok(name) =>
        var global := Join(dataDirectory, name);
        match host.reroot(global, dataDirectory, dataDir)
        case None => Run(t, fs, Err(RerootError), calls)
        case Some(globalDest) =>
          var s := host.buildData(fs, global, globalDest);
          Run(t, s.fs, s.result, calls + [BuildDataCall(global, globalDest)])
  }

  /** `build(config)` once `sanity_check` has passed. */
  function BuildAfterSanity(t: Table, fs: Fs, host: Host, c: Config): Run {
    match Get(c, "src_directory")
    case Err(e) => Run(t, fs, Err(e), [])
    case Ok(srcDirectory) =>
      match Get(c, "build_directory")
      case Err(e) => Run(t, fs, Err(e), [])
      case Ok(buildDirectory) =>
        match Get(c, "build_data_directory")
        case Err(e) => Run(t, fs, Err(e), [])
        case Ok(dataBuildDirectory) =>
          var items := WalkSources(host, host.walk(fs, srcDirectory));
          var w := BuildItems(Run(t, fs, Ok(()), []), host, c, host.abspath(srcDirectory),
                              host.abspath(buildDirectory), host.abspath(dataBuildDirectory), items);
          if w.result.Err? then w else BuildGlobal(w.table, w.fs, w.calls, host, c, host.abspath(dataBuildDirectory))
  }

  /** `build(config)` */
  function BuildSpec(t: Table, fs: Fs, host: Host, c: Config): Run {
    var s := SanityCheckSpec(fs, host, c);
    if s.result.Err? then Run(t, s.fs, Err(s.result.error), [])
    else BuildAfterSanity(t, s.fs, host, c)
  }

  /** The sources handed to `build_file`, and to `build_data`, in order. */
  function FileCallSources(calls: seq<Call>): seq<Path> {
    if calls == [] then []
    else FileCallSources(calls[..|calls| - 1]) +
         (if calls[|calls| - 1].BuildFileCall? then [calls[|calls| - 1].src] else [])
  }

  function DataCallSources(calls: seq<Call>): seq<Path> {
    if calls == [] then []
    else DataCallSources(calls[..|calls| - 1]) +
         (if calls[|calls| - 1].BuildDataCall? then [calls[|calls| - 1].src] else [])
  }

  /** The walked sources, and those whose name ends in `.html`. */
  function Sources(items: seq<(Path, string)>): seq<Path> {
    if items == [] then [] else Sources(items[..|items| - 1]) + [items[|items| - 1].0]
  }

  function PageSources(items: seq<(Path, string)>): seq<Path> {
    if items == [] then []
    else PageSources(items[..|items| - 1]) +
         (if EndsWith(items[|items| - 1].1, ".html") then [items[|items| - 1].0] else [])
  }

  lemma CallSourcesSnoc(calls: seq<Call>, x: Call)
    ensures FileCallSources(calls + [x]) == FileCallSources(calls) + (if x.BuildFileCall? then [x.src] else [])
    ensures DataCallSources(calls + [x]) == DataCallSources(calls) + (if x.BuildDataCall? then [x.src] else [])
  {
    assert (calls + [x])[..|calls|] == calls;
  }

  /** One file: on success `build_file` was called on it, and `build_data`
      too exactly when its name ends in `.html`. */
  lemma BuildItemCalls(t: Table, fs: Fs, calls: seq<Call>, host: Host, c: Config, srcDir: Path, buildDir: Path,
                       dataDir: Path, item: (Path, string))
    ensures var w := BuildItem(t, fs, calls, host, c, srcDir, buildDir, dataDir, item);
      w.result.Ok? ==>
        FileCallSources(w.calls) == FileCallSources(calls) + [item.0] &&
        DataCallSources(w.calls) == DataCallSources(calls) + (if EndsWith(item.1, ".html") then [item.0] else [])
  {
    match host.reroot(item.0, srcDir, buildDir)
    case None =>
    case Some(dest) =>
      CallSourcesSnoc(calls, BuildFileCall(item.0, dest));
      AfterBuildFileCalls(BuildFileSpec(t, fs, host, c, item.0, dest), calls + [BuildFileCall(item.0, dest)],
                          host, srcDir, dataDir, item);
  }

  lemma AfterBuildFileCalls(built: (Table, Step<Path>), calls: seq<Call>, host: Host, srcDir: Path, dataDir: Path,
                            item: (Path, string))
    ensures var w := AfterBuildFile(built, calls, host, srcDir, dataDir, item);
      w.result.Ok? ==>
        FileCallSources(w.calls) == FileCallSources(calls) &&
        DataCallSources(w.calls) == DataCallSources(calls) + (if EndsWith(item.1, ".html") then [item.0] else [])
  {
    match host.reroot(item.0, srcDir, dataDir)
    case None =>
    case Some(dataDest) =>
      CallSourcesSnoc(calls, BuildDataCall(item.0, dataDest));
  }

  /** The walk: on success every walked file went through `build_file`, in
      walk order, and exactly the pages through `build_data`. */
  lemma {:induction false} BuildItemsCalls(r: Run, host: Host, c: Config, srcDir: Path, buildDir: Path,
                                           dataDir: Path, items: seq<(Path, string)>)
    ensures var w := BuildItems(r, host, c, srcDir, buildDir, dataDir, items);
      w.result.Ok? ==>
        FileCallSources(w.calls) == FileCallSources(r.calls) + Sources(items) &&
        DataCallSources(w.calls) == DataCallSources(r.calls) + PageSources(items)
    decreases |items|
  {
    if items != [] {
      var init := items[..|items| - 1];
      var last := items[|items| - 1];
      BuildItemsCalls(r, host, c, srcDir, buildDir, dataDir, init);
      var prev := BuildItems(r, host, c, srcDir, buildDir, dataDir, init);
      if prev.result.Ok? {
        BuildItemCalls(prev.table, prev.fs, prev.calls, host, c, srcDir, buildDir, dataDir, last);
        assert BuildItems(r, host, c, srcDir, buildDir, dataDir, items) ==
               BuildItem(prev.table, prev.fs, prev.calls, host, c, srcDir, buildDir, dataDir, last);
        assert Sources(items) == Sources(init) + [last.0];
        assert PageSources(items) == PageSources(init) + (if EndsWith(last.1, ".html") then [last.0] else []);
      }
    }
  }

  /** `build` runs `sanity_check` first: when it fails nothing is built. */
  lemma BuildChecksFirst(t: Table, fs: Fs, host: Host, c: Config)
    requires SanityCheckSpec(fs, host, c).result.Err?
    ensures BuildSpec(t, fs, host, c) ==
      Run(t, SanityCheckSpec(fs, host, c).fs, SanityCheckSpec(fs, host, c).result, [])
  {
  }

  /** A successful `build` sent every walked file through `build_file` in
      walk order, called `build_data` for the pages only, and then exactly
      once for the global data file. */
  lemma BuildCallsInOrder(t: Table, fs: Fs, host: Host, c: Config)
    requires BuildSpec(t, fs, host, c).result.Ok?
    ensures "src_directory" in c.properties && "data_directory" in c.properties
    ensures "base_context_filename" in c.properties
    ensures var fs1 := SanityCheckSpec(fs, host, c).fs;
      var items := WalkSources(host, host.walk(fs1, c.properties["src_directory"]));
      var calls := BuildSpec(t, fs, host, c).calls;
      var global := Join(c.properties["data_directory"], c.properties["base_context_filename"]);
      FileCallSources(calls) == Sources(items) &&
      DataCallSources(calls) == PageSources(items) + [global] &&
      |calls| > 0 && calls[|calls| - 1].BuildDataCall? && calls[|calls| - 1].src == global
  {
    var fs1 := SanityCheckSpec(fs, host, c).fs;
    var sd := c.properties["src_directory"];
    var items := WalkSources(host, host.walk(fs1, sd));
    var r0 := Run(t, fs1, Ok(()), []);
    var srcDir := host.abspath(sd);
    var buildDir := host.abspath(c.properties["build_directory"]);
    var dataDir := host.abspath(c.properties["build_data_directory"]);
    BuildItemsCalls(r0, host, c, srcDir, buildDir, dataDir, items);
    var w := BuildItems(r0, host, c, srcDir, buildDir, dataDir, items);
    var global := Join(c.properties["data_directory"], c.properties["base_context_filename"]);
    var gd := host.reroot(global, c.properties["data_directory"], dataDir).value;
    CallSourcesSnoc(w.calls, BuildDataCall(global, gd));
  }

  /** Every configuration `read_config` returns makes `build` fail in
      `sanity_check`, before any file is built. */
  lemma ReadConfigBuildsNothing(fs0: Fs, t: Table, fs: Fs, host: Host, fname: Option<string>, c: Config)
    requires ReadConfigSpec(fs0, host, fname).Ok? && ReadConfigSpec(fs0, host, fname).value.0 == c
    ensures BuildSpec(t, fs, host, c).result.Err?
    ensures BuildSpec(t, fs, host, c).calls == []
  {
    ReadConfigFailsSanityCheck(fs0, fs, host, fname, c);
  }

  lemma {:induction false} BuildItemsAppend(r: Run, host: Host, c: Config, srcDir: Path, buildDir: Path,
                                            dataDir: Path, a: seq<(Path, string)>, b: seq<(Path, string)>)
    ensures BuildItems(r, host, c, srcDir, buildDir, dataDir, a + b) ==
      var p := BuildItems(r, host, c, srcDir, buildDir, dataDir, a);
      if p.result.Err? then p else BuildItems(p, host, c, srcDir, buildDir, dataDir, b)
    decreases |b|
  {
    if b == [] {
      assert a + b == a;
    } else {
      assert (a + b)[..|a + b| - 1] == a + b[..|b| - 1];
      BuildItemsAppend(r, host, c, srcDir, buildDir, dataDir, a, b[..|b| - 1]);
    }
  }

  /** One file of the walk loop, on the registry and the file system. */
  method BuildOne(reg: Registry, fsys: FileSystem, host: Host, c: Config, srcDir: Path, buildDir: Path,
                  dataDir: Path, src: Path, name: string, calls0: seq<Call>)
    returns (r: Result<()>, calls: seq<Call>)
    modifies reg, fsys
    ensures Run(reg.builders, fsys.State(), r, calls) ==
      BuildItem(old(reg.builders), old(fsys.State()), calls0, host, c, srcDir, buildDir, dataDir, (src, name))
  {
    calls := calls0;
    var dest := host.reroot(src, srcDir, buildDir);
    if dest.None? {
      return Err(RerootError), calls;
    }
    var built := reg.BuildFile(fsys, host, c, src, dest.value);
    calls := calls + [BuildFileCall(src, dest.value)];
    if built.Err? {
      return Err(built.error), calls;
    }
    if EndsWith(name, ".html") {
      var dataDest := host.reroot(src, srcDir, dataDir);
      if dataDest.None? {
        return Err(RerootError), calls;
      }
      var s := host.buildData(fsys.State(), src, dataDest.value);
      fsys.Replace(s.fs);
      calls := calls + [BuildDataCall(src, dataDest.value)];
      return s.result, calls;
    }
    return Ok(()), calls;
  }

  lemma BuildItemsStep(r: Run, host: Host, c: Config, srcDir: Path, buildDir: Path, dataDir: Path,
                       items: seq<(Path, string)>, j: nat, prev: Run)
    requires j < |items|
    requires prev == BuildItems(r, host, c, srcDir, buildDir, dataDir, items[..j]) && prev.result.Ok?
    ensures BuildItems(r, host, c, srcDir, buildDir, dataDir, items[..j + 1]) ==
            BuildItem(prev.table, prev.fs, prev.calls, host, c, srcDir, buildDir, dataDir, items[j])
  {
    assert items[..j + 1][..j] == items[..j];
  }

  lemma BuildItemsStops(r: Run, host: Host, c: Config, srcDir: Path, buildDir: Path, dataDir: Path,
                        items: seq<(Path, string)>, j: nat)
    requires j < |items|
    requires BuildItems(r, host, c, srcDir, buildDir, dataDir, items[..j + 1]).result.Err?
    ensures BuildItems(r, host, c, srcDir, buildDir, dataDir, items) ==
            BuildItems(r, host, c, srcDir, buildDir, dataDir, items[..j + 1])
  {
    BuildItemsAppend(r, host, c, srcDir, buildDir, dataDir, items[..j + 1], items[j + 1..]);
    assert items[..j + 1] + items[j + 1..] == items;
  }

  /** The inner walk loop: the files of one entry. */
  method BuildEntry(reg: Registry, fsys: FileSystem, host: Host, c: Config, srcDir: Path, buildDir: Path,
                    dataDir: Path, entryRoot: Path, names: seq<string>, r0: Result<()>, calls0: seq<Call>)
    returns (r: Result<()>, calls: seq<Call>)
    requires r0.Ok?
    modifies reg, fsys
    ensures Run(reg.builders, fsys.State(), r, calls) ==
      BuildItems(Run(old(reg.builders), old(fsys.State()), r0, calls0), host, c, srcDir, buildDir, dataDir,
                 EntrySources(host, entryRoot, names))
  {
    ghost var start := Run(reg.builders, fsys.State(), r0, calls0);
    ghost var items := EntrySources(host, entryRoot, names);
    assert items[..0] == [];
    r, calls := r0, calls0;
    var root := entryRoot;
    for j := 0 to |names|
      invariant root == AbsIter(host, entryRoot, j)
      invariant r.Ok? && Run(reg.builders, fsys.State(), r, calls) ==
        BuildItems(start, host, c, srcDir, buildDir, dataDir, items[..j])
    {
      root := host.abspath(root);
      var src := Join(root, names[j]);
      EntrySourceAt(host, entryRoot, names, j);
      BuildItemsStep(start, host, c, srcDir, buildDir, dataDir, items, j, Run(reg.builders, fsys.State(), r, calls));
      r, calls := BuildOne(reg, fsys, host, c, srcDir, buildDir, dataDir, src, names[j], calls);
      if r.Err? {
        BuildItemsStops(start, host, c, srcDir, buildDir, dataDir, items, j);
        return;
      }
    }
    assert items[..|names|] == items;
  }

  lemma {:induction false} WalkSourcesAppend(host: Host, a: seq<WalkEntry>, b: seq<WalkEntry>)
    ensures WalkSources(host, a + b) == WalkSources(host, a) + WalkSources(host, b)
    decreases |b|
  {
    if b == [] {
      assert a + b == a;
    } else {
      assert (a + b)[..|a + b| - 1] == a + b[..|b| - 1];
      WalkSourcesAppend(host, a, b[..|b| - 1]);
    }
  }

  lemma BuildErrorAcrossEntries(r0: Run, host: Host, c: Config, srcDir: Path, buildDir: Path, dataDir: Path,
                                entries: seq<WalkEntry>, i: nat)
    requires i < |entries|
    requires BuildItems(r0, host, c, srcDir, buildDir, dataDir, WalkSources(host, entries[..i + 1])).result.Err?
    ensures BuildItems(r0, host, c, srcDir, buildDir, dataDir, WalkSources(host, entries)) ==
            BuildItems(r0, host, c, srcDir, buildDir, dataDir, WalkSources(host, entries[..i + 1]))
  {
    assert entries[..i + 1] + entries[i + 1..] == entries;
    WalkSourcesAppend(host, entries[..i + 1], entries[i + 1..]);
    BuildItemsAppend(r0, host, c, srcDir, buildDir, dataDir,
                     WalkSources(host, entries[..i + 1]), WalkSources(host, entries[i + 1..]));
  }

  /** The walk loop of `build`, on the registry and the file system. */
  method BuildWalk(reg: Registry, fsys: FileSystem, host: Host, c: Config, srcDir: Path, buildDir: Path,
                   dataDir: Path, entries: seq<WalkEntry>)
    returns (r: Result<()>, calls: seq<Call>)
    modifies reg, fsys
    ensures Run(reg.builders, fsys.State(), r, calls) ==
      BuildItems(Run(old(reg.builders), old(fsys.State()), Ok(()), []), host, c, srcDir, buildDir, dataDir,
                 WalkSources(host, entries))
  {
    ghost var r0 := Run(reg.builders, fsys.State(), Ok(()), []);
    assert entries[..0] == [];
    r, calls := Ok(()), [];
    for i := 0 to |entries|
      invariant r.Ok? && Run(reg.builders, fsys.State(), r, calls) ==
        BuildItems(r0, host, c, srcDir, buildDir, dataDir, WalkSources(host, entries[..i]))
    {
      var e := entries[i];
      assert entries[..i + 1][..i] == entries[..i];
      BuildItemsAppend(r0, host, c, srcDir, buildDir, dataDir,
                       WalkSources(host, entries[..i]), EntrySources(host, e.root, e.files));
      r, calls := BuildEntry(reg, fsys, host, c, srcDir, buildDir, dataDir, e.root, e.files, r, calls);
      if r.Err? {
        BuildErrorAcrossEntries(r0, host, c, srcDir, buildDir, dataDir, entries, i);
        return;
      }
    }
    assert entries[..|entries|] == entries;
  }

  /** The global data file, after the walk. */
  method BuildGlobalData(reg: Registry, fsys: FileSystem, host: Host, c: Config, dataDir: Path, calls0: seq<Call>)
    returns (r: Result<()>, calls: seq<Call>)
    modifies fsys
    ensures Run(reg.builders, fsys.State(), r, calls) ==
      BuildGlobal(reg.builders, old(fsys.State()), calls0, host, c, dataDir)
  {
    calls := calls0;
    var dataDirectory := Get(c, "data_directory");
    if dataDirectory.Err? {
      return Err(dataDirectory.error), calls;
    }
    var name := Get(c, "base_context_filename");
    if name.Err? {
      return Err(name.error), calls;
    }
    var global := Join(dataDirectory.value, name.value);
    var globalDest := host.reroot(global, dataDirectory.value, dataDir);
    if globalDest.None? {
      return Err(RerootError), calls;
    }
    var s := host.buildData(fsys.State(), global, globalDest.value);
    fsys.Replace(s.fs);
    calls := calls + [BuildDataCall(global, globalDest.value)];
    r := s.result;
  }

  /** `build(config)` from the point `sanity_check` has passed. */
  method BuildChecked(reg: Registry, fsys: FileSystem, host: Host, c: Config) returns (r: Result<()>, calls: seq<Call>)
    modifies reg, fsys
    ensures Run(reg.builders, fsys.State(), r, calls) == BuildAfterSanity(old(reg.builders), old(fsys.State()), host, c)
  {
    var srcDirectory := Get(c, "src_directory");
    if srcDirectory.Err? {
      return Err(srcDirectory.error), [];
    }
    var buildDirectory := Get(c, "build_directory");
    if buildDirectory.Err? {
      return Err(buildDirectory.error), [];
    }
    var dataBuildDirectory := Get(c, "build_data_directory");
    if dataBuildDirectory.Err? {
      return Err(dataBuildDirectory.error), [];
    }
    var dataDir := host.abspath(dataBuildDirectory.value);
    var entries := host.walk(fsys.State(), srcDirectory.value);
    r, calls := BuildWalk(reg, fsys, host, c, host.abspath(srcDirectory.value),
                          host.abspath(buildDirectory.value), dataDir, entries);
    if r.Err? {
      return;
    }
    r, calls := BuildGlobalData(reg, fsys, host, c, dataDir, calls);
  }

  /** `build(config)`, on the registry of builders and the file system. */
  method Rebuild(reg: Registry, fsys: FileSystem, host: Host, c: Config) returns (r: Result<()>, calls: seq<Call>)
    modifies reg, fsys
    ensures Run(reg.builders, fsys.State(), r, calls) == BuildSpec(old(reg.builders), old(fsys.State()), host, c)
  {
    var sane := SanityCheck(fsys, host, c);
    if sane.Err? {
      return Err(sane.error), [];
    }
    r, calls := BuildChecked(reg, fsys, host, c);
  }

  // ---------------------------------------------------------------------
  // mimeof

  /** `mimetypes.types_map`: extension to type. */
  type MimeTable = map<string, string>

  /** `mimetypes.add_type(type, ext)` */
  function AddType(m: MimeTable, mimeType: string, ext: string): (r: MimeTable)
    ensures r.Keys == m.Keys + {ext} && r[ext] == mimeType
    ensures forall e :: e in m && e != ext ==> r[e] == m[e]
  {
    m[ext := mimeType]
  }

  /** `mimetypes.guess_type(path)[0]`: the extension as given, then in lower
      case. */
  function GuessType(m: MimeTable, path: Path): Option<string> {
    var ext := SplitExt(path).1;
    if ext in m then Some(m[ext])
    else if Lower(ext) in m then Some(m[Lower(ext)])
    else None
  }

  /** `mimeof(path)` */
  function MimeOf(m: MimeTable, path: Path): (r: string)
    ensures GuessType(m, path).Some? && GuessType(m, path).value != "" ==> r == GuessType(m, path).value
    ensures GuessType(m, path).None? || GuessType(m, path).value == "" ==> r == "application/octet-stream"
  {
    var t := GuessType(m, path);
    if t.Some? && t.value != "" then t.value else "application/octet-stream"
  }

  /** The three `add_type` calls as the module makes them: type and
      extension are passed in swapped positions. */
  function AsWrittenTypes(base: MimeTable): MimeTable {
    AddType(AddType(AddType(base, ".coffee", "text/x-coffeescript"), ".iced", "text/x-iced-coffeescript"), ".less", "text/css")
  }

  /** The registrations the module evidently means. */
  function ModuleTypes(base: MimeTable): MimeTable {
    AddType(AddType(AddType(base, "text/x-coffeescript", ".coffee"), "text/x-iced-coffeescript", ".iced"), "text/css", ".less")
  }

  /** As written, the new entries are keyed by strings that hold a `/`, which
      no extension does, so they are never looked up, and a `.coffee` file
      is served as octet-stream unless the system table knows it. */
  lemma AsWrittenTypesUnreachable(base: MimeTable, path: Path)
    ensures SplitExt(path).1 != "text/x-coffeescript"
    ensures SplitExt(path).1 != "text/x-iced-coffeescript"
    ensures SplitExt(path).1 != "text/css"
    ensures SplitExt(path).1 == ".coffee" && ".coffee" !in base ==>
      MimeOf(AsWrittenTypes(base), path) == "application/octet-stream"
  {
    var ext := SplitExt(path).1;
    assert "text/x-coffeescript"[4] == '/' && "text/x-iced-coffeescript"[4] == '/' && "text/css"[4] == '/';
    if ext == ".coffee" && ".coffee" !in base {
      CoffeeUnknownAsWritten(base);
      assert GuessType(AsWrittenTypes(base), path).None?;
    }
  }

  /** The table as written holds no `.coffee` entry of its own. */
  lemma CoffeeUnknownAsWritten(base: MimeTable)
    requires ".coffee" !in base
    ensures ".coffee" !in AsWrittenTypes(base) && Lower(".coffee") == ".coffee"
  {
    var m1 := AddType(base, ".coffee", "text/x-coffeescript");
    var m2 := AddType(m1, ".iced", "text/x-iced-coffeescript");
    assert ".coffee" != "text/x-coffeescript" && ".coffee" != "text/x-iced-coffeescript" && ".coffee" != "text/css";
    assert ".coffee" !in m1 && ".coffee" !in m2;
  }

  /** With the arguments in order, the compiled languages get their types
      whatever the system table holds. */
  lemma ModuleTypesKnowSources(base: MimeTable, path: Path)
    ensures SplitExt(path).1 == ".coffee" ==> MimeOf(ModuleTypes(base), path) == "text/x-coffeescript"
    ensures SplitExt(path).1 == ".iced" ==> MimeOf(ModuleTypes(base), path) == "text/x-iced-coffeescript"
    ensures SplitExt(path).1 == ".less" ==> MimeOf(ModuleTypes(base), path) == "text/css"
  {
  }

  /** An extension the table does not know, in either case, gives the
      octet-stream fallback; every other extension gives its table entry. */
  lemma MimeOfFallback(m: MimeTable, path: Path)
    ensures SplitExt(path).1 !in m && Lower(SplitExt(path).1) !in m ==> MimeOf(m, path) == "application/octet-stream"
    ensures SplitExt(path).1 in m && m[SplitExt(path).1] != "" ==> MimeOf(m, path) == m[SplitExt(path).1]
  {
  }
}

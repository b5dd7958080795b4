/** `main()`: reads the configuration, scans the positional arguments for
    task names, and either shows help or runs the collected tasks in order of
    priority, each on the same configuration, stopping at the first
    exception. Option parsing and the logging level are left to the caller:
    the configuration file name comes in as a parameter. */
module Cli {
  import opened Common
  import opened Disk
  import opened Host
  import opened Config
  import opened Build
  import opened Action

  // ---------------------------------------------------------------------
  // the argument scan

  /** Where the scan of the arguments ends: with the tasks collected, at a
      `help` argument (with the argument after it, if any), or with an
      exception. */
  datatype Scan =
    | Collected(tasks: seq<Task>)
    | HelpRequested(topic: seq<string>)
    | ScanFailed(error: PyError)

  /** The scan over `args`. `fixed` chooses what a `help` argument does: as
      written, the bound check reads the undefined name `pargs` and raises
      NameError; the evident intent is to hand the next argument to `help`. */
  function ScanArgs(tasks: map<string, Task>, args: seq<string>, fixed: bool): Scan {
    if args == [] || StartsWith(args[0], "-") then Collected([])
    else if args[0] == "help" then
      if fixed then HelpRequested(if |args| > 1 then [args[1]] else []) else ScanFailed(NameError)
    else
      var rest := ScanArgs(tasks, args[1..], fixed);
      if rest.Collected? && args[0] in tasks then Collected([tasks[args[0]]] + rest.tasks) else rest
  }

  /** `main` as written. */
  function ScanAsWritten(tasks: map<string, Task>, args: seq<string>): Scan {
    ScanArgs(tasks, args, false)
  }

  /** `main` with `help` given the argument after it. */
  function ScanFixed(tasks: map<string, Task>, args: seq<string>): Scan {
    ScanArgs(tasks, args, true)
  }

  /** The arguments up to, not including, the first one that starts with
      `-`. */
  function Window(args: seq<string>): (w: seq<string>)
    ensures |w| <= |args| && w == args[..|w|]
    ensures forall a :: a in w ==> !StartsWith(a, "-")
    ensures |w| < |args| ==> StartsWith(args[|w|], "-")
  {
    if args == [] || StartsWith(args[0], "-") then [] else [args[0]] + Window(args[1..])
  }

  /** The registered tasks named by `args`, one per occurrence, in the order
      named. */
  function Selected(tasks: map<string, Task>, args: seq<string>): seq<Task> {
    if args == [] then []
    else (if args[0] in tasks then [tasks[args[0]]] else []) + Selected(tasks, args[1..])
  }

  /** Selection distributes over concatenation, so a name given twice is
      collected twice. */
  lemma {:induction false} SelectedAppend(tasks: map<string, Task>, a: seq<string>, b: seq<string>)
    ensures Selected(tasks, a + b) == Selected(tasks, a) + Selected(tasks, b)
    decreases |a|
  {
    if a == [] {
      assert a + b == b;
    } else {
      assert (a + b)[0] == a[0] && (a + b)[1..] == a[1..] + b;
      SelectedAppend(tasks, a[1..], b);
    }
  }

  /** Unregistered names are skipped. */
  lemma SelectedSkipsUnknown(tasks: map<string, Task>, a: seq<string>, x: string, b: seq<string>)
    requires x !in tasks
    ensures Selected(tasks, a + [x] + b) == Selected(tasks, a + b)
  {
    SelectedAppend(tasks, a + [x], b);
    SelectedAppend(tasks, a, [x]);
    SelectedAppend(tasks, a, b);
    assert Selected(tasks, [x]) == [] by {
      assert [x][1..] == [];
    }
  }

  /** Every selected task is the registered task of one of the names. */
  lemma {:induction false} SelectedAreRegistered(tasks: map<string, Task>, args: seq<string>)
    ensures |Selected(tasks, args)| <= |args|
    ensures forall t :: t in Selected(tasks, args) ==> exists a :: a in args && a in tasks && tasks[a] == t
    decreases |args|
  {
    if args != [] {
      SelectedAreRegistered(tasks, args[1..]);
      forall t | t in Selected(tasks, args)
        ensures exists a :: a in args && a in tasks && tasks[a] == t
      {
        if t in Selected(tasks, args[1..]) {
          var a :| a in args[1..] && a in tasks && tasks[a] == t;
          assert a in args;
        } else {
          assert args[0] in args && args[0] in tasks && tasks[args[0]] == t;
        }
      }
    }
  }

  /** Without a `help` argument before the first `-` argument, the scan
      collects exactly the registered tasks named before it. */
  lemma {:induction false} ScanCollects(tasks: map<string, Task>, args: seq<string>, fixed: bool)
    requires "help" !in Window(args)
    ensures ScanArgs(tasks, args, fixed) == Collected(Selected(tasks, Window(args)))
    decreases |args|
  {
    if args != [] && !StartsWith(args[0], "-") {
      assert Window(args) == [args[0]] + Window(args[1..]);
      assert ([args[0]] + Window(args[1..]))[1..] == Window(args[1..]);
      ScanCollects(tasks, args[1..], fixed);
    }
  }

  /** The first `help` argument before any `-` argument ends the scan: as
      written with NameError, fixed with the next argument as the topic. */
  lemma {:induction false} ScanStopsAtHelp(tasks: map<string, Task>, args: seq<string>, i: nat)
    requires i < |args| && args[i] == "help"
    requires forall j :: 0 <= j < i ==> args[j] != "help" && !StartsWith(args[j], "-")
    ensures ScanAsWritten(tasks, args) == ScanFailed(NameError)
    ensures ScanFixed(tasks, args) == HelpRequested(if i + 1 < |args| then [args[i + 1]] else [])
    decreases i
  {
    assert "help"[..1][0] == 'h' && "-"[0] == '-';
    if i > 0 {
      ScanStopsAtHelp(tasks, args[1..], i - 1);
    }
  }

  /** Nothing after the first `-` argument is looked at (that argument
      itself is, as the topic of a `help` just before it). */
  lemma {:induction false} ScanStopsAtDash(tasks: map<string, Task>, args: seq<string>, i: nat, fixed: bool)
    requires i < |args| && StartsWith(args[i], "-")
    ensures ScanArgs(tasks, args, fixed) == ScanArgs(tasks, args[..i + 1], fixed)
    decreases i
  {
    var pre := args[..i + 1];
    assert pre[0] == args[0];
    if i > 0 {
      assert pre[1..] == args[1..][..i] && pre[1] == args[1];
      assert args[1..][i - 1] == args[i];
      ScanStopsAtDash(tasks, args[1..], i - 1, fixed);
    }
  }

  /** The collected tasks before the rest of a scan. */
  function Prepend(xs: seq<Task>, s: Scan): Scan {
    if s.Collected? then Collected(xs + s.tasks) else s
  }

  /** The `enumerate(args)` loop of `main`, with `help` given the next
      argument. */
  method ScanCommandLine(tr: TaskRegistry, args: seq<string>) returns (s: Scan)
    ensures s == ScanFixed(tr.tasks, args)
  {
    var collected: seq<Task> := [];
    var i := 0;
    while i < |args|
      invariant 0 <= i <= |args|
      invariant ScanFixed(tr.tasks, args) == Prepend(collected, ScanFixed(tr.tasks, args[i..]))
    {
      var arg := args[i];
      assert args[i..][0] == arg && args[i..][1..] == args[i + 1..];
      if StartsWith(arg, "-") {
        break;
      } else if arg == "help" {
        return HelpRequested(if i + 1 < |args| then [args[i + 1]] else []);
      } else if arg in tr.tasks {
        var rest := ScanFixed(tr.tasks, args[i + 1..]);
        if rest.Collected? {
          assert collected + ([tr.tasks[arg]] + rest.tasks) == collected + [tr.tasks[arg]] + rest.tasks;
        }
        collected := collected + [tr.tasks[arg]];
      }
      i := i + 1;
    }
    assert i == |args| ==> args[i..] == [];
    return Collected(collected);
  }

  // ---------------------------------------------------------------------
  // sorted(tasks, key=lambda x: x['priority'])

  predicate PrioritySorted(s: seq<Task>) {
    forall i, j :: 0 <= i < j < |s| ==> s[i].priority <= s[j].priority
  }

  /** The tasks of priority `p`, in order. */
  function WithPriority(s: seq<Task>, p: int): seq<Task> {
    if s == [] then []
    else (if s[0].priority == p then [s[0]] else []) + WithPriority(s[1..], p)
  }

  /** `x` placed before the first task of equal or higher priority. */
  function InsertByPriority(x: Task, s: seq<Task>): seq<Task> {
    if s == [] || x.priority <= s[0].priority then [x] + s
    else [s[0]] + InsertByPriority(x, s[1..])
  }

  /** Python's stable `sorted` by priority. */
  function PriorityOrder(s: seq<Task>): seq<Task> {
    if s == [] then [] else InsertByPriority(s[0], PriorityOrder(s[1..]))
  }

  lemma {:induction false} InsertSorted(x: Task, s: seq<Task>)
    requires PrioritySorted(s)
    ensures PrioritySorted(InsertByPriority(x, s))
    ensures multiset(InsertByPriority(x, s)) == multiset{x} + multiset(s)
    ensures |InsertByPriority(x, s)| > 0 && (InsertByPriority(x, s)[0] == x || (s != [] && InsertByPriority(x, s)[0] == s[0]))
    decreases |s|
  {
    if s == [] || x.priority <= s[0].priority {
      assert InsertByPriority(x, s) == [x] + s;
      forall i | 0 <= i < |s| ensures x.priority <= s[i].priority {
        if i > 0 {
          assert s[0].priority <= s[i].priority;
        }
      }
      ConsSorted(x, s);
    } else {
      assert InsertByPriority(x, s) == [s[0]] + InsertByPriority(x, s[1..]);
      assert PrioritySorted(s[1..]);
      InsertSorted(x, s[1..]);
      InsertBound(x, s[1..], s[0].priority);
      ConsSorted(s[0], InsertByPriority(x, s[1..]));
      assert s == [s[0]] + s[1..];
    }
  }

  /** A task that comes no later than any of a sorted list can lead it. */
  lemma ConsSorted(a: Task, r: seq<Task>)
    requires PrioritySorted(r)
    requires forall i :: 0 <= i < |r| ==> a.priority <= r[i].priority
    ensures PrioritySorted([a] + r)
  {
    forall i, j | 0 <= i < j < |[a] + r| ensures ([a] + r)[i].priority <= ([a] + r)[j].priority {
      assert ([a] + r)[j] == r[j - 1];
      if i > 0 {
        assert ([a] + r)[i] == r[i - 1];
      }
    }
  }

  /** Inserting keeps a lower bound that every task meets. */
  lemma {:induction false} InsertBound(x: Task, s: seq<Task>, b: int)
    requires b <= x.priority && forall i :: 0 <= i < |s| ==> b <= s[i].priority
    ensures forall i :: 0 <= i < |InsertByPriority(x, s)| ==> b <= InsertByPriority(x, s)[i].priority
    decreases |s|
  {
    if s != [] && x.priority > s[0].priority {
      InsertBound(x, s[1..], b);
      var r := InsertByPriority(x, s[1..]);
      assert InsertByPriority(x, s) == [s[0]] + r;
      forall i | 0 <= i < |[s[0]] + r| ensures b <= ([s[0]] + r)[i].priority {
        if i > 0 {
          assert ([s[0]] + r)[i] == r[i - 1];
        }
      }
    } else {
      assert InsertByPriority(x, s) == [x] + s;
      forall i | 0 <= i < |[x] + s| ensures b <= ([x] + s)[i].priority {
        if i > 0 {
          assert ([x] + s)[i] == s[i - 1];
        }
      }
    }
  }

  /** Inserting leaves every other priority's tasks where they were, and
      puts `x` first among its own. */
  lemma {:induction false} InsertStable(x: Task, s: seq<Task>, p: int)
    ensures WithPriority(InsertByPriority(x, s), p) == WithPriority([x] + s, p)
    decreases |s|
  {
    if s != [] && x.priority > s[0].priority {
      InsertStable(x, s[1..], p);
      assert ([s[0]] + InsertByPriority(x, s[1..]))[1..] == InsertByPriority(x, s[1..]);
      assert ([x] + s)[1..] == s;
      assert ([x] + s[1..])[1..] == s[1..];
      assert s == [s[0]] + s[1..];
    }
  }

  /** `sorted` orders by priority, keeps every task and, being stable, keeps
      the command-line order among tasks of equal priority. */
  lemma {:induction false} PriorityOrderCorrect(s: seq<Task>)
    ensures PrioritySorted(PriorityOrder(s))
    ensures multiset(PriorityOrder(s)) == multiset(s)
    ensures forall p :: WithPriority(PriorityOrder(s), p) == WithPriority(s, p)
    decreases |s|
  {
    if s != [] {
      PriorityOrderCorrect(s[1..]);
      InsertSorted(s[0], PriorityOrder(s[1..]));
      assert s == [s[0]] + s[1..];
      forall p
        ensures WithPriority(PriorityOrder(s), p) == WithPriority(s, p)
      {
        InsertStable(s[0], PriorityOrder(s[1..]), p);
        assert ([s[0]] + PriorityOrder(s[1..]))[1..] == PriorityOrder(s[1..]);
      }
    }
  }

  // ---------------------------------------------------------------------
  // running the tasks

  /** The builder table, the file system, the outcome and the commands run. */
  datatype Session = Session(table: Table, fs: Fs, result: Result<()>, ran: seq<Command>)

  /** One task's command on the shared configuration. The development server
      and `help` change nothing the model tracks. */
  function CommandSpec(t: Table, fs: Fs, ran: seq<Command>, cmd: Command, host: Host, c: Config): Session {
    match cmd
    case BuildCommand =>
      var b := BuildSpec(t, fs, host, c);
      Session(b.table, b.fs, b.result, ran + [cmd])
    case CleanCommand =>
      var s := CleanSpec(fs, host, c);
      Session(t, s.fs, s.result, ran + [cmd])
    case SanityCheckCommand =>
      var s := SanityCheckSpec(fs, host, c);
      Session(t, s.fs, s.result, ran + [cmd])
    case DevelopCommand => Session(t, fs, Ok(()), ran + [cmd])
    case HelpCommand => Session(t, fs, Ok(()), ran + [cmd])
  }

  /** `for task in ...: task['command'](config)`, stopping at the first
      exception. */
  function ExecSpec(order: seq<Task>, t: Table, fs: Fs, host: Host, c: Config): Session {
    if order == [] then Session(t, fs, Ok(()), [])
    else
      var prev := ExecSpec(order[..|order| - 1], t, fs, host, c);
      if prev.result.Err? then prev
      else CommandSpec(prev.table, prev.fs, prev.ran, order[|order| - 1].command, host, c)
  }

  /** What the scan leads to: help (with the topic, and whether
      SystemExit follows), the tasks in the order they run, or an
      exception. */
  datatype Plan =
    | ShowHelp(topic: seq<string>, exits: bool)
    | RunTasks(order: seq<Task>)
    | Failed(error: PyError)

  function MainPlan(tasks: map<string, Task>, args: seq<string>, fixed: bool): Plan {
    match ScanArgs(tasks, args, fixed)
    case ScanFailed(e) => Failed(e)
    case HelpRequested(topic) => ShowHelp(topic, true)
    case Collected(ts) => if ts == [] then ShowHelp([], false) else RunTasks(PriorityOrder(ts))
  }

  /** `main()` on the installed task table, the configuration read from
      `fname`, and the positional arguments. */
  function MainSpec(t: Table, fs: Fs, host: Host, fname: Option<string>, args: seq<string>): Session {
    match ReadConfigSpec(fs, host, fname)
    case Err(e) => Session(t, fs, Err(e), [])
    case Ok((c, _)) =>
      match MainPlan(Declared(map[], Declarations), args, true)
      case Failed(e) => Session(t, fs, Err(e), [])
      case ShowHelp(_, exits) => Session(t, fs, if exits then Err(SystemExit) else Ok(()), [HelpCommand])
      case RunTasks(order) => ExecSpec(order, t, fs, host, c)
  }

  /** The tasks run in priority order: every command that ran belongs to a
      task of the order, and the commands ran in that order until the first
      failure. */
  lemma {:induction false} ExecRunsInOrder(order: seq<Task>, t: Table, fs: Fs, host: Host, c: Config)
    ensures var e := ExecSpec(order, t, fs, host, c);
      |e.ran| <= |order| && (forall i :: 0 <= i < |e.ran| ==> e.ran[i] == order[i].command) &&
      (e.result.Ok? ==> |e.ran| == |order|)
    decreases |order|
  {
    if order != [] {
      var init := order[..|order| - 1];
      ExecRunsInOrder(init, t, fs, host, c);
    }
  }

  /** A task that needs the build data directory cannot succeed without it,
      so neither can the run. */
  lemma {:induction false} ExecNeedsBuildDataDirectory(order: seq<Task>, t: Table, fs: Fs, host: Host, c: Config, k: nat)
    requires "build_data_directory" !in c.properties
    requires k < |order| && order[k].command in {BuildCommand, SanityCheckCommand}
    ensures ExecSpec(order, t, fs, host, c).result.Err?
    decreases |order|
  {
    var init := order[..|order| - 1];
    if k < |order| - 1 {
      assert init[k] == order[k];
      ExecNeedsBuildDataDirectory(init, t, fs, host, c, k);
    } else {
      var prev := ExecSpec(init, t, fs, host, c);
      if prev.result.Ok? {
        SanityCheckNeedsBuildDataDirectory(prev.fs, host, c);
      }
    }
  }

  /** With no task named, `main` shows the task listing and returns. */
  lemma MainWithoutTasks(t: Table, fs: Fs, host: Host, fname: Option<string>, args: seq<string>)
    requires "help" !in Window(args)
    requires forall a :: a in Window(args) ==> a !in Declared(map[], Declarations)
    ensures MainPlan(Declared(map[], Declarations), args, true) == ShowHelp([], false)
  {
    var tasks := Declared(map[], Declarations);
    ScanCollects(tasks, args, true);
    NothingSelected(tasks, Window(args));
  }

  lemma {:induction false} NothingSelected(tasks: map<string, Task>, args: seq<string>)
    requires forall a :: a in args ==> a !in tasks
    ensures Selected(tasks, args) == []
    decreases |args|
  {
    if args != [] {
      assert forall a :: a in args[1..] ==> a in args;
      NothingSelected(tasks, args[1..]);
    }
  }

  lemma {:induction false} SelectedContains(tasks: map<string, Task>, args: seq<string>, i: nat)
    requires i < |args| && args[i] in tasks
    ensures tasks[args[i]] in Selected(tasks, args)
    decreases i
  {
    if i > 0 {
      assert args[1..][i - 1] == args[i];
      SelectedContains(tasks, args[1..], i - 1);
    }
  }

  /** A task named on the command line runs at some position of the order. */
  lemma NamedTaskRuns(tasks: map<string, Task>, args: seq<string>, name: string) returns (j: nat)
    requires "help" !in Window(args)
    requires name in Window(args) && name in tasks
    ensures MainPlan(tasks, args, true).RunTasks?
    ensures j < |MainPlan(tasks, args, true).order| && MainPlan(tasks, args, true).order[j] == tasks[name]
  {
    ScanCollects(tasks, args, true);
    var w := Window(args);
    var i :| 0 <= i < |w| && w[i] == name;
    SelectedContains(tasks, w, i);
    var chosen := Selected(tasks, w);
    PriorityOrderCorrect(chosen);
    var order := PriorityOrder(chosen);
    assert tasks[name] in multiset(order);
    j :| 0 <= j < |order| && order[j] == tasks[name];
  }

  /** Naming `build` or `sanity_check` on the command line always fails:
      either `read_config` raises, or the configuration it returns never
      holds `build_data_directory`. */
  lemma MainCannotBuild(t: Table, fs: Fs, host: Host, fname: Option<string>, args: seq<string>, name: string)
    requires "help" !in Window(args)
    requires name in Window(args) && name in {"build", "sanity_check"}
    ensures MainSpec(t, fs, host, fname, args).result.Err?
  {
    var tasks := Declared(map[], Declarations);
    InstalledDispatch();
    var j := NamedTaskRuns(tasks, args, name);
    var order := MainPlan(tasks, args, true).order;
    if ReadConfigSpec(fs, host, fname).Ok? {
      var c := ReadConfigSpec(fs, host, fname).value.0;
      ReadConfigKeys(fs, host, fname, c);
      ExecNeedsBuildDataDirectory(order, t, fs, host, c, j);
    }
  }

  /** A configuration file the parser rejects ends `main` before the
      arguments are looked at: nothing runs and the state is unchanged. */
  lemma MalformedConfigStopsMain(t: Table, fs: Fs, host: Host, fname: Option<string>, args: seq<string>)
    requires ReadConfigSpec(fs, host, fname).Err?
    ensures MainSpec(t, fs, host, fname, args) == Session(t, fs, Err(ConfigParserError), [])
  {
    ReadConfigRaises(fs, host, fname);
  }

  /** The commands of the installed tasks. */
  lemma InstalledDispatch()
    ensures var t := Declared(map[], Declarations);
      "help" in t && t["help"].command == HelpCommand &&
      "build" in t && t["build"].command == BuildCommand &&
      "sanity_check" in t && t["sanity_check"].command == SanityCheckCommand
  {
    InstalledTasks();
    var d := Declarations;
    assert d[..1][..0] == [] && d[..1][0] == d[0];
    assert Declared(map[], d[..1][..0]) == map[];
    var t1 := Declared(map[], d[..1]);
    assert d[..2][..1] == d[..1];
    var t2 := Declared(map[], d[..2]);
    assert d[..3][..2] == d[..2];
    var t3 := Declared(map[], d[..3]);
    assert d[..4][..3] == d[..3];
    var t4 := Declared(map[], d[..4]);
    assert d[..5][..4] == d[..4];
    assert d[..5] == d;
  }

  /** One command, on the registry and the file system. */
  method RunCommand(reg: Registry, fsys: FileSystem, host: Host, c: Config, cmd: Command, ran0: seq<Command>)
    returns (r: Result<()>, ran: seq<Command>)
    modifies reg, fsys
    ensures Session(reg.builders, fsys.State(), r, ran) ==
            CommandSpec(old(reg.builders), old(fsys.State()), ran0, cmd, host, c)
  {
    ran := ran0 + [cmd];
    match cmd {
      case BuildCommand =>
        var calls;
        r, calls := Rebuild(reg, fsys, host, c);
      case CleanCommand =>
        r := Clean(fsys, host, c);
      case SanityCheckCommand =>
        r := SanityCheck(fsys, host, c);
      case DevelopCommand =>
        r := Ok(());
      case HelpCommand =>
        r := Ok(());
    }
  }

  lemma ExecStep(order: seq<Task>, i: nat, t: Table, fs: Fs, host: Host, c: Config, prev: Session)
    requires i < |order|
    requires prev == ExecSpec(order[..i], t, fs, host, c) && prev.result.Ok?
    ensures ExecSpec(order[..i + 1], t, fs, host, c) ==
            CommandSpec(prev.table, prev.fs, prev.ran, order[i].command, host, c)
  {
    assert order[..i + 1][..i] == order[..i];
  }

  lemma {:induction false} ExecErrorSticks(order: seq<Task>, i: nat, t: Table, fs: Fs, host: Host, c: Config)
    requires i <= |order|
    requires ExecSpec(order[..i], t, fs, host, c).result.Err?
    ensures ExecSpec(order, t, fs, host, c) == ExecSpec(order[..i], t, fs, host, c)
    decreases |order| - i
  {
    if i < |order| {
      assert order[..i + 1][..i] == order[..i];
      ExecErrorSticks(order, i + 1, t, fs, host, c);
    } else {
      assert order[..i] == order;
    }
  }

  /** The loop over the sorted tasks. */
  method RunTasksInOrder(reg: Registry, fsys: FileSystem, host: Host, c: Config, order: seq<Task>)
    returns (r: Result<()>, ran: seq<Command>)
    modifies reg, fsys
    ensures Session(reg.builders, fsys.State(), r, ran) ==
            ExecSpec(order, old(reg.builders), old(fsys.State()), host, c)
  {
    ghost var t0, fs0 := reg.builders, fsys.State();
    assert order[..0] == [];
    r, ran := Ok(()), [];
    for i := 0 to |order|
      invariant r.Ok? && Session(reg.builders, fsys.State(), r, ran) == ExecSpec(order[..i], t0, fs0, host, c)
    {
      ExecStep(order, i, t0, fs0, host, c, Session(reg.builders, fsys.State(), r, ran));
      r, ran := RunCommand(reg, fsys, host, c, order[i].command, ran);
      if r.Err? {
        ExecErrorSticks(order, i + 1, t0, fs0, host, c);
        return;
      }
    }
    assert order[..|order|] == order;
  }

  /** `main()`: the task table is the one the decorators installed; the
      help command's report, when it runs, comes back as `shown`. */
  method RunMain(tr: TaskRegistry, reg: Registry, fsys: FileSystem, host: Host, fname: Option<string>,
                 args: seq<string>)
    returns (r: Result<()>, ran: seq<Command>, shown: Option<HelpOutput>)
    requires tr.tasks == Declared(map[], Declarations)
    modifies reg, fsys
    ensures Session(reg.builders, fsys.State(), r, ran) ==
            MainSpec(old(reg.builders), old(fsys.State()), host, fname, args)
    ensures shown.Some? <==>
      ReadConfigSpec(old(fsys.State()), host, fname).Ok? && MainPlan(tr.tasks, args, true).ShowHelp?
    ensures shown.Some? ==> HelpAnswers(tr.tasks, MainPlan(tr.tasks, args, true).topic, shown.value)
  {
    var read := ReadConfig(fsys, host, fname);
    if read.Err? {
      return Err(read.error), [], None;
    }
    var c := read.value.0;
    var scan := ScanCommandLine(tr, args);
    shown := None;
    match scan {
      case ScanFailed(e) =>
        return Err(e), [], None;
      case HelpRequested(topic) =>
        var out := tr.Help(topic);
        return Err(SystemExit), [HelpCommand], Some(out);
      case Collected(ts) =>
        if ts == [] {
          var out := tr.Help([]);
          return Ok(()), [HelpCommand], Some(out);
        }
        r, ran := RunTasksInOrder(reg, fsys, host, c, PriorityOrder(ts));
    }
  }

  /** The `help` argument as written: a concrete command line on which
      `main` raises NameError instead of showing help. */
  lemma HelpArgumentRaises()
    ensures MainPlan(Declared(map[], Declarations), ["build", "help", "clean"], false) == Failed(NameError)
    ensures MainPlan(Declared(map[], Declarations), ["build", "help", "clean"], true) == ShowHelp(["clean"], true)
  {
    InstalledDispatch();
    var args := ["build", "help", "clean"];
    assert "build"[..1][0] == 'b' && "-"[0] == '-';
    assert args[0] != "help" && !StartsWith(args[0], "-");
    assert args[1] == "help";
    ScanStopsAtHelp(Declared(map[], Declarations), args, 1);
  }
}

/** `stationary/build.py`: the builder table and the builders. A builder is
    chosen by the extension of the source file, from a table that falls back
    to the static copier for any extension it does not know (and remembers
    that fallback, as a `defaultdict` does). Each builder writes one
    destination file and returns the path it wrote.

    Every builder is a function of the file system state giving the new state
    and the outcome (`Step`); the methods, which perform the same steps on a
    `FileSystem` and a `Registry`, are proved to have exactly that effect. */
module Build {
  import opened Common
  import opened Paths
  import opened Disk
  import opened Host
  import opened Config

  datatype BuilderKind =
    | HtmlBuilder    // build_html
    | StaticBuilder  // build_static
    | JsBuilder      // build_js
    | CssBuilder     // build_css
    | CoffeeBuilder  // build_coffee
    | IcedBuilder    // build_iced
    | LessBuilder    // build_less

  /** `__BUILDERS`: extension to builder. */
  type Table = map<string, BuilderKind>

  // ---------------------------------------------------------------------
  // The table

  /** `__BUILDERS[ext]`: the builder, and the table after the lookup, which
      holds `build_static` for an extension that was missing. */
  function Lookup(t: Table, ext: string): (r: (BuilderKind, Table))
    ensures ext in t ==> r == (t[ext], t)
    ensures ext !in t ==> r.0 == StaticBuilder && r.1 == t[ext := StaticBuilder]
  {
    if ext in t then (t[ext], t) else (StaticBuilder, t[ext := StaticBuilder])
  }

  /** A lookup changes no answer: looking the same or another extension up
      afterwards gives what it would have given before. */
  lemma LookupIsStable(t: Table, ext: string, other: string)
    ensures Lookup(Lookup(t, ext).1, other).0 == Lookup(t, other).0
    ensures Lookup(t, ext).1.Keys == t.Keys + {ext}
  {
  }

  /** `register(*exts)(func)`: every listed extension maps to `kind`, the
      last registration of an extension winning. */
  function Registered(t: Table, exts: seq<string>, kind: BuilderKind): Table {
    if exts == [] then t
    else Registered(t, exts[..|exts| - 1], kind)[exts[|exts| - 1] := kind]
  }

  /** After `register`, the listed extensions are bound to the new builder
      and all others are as they were. */
  lemma {:induction false} RegisteredBinds(t: Table, exts: seq<string>, kind: BuilderKind, e: string)
    ensures e in exts ==> e in Registered(t, exts, kind) && Registered(t, exts, kind)[e] == kind
    ensures e !in exts ==> (e in Registered(t, exts, kind) <==> e in t)
    ensures e !in exts && e in t ==> Registered(t, exts, kind)[e] == t[e]
    decreases |exts|
  {
    if exts != [] {
      var init := exts[..|exts| - 1];
      RegisteredBinds(t, init, kind, e);
      assert e in exts <==> e in init || e == exts[|exts| - 1];
    }
  }

  /** The decorators of the module, in source order. */
  const Registrations: seq<(seq<string>, BuilderKind)> := [
    ([".html"], HtmlBuilder),
    ([".js"], JsBuilder),
    ([".css"], CssBuilder),
    ([".coffee"], CoffeeBuilder),
    ([".iced"], IcedBuilder),
    ([".less"], LessBuilder)
  ]

  function RegisterAll(t: Table, regs: seq<(seq<string>, BuilderKind)>): Table {
    if regs == [] then t
    else Registered(RegisterAll(t, regs[..|regs| - 1]), regs[|regs| - 1].0, regs[|regs| - 1].1)
  }

  /** The table once the module is loaded: `build_static` is reached only as
      the default. */
  lemma InstalledTable()
    ensures RegisterAll(map[], Registrations) == map[
      ".html" := HtmlBuilder, ".js" := JsBuilder, ".css" := CssBuilder,
      ".coffee" := CoffeeBuilder, ".iced" := IcedBuilder, ".less" := LessBuilder]
    ensures forall e :: e in RegisterAll(map[], Registrations) ==>
      RegisterAll(map[], Registrations)[e] != StaticBuilder
  {
    var r := Registrations;
    assert r[..0] == [] && r[..1][..0] == [] && r[..2][..1] == r[..1] && r[..3][..2] == r[..2];
    assert r[..4][..3] == r[..3] && r[..5][..4] == r[..4] && r[..6][..5] == r[..5] && r[..6] == r;
    var t1 := RegisterAll(map[], r[..1]);
    assert r[..1][0] == ([".html"], HtmlBuilder);
    assert RegisterAll(map[], r[..1][..0]) == map[];
    assert t1 == Registered(map[], [".html"], HtmlBuilder);
    assert t1 == map[".html" := HtmlBuilder] by { SingleRegistration(map[], ".html", HtmlBuilder); }
    var t2 := RegisterAll(map[], r[..2]);
    assert t2 == t1[".js" := JsBuilder] by { SingleRegistration(t1, ".js", JsBuilder); }
    var t3 := RegisterAll(map[], r[..3]);
    assert t3 == t2[".css" := CssBuilder] by { SingleRegistration(t2, ".css", CssBuilder); }
    var t4 := RegisterAll(map[], r[..4]);
    assert t4 == t3[".coffee" := CoffeeBuilder] by { SingleRegistration(t3, ".coffee", CoffeeBuilder); }
    var t5 := RegisterAll(map[], r[..5]);
    assert t5 == t4[".iced" := IcedBuilder] by { SingleRegistration(t4, ".iced", IcedBuilder); }
    assert RegisterAll(map[], r) == t5[".less" := LessBuilder] by { SingleRegistration(t5, ".less", LessBuilder); }
  }

  lemma SingleRegistration(t: Table, ext: string, kind: BuilderKind)
    ensures Registered(t, [ext], kind) == t[ext := kind]
  {
    assert [ext][..0] == [];
  }

  // ---------------------------------------------------------------------
  // The builders, as functions of the file system

  /** `build_static`: open the source, truncate the destination, then copy
      what the source holds at that moment. */
  function StaticSpec(fs: Fs, src: Path, dest: Path): Step<Path> {
    if src !in fs.files then Step(fs, Err(IOError))
    else
      match AfterWrite(fs, dest, [])
      case Err(e) => Step(fs, Err(e))
      case Ok(truncated) => Step(Fs(truncated.files[dest := truncated.files[src]], truncated.dirs), Ok(dest))
  }

  /** `build_coffee` and `build_iced`: run the compiler on the source and
      write its output next to the destination, with extension `.js`. A
      compiler that cannot be started raises OSError, one that fails
      CalledProcessError. */
  function CompileSpec(fs: Fs, tool: Tool, src: Path, dest: Path): Step<Path> {
    var out := SplitExt(dest).0 + ".js";
    if !tool.starts then Step(fs, Err(OSError))
    else if src !in fs.files || tool.run(fs.files[src]).None? then Step(fs, Err(CalledProcessError))
    else
      match AfterWrite(fs, out, tool.run(fs.files[src]).value)
      case Err(e) => Step(fs, Err(e))
      case Ok(written) => Step(written, Ok(out))
  }

  /** `build_less`: `lessc` writes the `.css` file when it succeeds; its exit
      status is ignored, so once it has started the `.css` path is reported
      either way. A `lessc` that cannot be started raises OSError. */
  function LessSpec(fs: Fs, host: Host, src: Path, dest: Path): Step<Path> {
    var out := SplitExt(dest).0 + ".css";
    if !host.lessc.starts then Step(fs, Err(OSError))
    else if src in fs.files && host.lessc.run(fs.files[src]).Some?
       && AfterWrite(fs, out, host.lessc.run(fs.files[src]).value).Ok?
    then Step(AfterWrite(fs, out, host.lessc.run(fs.files[src]).value).value, Ok(out))
    else Step(fs, Ok(out))
  }

  /** One of the compiling builders, by kind. */
  function CompilerSpec(kind: BuilderKind, fs: Fs, host: Host, src: Path, dest: Path): Step<Path> {
    match kind
    case CoffeeBuilder => CompileSpec(fs, host.coffee, src, dest)
    case IcedBuilder => CompileSpec(fs, host.iced, src, dest)
    case LessBuilder => LessSpec(fs, host, src, dest)
    case _ => StaticSpec(fs, src, dest)
  }

  /** The siblings `build_js` and `build_css` try, in order. */
  const JsSiblings: seq<(string, BuilderKind)> := [(".coffee", CoffeeBuilder), (".iced", IcedBuilder)]
  const CssSiblings: seq<(string, BuilderKind)> := [(".less", LessBuilder)]

  /** The loop over the siblings: the first `base + ext` that exists is
      compiled to the destination's base plus `newExt`. */
  function SiblingSpec(fs: Fs, host: Host, base: Path, dest: Path, newExt: string,
                       siblings: seq<(string, BuilderKind)>): Option<Step<Path>>
  {
    if siblings == [] then None
    else if Exists(fs, base + siblings[0].0)
    then Some(CompilerSpec(siblings[0].1, fs, host, base + siblings[0].0, SplitExt(dest).0 + newExt))
    else SiblingSpec(fs, host, base, dest, newExt, siblings[1..])
  }

  /** `build_js` and `build_css`: a missing source is replaced by the first
      sibling that exists; otherwise the file is copied. */
  function FallbackSpec(fs: Fs, host: Host, src: Path, dest: Path, newExt: string,
                        siblings: seq<(string, BuilderKind)>): Step<Path>
  {
    if !Exists(fs, src) && SiblingSpec(fs, host, SplitExt(src).0, dest, newExt, siblings).Some?
    then SiblingSpec(fs, host, SplitExt(src).0, dest, newExt, siblings).value
    else StaticSpec(fs, src, dest)
  }

  function JsSpec(fs: Fs, host: Host, src: Path, dest: Path): Step<Path> {
    FallbackSpec(fs, host, src, dest, ".js", JsSiblings)
  }

  function CssSpec(fs: Fs, host: Host, src: Path, dest: Path): Step<Path> {
    FallbackSpec(fs, host, src, dest, ".css", CssSiblings)
  }

  /** The context `build_html` renders with: the base context updated with
      the file's own context, read from the `.json` name of the source. */
  function HtmlContext(c: Config, fs: Fs, host: Host, src: Path): (r: Result<Context>)
    ensures BaseContext(c, fs, host).Err? <==> r.Err?
    ensures r.Ok? ==>
      var base := BaseContext(c, fs, host).value;
      var data := ReadContext(c, fs, host, HtmlToJson(src));
      r.value.Keys == base.Keys + data.Keys &&
      (forall k :: k in data ==> r.value[k] == data[k]) &&
      (forall k :: k in base && k !in data ==> r.value[k] == base[k])
  {
    match BaseContext(c, fs, host)
    case Err(e) => Err(e)
    case Ok(base) => Ok(base + ReadContext(c, fs, host, HtmlToJson(src)))
  }

  /** Make the directory of `dest` unless it exists. */
  function EnsureDir(fs: Fs, dest: Path): Result<Fs> {
    var d := Dirname(dest);
    if Exists(fs, d) then Ok(fs) else AfterMakeDirs(fs, d)
  }

  /** `build_html`: the template named by the source path past the source
      directory's length is rendered in `config.template_env` with the
      merged context and written to `dest`. */
  function HtmlSpec(fs: Fs, host: Host, c: Config, src: Path, dest: Path): Step<Path> {
    match Get(c, "src_directory")
    case Err(e) => Step(fs, Err(e))
    case Ok(srcDirectory) =>
      var srcDir := host.abspath(srcDirectory);
      match HtmlContext(c, fs, host, src)
      case Err(e) => Step(fs, Err(e))
      case Ok(ctx) =>
        match EnsureDir(fs, dest)
        case Err(e) => Step(fs, Err(e))
        case Ok(fs1) =>
          match Get(c, "template_env")
          case Err(e) => Step(fs1, Err(e))
          case Ok(env) =>
            match AfterWrite(fs1, dest, host.render(env, Drop(src, |srcDir|), ctx))
            case Err(e) => Step(fs1, Err(e))
            case Ok(fs2) => Step(fs2, Ok(dest))
  }

  /** The builder of a given kind. */
  function RunSpec(kind: BuilderKind, fs: Fs, host: Host, c: Config, src: Path, dest: Path): Step<Path> {
    match kind
    case HtmlBuilder => HtmlSpec(fs, host, c, src, dest)
    case StaticBuilder => StaticSpec(fs, src, dest)
    case JsBuilder => JsSpec(fs, host, src, dest)
    case CssBuilder => CssSpec(fs, host, src, dest)
    case CoffeeBuilder => CompileSpec(fs, host.coffee, src, dest)
    case IcedBuilder => CompileSpec(fs, host.iced, src, dest)
    case LessBuilder => LessSpec(fs, host, src, dest)
  }

  /** `build_file`: create the destination directory if it is missing, then
      dispatch on the source extension. */
  function BuildFileSpec(t: Table, fs: Fs, host: Host, c: Config, src: Path, dest: Path): (Table, Step<Path>) {
    match EnsureDir(fs, dest)
    case Err(e) => (t, Step(fs, Err(e)))
    case Ok(fs1) =>
      var (kind, t1) := Lookup(t, SplitExt(src).1);
      (t1, RunSpec(kind, fs1, host, c, src, dest))
  }

  // ---------------------------------------------------------------------
  // What the builders promise

  /** The builder is chosen by the source's extension alone: two sources
      with the same extension, built on any file systems into any
      destinations, leave the same table and run the same builder, the one
      the table holds for that extension or `build_static` on a miss. */
  lemma DispatchByExtension(t: Table, fs: Fs, fs': Fs, host: Host, c: Config, src: Path, src': Path,
                            dest: Path, dest': Path)
    requires EnsureDir(fs, dest).Ok? && EnsureDir(fs', dest').Ok?
    requires SplitExt(src).1 == SplitExt(src').1
    ensures BuildFileSpec(t, fs, host, c, src, dest).0 == BuildFileSpec(t, fs', host, c, src', dest').0
    ensures var ext := SplitExt(src).1;
      var kind := if ext in t then t[ext] else StaticBuilder;
      BuildFileSpec(t, fs, host, c, src, dest).1 == RunSpec(kind, EnsureDir(fs, dest).value, host, c, src, dest) &&
      BuildFileSpec(t, fs', host, c, src', dest').1 == RunSpec(kind, EnsureDir(fs', dest').value, host, c, src', dest')
  {
  }

  /** An extension the table does not know goes to the static copier. */
  lemma UnknownExtensionIsStatic(t: Table, fs: Fs, host: Host, c: Config, src: Path, dest: Path)
    requires SplitExt(src).1 !in t && EnsureDir(fs, dest).Ok?
    ensures BuildFileSpec(t, fs, host, c, src, dest).1 == StaticSpec(EnsureDir(fs, dest).value, src, dest)
    ensures BuildFileSpec(t, fs, host, c, src, dest).0 == t[SplitExt(src).1 := StaticBuilder]
  {
  }

  /** The destination directory is created only when it is missing, before
      the builder runs; when that fails no builder runs. */
  lemma DirectoryFirst(fs: Fs, dest: Path)
    ensures Exists(fs, Dirname(dest)) ==> EnsureDir(fs, dest) == Ok(fs)
    ensures !Exists(fs, Dirname(dest)) ==> EnsureDir(fs, dest) == AfterMakeDirs(fs, Dirname(dest))
    ensures EnsureDir(fs, dest).Ok? ==> Exists(EnsureDir(fs, dest).value, Dirname(dest))
    ensures EnsureDir(fs, dest).Ok? ==> EnsureDir(fs, dest).value.files == fs.files
  {
  }

  lemma MakeDirFailureStops(t: Table, fs: Fs, host: Host, c: Config, src: Path, dest: Path)
    requires EnsureDir(fs, dest).Err?
    ensures BuildFileSpec(t, fs, host, c, src, dest) == (t, Step(fs, Err(OSError)))
  {
  }

  /** `build_static` copies the bytes exactly and returns `dest`; nothing
      else changes. A missing or unreadable source raises IOError and
      touches nothing. */
  lemma StaticCopies(fs: Fs, src: Path, dest: Path)
    requires src != dest && src in fs.files && AfterWrite(fs, dest, []).Ok?
    ensures StaticSpec(fs, src, dest) == Step(Fs(fs.files[dest := fs.files[src]], fs.dirs), Ok(dest))
  {
  }

  lemma StaticFailures(fs: Fs, src: Path, dest: Path)
    ensures src !in fs.files ==> StaticSpec(fs, src, dest) == Step(fs, Err(IOError))
    ensures src in fs.files && AfterWrite(fs, dest, []).Err? ==> StaticSpec(fs, src, dest) == Step(fs, Err(IOError))
  {
  }

  /** Copying a file onto itself empties it: the destination is truncated
      before the source is read. */
  lemma StaticOntoItself(fs: Fs, p: Path)
    requires p in fs.files && AfterWrite(fs, p, []).Ok?
    ensures StaticSpec(fs, p, p).fs.files[p] == []
    ensures StaticSpec(fs, p, p).result == Ok(p)
  {
  }

  /** A compiled file lands at the destination's base plus `.js` and holds
      what the compiler printed; a missing source or a failing compiler
      raises CalledProcessError and writes nothing. */
  lemma CompileWrites(fs: Fs, tool: Tool, src: Path, dest: Path)
    ensures var s := CompileSpec(fs, tool, src, dest);
      s.result.Ok? ==>
        s.result.value == SplitExt(dest).0 + ".js" &&
        tool.starts && src in fs.files && tool.run(fs.files[src]).Some? &&
        s.fs.files == fs.files[s.result.value := tool.run(fs.files[src]).value] && s.fs.dirs == fs.dirs
    ensures !tool.starts ==> CompileSpec(fs, tool, src, dest) == Step(fs, Err(OSError))
    ensures tool.starts && (src !in fs.files || tool.run(fs.files[src]).None?) ==>
      CompileSpec(fs, tool, src, dest) == Step(fs, Err(CalledProcessError))
  {
  }

  /** Once `lessc` has started, `build_less` reports the `.css` path whether
      or not `lessc` produced it; a `lessc` that cannot start raises OSError
      and changes nothing. */
  lemma LessReportsCss(fs: Fs, host: Host, src: Path, dest: Path)
    ensures LessSpec(fs, host, src, dest).result ==
      if host.lessc.starts then Ok(SplitExt(dest).0 + ".css") else Err(OSError)
    ensures LessSpec(fs, host, src, dest).fs.dirs == fs.dirs
    ensures (!host.lessc.starts || src !in fs.files) ==> LessSpec(fs, host, src, dest).fs == fs
  {
  }

  /** With the source present, `build_js` and `build_css` are `build_static`. */
  lemma PresentSourceIsCopied(fs: Fs, host: Host, src: Path, dest: Path)
    requires Exists(fs, src)
    ensures JsSpec(fs, host, src, dest) == StaticSpec(fs, src, dest)
    ensures CssSpec(fs, host, src, dest) == StaticSpec(fs, src, dest)
  {
  }

  /** A missing `.js` is compiled from a `.coffee` sibling if there is one,
      otherwise from an `.iced` sibling, otherwise the missing file is
      copied, which raises IOError (`StaticFailures`). */
  lemma JsSiblingOrder(fs: Fs, host: Host, src: Path, dest: Path)
    requires !Exists(fs, src)
    ensures var base := SplitExt(src).0;
      var out := SplitExt(dest).0 + ".js";
      JsSpec(fs, host, src, dest) ==
        if Exists(fs, base + ".coffee") then CompileSpec(fs, host.coffee, base + ".coffee", out)
        else if Exists(fs, base + ".iced") then CompileSpec(fs, host.iced, base + ".iced", out)
        else StaticSpec(fs, src, dest)
  {
    var base := SplitExt(src).0;
    var out := SplitExt(dest).0 + ".js";
    var s := JsSiblings;
    assert s[0] == (".coffee", CoffeeBuilder) && s[1..][0] == (".iced", IcedBuilder) && s[1..][1..] == [];
    var later := SiblingSpec(fs, host, base, dest, ".js", s[1..]);
    assert later == if Exists(fs, base + ".iced") then Some(CompileSpec(fs, host.iced, base + ".iced", out))
                    else SiblingSpec(fs, host, base, dest, ".js", s[1..][1..]);
    assert SiblingSpec(fs, host, base, dest, ".js", s) ==
           if Exists(fs, base + ".coffee") then Some(CompileSpec(fs, host.coffee, base + ".coffee", out))
           else later;
  }

  /** A missing `.css` is built from a `.less` sibling if there is one,
      otherwise the missing file is copied, which raises IOError. */
  lemma CssFromLess(fs: Fs, host: Host, src: Path, dest: Path)
    requires !Exists(fs, src)
    ensures var base := SplitExt(src).0;
      CssSpec(fs, host, src, dest) ==
        if Exists(fs, base + ".less") then LessSpec(fs, host, base + ".less", SplitExt(dest).0 + ".css")
        else StaticSpec(fs, src, dest)
  {
    var base := SplitExt(src).0;
    var s := CssSiblings;
    assert s[0] == (".less", LessBuilder) && s[1..] == [];
    assert SiblingSpec(fs, host, base, dest, ".css", s) ==
           if Exists(fs, base + ".less") then Some(LessSpec(fs, host, base + ".less", SplitExt(dest).0 + ".css"))
           else SiblingSpec(fs, host, base, dest, ".css", s[1..]);
  }

  /** The builder re-splits the destination it is given: as long as the
      destination's base has a real file name, the `.js` that `build_js`
      passes on comes back unchanged. */
  lemma SwappedExtensionIsKept(dest: Path, e: string)
    requires NamedStem(SplitExt(dest).0) && '.' !in e && '/' !in e
    ensures SplitExt(SplitExt(dest).0 + "." + e).0 + "." + e == SplitExt(dest).0 + "." + e
  {
    SplitExtAppend(SplitExt(dest).0, e);
  }

  /** Without `template_env` among the properties, `build_html` raises
      AttributeError once its contexts are ready and the directory exists,
      and never writes the destination. */
  lemma HtmlNeedsTemplateEnv(fs: Fs, host: Host, c: Config, src: Path, dest: Path)
    requires "template_env" !in c.properties
    ensures HtmlSpec(fs, host, c, src, dest).result.Err?
    ensures HtmlSpec(fs, host, c, src, dest).fs.files == fs.files
  {
  }

  /** With everything in place, `build_html` writes the rendering of the
      trimmed source name in the merged context to `dest`. */
  lemma HtmlRenders(fs: Fs, host: Host, c: Config, src: Path, dest: Path)
    requires "src_directory" in c.properties && "template_env" in c.properties
    requires HtmlContext(c, fs, host, src).Ok? && EnsureDir(fs, dest).Ok?
    requires AfterWrite(EnsureDir(fs, dest).value, dest, []).Ok?
    ensures var srcDir := host.abspath(c.properties["src_directory"]);
      var page := host.render(c.properties["template_env"], Drop(src, |srcDir|), HtmlContext(c, fs, host, src).value);
      HtmlSpec(fs, host, c, src, dest) ==
        Step(Fs(fs.files[dest := page], EnsureDir(fs, dest).value.dirs), Ok(dest))
  {
  }

  // ---------------------------------------------------------------------
  // The builders, on a file system updated in place

  method BuildStatic(fsys: FileSystem, src: Path, dest: Path) returns (r: Result<Path>)
    modifies fsys
    ensures Step(fsys.State(), r) == StaticSpec(old(fsys.State()), src, dest)
  {
    var source := fsys.ReadFile(src);
    if source.Err? {
      return Err(source.error);
    }
    var truncated := fsys.WriteFile(dest, []);
    if truncated.Err? {
      return Err(truncated.error);
    }
    var contents := fsys.ReadFile(src);
    var _ := fsys.WriteFile(dest, contents.value);
    return Ok(dest);
  }

  method BuildCompiled(fsys: FileSystem, tool: Tool, src: Path, dest: Path)
    returns (r: Result<Path>)
    modifies fsys
    ensures Step(fsys.State(), r) == CompileSpec(old(fsys.State()), tool, src, dest)
  {
    var (base, _) := SplitExt(dest);
    var out := base + ".js";
    if !tool.starts {
      return Err(OSError);
    }
    var source := fsys.ReadFile(src);
    if source.Err? || tool.run(source.value).None? {
      return Err(CalledProcessError);
    }
    var written := fsys.WriteFile(out, tool.run(source.value).value);
    if written.Err? {
      return Err(written.error);
    }
    return Ok(out);
  }

  method BuildLess(fsys: FileSystem, host: Host, src: Path, dest: Path) returns (r: Result<Path>)
    modifies fsys
    ensures Step(fsys.State(), r) == LessSpec(old(fsys.State()), host, src, dest)
  {
    var (base, _) := SplitExt(dest);
    var out := base + ".css";
    if !host.lessc.starts {
      return Err(OSError);
    }
    var source := fsys.ReadFile(src);
    if source.Ok? && host.lessc.run(source.value).Some? {
      var _ := fsys.WriteFile(out, host.lessc.run(source.value).value);
    }
    return Ok(out);
  }

  method BuildCompiler(kind: BuilderKind, fsys: FileSystem, host: Host, src: Path, dest: Path)
    returns (r: Result<Path>)
    modifies fsys
    ensures Step(fsys.State(), r) == CompilerSpec(kind, old(fsys.State()), host, src, dest)
  {
    match kind
    case CoffeeBuilder => r := BuildCompiled(fsys, host.coffee, src, dest);
    case IcedBuilder => r := BuildCompiled(fsys, host.iced, src, dest);
    case LessBuilder => r := BuildLess(fsys, host, src, dest);
    case _ => r := BuildStatic(fsys, src, dest);
  }

  /** The shared body of `build_js` and `build_css`. */
  method BuildWithFallback(fsys: FileSystem, host: Host, src: Path, dest: Path, newExt: string,
                           siblings: seq<(string, BuilderKind)>) returns (r: Result<Path>)
    modifies fsys
    ensures Step(fsys.State(), r) == FallbackSpec(old(fsys.State()), host, src, dest, newExt, siblings)
  {
    if !Exists(fsys.State(), src) {
      var (base, _) := SplitExt(src);
      for i := 0 to |siblings|
        invariant fsys.State() == old(fsys.State())
        invariant SiblingSpec(fsys.State(), host, base, dest, newExt, siblings) ==
                  SiblingSpec(fsys.State(), host, base, dest, newExt, siblings[i..])
      {
        assert siblings[i..][1..] == siblings[i + 1..];
        var (ext, kind) := siblings[i];
        if Exists(fsys.State(), base + ext) {
          var (dbase, _) := SplitExt(dest);
          r := BuildCompiler(kind, fsys, host, base + ext, dbase + newExt);
          return;
        }
      }
    }
    r := BuildStatic(fsys, src, dest);
  }

  method BuildHtml(fsys: FileSystem, host: Host, c: Config, src: Path, dest: Path) returns (r: Result<Path>)
    modifies fsys
    ensures Step(fsys.State(), r) == HtmlSpec(old(fsys.State()), host, c, src, dest)
  {
    var srcDirectory := Get(c, "src_directory");
    if srcDirectory.Err? {
      return Err(srcDirectory.error);
    }
    var srcDir := host.abspath(srcDirectory.value);
    var baseCtx := BaseContext(c, fsys.State(), host);
    if baseCtx.Err? {
      return Err(baseCtx.error);
    }
    var dataCtx := ReadContext(c, fsys.State(), host, HtmlToJson(src));
    var ctx := baseCtx.value + dataCtx;
    var destDir := Dirname(dest);
    if !Exists(fsys.State(), destDir) {
      var made := fsys.MakeDirs(destDir);
      if made.Err? {
        return Err(made.error);
      }
    }
    var env := Get(c, "template_env");
    if env.Err? {
      return Err(env.error);
    }
    var written := fsys.WriteFile(dest, host.render(env.value, Drop(src, |srcDir|), ctx));
    if written.Err? {
      return Err(written.error);
    }
    return Ok(dest);
  }

  method RunBuilder(kind: BuilderKind, fsys: FileSystem, host: Host, c: Config, src: Path, dest: Path)
    returns (r: Result<Path>)
    modifies fsys
    ensures Step(fsys.State(), r) == RunSpec(kind, old(fsys.State()), host, c, src, dest)
  {
    match kind
    case HtmlBuilder => r := BuildHtml(fsys, host, c, src, dest);
    case StaticBuilder => r := BuildStatic(fsys, src, dest);
    case JsBuilder => r := BuildWithFallback(fsys, host, src, dest, ".js", JsSiblings);
    case CssBuilder => r := BuildWithFallback(fsys, host, src, dest, ".css", CssSiblings);
    case CoffeeBuilder => r := BuildCompiled(fsys, host.coffee, src, dest);
    case IcedBuilder => r := BuildCompiled(fsys, host.iced, src, dest);
    case LessBuilder => r := BuildLess(fsys, host, src, dest);
  }

  // ---------------------------------------------------------------------
  // The builder table, updated in place

  class Registry {
    var builders: Table

    constructor()
      ensures builders == map[]
    {
      builders := map[];
    }

    /** `register(*exts)(func)`, which hands the function back. */
    method Register(exts: seq<string>, kind: BuilderKind) returns (f: BuilderKind)
      modifies this
      ensures f == kind
      ensures builders == Registered(old(builders), exts, kind)
    {
      for i := 0 to |exts|
        invariant builders == Registered(old(builders), exts[..i], kind)
      {
        assert exts[..i + 1][..i] == exts[..i];
        builders := builders[exts[i] := kind];
      }
      assert exts[..|exts|] == exts;
      f := kind;
    }

    /** The decorators run when the module is imported. */
    method Install()
      modifies this
      ensures builders == RegisterAll(old(builders), Registrations)
    {
      for i := 0 to |Registrations|
        invariant builders == RegisterAll(old(builders), Registrations[..i])
      {
        assert Registrations[..i + 1][..i] == Registrations[..i];
        var _ := Register(Registrations[i].0, Registrations[i].1);
      }
      assert Registrations[..|Registrations|] == Registrations;
    }

    /** `__BUILDERS[ext]` */
    method Get(ext: string) returns (kind: BuilderKind)
      modifies this
      ensures (kind, builders) == Lookup(old(builders), ext)
    {
      if ext !in builders {
        builders := builders[ext := StaticBuilder];
      }
      kind := builders[ext];
    }

    /** `build_file(config, src_file, dest_file)` */
    method BuildFile(fsys: FileSystem, host: Host, c: Config, src: Path, dest: Path)
      returns (r: Result<Path>)
      modifies this, fsys
      ensures (builders, Step(fsys.State(), r)) ==
              BuildFileSpec(old(builders), old(fsys.State()), host, c, src, dest)
    {
      var destDir := Dirname(dest);
      if !Exists(fsys.State(), destDir) {
        var made := fsys.MakeDirs(destDir);
        if made.Err? {
          return Err(made.error);
        }
      }
      var (_, ext) := SplitExt(src);
      var kind := Get(ext);
      r := RunBuilder(kind, fsys, host, c, src, dest);
    }
  }
}

/** `stationary/config.py`: the site configuration. A `Config` wraps a
    property dict; attribute lookup falls back to that dict; `read_config`
    fills the dict from the `stationary` section of the first configuration
    file found, and the two context readers load JSON data files, giving an
    empty context when there is nothing to read. */
module Config {
  import opened Common
  import opened Paths
  import opened Disk
  import opened Host

  // ---------------------------------------------------------------------
  // Properties and their converters

  /** `str` or `make_absolute`, the two converters of the table. */
  datatype Converter = AsText | MakeAbsolute

  const PropertyConverters: map<string, Converter> := map[
    "base_context_filename" := AsText,
    "build_directory" := MakeAbsolute,
    "data_directory" := MakeAbsolute,
    "layout_directory" := MakeAbsolute,
    "layout" := AsText,
    "src_directory" := MakeAbsolute,
    "template_language" := AsText
  ]

  /** `DEFAULT_PROPERTIES`, whose directories are made absolute when the
      module is loaded. */
  function DefaultProperties(host: Host): map<string, string> {
    map[
      "base_context_filename" := "_global.json",
      "build_directory" := host.abspath("build/"),
      "data_directory" := host.abspath("data/"),
      "layout_directory" := host.abspath("layout/"),
      "layout" := "default",
      "src_directory" := host.abspath("src/"),
      "template_language" := "jinja2"
    ]
  }

  /** `t(x)` for a converter `t`: `str` leaves a string alone. */
  function ApplyConverter(host: Host, t: Converter, x: string): string {
    match t
    case AsText => x
    case MakeAbsolute => host.abspath(x)
  }

  /** The defaults are exactly the options that have a converter, and each
      default already has the form its converter gives. */
  lemma DefaultsHaveConverters(host: Host)
    ensures DefaultProperties(host).Keys == PropertyConverters.Keys
    ensures forall k :: k in PropertyConverters && PropertyConverters[k] == MakeAbsolute ==>
      exists x :: DefaultProperties(host)[k] == host.abspath(x)
  {
    DefaultKeys(host);
    var d := DefaultProperties(host);
    assert d["build_directory"] == host.abspath("build/");
    assert d["data_directory"] == host.abspath("data/");
    assert d["layout_directory"] == host.abspath("layout/");
    assert d["src_directory"] == host.abspath("src/");
  }

  /** The option names of both tables. */
  lemma DefaultKeys(host: Host)
    ensures DefaultProperties(host).Keys == OptionNames && PropertyConverters.Keys == OptionNames
  {
  }

  const OptionNames: set<string> := {
    "base_context_filename", "build_directory", "data_directory", "layout_directory",
    "layout", "src_directory", "template_language"
  }

  // ---------------------------------------------------------------------
  // The Config object

  datatype Config = Config(properties: map<string, string>)

  /** `Config(properties)`: an empty or missing dict is replaced by a fresh
      copy of the defaults. */
  function NewConfig(properties: Option<map<string, string>>, host: Host): (c: Config)
    ensures properties.Some? && properties.value != map[] ==> c.properties == properties.value
    ensures properties.None? || properties.value == map[] ==> c.properties == DefaultProperties(host)
  {
    if properties.Some? && properties.value != map[] then Config(properties.value)
    else Config(DefaultProperties(host))
  }

  /** The names `object.__getattribute__` finds on a Config: the instance's
      `_properties`, the class's methods and the attributes every Python 2
      object has. */
  const Members: set<string> := {
    "_properties", "__init__", "__getattribute__", "base_context", "read_context",
    "__class__", "__delattr__", "__dict__", "__doc__", "__format__", "__hash__",
    "__module__", "__new__", "__reduce__", "__reduce_ex__", "__repr__",
    "__setattr__", "__sizeof__", "__str__", "__subclasshook__", "__weakref__"
  }

  datatype Attribute = Member(name: string) | Property(value: string)

  /** `config.attr`: ordinary lookup first, then the property dict, and
      otherwise the AttributeError of the ordinary lookup. */
  function GetAttribute(c: Config, attr: string): Result<Attribute> {
    if attr in Members then Ok(Member(attr))
    else if attr in c.properties then Ok(Property(c.properties[attr]))
    else Err(AttributeError)
  }

  /** The value of a property-valued attribute. */
  function Get(c: Config, name: string): (r: Result<string>)
    requires name !in Members
    ensures r.Ok? <==> GetAttribute(c, name).Ok?
    ensures r.Ok? ==> GetAttribute(c, name) == Ok(Property(r.value))
    ensures r.Err? ==> r.error == AttributeError
  {
    if name in c.properties then Ok(c.properties[name]) else Err(AttributeError)
  }

  /** A property can never hide a method or a Python attribute: whatever
      two configurations hold, a member name finds the member in both. Any
      other name reads back the value last stored under it, and storing
      one name leaves every other attribute as it was. */
  lemma AttributeLookup(c: Config, c': Config, attr: string, other: string, v: string)
    ensures attr in Members ==> GetAttribute(c, attr) == GetAttribute(c', attr) == Ok(Member(attr))
    ensures attr !in Members ==> GetAttribute(Config(c.properties[attr := v]), attr) == Ok(Property(v))
    ensures other != attr ==> GetAttribute(Config(c.properties[attr := v]), other) == GetAttribute(c, other)
  {
  }

  /** `Config(None)` and `Config({})` behave alike: both use the defaults. */
  lemma EmptyIsDefault(host: Host)
    ensures NewConfig(None, host) == NewConfig(Some(map[]), host)
    ensures NewConfig(None, host).properties == DefaultProperties(host)
  {
  }

  /** A non-empty dict is used as it is: a default property it lacks is not
      filled in. */
  lemma NoMergeWithDefaults(host: Host, p: map<string, string>, name: string)
    requires p != map[] && name !in p && name !in Members
    ensures Get(NewConfig(Some(p), host), name) == Err(AttributeError)
  {
  }

  // ---------------------------------------------------------------------
  // Finding the configuration file

  /** `cands` of `find_config`: the explicit name is appended only when it is
      a non-empty string. */
  function Candidates(fname: Option<string>): (r: seq<string>)
    ensures |r| == 2 || |r| == 3
  {
    ["stationary", "Stationary"] + (if fname.Some? && fname.value != [] then [fname.value] else [])
  }

  /** The search over `cands[..i]` in reverse order: the absolute form of the
      last candidate that exists. */
  function LastExisting(fs: Fs, host: Host, cands: seq<string>, i: nat): (r: Option<Path>)
    requires i <= |cands|
    ensures r.Some? ==> Exists(fs, r.value)
    ensures r.None? <==> forall j :: 0 <= j < i ==> !Exists(fs, host.abspath(cands[j]))
  {
    if i == 0 then None
    else if Exists(fs, host.abspath(cands[i - 1])) then Some(host.abspath(cands[i - 1]))
    else LastExisting(fs, host, cands, i - 1)
  }

  function FindConfigSpec(fs: Fs, host: Host, fname: Option<string>): Option<Path> {
    var cands := Candidates(fname);
    LastExisting(fs, host, cands, |cands|)
  }

  /** The search order: the explicit name, then `Stationary`, then
      `stationary`; the first that exists wins, and there is no result only
      when none exists. */
  lemma FindConfigOrder(fs: Fs, host: Host, fname: Option<string>)
    ensures var f := fname.Some? && fname.value != [];
      var a := host.abspath;
      FindConfigSpec(fs, host, fname) ==
        if f && Exists(fs, a(fname.value)) then Some(a(fname.value))
        else if Exists(fs, a("Stationary")) then Some(a("Stationary"))
        else if Exists(fs, a("stationary")) then Some(a("stationary"))
        else None
  {
    var cands := Candidates(fname);
    var a := host.abspath;
    var l1 := LastExisting(fs, host, cands, 1);
    var l2 := LastExisting(fs, host, cands, 2);
    assert l1 == if Exists(fs, a("stationary")) then Some(a("stationary")) else None;
    assert l2 == if Exists(fs, a("Stationary")) then Some(a("Stationary")) else l1;
    if fname.Some? && fname.value != [] {
      assert cands[2] == fname.value;
      assert LastExisting(fs, host, cands, 3) ==
        if Exists(fs, a(fname.value)) then Some(a(fname.value)) else l2;
    }
  }

  /** `find_config(fname)` */
  method FindConfig(fsys: FileSystem, host: Host, fname: Option<string>) returns (r: Option<Path>)
    ensures r == FindConfigSpec(fsys.State(), host, fname)
  {
    var cands := ["stationary", "Stationary"];
    if fname.Some? && fname.value != [] {
      cands := cands + [fname.value];
    }
    assert cands == Candidates(fname);
    var i := |cands|;
    while i > 0
      invariant 0 <= i <= |cands|
      invariant LastExisting(fsys.State(), host, cands, i) == FindConfigSpec(fsys.State(), host, fname)
      decreases i
    {
      i := i - 1;
      var a := host.abspath(cands[i]);
      if a != [] && (a in fsys.files || a in fsys.dirs) {
        return Some(a);
      }
    }
    return None;
  }

  // ---------------------------------------------------------------------
  // Reading the configuration

  /** What the loops of `read_config` gather: the converted properties and
      the unknown options that were warned about, in order. */
  datatype Gathered = Gathered(properties: map<string, string>, unknown: seq<string>)

  /** The inner loop over the options of the `stationary` section. */
  function GatherOptions(host: Host, acc: Gathered, options: seq<(string, string)>): Gathered {
    if options == [] then acc
    else
      var prev := GatherOptions(host, acc, options[..|options| - 1]);
      var (o, v) := options[|options| - 1];
      if o in PropertyConverters
      then Gathered(prev.properties[o := ApplyConverter(host, PropertyConverters[o], v)], prev.unknown)
      else Gathered(prev.properties, prev.unknown + [o])
  }

  /** The outer loop over the sections: only `stationary` is read. */
  function Gather(host: Host, sections: seq<IniSection>): Gathered {
    if sections == [] then Gathered(map[], [])
    else
      var prev := Gather(host, sections[..|sections| - 1]);
      var s := sections[|sections| - 1];
      if s.name == "stationary" then GatherOptions(host, prev, s.options) else prev
  }

  /** The sections `cp.read` yields: a file it cannot open is skipped
      silently, a malformed one raises. */
  function SectionsOf(fs: Fs, host: Host, absname: Path): Result<seq<IniSection>> {
    if absname !in fs.files then Ok([])
    else
      match host.parseIni(fs.files[absname])
      case None => Err(ConfigParserError)
      case Some(sections) => Ok(sections)
  }

  /** `read_config(fname)`, with the unknown options it warns about. */
  function ReadConfigSpec(fs: Fs, host: Host, fname: Option<string>): Result<(Config, seq<string>)> {
    match FindConfigSpec(fs, host, fname)
    case None => Ok((NewConfig(Some(DefaultProperties(host)), host), []))
    case Some(absname) =>
      match SectionsOf(fs, host, absname)
      case Err(e) => Err(e)
      case Ok(sections) =>
        var g := Gather(host, sections);
        Ok((NewConfig(Some(g.properties), host), g.unknown))
  }

  method ReadConfig(fsys: FileSystem, host: Host, fname: Option<string>)
    returns (r: Result<(Config, seq<string>)>)
    ensures r == ReadConfigSpec(fsys.State(), host, fname)
  {
    var absname := FindConfig(fsys, host, fname);
    if absname.None? {
      return Ok((NewConfig(Some(DefaultProperties(host)), host), []));
    }
    var sections := [];
    if absname.value in fsys.files {
      var parsed := host.parseIni(fsys.files[absname.value]);
      if parsed.None? {
        return Err(ConfigParserError);
      }
      sections := parsed.value;
    }
    var properties := map[];
    var unknown := [];
    for i := 0 to |sections|
      invariant Gathered(properties, unknown) == Gather(host, sections[..i])
    {
      var section := sections[i];
      var options := section.options;
      assert sections[..i + 1][..i] == sections[..i];
      if section.name == "stationary" {
        for j := 0 to |options|
          invariant Gathered(properties, unknown) == GatherOptions(host, Gather(host, sections[..i]), options[..j])
        {
          var (o, v) := options[j];
          assert options[..j + 1][..j] == options[..j];
          if o in PropertyConverters {
            properties := properties[o := ApplyConverter(host, PropertyConverters[o], v)];
          } else {
            unknown := unknown + [o];
          }
        }
        assert options[..|options|] == options;
      }
    }
    assert sections[..|sections|] == sections;
    r := Ok((NewConfig(Some(properties), host), unknown));
  }

  /** An option of the `stationary` section: position `j` of section `i`. */
  predicate StationaryOption(sections: seq<IniSection>, i: int, j: int) {
    0 <= i < |sections| && sections[i].name == "stationary" && 0 <= j < |sections[i].options|
  }

  /** Every gathered property is an option with a converter, read from a
      `stationary` section and converted by its converter; every such option
      is gathered; the warnings name exactly the options without one. */
  lemma GatherIsStationaryOnly(host: Host, sections: seq<IniSection>, k: string)
    ensures k in Gather(host, sections).properties <==>
      k in PropertyConverters &&
      exists i, j :: StationaryOption(sections, i, j) && sections[i].options[j].0 == k
    ensures k in Gather(host, sections).properties ==>
      exists i, j :: StationaryOption(sections, i, j) && sections[i].options[j].0 == k &&
        Gather(host, sections).properties[k] == ApplyConverter(host, PropertyConverters[k], sections[i].options[j].1)
    ensures k in Gather(host, sections).unknown <==>
      k !in PropertyConverters &&
      exists i, j :: StationaryOption(sections, i, j) && sections[i].options[j].0 == k
  {
    GatherProperties(host, sections, k);
    GatherUnknown(host, sections, k);
  }

  /** The gathered properties, by induction over the sections. */
  lemma {:induction false} GatherProperties(host: Host, sections: seq<IniSection>, k: string)
    ensures k in Gather(host, sections).properties <==>
      k in PropertyConverters &&
      exists i, j :: StationaryOption(sections, i, j) && sections[i].options[j].0 == k
    ensures k in Gather(host, sections).properties ==>
      exists i, j :: StationaryOption(sections, i, j) && sections[i].options[j].0 == k &&
        Gather(host, sections).properties[k] == ApplyConverter(host, PropertyConverters[k], sections[i].options[j].1)
    decreases |sections|
  {
    if sections != [] {
      var n := |sections| - 1;
      var init := sections[..n];
      GatherProperties(host, init, k);
      SectionsPrefix(sections, n);
      if sections[n].name == "stationary" {
        GatherOptionsFacts(host, Gather(host, init), sections[n].options, k);
        forall j | 0 <= j < |sections[n].options| ensures StationaryOption(sections, n, j) {
        }
      }
    }
  }

  /** The warnings, by induction over the sections. */
  lemma {:induction false} GatherUnknown(host: Host, sections: seq<IniSection>, k: string)
    ensures k in Gather(host, sections).unknown <==>
      k !in PropertyConverters &&
      exists i, j :: StationaryOption(sections, i, j) && sections[i].options[j].0 == k
    decreases |sections|
  {
    if sections != [] {
      var n := |sections| - 1;
      var init := sections[..n];
      GatherUnknown(host, init, k);
      SectionsPrefix(sections, n);
      if sections[n].name == "stationary" {
        GatherOptionsFacts(host, Gather(host, init), sections[n].options, k);
        forall j | 0 <= j < |sections[n].options| ensures StationaryOption(sections, n, j) {
        }
      }
    }
  }

  /** The options of the first `n` sections are those of all the sections
      before position `n`. */
  lemma SectionsPrefix(sections: seq<IniSection>, n: nat)
    requires n <= |sections|
    ensures forall i, j :: StationaryOption(sections[..n], i, j) ==> StationaryOption(sections, i, j) && sections[i] == sections[..n][i]
    ensures forall i, j :: StationaryOption(sections, i, j) && i < n ==> StationaryOption(sections[..n], i, j) && sections[i] == sections[..n][i]
  {
  }

  /** The inner loop adds an option with a converter, converted, and warns
      about the others; it leaves everything else as it was. */
  lemma {:induction false} GatherOptionsFacts(host: Host, acc: Gathered, options: seq<(string, string)>, k: string)
    ensures k in GatherOptions(host, acc, options).properties <==>
      k in acc.properties || (k in PropertyConverters && exists j :: 0 <= j < |options| && options[j].0 == k)
    ensures k in GatherOptions(host, acc, options).properties && k in PropertyConverters ==>
      (exists j :: 0 <= j < |options| && options[j].0 == k &&
        GatherOptions(host, acc, options).properties[k] == ApplyConverter(host, PropertyConverters[k], options[j].1))
      || ((forall j :: 0 <= j < |options| ==> options[j].0 != k) &&
        GatherOptions(host, acc, options).properties[k] == acc.properties[k])
    ensures k in GatherOptions(host, acc, options).unknown <==>
      k in acc.unknown || (k !in PropertyConverters && exists j :: 0 <= j < |options| && options[j].0 == k)
    decreases |options|
  {
    if options != [] {
      var n := |options| - 1;
      GatherOptionsFacts(host, acc, options[..n], k);
      assert forall j :: 0 <= j < n ==> options[..n][j] == options[j];
    }
  }

  /** Without a configuration file the defaults are used. */
  lemma NoFileGivesDefaults(fs: Fs, host: Host, fname: Option<string>)
    requires FindConfigSpec(fs, host, fname).None?
    ensures ReadConfigSpec(fs, host, fname).Ok?
    ensures ReadConfigSpec(fs, host, fname).value.0.properties == DefaultProperties(host)
  {
  }

  /** With a file that sets something, the result holds what the file sets
      and nothing else: the defaults are not merged in. */
  lemma FileReplacesDefaults(fs: Fs, host: Host, fname: Option<string>, sections: seq<IniSection>)
    requires FindConfigSpec(fs, host, fname).Some?
    requires SectionsOf(fs, host, FindConfigSpec(fs, host, fname).value) == Ok(sections)
    requires Gather(host, sections).properties != map[]
    ensures ReadConfigSpec(fs, host, fname).Ok?
    ensures ReadConfigSpec(fs, host, fname).value.0.properties == Gather(host, sections).properties
  {
  }

  /** `read_config` raises exactly when the file it found is a file that the
      parser rejects; a directory of that name is skipped. */
  lemma ReadConfigRaises(fs: Fs, host: Host, fname: Option<string>)
    ensures ReadConfigSpec(fs, host, fname).Err? <==>
      var found := FindConfigSpec(fs, host, fname);
      found.Some? && found.value in fs.files && host.parseIni(fs.files[found.value]).None?
    ensures ReadConfigSpec(fs, host, fname).Err? ==> ReadConfigSpec(fs, host, fname).error == ConfigParserError
  {
  }

  /** The two names the build asks for are not attributes of the class. */
  lemma NotMembers()
    ensures "build_data_directory" !in Members && "template_env" !in Members
    ensures "build_data_directory" !in OptionNames && "template_env" !in OptionNames
  {
  }

  /** `read_config` only ever produces the keys of the converter table, so
      `build_data_directory` and `template_env`, which the build and the HTML
      builder ask for, are never set. */
  lemma {:induction false} ReadConfigKeys(fs: Fs, host: Host, fname: Option<string>, c: Config)
    requires ReadConfigSpec(fs, host, fname).Ok? && ReadConfigSpec(fs, host, fname).value.0 == c
    ensures c.properties.Keys <= PropertyConverters.Keys
    ensures "build_data_directory" !in Members && "template_env" !in Members
    ensures Get(c, "build_data_directory") == Err(AttributeError)
    ensures Get(c, "template_env") == Err(AttributeError)
  {
    NotMembers();
    DefaultKeys(host);
    match FindConfigSpec(fs, host, fname)
    case None =>
    case Some(absname) =>
      var sections := SectionsOf(fs, host, absname).value;
      forall k | k in Gather(host, sections).properties ensures k in PropertyConverters {
        GatherIsStationaryOnly(host, sections, k);
      }
  }

  // ---------------------------------------------------------------------
  // The context readers

  /** `config.base_context()`: the global context file, `{}` when it is
      missing or unreadable; a file that cannot be opened raises IOError,
      a file that is not JSON raises ValueError. */
  function BaseContext(c: Config, fs: Fs, host: Host): Result<Context> {
    match Get(c, "data_directory")
    case Err(e) => Err(e)
    case Ok(dataDir) =>
      match Get(c, "base_context_filename")
      case Err(e) => Err(e)
      case Ok(name) =>
        var baseFile := Join(dataDir, name);
        if !Exists(fs, baseFile) || !host.access(baseFile, ReadOk) then Ok(map[])
        else
          match Read(fs, baseFile)
          case Err(e) => Err(e)
          case Ok(bytes) =>
            match host.parseJson(bytes)
            case None => Err(ValueError)
            case Some(ctx) => Ok(ctx)
  }

  /** `config.read_context(src_file)`: the data file `reroot` names for the
      source file; every failure inside it, including a missing attribute,
      gives `{}`. */
  function ReadContext(c: Config, fs: Fs, host: Host, srcFile: Path): Context {
    var src := host.abspath(srcFile);
    match DataFile(c, host, src)
    case None => map[]
    case Some(dataFile) =>
      if !Exists(fs, dataFile) || !host.access(dataFile, ReadOk) then map[]
      else
        match Read(fs, dataFile)
        case Err(_) => map[]
        case Ok(bytes) =>
          match host.parseJson(bytes)
          case None => map[]
          case Some(ctx) => ctx
  }

  /** `reroot(src_file, srcdir=..., destdir=...)` inside `read_context`, or
      nothing when an attribute is missing or `reroot` raises. */
  function DataFile(c: Config, host: Host, src: Path): Option<Path> {
    match Get(c, "src_directory")
    case Err(_) => None
    case Ok(srcDir) =>
      match Get(c, "data_directory")
      case Err(_) => None
      case Ok(dataDir) => host.reroot(src, srcDir, dataDir)
  }

  /** The base context is `{}` when the file is missing or unreadable, and
      otherwise the file's JSON. */
  lemma BaseContextCases(c: Config, fs: Fs, host: Host)
    requires "data_directory" in c.properties && "base_context_filename" in c.properties
    ensures var f := Join(c.properties["data_directory"], c.properties["base_context_filename"]);
      (!Exists(fs, f) || !host.access(f, ReadOk) ==> BaseContext(c, fs, host) == Ok(map[])) &&
      (f != [] && f in fs.files && host.access(f, ReadOk) ==>
         BaseContext(c, fs, host) ==
           (if host.parseJson(fs.files[f]).Some? then Ok(host.parseJson(fs.files[f]).value) else Err(ValueError)))
  {
  }

  /** A raised base context comes from a missing attribute, a data path that
      is a directory, or bad JSON. */
  lemma BaseContextErrors(c: Config, fs: Fs, host: Host)
    ensures BaseContext(c, fs, host).Err? ==>
      BaseContext(c, fs, host).error in {AttributeError, IOError, ValueError}
  {
  }

  /** `read_context` never raises: it gives a parsed data file or `{}`, and
      `{}` whenever the data file is missing, unreadable, not a regular file or
      not JSON. */
  lemma ReadContextCases(c: Config, fs: Fs, host: Host, srcFile: Path)
    ensures var d := DataFile(c, host, host.abspath(srcFile));
      ReadContext(c, fs, host, srcFile) ==
        if d.Some? && Exists(fs, d.value) && host.access(d.value, ReadOk) && d.value in fs.files
           && host.parseJson(fs.files[d.value]).Some?
        then host.parseJson(fs.files[d.value]).value
        else map[]
  {
  }
}

/** The collaborators the builder calls but does not define: `abspath`,
    `reroot`, the JSON and INI parsers, the Jinja2 renderer, the `coffee`,
    `iced` and `lessc` compilers, `os.access`, `os.walk`, `build_data` and the
    system's MIME table. Each is a total function the model is parameterised
    by; nothing is assumed about what it computes. */
module Host {
  import opened Common
  import opened Disk

  /** A decoded JSON document. */
  datatype Json =
    | JNull
    | JBool(b: bool)
    | JNumber(text: string)
    | JString(s: string)
    | JArray(items: seq<Json>)
    | JObject(fields: map<string, Json>)

  /** A template context: the top-level JSON object of a data file. */
  type Context = map<string, Json>

  /** `os.R_OK` and `os.W_OK` */
  datatype Mode = ReadOk | WriteOk

  /** One triple `(root, dirs, files)` yielded by `os.walk`. */
  datatype WalkEntry = WalkEntry(root: Path, dirs: seq<string>, files: seq<string>)

  /** A section of a parsed configuration file with its options, as
      `cp.options(section)` and `cp.get(section, o)` report them. */
  datatype IniSection = IniSection(name: string, options: seq<(string, string)>)

  /** An external program run through `subprocess`: whether it can be
      started at all (when it cannot, `subprocess` raises OSError), and what
      it prints for the bytes of a source file (`None` when it exits with a
      non-zero status). */
  datatype Tool = Tool(starts: bool, run: Bytes -> Option<Bytes>)

  datatype Host = Host(
    abspath: Path -> Path,
    /** `reroot(src, srcdir=, destdir=)`; `None` when it raises. */
    reroot: (Path, Path, Path) -> Option<Path>,
    /** `json.load`; `None` when it raises ValueError. */
    parseJson: Bytes -> Option<Context>,
    /** `SafeConfigParser.read` of a readable file; `None` when it raises
        (a missing section header, a malformed line). */
    parseIni: Bytes -> Option<seq<IniSection>>,
    /** `env.get_template(name).render(**ctx)` */
    render: (string, string, Context) -> Bytes,
    /** `coffee --print`, `iced --runtime inline --print` and `lessc`. */
    coffee: Tool,
    iced: Tool,
    lessc: Tool,
    /** `os.access(path, mode)` */
    access: (Path, Mode) -> bool,
    /** `list(os.walk(top))` over the tree as it is when the walk starts. */
    walk: (Fs, Path) -> seq<WalkEntry>,
    /** `build_data(config, src, dest)`: its effect on the files. */
    buildData: (Fs, Path, Path) -> Step<()>,
    /** `mimetypes.types_map` before the module registers its own types. */
    mimeTypes: map<string, string>
  )
}

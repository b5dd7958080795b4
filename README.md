# stationary, modelled in Dafny

stationary is a small static-site builder. It reads a `stationary` INI
file into a `Config` object. It then runs the tasks named on the command
line:

- `build` walks the source tree and hands every file to a builder chosen
  by its extension: Jinja2 pages, plain copies, CoffeeScript, Iced and
  LESS compilers.
- `clean` empties the build directory.
- `sanity_check` makes sure the build directories exist.
- `help` lists the tasks.
- `develop` serves pages.

This project models that core in Dafny 4.11 and proves properties of the
model. Each source file becomes a module; two helper modules stand for the
parts of Python and of the operating system it uses:

- `Types` (`stationary/types.py`): the regular-expression table and
  `convert`. Each pattern is a predicate on strings. `strptime` is written
  out, calendar checks included.
- `Utils` (`stationary/utils.py`): `allf`.
- `Config` (`stationary/config.py`):
  - the defaults and converters;
  - the `Config` object with its attribute lookup;
  - `find_config` and `read_config`;
  - `base_context` and `read_context`.
- `Build` (`stationary/build.py`):
  - the builder table `__BUILDERS` (a `defaultdict` that inserts
    `build_static` on a miss), kept in the class `Registry`;
  - `register` and `build_file`;
  - every builder, as a function of the file system and as a method that
    updates it in place.
- `Action` (`stationary/action.py`):
  - the task table `TASKS`, in the class `TaskRegistry`;
  - the decorator `task`;
  - `check_dir`, `sanity_check`, `clean`, `build` and `help`;
  - `mimeof` and the module's `add_type` calls.
- `Cli` (`stationary/main.py`): the argument scan, the priority sort and the
  loop that runs the tasks.
- `Common`, `Paths`, `Disk`: the Python string operations, `os.path` and
  the file system.
  - `Disk.FileSystem` is a class holding a map from path to bytes and a set
    of directories.
  - Its methods are proved to perform the functions `AfterWrite`,
    `AfterMakeDirs`, `AfterUnlink` and `AfterRmDir`. These give either the
    new state or the exception Python raises.
- `Host`: the collaborators the model is parameterised by, each a total
  function about which nothing is assumed:
  - `abspath`, `reroot` and `build_data`;
  - the JSON and INI parsers and the template renderer;
  - the external compilers, `os.access` and `os.walk`;
  - the system MIME table.

Every operation is written twice:

- a specification function of the old state, returning the new state, the
  outcome (a `Result` holding the Python exception), and for `build` the
  calls it made;
- a method on the classes, whose `ensures` makes it equal to that function.

Lemmas then prove what the source promises about the specification
functions.

## Model

| member | source | states |
|---|---|---|
| Common.Lower | stationary/types.py:12-13 | `str.lower()` keeps the length and lowers each ASCII capital, leaving every other character alone |
| Common.HtmlToJson | stationary/build.py:49 | `replace('.html', '.json')` keeps the length of the name |
| Common.HtmlToJsonWithoutHtml | stationary/build.py:49 | a name without `.html` in it is unchanged |
| Common.HtmlToJsonExamples | stationary/build.py:49 | every occurrence is replaced, not only the extension: `.html.html` becomes `.json.json` |
| Paths.SplitExt | stationary/build.py:36 | `splitext` cuts the path into stem and extension; the extension is empty or a dot followed by no dot and no slash |
| Paths.SplitExtAppend | stationary/build.py:94-95 | a stem with a real file name plus `.` plus a plain extension splits back into exactly those parts |
| Paths.SplitExtExamples | stationary/build.py:36 | a leading-dot name has no extension; only the last extension is split off |
| Paths.Dirname | stationary/build.py:32 | `dirname` is a prefix of the path; a name without a slash has the empty directory; trailing slashes are stripped unless the result is all slashes |
| Paths.DirnameExamples | stationary/build.py:32 | the directory of an absolute file, of a file at the root and of a bare name |
| Paths.JoinKeepsPrefix | stationary/action.py:113 | joining a relative name keeps the result under the directory's own prefix |
| Utils.AllIff | stationary/utils.py:7 | `all` is true exactly when no element is false |
| Utils.AllF | stationary/utils.py:3-7 | definition of `allf`; properties in Utils.AllFIff, Utils.AllFEmpty, Utils.AllFOneFalse and Utils.AllFOrderIrrelevant |
| Utils.AllFIff | stationary/utils.py:3-7 | `allf(fns, a)` holds exactly when every function holds of `a` |
| Utils.AllFEmpty | stationary/utils.py:3-7 | with no functions `allf` is true |
| Utils.AllFOneFalse | stationary/utils.py:3-7 | one false function makes `allf` false |
| Utils.AllFOrderIrrelevant | stationary/utils.py:3-7 | two lists holding the same functions give the same answer |
| Types.StrptimeDate | stationary/types.py:10-11 | a parsed date is a real calendar date with a four-digit year, at midnight |
| Types.StrptimeDateTime | stationary/types.py:8-9 | a parsed date-time is a real date with hour 0-23 and minute 0-59 |
| Types.ConvertWith | stationary/types.py:19-26 | definition: the converter of the first table entry whose pattern matches, else the string itself; properties in Types.FirstMatchWins and Types.NoMatchGivesString |
| Types.Convert | stationary/types.py:4-26 | definition: `convert` over `TYPE_CONVERSIONS`; properties in Types.Cascade, Types.IntegerIff, Types.FloatIff, Types.NoneIff, Types.StringIff and Types.RaisesIff |
| Types.FirstMatchWins | stationary/types.py:22-25 | the result is the converter of the first entry whose pattern matches |
| Types.NoMatchGivesString | stationary/types.py:26 | when no entry matches, the string is returned as it is |
| Types.Cascade | stationary/types.py:4-26 | `convert` tries int, float, float with exponent, date-time, date, bool, None and any string, in that order |
| Types.IntegerIff | stationary/types.py:5 | the result is an int exactly when the integer pattern matches |
| Types.IntegerWins | stationary/types.py:5 | an integer string converts to its signed decimal value |
| Types.FloatIff | stationary/types.py:6-7 | the result is a float exactly when a float pattern matches and the integer one does not; the float keeps the text |
| Types.DateTimeParsed | stationary/types.py:8-9 | a date-time prefix converts to the parsed date-time, or raises ValueError when `strptime` rejects the string |
| Types.DateOnlyAtMidnight | stationary/types.py:10-11 | a date without a time converts to midnight of that date, or raises ValueError |
| Types.DateTimeHasTime | stationary/types.py:10-11 | a string with a time part never parses as a bare date |
| Types.DateTimeIsAlsoDate | stationary/types.py:8-11 | every string the date-time pattern accepts is accepted by the date pattern |
| Types.OrderDecidesDates | stationary/types.py:8-11 | with the date entry first, every date-time string would raise ValueError, so the table's order matters |
| Types.DateIsNotNumber | stationary/types.py:5-11 | a date is never taken for a number |
| Types.LetterIsNoNumberOrDate | stationary/types.py:5-11 | a string starting with a letter is neither a number nor a date |
| Types.IntegerIsAlsoAny | stationary/types.py:5-15 | an integer string without newline also matches the catch-all entry |
| Types.BoolAnyCase | stationary/types.py:12-13 | `true` and `false` in any case convert to the matching boolean |
| Types.FirstCharOfBool | stationary/types.py:12 | a string the bool pattern accepts starts with `t` or `f` in either case |
| Types.FirstCharOfNone | stationary/types.py:14 | a string the None pattern accepts starts with `n` in either case |
| Types.NoneIff | stationary/types.py:14 | the result is None exactly when the None pattern matches |
| Types.StringIff | stationary/types.py:15 | the result is a string, the input itself, exactly when no typed entry matches |
| Types.RaisesIff | stationary/types.py:8-13 | `convert` raises exactly for an impossible date or date-time, or for a bool followed by a newline; the exception is ValueError or KeyError |
| Types.IntegerExamples | stationary/types.py:5 | `"42"` gives 42 and `"-7"` gives -7 |
| Types.DecimalExample | stationary/types.py:6 | `"3.14"` gives a float |
| Types.TrailingDotExample | stationary/types.py:6 | `"5."` stays a string: a digit must follow the dot |
| Types.ExponentWithoutDotExample | stationary/types.py:7 | `"1e5"` stays a string: the exponent pattern needs a dot |
| Types.NoneExamples | stationary/types.py:14 | `"None"` gives None while `"null"` stays a string |
| Types.BoolExample | stationary/types.py:12-13 | `"TRUE"` gives True |
| Types.DateTimeExample | stationary/types.py:8-9 | `"2023-1-5 10:30"` gives 5 January 2023 at 10:30 |
| Types.DateOnlyExample | stationary/types.py:10-11 | `"2023-01-05"` gives 5 January 2023 at midnight |
| Types.TrailingJunkExample | stationary/types.py:10-11 | `"2023-01-05x"` matches the date pattern but raises ValueError |
| Types.NoSuchDayExample | stationary/types.py:10-11 | `"2023-02-30"` raises ValueError |
| Types.NewlineExamples | stationary/types.py:5-13 | `$` accepts a final newline: `"42\n"` gives 42, and `"true\n"` raises KeyError in the bool table |
| Config.DefaultsHaveConverters | stationary/config.py:14-35 | the defaults name exactly the options that have converters, and each path default is already absolute |
| Config.NewConfig | stationary/config.py:48-49 | a non-empty property map is kept as given; no map or an empty one gives the defaults |
| Config.EmptyIsDefault | stationary/config.py:49 | `Config()` and `Config({})` are the same object, holding the defaults |
| Config.NoMergeWithDefaults | stationary/config.py:49 | a non-empty map is not merged with the defaults: a missing property raises AttributeError |
| Config.Get | stationary/config.py:51-57 | a property attribute gives its value when the map holds it, and AttributeError otherwise |
| Config.GetAttribute | stationary/config.py:51-57 | definition of `__getattribute__`; properties in Config.AttributeLookup and Config.Get |
| Config.AttributeLookup | stationary/config.py:51-57 | a property can never hide a member of the class, whatever the properties hold; any other name reads back the value last stored under it, and storing one name leaves every other attribute as it was |
| Config.Candidates | stationary/config.py:124-126 | the candidates are the two default names, plus the given name when there is one |
| Config.LastExisting | stationary/config.py:128-133 | the candidate found exists, and nothing is found only when no candidate exists |
| Config.FindConfigSpec | stationary/config.py:123-134 | definition of `find_config`; properties in Config.FindConfigOrder and Config.LastExisting |
| Config.FindConfigOrder | stationary/config.py:123-133 | the given name is tried first, then `Stationary`, then `stationary`; the first that exists is returned |
| Config.FindConfig | stationary/config.py:123-133 | the method returns what the search order gives |
| Config.GatherIsStationaryOnly | stationary/config.py:108-118 | a property is gathered exactly when a `stationary` section has an option of that name with a converter, and its value is that option converted; the warnings name exactly the options without a converter |
| Config.GatherOptionsFacts | stationary/config.py:112-118 | within one section, a later option overrides, and options without a converter are only warned about |
| Config.ReadConfigSpec | stationary/config.py:99-120 | definition of `read_config`; properties in Config.NoFileGivesDefaults, Config.FileReplacesDefaults, Config.ReadConfigRaises, Config.ReadConfigKeys and Config.GatherIsStationaryOnly |
| Config.NoFileGivesDefaults | stationary/config.py:104-106 | without a configuration file `read_config` succeeds with the defaults |
| Config.FileReplacesDefaults | stationary/config.py:102-120 | with a file that parses and sets something, exactly the gathered properties are used and the defaults are dropped |
| Config.ReadConfigRaises | stationary/config.py:101-103 | `read_config` raises exactly when the file it found is a file the parser rejects, and the exception is the parser's error; a directory of that name is skipped |
| Config.ReadConfigKeys | stationary/config.py:99-120 | every configuration `read_config` returns has only converter-backed keys, so `build_data_directory` and `template_env` raise AttributeError |
| Config.ReadConfig | stationary/config.py:99-120 | the method returns the configuration and warnings, or the parser's exception, that the specification gives |
| Config.BaseContext | stationary/config.py:59-69 | definition of `base_context`; properties in Config.BaseContextCases and Config.BaseContextErrors |
| Config.BaseContextCases | stationary/config.py:59-69 | a missing or unreadable global file gives `{}`; otherwise its JSON is used, and malformed JSON raises ValueError |
| Config.BaseContextErrors | stationary/config.py:59-69 | only AttributeError, IOError or ValueError can escape `base_context` |
| Config.ReadContext | stationary/config.py:71-96 | definition of `read_context`; properties in Config.ReadContextCases |
| Config.ReadContextCases | stationary/config.py:71-96 | the rerooted data file's JSON is used when it exists, is readable and parses; every other case, failures included, gives `{}` |
| Disk.AfterWrite | stationary/build.py:74-75 | writing succeeds exactly for a non-empty name that is not a directory and whose directory exists; it then replaces that file only; otherwise it raises IOError |
| Disk.Read | stationary/build.py:73 | definition of reading (the file's bytes when it exists, IOError otherwise); the round trip is proved in Disk.WriteThenRead |
| Disk.AfterMakeDirs | stationary/build.py:32-34 | `makedirs` creates the directory and its ancestors and nothing else; it raises OSError when the directory exists or an ancestor is a file |
| Disk.AfterUnlink | stationary/action.py:162 | definition of `unlink` (an existing file goes, otherwise OSError); proved with `rmdir` in Disk.UnlinkThenRmDir |
| Disk.AfterRmDir | stationary/action.py:167 | definition of `rmdir` (an empty directory goes, otherwise OSError); proved with `unlink` in Disk.UnlinkThenRmDir |
| Disk.WriteThenRead | stationary/build.py:73-75 | a file reads back as what was written, and every other file is unchanged |
| Disk.MakeDirsThenWrite | stationary/build.py:32-37 | after `makedirs`, a file can be written directly inside the new directory |
| Disk.UnlinkThenRmDir | stationary/action.py:158-167 | removing a directory's only file and then the directory leaves neither |
| Disk.FileSystem.ReadFile | stationary/build.py:73 | the method reads what `Read` specifies |
| Disk.FileSystem.WriteFile | stationary/build.py:74-75 | the new state and the outcome are those of `AfterWrite` |
| Disk.FileSystem.MakeDirs | stationary/build.py:34 | the new state and the outcome are those of `AfterMakeDirs` |
| Disk.FileSystem.Unlink | stationary/action.py:162 | the new state and the outcome are those of `AfterUnlink` |
| Disk.FileSystem.RmDir | stationary/action.py:167 | the new state and the outcome are those of `AfterRmDir` |
| Build.Lookup | stationary/build.py:11 | definition of the `defaultdict` subscript (a registered extension gives its builder; a miss gives `build_static` and inserts it); its promise is proved in Build.LookupIsStable |
| Build.LookupIsStable | stationary/build.py:11 | a miss's insertion changes no later lookup, and adds only the missed key |
| Build.RegisteredBinds | stationary/build.py:14-22 | `register(*exts)` binds every listed extension to the function and leaves the others as they were |
| Build.InstalledTable | stationary/build.py:40-144 | after import the table maps `.html`, `.js`, `.css`, `.coffee`, `.iced` and `.less` to their builders, and `build_static` is reached only as the default |
| Build.HtmlContext | stationary/build.py:47-50 | the page context is the base context updated with the file's own: the file's keys win, and the other base keys stay |
| Build.BuildFileSpec | stationary/build.py:25-37 | definition of `build_file`; properties in Build.DispatchByExtension, Build.UnknownExtensionIsStatic, Build.DirectoryFirst and Build.MakeDirFailureStops |
| Build.DispatchByExtension | stationary/build.py:36-37 | two sources with the same extension, built on any file systems into any destinations, leave the same table and run the same builder: the table's entry for the extension, or `build_static` on a miss |
| Build.UnknownExtensionIsStatic | stationary/build.py:11 | an unknown extension is copied by `build_static` and is then recorded in the table |
| Build.DirectoryFirst | stationary/build.py:32-34 | the destination directory is created only when missing, and always exists afterwards without any file changing |
| Build.MakeDirFailureStops | stationary/build.py:32-34 | when `makedirs` fails, `build_file` raises OSError and changes nothing |
| Build.StaticSpec | stationary/build.py:66-77 | definition of `build_static`; properties in Build.StaticCopies, Build.StaticFailures and Build.StaticOntoItself |
| Build.StaticCopies | stationary/build.py:66-77 | `build_static` copies the source bytes to the destination and returns the destination |
| Build.StaticFailures | stationary/build.py:73-75 | a missing source, or a destination that is a directory or lies in a missing directory, raises IOError and changes nothing |
| Build.StaticOntoItself | stationary/build.py:73-75 | copying a file onto itself leaves it empty |
| Build.CompileSpec | stationary/build.py:121-141 | definition of `build_coffee` and `build_iced`; properties in Build.CompileWrites |
| Build.CompileWrites | stationary/build.py:122-141 | a compiler writes its output to the destination's stem plus `.js`; a compiler that cannot start raises OSError, and a missing source or a failing compiler raises CalledProcessError; either way nothing is written |
| Build.LessSpec | stationary/build.py:144-153 | definition of `build_less`; properties in Build.LessReportsCss |
| Build.LessReportsCss | stationary/build.py:145-153 | once `lessc` has started, `build_less` returns the `.css` path whether or not `lessc` succeeded; a `lessc` that cannot start raises OSError and changes nothing; no directory is created |
| Build.JsSpec | stationary/build.py:80-98 | definition of `build_js`; properties in Build.PresentSourceIsCopied, Build.JsSiblingOrder and Build.SwappedExtensionIsKept |
| Build.CssSpec | stationary/build.py:100-118 | definition of `build_css`; properties in Build.PresentSourceIsCopied and Build.CssFromLess |
| Build.PresentSourceIsCopied | stationary/build.py:81-118 | when the source exists, `build_js` and `build_css` simply copy it |
| Build.JsSiblingOrder | stationary/build.py:90-97 | a missing `.js` is compiled from a `.coffee` sibling, else from an `.iced` one, else the copy raises |
| Build.CssFromLess | stationary/build.py:111-118 | a missing `.css` is built from a `.less` sibling, else the copy raises |
| Build.SwappedExtensionIsKept | stationary/build.py:123-124 | re-splitting the path `build_js` hands on gives back the same `.js` file |
| Build.HtmlSpec | stationary/build.py:40-63 | definition of `build_html`; properties in Build.HtmlContext, Build.HtmlNeedsTemplateEnv and Build.HtmlRenders |
| Build.HtmlNeedsTemplateEnv | stationary/build.py:58 | without `template_env`, `build_html` fails and writes no file |
| Build.HtmlRenders | stationary/build.py:41-63 | with everything in place, `build_html` writes the rendered template to the destination and returns it |
| Build.BuildStatic | stationary/build.py:66-77 | the method performs `build_static` as specified |
| Build.BuildCompiled | stationary/build.py:122-141 | the method performs `build_coffee` and `build_iced` as specified |
| Build.BuildLess | stationary/build.py:145-153 | the method performs `build_less` as specified |
| Build.BuildCompiler | stationary/build.py:121-153 | the compiling builder of the given kind, as specified |
| Build.BuildWithFallback | stationary/build.py:81-118 | the method performs the shared body of `build_js` and `build_css` as specified |
| Build.BuildHtml | stationary/build.py:41-63 | the method performs `build_html` as specified |
| Build.RunBuilder | stationary/build.py:37 | the builder of the looked-up kind, as specified |
| Build.Registry.constructor | stationary/build.py:11 | the builder table starts empty |
| Build.Registry.Register | stationary/build.py:14-22 | the decorator returns the function and updates the table as specified |
| Build.Registry.Install | stationary/build.py:40-144 | importing the module applies every decorator in source order |
| Build.Registry.Get | stationary/build.py:11 | indexing the `defaultdict` gives the builder and the new table that `Lookup` specifies |
| Build.Registry.BuildFile | stationary/build.py:25-37 | `build_file` leaves the table and the file system as specified, with the same outcome |
| Action.DeclaredNames | stationary/action.py:33-45 | a name is in `TASKS` exactly when it was there before or some decorator gave it |
| Action.DeclaredLastWins | stationary/action.py:33-45 | a name some decorator gave holds the record of the last decorator that gave it |
| Action.DeclaredKeepsOthers | stationary/action.py:33-45 | a name no decorator gave keeps the record it held before |
| Action.InstalledTasks | stationary/action.py:100-194 | after import there are five tasks, each listed under its own name, with priorities 1, 1, 1, 0 and -1; `sanity_check` has no docstring |
| Action.StrLessTotal | stationary/action.py:209 | string order is total, as `sorted` needs |
| Action.StrLessTransitive | stationary/action.py:209 | string order is transitive |
| Action.InsertName | stationary/action.py:209 | inserting a new name into a sorted list of names keeps it sorted and adds exactly that name |
| Action.SortedNames | stationary/action.py:209 | `sorted(TASKS.keys())` is strictly increasing and holds exactly the keys |
| Action.HelpAnswers | stationary/action.py:193-211 | one argument naming a task gives its name and docstring; an unknown name gives the error; anything else gives the sorted listing of all tasks |
| Action.TaskRegistry.constructor | stationary/action.py:24 | the task table starts empty |
| Action.TaskRegistry.Register | stationary/action.py:33-45 | the decorator stores the record under the function's name and returns the function |
| Action.TaskRegistry.Install | stationary/action.py:100-194 | importing the module applies every task decorator in source order |
| Action.TaskRegistry.Help | stationary/action.py:193-211 | `help` answers as specified |
| Action.Granted | stationary/action.py:220 | definition of the list handed to `all`; what `check_dir` makes of it is proved in Action.CheckDirCases |
| Action.CheckDirSpec | stationary/action.py:214-225 | definition of `check_dir`; properties in Action.CheckDirCases, Action.CheckDirMakeIgnoresAccess and Action.CheckDirOnlyMakesDirs |
| Action.CheckDirCases | stationary/action.py:214-223 | a missing directory fails, or is created and then counts as present; an existing one passes exactly when every requested access is granted |
| Action.CheckDirMakeIgnoresAccess | stationary/action.py:215-218 | a directory that `check_dir` creates is not checked for access |
| Action.CheckDirOnlyMakesDirs | stationary/action.py:214-223 | `check_dir` never changes a file, and changes nothing unless `make` is set |
| Action.CheckDir | stationary/action.py:214-223 | the method performs `check_dir` as specified |
| Action.SanityCheckSpec | stationary/action.py:170-190 | definition of `sanity_check`; properties in Action.SanityCheckOnlyMakesDirs, Action.SanityCheckPasses, Action.DataDirectoryOnlyWarns and Action.SanityCheckNeedsBuildDataDirectory |
| Action.SanityCheckOnlyMakesDirs | stationary/action.py:170-190 | `sanity_check` changes no file and only adds directories |
| Action.SanityCheckPasses | stationary/action.py:170-185 | after success, the build and build-data directories exist (an existing build directory was writable), and the source directory exists and is readable |
| Action.DataDirectoryOnlyWarns | stationary/action.py:187-190 | the data directory's value does not affect the outcome |
| Action.SanityCheckNeedsBuildDataDirectory | stationary/action.py:177-180 | without `build_data_directory`, `sanity_check` fails |
| Action.ReadConfigFailsSanityCheck | stationary/action.py:177-180 | on every configuration `read_config` returns, `sanity_check` fails |
| Action.SanityCheck | stationary/action.py:170-190 | the method performs `sanity_check` as specified |
| Action.UnlinkAllErrorSticks | stationary/action.py:159-162 | once an unlink fails, nothing after it runs |
| Action.UnlinkAllRemoves | stationary/action.py:159-162 | unlinking distinct existing files removes exactly them |
| Action.UnlinkAllKeepsDirs | stationary/action.py:162 | unlinking never touches a directory |
| Action.RmDirAllOnlyRemoves | stationary/action.py:165-167 | removing directories changes no file and removes only the directories listed |
| Action.RmDirAllChildFirst | stationary/action.py:165-167 | directories holding no file, removed deepest first, all go |
| Action.CleanOrdered | stationary/action.py:149-167 | definition of `clean` with either order of removal; properties in Action.CleanRefusesUnusable, Action.CleanUnlinksAll and Action.CleanKeepsRoot |
| Action.CleanAsWritten | stationary/action.py:149-167 | definition of `clean` in the source's top-down order; properties in Action.CleanUnlinksAll and Action.CleanAsWrittenFailsOnNesting |
| Action.CleanSpec | stationary/action.py:149-167 | definition of `clean` with the directories removed deepest first; properties in Action.CleanRemovesTree and Action.CleanEmptiesNesting |
| Action.CleanRefusesUnusable | stationary/action.py:154-155 | a build directory that is missing or lacks read or write access makes `clean` raise SystemExit and change nothing |
| Action.CleanUnlinksAll | stationary/action.py:157-162 | in either order of removal, and so in the source's own, `clean` first unlinks every file of a faithful walk before its first `rmdir`: no file directly inside the root or a listed directory survives, and every other file is kept |
| Action.CleanRemovesTree | stationary/action.py:149-167 | given a faithful walk of the build tree (every file and directory directly inside the root or a listed directory is listed), corrected `clean` removes exactly the listed files and directories, so no file and no directory other than the root is left directly inside the root or a removed directory |
| Action.CleanKeepsRoot | stationary/action.py:158-167 | `clean` never removes the build directory itself |
| Action.TopDownRemoval | stationary/action.py:165-167 | removing a parent before its child raises OSError |
| Action.ChildFirstRemoval | stationary/action.py:165-167 | removing the child first empties the tree |
| Action.CleanAsWrittenFailsOnNesting | stationary/action.py:163-167 | as written, `clean` on a tree two directories deep raises OSError |
| Action.CleanEmptiesNesting | stationary/action.py:163-167 | removing deepest first, the same tree is emptied and the build directory stays |
| Action.UnlinkEntry | stationary/action.py:159-162 | the inner loop unlinks one entry's files as specified |
| Action.RemoveDirs | stationary/action.py:165-167 | the final loop removes the directories as specified |
| Action.Clean | stationary/action.py:149-167 | the method performs `clean`, deepest directory first, as specified |
| Action.BuildItemCalls | stationary/action.py:111-123 | one successful file records one `build_file` call on it, plus one `build_data` call when it is a page |
| Action.BuildItemsCalls | stationary/action.py:110-123 | after a successful walk, every walked file went through `build_file` in walk order, and exactly the `.html` files through `build_data` |
| Action.BuildSpec | stationary/action.py:100-131 | definition of `build`; properties in Action.BuildChecksFirst, Action.BuildCallsInOrder, Action.BuildErrorAcrossEntries and Action.ReadConfigBuildsNothing |
| Action.BuildChecksFirst | stationary/action.py:104 | when `sanity_check` fails, `build` builds nothing and reports that failure |
| Action.BuildCallsInOrder | stationary/action.py:100-130 | a successful `build` built every walked file in order and the data of every page, and called `build_data` last on the global data file |
| Action.ReadConfigBuildsNothing | stationary/action.py:104-108 | on every configuration `read_config` returns, `build` fails before building anything |
| Action.BuildErrorAcrossEntries | stationary/action.py:110-123 | a failure on one walk entry ends the whole walk |
| Action.BuildOne | stationary/action.py:112-123 | one file of the walk loop, as specified |
| Action.BuildEntry | stationary/action.py:111-123 | the files of one walk entry, as specified |
| Action.BuildWalk | stationary/action.py:110-123 | the walk loop, as specified |
| Action.BuildGlobalData | stationary/action.py:126-130 | the global data file, as specified |
| Action.BuildChecked | stationary/action.py:106-130 | `build` once `sanity_check` has passed, as specified |
| Action.Rebuild | stationary/action.py:100-130 | the method performs `build` on the builder table and the file system as specified, with the calls it made |
| Action.AddType | stationary/action.py:28-30 | definition of `add_type` as a map update; its effect on lookups is proved in Action.MimeOfFallback, Action.AsWrittenTypesUnreachable and Action.ModuleTypesKnowSources |
| Action.GuessType | stationary/action.py:48-52 | definition of `mimetypes.guess_type` as a lookup of the extension, as given and then in lower case; properties in Action.MimeOfFallback |
| Action.MimeOf | stationary/action.py:48-52 | definition of `mimeof` (the guessed type, or `application/octet-stream`); its cases are proved in Action.MimeOfFallback |
| Action.MimeOfFallback | stationary/action.py:48-52 | an extension unknown in either case gives the fallback; a known one gives its entry |
| Action.AsWrittenTypesUnreachable | stationary/action.py:28-30 | as written, the module's entries are keyed by type names, so no extension reaches them and `.coffee` falls back to octet-stream |
| Action.ModuleTypesKnowSources | stationary/action.py:28-30 | with the arguments in order, `.coffee`, `.iced` and `.less` get their types |
| Cli.Window | stationary/main.py:18-20 | the arguments scanned are those before the first argument that starts with `-` |
| Cli.SelectedAppend | stationary/main.py:28-29 | collection distributes over concatenation, so a name given twice runs twice |
| Cli.SelectedSkipsUnknown | stationary/main.py:28-29 | unregistered names are skipped |
| Cli.SelectedAreRegistered | stationary/main.py:28-29 | every collected task is the registered task of a name given |
| Cli.SelectedContains | stationary/main.py:28-29 | a registered name given is collected |
| Cli.NothingSelected | stationary/main.py:28-29 | no registered name, no task |
| Cli.ScanArgs | stationary/main.py:18-29 | definition of the argument scan, as written and corrected; properties in Cli.ScanCollects, Cli.ScanStopsAtHelp and Cli.ScanStopsAtDash |
| Cli.ScanCollects | stationary/main.py:18-29 | without `help` before the first `-` argument, the scan collects the registered tasks of the window in order |
| Cli.ScanStopsAtHelp | stationary/main.py:21-27 | the first `help` ends the scan: as written it raises NameError; corrected, it asks for help on the next argument, if any |
| Cli.ScanStopsAtDash | stationary/main.py:19-20 | nothing after the first `-` argument is looked at |
| Cli.ScanCommandLine | stationary/main.py:18-29 | the loop computes the corrected scan |
| Cli.InsertSorted | stationary/main.py:37 | one insertion step keeps the list sorted by priority and adds exactly the task |
| Cli.InsertStable | stationary/main.py:37 | an insertion keeps the order among tasks of equal priority |
| Cli.PriorityOrder | stationary/main.py:37 | definition of `sorted(tasks, key=priority)` as an insertion sort; properties in Cli.PriorityOrderCorrect |
| Cli.PriorityOrderCorrect | stationary/main.py:37 | `sorted` by priority yields a sorted permutation that keeps the order of each priority's tasks (stability) |
| Cli.ExecSpec | stationary/main.py:37-38 | definition of the loop over the sorted tasks; properties in Cli.ExecRunsInOrder, Cli.ExecNeedsBuildDataDirectory and Cli.ExecErrorSticks |
| Cli.ExecRunsInOrder | stationary/main.py:37-38 | the commands run in the sorted order until the first failure, and all of them run on success |
| Cli.ExecNeedsBuildDataDirectory | stationary/main.py:37-38 | running `build` or `sanity_check` without `build_data_directory` fails |
| Cli.MainPlan | stationary/main.py:18-36 | definition of what the scan leads to; properties in Cli.MainWithoutTasks, Cli.NamedTaskRuns and Cli.HelpArgumentRaises |
| Cli.MainSpec | stationary/main.py:7-38 | definition of `main`; properties in Cli.MainCannotBuild and Cli.MalformedConfigStopsMain |
| Cli.MainWithoutTasks | stationary/main.py:34-35 | with no registered task named, `main` shows the listing and returns normally |
| Cli.NamedTaskRuns | stationary/main.py:28-38 | a registered task named before any `-` argument is in the order that runs |
| Cli.MainCannotBuild | stationary/main.py:7-38 | naming `build` or `sanity_check` on the command line always fails, whatever the configuration file holds |
| Cli.MalformedConfigStopsMain | stationary/main.py:12 | a configuration file the parser rejects ends `main` with that exception before any argument is looked at; nothing runs and the state is unchanged |
| Cli.InstalledDispatch | stationary/action.py:100-194 | the installed `help`, `build` and `sanity_check` entries carry their own commands |
| Cli.RunCommand | stationary/main.py:38 | one task's command, as specified |
| Cli.RunTasksInOrder | stationary/main.py:37-38 | the loop over the sorted tasks, as specified |
| Cli.RunMain | stationary/main.py:7-38 | `main` leaves the state the specification gives; it shows help exactly when the configuration was read and the plan says so, with the answer `help` specifies |
| Cli.HelpArgumentRaises | stationary/main.py:21-27 | on `build help clean`, as written `main` raises NameError, while corrected it shows help on `clean` |

## Left out

- `develop`, `make_handler` and the HTTP server are not modelled. Serving pages needs a socket and a request loop. In the task loop `develop` returns at once with no effect.
- Logging, and the text `help` prints, are left out. `help`'s output is a value: a task's name and docstring, an error, or the sorted listing.
- `reroot` and `build_data` are imported but not defined in the files modelled: `stationary/utils.py` defines only `allf`, and `stationary/build.py` defines no `build_data`. Both are host functions, and `build_data` is given as the state it leaves.
- `coffee`, `iced` and `lessc` are not modelled. Each is a host `Tool`: whether it can be started (OSError when not), and a function from source bytes to output, or to a non-zero exit. For `lessc` only the written `.css` is tracked, and the exit status is ignored as the source ignores it.
- Jinja2, the `markdown` filter and `render_jinja2`'s template lookup are not modelled. Rendering is one host function of the environment, the template name and the context.
- The JSON decoder, `SafeConfigParser` and `OptionParser` are not modelled. Parsing is a host function that may fail, and `--config` is a parameter. The `--debug` level only affects logging, so it is left out.
- Config.ReadConfig: an interpolation error of `cp.get` (a value such as `100%`) is not modelled as its own outcome; the host parser gives each option's value, and a file it rejects stands for every `SafeConfigParser` error.
- A JSON document whose top level is not an object (a list, a number) is not modelled: the JSON decoder gives an object or fails, so what `base_ctx.update` does with another value is left out.
- Disk.AfterWrite: permissions are not modelled, so writing never fails for lack of permission; only an empty name, a directory or a missing parent directory make it raise IOError.
- Disk.Read: permissions are not modelled, so a file without read permission reads successfully.
- Disk.AfterMakeDirs: permissions are not modelled, so `makedirs` under an unwritable parent succeeds.
- Disk.AfterUnlink: permissions are not modelled, so `unlink` in a read-only directory succeeds.
- Disk.AfterRmDir: permissions are not modelled, so `rmdir` in a read-only directory succeeds.
- Build.StaticFailures: a read-only destination file does not raise, because the file system has no permissions; `os.access` is a host predicate with no link to the file system.
- Action.CleanRemovesTree: that the walk lists the whole tree (`ListsTree`) is a premise, since `os.walk` is a host function; the lemma states what `clean` removes given such a walk.
- `os.walk` is a host function giving the whole walk up front. Its laziness, and the effect on it of changes made during the walk, are not modelled.
- `abspath` is a host function, and paths are compared as strings. Normalisation (`..`, doubled slashes) and the working directory are not modelled.
- `mimetypes.guess_type` is reduced to a lookup of the extension, first as given and then in lower case. Its suffix and encoding maps and `data:` URLs are not modelled.
- Floats are not modelled: a float keeps its text. Date-times are carried as fields.
- String order (`Action.StrLess`) compares characters by code point. Python 2 compares the bytes of the names, and the two agree on ASCII names such as the task names.
- Cli.RunMain: requires the task table that importing the module installs. `main` has no other table.
- Cli.MainSpec uses the corrected scan, so that help is shown for a `help` argument. The as-written scan is kept as `Cli.ScanAsWritten`.
- Action.Clean: removes the queued directories deepest first, the corrected order of the first finding. The top-down order the source uses is kept as `Action.CleanAsWritten`.

## Findings

| source | as written | input that shows it | evidently intended | confidence | as-written member | corrected member |
|---|---|---|---|---|---|---|
| stationary/action.py:163-167 | `clean` queues each walked directory after its parent and removes them in that order, so `os.rmdir` meets a parent that still holds its child | a build directory `/b` holding `/b/a`, which holds `/b/a/c`: `rmdir("/b/a")` raises OSError | remove the directories deepest first | not executed | Action.CleanAsWrittenFailsOnNesting | Action.CleanEmptiesNesting |
| stationary/main.py:21-27 | the `help` branch reads `pargs`, a name that is never defined, so any `help` argument raises NameError | `stationary build help clean` | use `args`: show help on the argument after `help` | not executed | Cli.HelpArgumentRaises | Cli.ScanStopsAtHelp |
| stationary/action.py:28-30 | `mimetypes.add_type(type, ext)` is called with the extension and the type swapped | `mimeof("app.coffee")` on a system table without `.coffee` gives `application/octet-stream` | register `text/x-coffeescript` for `.coffee`, and likewise for `.iced` and `.less` | not executed | Action.AsWrittenTypesUnreachable | Action.ModuleTypesKnowSources |

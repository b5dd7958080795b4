/** Values shared by every module of the model: optional values, the Python
    exceptions the modelled code raises or catches, and the few string
    operations of Python's `str` that the code relies on. */
module Common {

  datatype Option<+T> = None | Some(value: T)

  /** The exceptions that the modelled code raises, lets escape or catches. */
  datatype PyError =
    | IOError            // open() of a missing file, of a directory, or in a missing directory
    | OSError            // os.makedirs, os.unlink, os.rmdir failures
    | AttributeError     // Config attribute lookup that finds nothing
    | NameError          // an undefined global name
    | ValueError         // json.load and strptime failures
    | KeyError           // a dict lookup of a missing key
    | CalledProcessError // subprocess.check_output of a failing tool
    | ConfigParserError  // SafeConfigParser.read of a malformed file
    | RerootError        // whatever the opaque `reroot` raises
    | SystemExit         // `raise SystemExit()`

  datatype Result<+T> = Ok(value: T) | Err(error: PyError)

  type Path = string
  type Bytes = seq<bv8>

  /** `s.startswith(p)` */
  predicate StartsWith(s: string, p: string) {
    |p| <= |s| && s[..|p|] == p
  }

  /** `s.endswith(p)` */
  predicate EndsWith(s: string, p: string) {
    |p| <= |s| && s[|s| - |p|..] == p
  }

  /** Python 2 `str.lower()` on one character: only ASCII letters change. */
  function LowerChar(c: char): (r: char)
    ensures 'A' <= c <= 'Z' ==> 'a' <= r <= 'z'
    ensures !('A' <= c <= 'Z') ==> r == c
  {
    if 'A' <= c <= 'Z' then (c as int + 32) as char else c
  }

  /** `s.lower()` */
  function Lower(s: string): (r: string)
    ensures |r| == |s|
    ensures forall i :: 0 <= i < |s| ==> r[i] == LowerChar(s[i])
  {
    seq(|s|, i requires 0 <= i < |s| => LowerChar(s[i]))
  }

  /** Python's slice `s[n:]`: a start past the end gives the empty string. */
  function Drop(s: string, n: nat): (r: string)
    ensures n <= |s| ==> r == s[n..]
    ensures n > |s| ==> r == []
  {
    if n <= |s| then s[n..] else []
  }

  /** `s.replace(".html", ".json")`: every occurrence, scanning left to right. */
  function HtmlToJson(s: string): (r: string)
    ensures |r| == |s|
    decreases |s|
  {
    if |s| < 5 then s
    else if s[..5] == ".html" then ".json" + HtmlToJson(s[5..])
    else [s[0]] + HtmlToJson(s[1..])
  }

  /** `p` occurs in `s` starting at position `i`. */
  predicate OccursAt(s: string, p: string, i: nat) {
    i + |p| <= |s| && s[i..i + |p|] == p
  }

  /** A name without `.html` in it is left as it is. */
  lemma {:induction false} HtmlToJsonWithoutHtml(s: string)
    requires forall i :: 0 <= i ==> !OccursAt(s, ".html", i)
    ensures HtmlToJson(s) == s
    decreases |s|
  {
    if |s| >= 5 {
      assert !OccursAt(s, ".html", 0);
      forall i | 0 <= i ensures !OccursAt(s[1..], ".html", i) {
        assert !OccursAt(s, ".html", i + 1);
        if i + 5 <= |s[1..]| {
          assert s[1..][i..i + 5] == s[i + 1..i + 6];
        }
      }
      HtmlToJsonWithoutHtml(s[1..]);
    }
  }

  /** Every occurrence is replaced, not only the extension. */
  lemma HtmlToJsonExamples()
    ensures HtmlToJson("a.html") == "a.json"
    ensures HtmlToJson(".html.html") == ".json.json"
  {
  }
}

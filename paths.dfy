/** The parts of Python 2's `os.path` (posixpath) that the builder relies on,
    written out so that the extension surgery of the builders can be reasoned
    about: `splitext`, `dirname`, `join`, and the directories `os.makedirs`
    creates. */
module Paths {
  import opened Common

  /** `s.rfind(c)`: the last index of `c` in `s`, or -1. */
  function RFind(s: string, c: char): (r: int)
    ensures -1 <= r < |s|
    ensures r >= 0 ==> s[r] == c
    ensures forall j :: r < j < |s| ==> s[j] != c
  {
    if s == [] then -1
    else if s[|s| - 1] == c then |s| - 1
    else RFind(s[..|s| - 1], c)
  }

  /** Some character of `p[lo..hi]` is not a dot. */
  predicate HasNonDot(p: string, lo: int, hi: int)
    requires 0 <= lo && hi <= |p|
  {
    exists i :: lo <= i < hi && p[i] != '.'
  }

  /** `os.path.splitext(p)`: the extension starts at the last dot of the last
      path component, unless everything before that dot in the component is a
      dot (so `.bashrc` and `..` have no extension). */
  function SplitExt(p: string): (r: (string, string))
    ensures r.0 + r.1 == p
    ensures r.1 == [] || r.1[0] == '.'
    ensures forall i :: 0 < i < |r.1| ==> r.1[i] != '.' && r.1[i] != '/'
  {
    var sep := RFind(p, '/');
    var dot := RFind(p, '.');
    if dot > sep && HasNonDot(p, sep + 1, dot) then (p[..dot], p[dot..]) else (p, [])
  }

  /** The file name part of `stem` (after its last slash) holds a character
      other than a dot. */
  predicate NamedStem(stem: string) {
    HasNonDot(stem, RFind(stem, '/') + 1, |stem|)
  }

  lemma RFindAppend(s: string, t: string, c: char)
    requires c !in t
    ensures RFind(s + t, c) == RFind(s, c)
  {
    var u := s + t;
    forall j | |s| <= j < |u| ensures u[j] != c {
      assert u[j] == t[j - |s|];
    }
    assert forall j :: 0 <= j < |s| ==> u[j] == s[j];
  }

  /** The last occurrence is where the characters say it is. */
  lemma RFindIs(s: string, c: char, k: int)
    requires -1 <= k < |s|
    requires k >= 0 ==> s[k] == c
    requires forall j :: k < j < |s| ==> s[j] != c
    ensures RFind(s, c) == k
  {
  }

  /** Appending `.e` to a stem with a real file name gives back that stem and
      `.e` as the extension; `build_js`/`build_css` rely on this when they
      re-split the destination. */
  lemma {:induction false} SplitExtAppend(stem: string, e: string)
    requires NamedStem(stem)
    requires '.' !in e && '/' !in e
    ensures SplitExt(stem + "." + e) == (stem, "." + e)
  {
    var p := stem + "." + e;
    assert p == (stem + ".") + e;
    RFindAppend(stem + ".", e, '.');
    RFindAppend(stem + ".", e, '/');
    RFindAppend(stem, ".", '/');
    var sep := RFind(p, '/');
    var dot := RFind(p, '.');
    assert RFind(stem + ".", '.') == |stem|;
    assert dot == |stem|;
    assert sep == RFind(stem, '/') < |stem|;
    var i :| RFind(stem, '/') + 1 <= i < |stem| && stem[i] != '.';
    assert p[i] == stem[i];
    assert HasNonDot(p, sep + 1, dot);
    assert p[..dot] == stem;
    assert p[dot..] == "." + e;
  }

  /** Strip trailing slashes. */
  function RStripSlashes(s: string): (r: string)
    ensures |r| <= |s| && r == s[..|r|]
    ensures r == [] || r[|r| - 1] != '/'
  {
    if s != [] && s[|s| - 1] == '/' then RStripSlashes(s[..|s| - 1]) else s
  }

  predicate AllSlashes(s: string) {
    forall i :: 0 <= i < |s| ==> s[i] == '/'
  }

  /** `os.path.dirname(p)`: everything up to the last slash, with trailing
      slashes removed unless it is made of slashes only. */
  function Dirname(p: string): (r: string)
    ensures |r| <= |p| && r == p[..|r|]
    ensures (forall i :: 0 <= i < |p| ==> p[i] != '/') ==> r == []
    ensures r != [] && !AllSlashes(r) ==> r[|r| - 1] != '/'
  {
    var head := p[..RFind(p, '/') + 1];
    if head != [] && !AllSlashes(head) then RStripSlashes(head) else head
  }

  /** `os.path.join(a, b)` with two arguments. */
  function Join(a: string, b: string): string {
    if StartsWith(b, "/") then b
    else if a == [] || EndsWith(a, "/") then a + b
    else a + "/" + b
  }

  /** A relative name joined under a directory stays under whatever that
      directory is under. */
  lemma JoinKeepsPrefix(a: string, b: string, top: string)
    requires StartsWith(a, top) && !StartsWith(b, "/")
    ensures StartsWith(Join(a, b), top)
  {
    var j := Join(a, b);
    if a == [] || EndsWith(a, "/") {
      assert j == a + b;
      assert j[..|top|] == a[..|top|];
    } else {
      assert j == a + "/" + b;
      assert j[..|top|] == a[..|top|];
    }
  }

  /** The directories `os.makedirs(p)` ends up with: `p` and each of its
      ancestors, as `dirname` computes them. */
  function Lineage(p: string): (r: set<string>)
    ensures p != [] ==> p in r
    ensures [] !in r
    decreases |p|
  {
    if p == [] then {}
    else
      var d := Dirname(p);
      {p} + (if |d| < |p| then Lineage(d) else {})
  }

  lemma SplitExtExamples()
    ensures SplitExt("/src/app.js") == ("/src/app", ".js")
    ensures SplitExt("/src/.bashrc") == ("/src/.bashrc", "")
    ensures SplitExt("archive.tar.gz") == ("archive.tar", ".gz")
  {
    RFindIs("/src/app.js", '.', 8);
    RFindIs("/src/app.js", '/', 4);
    assert HasNonDot("/src/app.js", 5, 8) by { assert "/src/app.js"[5] == 'a'; }
    assert "/src/app.js"[..8] == "/src/app";
    RFindIs("/src/.bashrc", '.', 5);
    RFindIs("/src/.bashrc", '/', 4);
    RFindIs("archive.tar.gz", '.', 11);
    RFindIs("archive.tar.gz", '/', -1);
    assert HasNonDot("archive.tar.gz", 0, 11) by { assert "archive.tar.gz"[0] == 'a'; }
    assert "archive.tar.gz"[..11] == "archive.tar";
  }

  lemma DirnameExamples()
    ensures Dirname("/build/css/site.css") == "/build/css"
    ensures Dirname("/index.html") == "/"
    ensures Dirname("index.html") == ""
  {
    RFindIs("/build/css/site.css", '/', 10);
    assert "/build/css/site.css"[..11] == "/build/css/";
    assert !AllSlashes("/build/css/") by { assert "/build/css/"[1] == 'b'; }
    assert RStripSlashes("/build/css/") == RStripSlashes("/build/css");
    RFindIs("/index.html", '/', 0);
    RFindIs("index.html", '/', -1);
  }
}

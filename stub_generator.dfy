/**
 * The header-stub generator script: it walks a directory tree and, for every
 * `.h` file whose sibling `.cpp` does not exist yet, writes a one-line stub
 * that includes the header, printing one report line per header.
 *
 * The file system is a map from path to file contents; the walk is the
 * sequence of (directory, file names) entries that the tree walk yields;
 * the printed report is returned as a sequence of lines.
 */
module StubGenerator {

  type Path = string
  type FileSystem = map<Path, string>

  /** One entry of the tree walk: a directory and the plain files in it. */
  datatype WalkEntry = WalkEntry(root: Path, files: seq<string>)

  /** A header found by the walk: its directory and its bare file name. */
  datatype Header = Header(root: Path, file: string)

  /** What the script does for one header: the `.cpp` path it checks and the stub it would write. */
  datatype Job = Job(cpp: Path, content: string)

  /** The state the script leaves behind: the file system and the printed lines. */
  datatype Outcome = Outcome(fs: FileSystem, log: seq<string>)

  predicate EndsWith(s: string, suffix: string) {
    |suffix| <= |s| && s[|s| - |suffix|..] == suffix
  }

  /** The filter on file names: only names ending in ".h" are processed. */
  predicate IsHeader(name: string) {
    EndsWith(name, ".h")
  }

  /** Path joining as the walk uses it (no separator doubled after a trailing '/'). */
  function Join(dir: Path, name: string): (p: Path)
    ensures |p| == |dir| + |name| || (|p| == |dir| + 1 + |name| && p[|dir|] == '/')
    ensures p[|p| - |name|..] == name
    ensures |p| == |dir| + |name| ==> dir == [] || p[|dir| - 1] == '/'
  {
    if dir == [] then name
    else if dir[|dir| - 1] == '/' then dir + name
    else dir + "/" + name
  }

  /** Index of the last occurrence of `c` in `s`, or -1. */
  function LastIndexOf(s: string, c: char): (r: int)
    ensures -1 <= r < |s|
    ensures r >= 0 ==> s[r] == c
    ensures forall k :: r < k < |s| ==> s[k] != c
  {
    if s == [] then -1
    else if s[|s| - 1] == c then |s| - 1
    else LastIndexOf(s[..|s| - 1], c)
  }

  /** True when some character of `s` strictly between `lo` and `hi` is not a dot. */
  predicate HasNonDot(s: string, lo: int, hi: int)
    requires -1 <= lo && hi <= |s|
  {
    exists k :: lo < k < hi && s[k] != '.'
  }

  /**
   * The root part of a POSIX `splitext`: the last '.' after the last '/'
   * starts the extension, unless every character of the base name before
   * that dot is itself a dot (so ".h" has no extension).
   */
  function SplitextRoot(p: Path): (r: Path)
    ensures r == p || (|r| < |p| && p[|r|] == '.' && r == p[..|r|])
  {
    var sepIndex := LastIndexOf(p, '/');
    var dotIndex := LastIndexOf(p, '.');
    if dotIndex > sepIndex && HasNonDot(p, sepIndex, dotIndex) then p[..dotIndex] else p
  }

  /** The sibling `.cpp` path the script checks and writes for a header. */
  function CppPath(h: Header): Path {
    SplitextRoot(Join(h.root, h.file)) + ".cpp"
  }

  /** The stub text: the include of the bare file name, never the directory. */
  function StubContent(file: string): string {
    "#include \"" + file + "\"\n"
  }

  function JobOf(h: Header): Job {
    Job(CppPath(h), StubContent(h.file))
  }

  /** One job per header, in order. */
  function Jobs(hs: seq<Header>): (js: seq<Job>)
    ensures |js| == |hs|
  {
    if hs == [] then [] else Jobs(hs[..|hs| - 1]) + [JobOf(hs[|hs| - 1])]
  }

  lemma {:induction false} JobsAt(hs: seq<Header>, i: nat)
    requires i < |hs|
    ensures Jobs(hs)[i] == JobOf(hs[i])
  {
    if i < |hs| - 1 {
      JobsAt(hs[..|hs| - 1], i);
    }
  }

  function CreatedLine(p: Path): string { "created: " + p }
  function ExistLine(p: Path): string { "exist: " + p }

  /** The headers of one walk entry, in listing order. */
  function HeadersIn(root: Path, files: seq<string>): seq<Header> {
    if files == [] then []
    else
      HeadersIn(root, files[..|files| - 1])
      + (if IsHeader(files[|files| - 1]) then [Header(root, files[|files| - 1])] else [])
  }

  /** The headers of the whole walk, in walk order. */
  function Headers(walk: seq<WalkEntry>): seq<Header> {
    if walk == [] then []
    else Headers(walk[..|walk| - 1]) + HeadersIn(walk[|walk| - 1].root, walk[|walk| - 1].files)
  }

  /** One header: create the stub if its `.cpp` is absent, report either way. */
  function Step(o: Outcome, j: Job): Outcome {
    if j.cpp in o.fs then Outcome(o.fs, o.log + [ExistLine(j.cpp)])
    else Outcome(o.fs[j.cpp := j.content], o.log + [CreatedLine(j.cpp)])
  }

  /** The effect of processing the jobs `js` in order, starting from `fs`. */
  function Run(js: seq<Job>, fs: FileSystem): Outcome {
    if js == [] then Outcome(fs, []) else Step(Run(js[..|js| - 1], fs), js[|js| - 1])
  }

  /** The whole script on a file system: one job per header of the walk. */
  function Script(walk: seq<WalkEntry>, fs: FileSystem): Outcome {
    Run(Jobs(Headers(walk)), fs)
  }

  /** The script: the walk loop, the header filter and the create-if-absent write. */
  method GenerateStubs(walk: seq<WalkEntry>, fs0: FileSystem) returns (fs: FileSystem, log: seq<string>)
    ensures Outcome(fs, log) == Script(walk, fs0)
    ensures |log| == |Headers(walk)|
    ensures forall p :: p in fs0 ==> p in fs && fs[p] == fs0[p]
  {
    fs, log := fs0, [];
    var w := 0;
    while w < |walk|
      invariant 0 <= w <= |walk|
      invariant Outcome(fs, log) == Run(Jobs(Headers(walk[..w])), fs0)
    {
      var root, files := walk[w].root, walk[w].files;
      var j := 0;
      assert Headers(walk[..w]) + HeadersIn(root, files[..0]) == Headers(walk[..w]);
      while j < |files|
        invariant 0 <= j <= |files|
        invariant Outcome(fs, log) == Run(Jobs(Headers(walk[..w]) + HeadersIn(root, files[..j])), fs0)
      {
        var file := files[j];
        NextFile(Headers(walk[..w]), root, files, j, fs0);
        if EndsWith(file, ".h") {
          var cppPath := SplitextRoot(Join(root, file)) + ".cpp";
          if cppPath !in fs {
            fs := fs[cppPath := StubContent(file)];
            log := log + [CreatedLine(cppPath)];
          } else {
            log := log + [ExistLine(cppPath)];
          }
        }
        j := j + 1;
      }
      assert files[..j] == files;
      assert walk[..w + 1][..w] == walk[..w];
      w := w + 1;
    }
    assert walk[..w] == walk;
    RunLength(Jobs(Headers(walk)), fs0);
    RunPreserves(Jobs(Headers(walk)), fs0);
  }

  // ---------------------------------------------------------------------
  // Properties of the specification

  /** Processing one more listed file either adds that header's step or changes nothing. */
  lemma NextFile(prefix: seq<Header>, root: Path, files: seq<string>, j: nat, fs: FileSystem)
    requires j < |files|
    ensures var o := Run(Jobs(prefix + HeadersIn(root, files[..j])), fs);
      Run(Jobs(prefix + HeadersIn(root, files[..j + 1])), fs) ==
        if IsHeader(files[j]) then Step(o, JobOf(Header(root, files[j]))) else o
  {
    assert files[..j + 1][..j] == files[..j];
    var before := prefix + HeadersIn(root, files[..j]);
    if IsHeader(files[j]) {
      var h := Header(root, files[j]);
      assert prefix + HeadersIn(root, files[..j + 1]) == before + [h];
      assert (before + [h])[..|before|] == before;
      RunSnoc(Jobs(before), JobOf(h), fs);
    } else {
      assert prefix + HeadersIn(root, files[..j + 1]) == before;
    }
  }

  lemma RunSnoc(js: seq<Job>, j: Job, fs: FileSystem)
    ensures Run(js + [j], fs) == Step(Run(js, fs), j)
  {
    assert (js + [j])[..|js|] == js;
  }

  lemma {:induction false} RunLength(js: seq<Job>, fs: FileSystem)
    ensures |Run(js, fs).log| == |js|
  {
    if js != [] { RunLength(js[..|js| - 1], fs); }
  }

  /** An existing file is never opened for writing: its content survives. */
  lemma {:induction false} RunPreserves(js: seq<Job>, fs: FileSystem)
    ensures forall p :: p in fs ==> p in Run(js, fs).fs && Run(js, fs).fs[p] == fs[p]
  {
    if js != [] { RunPreserves(js[..|js| - 1], fs); }
  }

  /** The keys after a run are the initial keys plus the `.cpp` paths of the jobs. */
  lemma {:induction false} RunKeys(js: seq<Job>, fs: FileSystem)
    ensures forall p :: p in Run(js, fs).fs <==> p in fs || exists i :: 0 <= i < |js| && js[i].cpp == p
  {
    if js != [] {
      var init := js[..|js| - 1];
      RunKeys(init, fs);
      forall p ensures p in Run(js, fs).fs <==> p in fs || exists i :: 0 <= i < |js| && js[i].cpp == p {
        if exists i :: 0 <= i < |js| && js[i].cpp == p {
          var i :| 0 <= i < |js| && js[i].cpp == p;
          if i < |init| { assert init[i] == js[i]; }
        }
        if exists i :: 0 <= i < |init| && init[i].cpp == p {
          var i :| 0 <= i < |init| && init[i].cpp == p;
          assert js[i] == init[i];
        }
      }
    }
  }

  /** Every file the run adds holds the stub of the first job with that `.cpp` path. */
  lemma {:induction false} RunWritesFirstStub(js: seq<Job>, fs: FileSystem, i: nat)
    requires i < |js| && js[i].cpp !in fs
    requires forall k :: 0 <= k < i ==> js[k].cpp != js[i].cpp
    ensures js[i].cpp in Run(js, fs).fs && Run(js, fs).fs[js[i].cpp] == js[i].content
  {
    var init := js[..|js| - 1];
    RunKeys(init, fs);
    if i < |init| {
      assert forall k :: 0 <= k < |init| ==> init[k] == js[k];
      RunWritesFirstStub(init, fs, i);
    } else {
      assert forall k :: 0 <= k < |init| ==> init[k].cpp != js[i].cpp by {
        forall k | 0 <= k < |init| ensures init[k].cpp != js[i].cpp { assert init[k] == js[k]; }
      }
    }
  }

  /** The job at `i` is the first one with its `.cpp` path, and that path did not exist before. */
  predicate CreatesAt(js: seq<Job>, fs: FileSystem, i: nat)
    requires i < |js|
  {
    js[i].cpp !in fs && forall k :: 0 <= k < i ==> js[k].cpp != js[i].cpp
  }

  /** The report line the `i`-th job prints. */
  function LineAt(js: seq<Job>, fs: FileSystem, i: nat): string
    requires i < |js|
  {
    if CreatesAt(js, fs, i) then CreatedLine(js[i].cpp) else ExistLine(js[i].cpp)
  }

  lemma LineAtPrefix(js: seq<Job>, fs: FileSystem, i: nat)
    requires i < |js| - 1
    ensures LineAt(js, fs, i) == LineAt(js[..|js| - 1], fs, i)
  {
    assert forall k :: 0 <= k <= i ==> js[k] == js[..|js| - 1][k];
  }

  lemma RunLogLast(js: seq<Job>, fs: FileSystem)
    requires js != []
    ensures |Run(js, fs).log| == |js|
    ensures Run(js, fs).log[|js| - 1] == LineAt(js, fs, |js| - 1)
  {
    var init := js[..|js| - 1];
    var n := |js| - 1;
    RunLength(js, fs);
    RunLength(init, fs);
    RunKeys(init, fs);
    assert forall k :: 0 <= k < n ==> js[k] == init[k];
    assert js[n].cpp in Run(init, fs).fs <==> !CreatesAt(js, fs, n);
  }

  /**
   * The report has one line per job, in order: "created" exactly when the
   * `.cpp` path was neither present at the start nor created by an earlier
   * job, "exist" otherwise.
   */
  lemma {:induction false} RunLog(js: seq<Job>, fs: FileSystem)
    ensures |Run(js, fs).log| == |js|
    ensures forall i :: 0 <= i < |js| ==> Run(js, fs).log[i] == LineAt(js, fs, i)
  {
    RunLength(js, fs);
    if js != [] {
      var init := js[..|js| - 1];
      RunLog(init, fs);
      RunLogLast(js, fs);
      assert Run(js, fs).log[..|init|] == Run(init, fs).log;
      forall i | 0 <= i < |init| ensures Run(js, fs).log[i] == LineAt(js, fs, i) {
        LineAtPrefix(js, fs, i);
        assert Run(js, fs).log[i] == Run(js, fs).log[..|init|][i];
      }
    }
  }

  /** A run on a file system that already has every `.cpp` changes nothing and reports "exist". */
  lemma {:induction false} RunOnCovered(js: seq<Job>, fs: FileSystem)
    requires forall i :: 0 <= i < |js| ==> js[i].cpp in fs
    ensures Run(js, fs).fs == fs
    ensures Run(js, fs).log == seq(|js|, i requires 0 <= i < |js| => ExistLine(js[i].cpp))
  {
    if js != [] {
      var init := js[..|js| - 1];
      assert forall i :: 0 <= i < |init| ==> init[i] == js[i];
      RunOnCovered(init, fs);
    }
  }

  /** Running the script a second time creates nothing and reports "exist" for every header. */
  lemma Idempotent(walk: seq<WalkEntry>, fs0: FileSystem)
    ensures Script(walk, Script(walk, fs0).fs).fs == Script(walk, fs0).fs
    ensures |Script(walk, Script(walk, fs0).fs).log| == |Headers(walk)|
    ensures forall i :: 0 <= i < |Headers(walk)| ==>
      Script(walk, Script(walk, fs0).fs).log[i] == ExistLine(CppPath(Headers(walk)[i]))
  {
    var js := Jobs(Headers(walk));
    RunKeys(js, fs0);
    RunOnCovered(js, Run(js, fs0).fs);
    forall i | 0 <= i < |Headers(walk)| ensures js[i].cpp == CppPath(Headers(walk)[i]) {
      JobsAt(Headers(walk), i);
    }
  }

  /** Header files themselves are never written or created: every stub path ends in ".cpp". */
  lemma HeadersUntouched(walk: seq<WalkEntry>, fs: FileSystem, p: Path)
    requires EndsWith(p, ".h")
    ensures p in Script(walk, fs).fs <==> p in fs
    ensures p in fs ==> Script(walk, fs).fs[p] == fs[p]
  {
    var js := Jobs(Headers(walk));
    RunKeys(js, fs);
    RunPreserves(js, fs);
    forall i | 0 <= i < |js| ensures js[i].cpp != p {
      JobsAt(Headers(walk), i);
      var c := js[i].cpp;
      assert c[|c| - 1] == 'p';
    }
  }

  /** Exactly the walked names ending in ".h" become headers; all others are ignored. */
  lemma {:induction false} HeadersInMember(root: Path, files: seq<string>, h: Header)
    ensures h in HeadersIn(root, files) <==> h.root == root && h.file in files && IsHeader(h.file)
  {
    if files != [] {
      var init := files[..|files| - 1];
      HeadersInMember(root, init, h);
      assert files == init + [files[|files| - 1]];
    }
  }

  lemma {:induction false} HeadersMember(walk: seq<WalkEntry>, h: Header)
    ensures h in Headers(walk) <==>
      IsHeader(h.file) && exists w :: 0 <= w < |walk| && walk[w].root == h.root && h.file in walk[w].files
  {
    if walk != [] {
      var init := walk[..|walk| - 1];
      var last := walk[|walk| - 1];
      HeadersMember(init, h);
      HeadersInMember(last.root, last.files, h);
      if exists w :: 0 <= w < |walk| && walk[w].root == h.root && h.file in walk[w].files {
        var w :| 0 <= w < |walk| && walk[w].root == h.root && h.file in walk[w].files;
        if w < |init| { assert init[w] == walk[w]; }
      }
      if exists w :: 0 <= w < |init| && init[w].root == h.root && h.file in init[w].files {
        var w :| 0 <= w < |init| && init[w].root == h.root && h.file in init[w].files;
        assert walk[w] == init[w];
      }
    }
  }

  /** Of a path ending in ".h", the last dot is the one before the 'h'. */
  lemma LastDotOfHeader(p: Path)
    requires EndsWith(p, ".h")
    ensures LastIndexOf(p, '.') == |p| - 2
  {
    assert p[|p| - 2] == '.' && p[|p| - 1] == 'h';
  }

  /** Of a joined path whose file name has no '/', the last '/' is just before the name. */
  lemma LastSepOfJoin(root: Path, file: string)
    requires '/' !in file
    ensures LastIndexOf(Join(root, file), '/') == |Join(root, file)| - |file| - 1
  {
    var p := Join(root, file);
    var start := |p| - |file|;
    forall k | start <= k < |p| ensures p[k] != '/' {
      assert p[k] == p[start..][k - start] == file[k - start];
    }
  }

  /**
   * For a header name without '/', the `.cpp` path replaces the final ".h"
   * in the same directory, except when the name before ".h" is all dots,
   * where ".cpp" is appended to the whole name.
   */
  lemma CppPathOfHeader(h: Header)
    requires IsHeader(h.file) && '/' !in h.file
    ensures var stem := h.file[..|h.file| - 2];
      CppPath(h) ==
        if HasNonDot(stem, -1, |stem|) then Join(h.root, stem) + ".cpp"
        else Join(h.root, h.file) + ".cpp"
  {
    var p := Join(h.root, h.file);
    var stem := h.file[..|h.file| - 2];
    SplitextOfJoin(h.root, h.file);
    NonDotShift(p, h.file, |p| - |h.file|);
    JoinPrefix(h.root, h.file);
    assert CppPath(h) == SplitextRoot(p) + ".cpp";
    if HasNonDot(stem, -1, |stem|) {
      assert SplitextRoot(p) == Join(h.root, stem);
    } else {
      assert SplitextRoot(p) == p;
    }
  }

  /** The extension `splitext` finds in a joined header path is the final ".h", when anything but dots precedes it. */
  lemma SplitextOfJoin(root: Path, file: string)
    requires IsHeader(file) && '/' !in file
    ensures var p := Join(root, file); var start := |p| - |file|;
      SplitextRoot(p) == if HasNonDot(p, start - 1, |p| - 2) then p[..|p| - 2] else p
  {
    var p := Join(root, file);
    HeaderPathShape(root, file);
    LastDotOfHeader(p);
    LastSepOfJoin(root, file);
    SplitextOfHeaderPath(p, |p| - |file|);
  }

  lemma SplitextOfHeaderPath(p: Path, start: nat)
    requires 2 <= |p| && start <= |p| - 2
    requires LastIndexOf(p, '/') == start - 1 && LastIndexOf(p, '.') == |p| - 2
    ensures SplitextRoot(p) == if HasNonDot(p, start - 1, |p| - 2) then p[..|p| - 2] else p
  {
  }

  lemma HeaderPathShape(root: Path, file: string)
    requires IsHeader(file)
    ensures EndsWith(Join(root, file), ".h")
  {
    var p := Join(root, file);
    assert p[|p| - 2..] == p[|p| - |file|..][|file| - 2..];
  }

  /** Dots in the name before ".h" are the dots of the joined path after its last separator. */
  lemma NonDotShift(p: Path, file: string, start: nat)
    requires start + |file| == |p| && p[start..] == file && |file| >= 2
    ensures HasNonDot(p, start - 1, |p| - 2) == HasNonDot(file[..|file| - 2], -1, |file| - 2)
  {
    var stem := file[..|file| - 2];
    if HasNonDot(stem, -1, |stem|) {
      var k :| 0 <= k < |stem| && stem[k] != '.';
      assert p[start + k] == p[start..][k];
    }
    if HasNonDot(p, start - 1, |p| - 2) {
      var k :| start - 1 < k < |p| - 2 && p[k] != '.';
      assert p[k] == p[start..][k - start];
    }
  }

  /** Dropping the last two characters of the name commutes with joining. */
  lemma JoinPrefix(root: Path, file: string)
    requires |file| >= 2
    ensures var p := Join(root, file); p[..|p| - 2] == Join(root, file[..|file| - 2])
  {
  }

  /** In any directory, "a.h" gives "a.cpp". */
  lemma PlainHeaderExample(root: Path)
    ensures CppPath(Header(root, "a.h")) == Join(root, "a") + ".cpp"
  {
    assert IsHeader("a.h") && '/' !in "a.h";
    CppPathOfHeader(Header(root, "a.h"));
    assert "a.h"[..1] == "a";
    assert HasNonDot("a", -1, 1) by { assert "a"[0] != '.'; }
  }

  /** In any directory, a bare ".h" has no extension and gives ".h.cpp". */
  lemma DotOnlyHeaderExample(root: Path)
    ensures CppPath(Header(root, ".h")) == Join(root, ".h") + ".cpp"
  {
    assert IsHeader(".h") && '/' !in ".h";
    CppPathOfHeader(Header(root, ".h"));
    assert ".h"[..0] == "";
  }
}

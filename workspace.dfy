/** The per-request workspace: six artifact files under one scratch
    directory, named by the request's name and a fixed suffix, and the
    file operations the pipeline performs on them. The filesystem is a map
    from path to contents. */
module Workspace {

  type FileSystem = map<string, string>

  const Root: string := "./temp_files/"

  function SrcPath(name: string): string {
    Root + name + ".cpp"
  }

  function CompileErrorPath(name: string): string {
    Root + name + ".compile_error"
  }

  function ExePath(name: string): string {
    Root + name + ".exe"
  }

  function StdinPath(name: string): string {
    Root + name + ".stdin"
  }

  function StdoutPath(name: string): string {
    Root + name + ".stdout"
  }

  function StderrPath(name: string): string {
    Root + name + ".stderr"
  }

  /** The six kinds of artifact a request owns. */
  datatype Artifact = Source | CompileError | Executable | Stdin | Stdout | Stderr

  function Suffix(a: Artifact): string {
    match a
    case Source => ".cpp"
    case CompileError => ".compile_error"
    case Executable => ".exe"
    case Stdin => ".stdin"
    case Stdout => ".stdout"
    case Stderr => ".stderr"
  }

  /** The path of artifact `a` of request `name`, by way of the six path functions. */
  function PathOf(name: string, a: Artifact): (p: string)
    ensures p == Root + name + Suffix(a)
  {
    match a
    case Source => SrcPath(name)
    case CompileError => CompileErrorPath(name)
    case Executable => ExePath(name)
    case Stdin => StdinPath(name)
    case Stdout => StdoutPath(name)
    case Stderr => StderrPath(name)
  }

  /** The paths of every artifact of request `name`. */
  function Paths(name: string): (ps: set<string>)
    ensures forall a :: PathOf(name, a) in ps
  {
    {SrcPath(name), CompileErrorPath(name), ExePath(name), StdinPath(name), StdoutPath(name), StderrPath(name)}
  }

  lemma PathsAreArtifacts(name: string, p: string)
    requires p in Paths(name)
    ensures exists a :: p == PathOf(name, a)
  {
    if p == SrcPath(name) {
      assert p == PathOf(name, Source);
    } else if p == CompileErrorPath(name) {
      assert p == PathOf(name, CompileError);
    } else if p == ExePath(name) {
      assert p == PathOf(name, Executable);
    } else if p == StdinPath(name) {
      assert p == PathOf(name, Stdin);
    } else if p == StdoutPath(name) {
      assert p == PathOf(name, Stdout);
    } else {
      assert p == PathOf(name, Stderr);
    }
  }

  /** The last two characters of a suffix; they already tell the six kinds apart. */
  function Tag(a: Artifact): string {
    var s := Suffix(a);
    s[|s| - 2..]
  }

  lemma TagInjective(a1: Artifact, a2: Artifact)
    ensures Tag(a1) == Tag(a2) ==> a1 == a2
  {
  }

  lemma SameEnd(x: string, y: string, s1: string, s2: string)
    requires x + s1 == y + s2
    requires |s1| >= 2 && |s2| >= 2
    ensures s1[|s1| - 2..] == s2[|s2| - 2..]
  {
    var w := x + s1;
    assert w[|w| - 2..] == s1[|s1| - 2..];
    assert (y + s2)[|w| - 2..] == s2[|s2| - 2..];
  }

  /** Every path names one request and one artifact: two requests with
      different names never share a file, and one request's six files are
      pairwise distinct. */
  lemma {:induction false} PathOfInjective(n1: string, a1: Artifact, n2: string, a2: Artifact)
    ensures PathOf(n1, a1) == PathOf(n2, a2) <==> n1 == n2 && a1 == a2
  {
    if PathOf(n1, a1) == PathOf(n2, a2) {
      var s1, s2 := Suffix(a1), Suffix(a2);
      assert Root + n1 + s1 == Root + n2 + s2;
      SameEnd(Root + n1, Root + n2, s1, s2);
      TagInjective(a1, a2);
      assert |n1| == |n2|;
      assert n1 == (Root + n1 + s1)[|Root|..|Root| + |n1|];
      assert n2 == (Root + n2 + s2)[|Root|..|Root| + |n2|];
    }
  }

  /** The workspaces of two different names are disjoint. */
  lemma DisjointWorkspaces(n1: string, n2: string)
    requires n1 != n2
    ensures Paths(n1) !! Paths(n2)
  {
    forall p | p in Paths(n1) && p in Paths(n2)
      ensures false
    {
      PathsAreArtifacts(n1, p);
      PathsAreArtifacts(n2, p);
      var a1 :| p == PathOf(n1, a1);
      var a2 :| p == PathOf(n2, a2);
      PathOfInjective(n1, a1, n2, a2);
    }
  }

  /** `FileUtil::Read`: the whole contents, or nothing for a missing file. */
  function Read(fs: FileSystem, p: string): (r: string)
    ensures r != "" ==> p in fs
  {
    if p in fs then fs[p] else ""
  }

  /** The file at `p` after a child process opened it with
      `O_WRONLY | O_CREAT` (no `O_TRUNC`) and wrote `data` from offset 0:
      a longer old file keeps its tail. */
  function Overwrite(fs: FileSystem, p: string, data: string): (r: string)
    ensures |r| == if |data| < |Read(fs, p)| then |Read(fs, p)| else |data|
    ensures r[..|data|] == data
    ensures forall k :: |data| <= k < |r| ==> r[k] == fs[p][k]
  {
    var previous := Read(fs, p);
    if |data| < |previous| then data + previous[|data|..] else data
  }

  /** All files an operation on request `name` leaves as they were. */
  ghost predicate SameOutside(fs: FileSystem, fs': FileSystem, name: string) {
    forall p :: p !in Paths(name) ==> (p in fs <==> p in fs') && (p in fs ==> fs[p] == fs'[p])
  }
}

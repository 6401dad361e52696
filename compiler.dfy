/** The compile-and-run pipeline of the online judge: allocate a name, write
    the submission into its workspace, compile it, run it with redirected
    standard streams and assemble the JSON response. The toolchain and the
    submitted program are inputs: what they produce is given as functions. */
module OnlineCompiler {
  import opened Decimal
  import opened Int32
  import opened Workspace
  import opened Naming
  import opened WaitStatus
  import opened Command
  import opened Json

  datatype Option<T> = None | Some(value: T)

  /** What one toolchain process leaves behind: what it wrote to its standard
      error, and the executable it wrote at the `-o` path, if any. */
  datatype ToolchainRun = ToolchainRun(diagnostics: string, binary: Option<string>)

  /** What one run of the submitted program leaves behind: its standard
      output, its standard error and the status `waitpid` stores. */
  datatype Execution = Execution(stdout: string, stderr: string, status: bv32)

  /** The toolchain, given its argument vector and the files it can read. */
  type Toolchain = (seq<string>, FileSystem) -> ToolchainRun

  /** The submitted program, given the executable's contents and its standard input. */
  type Program = (string, string) -> Execution

  // ---------------------------------------------------------------------------
  // The stages on values

  /** The two files the allocator writes: the source and the standard input. */
  function Written(fs: FileSystem, name: string, code: string, input: string): (r: FileSystem)
    ensures r.Keys == fs.Keys + {SrcPath(name), StdinPath(name)}
    ensures r[SrcPath(name)] == code && r[StdinPath(name)] == input
    ensures forall p :: p in fs && p != SrcPath(name) && p != StdinPath(name) ==> r[p] == fs[p]
  {
    PathOfInjective(name, Source, name, Stdin);
    fs[SrcPath(name) := code][StdinPath(name) := input]
  }

  /** After the toolchain child: its standard error went to the compile-error
      log (opened without truncation), its output to the executable path. */
  function Compiled(fs: FileSystem, name: string, run: ToolchainRun): (r: FileSystem)
    ensures r.Keys == fs.Keys + {CompileErrorPath(name)} + (if run.binary.Some? then {ExePath(name)} else {})
    ensures run.binary.Some? ==> r[ExePath(name)] == run.binary.value
    ensures |Read(r, CompileErrorPath(name))| >= |run.diagnostics|
            && Read(r, CompileErrorPath(name))[..|run.diagnostics|] == run.diagnostics
    ensures forall p :: p in fs && p != CompileErrorPath(name) && p != ExePath(name) ==> r[p] == fs[p]
  {
    PathOfInjective(name, CompileError, name, Executable);
    var log := fs[CompileErrorPath(name) := Overwrite(fs, CompileErrorPath(name), run.diagnostics)];
    match run.binary
    case None => log
    case Some(b) => log[ExePath(name) := b]
  }

  /** The child that runs the executable. When the executable is missing,
      `execl` fails and the child calls `exit(0)` with nothing written. */
  function Execute(fs: FileSystem, name: string, program: Program): (e: Execution)
    ensures ExePath(name) !in fs ==> TermSignal(e.status) == 0
  {
    if ExePath(name) in fs then program(fs[ExePath(name)], Read(fs, StdinPath(name)))
    else Execution("", "", 0)
  }

  /** After the run child: its standard output and error went to the two
      capture files (opened without truncation). */
  function Ran(fs: FileSystem, name: string, e: Execution): (r: FileSystem)
    ensures r.Keys == fs.Keys + {StdoutPath(name), StderrPath(name)}
    ensures |Read(r, StdoutPath(name))| >= |e.stdout| && Read(r, StdoutPath(name))[..|e.stdout|] == e.stdout
    ensures |Read(r, StderrPath(name))| >= |e.stderr| && Read(r, StderrPath(name))[..|e.stderr|] == e.stderr
    ensures forall p :: p in fs && p != StdoutPath(name) && p != StderrPath(name) ==> r[p] == fs[p]
  {
    PathOfInjective(name, Stdout, name, Stderr);
    fs[StdoutPath(name) := Overwrite(fs, StdoutPath(name), e.stdout)]
      [StderrPath(name) := Overwrite(fs, StderrPath(name), e.stderr)]
  }

  // ---------------------------------------------------------------------------
  // Verdicts and the response

  /** How a request ended: the four terminal states of the pipeline. */
  datatype Verdict =
    | Rejected
    | CompileFailed(log: string)
    | Signaled(sig: int)
    | Finished(stdout: string, stderr: string)

  /** The `error` field of the response. */
  function ErrorCode(v: Verdict): int {
    match v
    case Rejected => 3
    case CompileFailed(_) => 1
    case Signaled(_) => 2
    case Finished(_, _) => 0
  }

  /** The reason given for a request without code (the source's own spelling). */
  const EmptyCodeReason: string := "code is empyt"

  const SignalPrefix: string := "Program exit by signo: "

  /** The reason of a signalled run: the prefix, then the signal number. */
  function SignalReason(sig: int): (reason: string)
    ensures |reason| > |SignalPrefix| && reason[..|SignalPrefix|] == SignalPrefix
  {
    SignalPrefix + IntToString(sig)
  }

  /** The fields the pipeline writes into the caller's response object. */
  function Respond(resp: Object, v: Verdict): (out: Object)
    ensures "error" in out && out["error"] == Int(ErrorCode(v))
  {
    match v
    case Rejected => resp["error" := Int(3)]["reason" := Str(EmptyCodeReason)]
    case CompileFailed(log) => resp["error" := Int(1)]["reason" := Str(log)]
    case Signaled(sig) => resp["error" := Int(2)]["reason" := Str(SignalReason(sig))]
    case Finished(out, err) =>
      resp["error" := Int(0)]["reason" := Str("")]["stdout" := Str(out)]["stderr" := Str(err)]
  }

  /** The response always carries the verdict's error code and a reason; the
      captured streams are written only on success, and every other field of
      the caller's object is left alone. */
  lemma RespondFields(resp: Object, v: Verdict)
    ensures var out := Respond(resp, v);
      "error" in out && out["error"] == Int(ErrorCode(v)) && "reason" in out
      && (v.Finished? ==> out["stdout"] == Str(v.stdout) && out["stderr"] == Str(v.stderr)
                          && out["reason"] == Str(""))
      && (v.Rejected? ==> out["reason"] == Str(EmptyCodeReason))
      && (v.CompileFailed? ==> out["reason"] == Str(v.log))
      && (v.Signaled? ==> out["reason"] == Str(SignalReason(v.sig)))
      && (!v.Finished? ==> Member(out, "stdout") == Member(resp, "stdout")
                           && Member(out, "stderr") == Member(resp, "stderr"))
      && (forall k :: k !in {"error", "reason", "stdout", "stderr"} ==> Member(out, k) == Member(resp, k))
  {
  }

  /** The error code tells the four verdicts apart; only success is 0. */
  lemma ErrorCodeDistinguishes(v1: Verdict, v2: Verdict)
    ensures ErrorCode(v1) == ErrorCode(v2) <==>
      (v1.Rejected? && v2.Rejected?) || (v1.CompileFailed? && v2.CompileFailed?)
      || (v1.Signaled? && v2.Signaled?) || (v1.Finished? && v2.Finished?)
    ensures ErrorCode(v1) == 0 <==> v1.Finished?
  {
  }

  /** The reason of a signalled run names the signal: different signals give different reasons. */
  lemma SignalReasonInjective(s1: int, s2: int)
    ensures SignalReason(s1) == SignalReason(s2) <==> s1 == s2
  {
    var p := SignalPrefix;
    if SignalReason(s1) == SignalReason(s2) {
      assert IntToString(s1) == SignalReason(s1)[|p|..];
      assert IntToString(s2) == SignalReason(s2)[|p|..];
      IntToStringInjective(s1, s2);
    }
  }

  // ---------------------------------------------------------------------------
  // The pipeline on values

  /** The verdict and the final filesystem for a request with code, named `name`. */
  function Process(fs: FileSystem, name: string, code: string, input: string,
                   toolchain: Toolchain, program: Program): (r: (Verdict, FileSystem))
    ensures !r.0.Rejected?
    ensures r.0.CompileFailed? <==> ExePath(name) !in r.1
    ensures r.0.Signaled? ==> 0 < r.0.sig < 128
    ensures r.0.CompileFailed? ==> r.0.log == Read(r.1, CompileErrorPath(name))
    ensures r.0.Finished? ==> r.0.stdout == Read(r.1, StdoutPath(name)) && r.0.stderr == Read(r.1, StderrPath(name))
    ensures r.0.CompileFailed? ==>
              (StdoutPath(name) in r.1 <==> StdoutPath(name) in fs) && Read(r.1, StdoutPath(name)) == Read(fs, StdoutPath(name))
              && (StderrPath(name) in r.1 <==> StderrPath(name) in fs) && Read(r.1, StderrPath(name)) == Read(fs, StderrPath(name))
  {
    PathOfInjective(name, Stdout, name, Source);
    PathOfInjective(name, Stdout, name, Stdin);
    PathOfInjective(name, Stdout, name, CompileError);
    PathOfInjective(name, Stdout, name, Executable);
    PathOfInjective(name, Stderr, name, Source);
    PathOfInjective(name, Stderr, name, Stdin);
    PathOfInjective(name, Stderr, name, CompileError);
    PathOfInjective(name, Stderr, name, Executable);
    var fs1 := Written(fs, name, code, input);
    var fs2 := Compiled(fs1, name, toolchain(CompileArgs(name), fs1));
    if ExePath(name) !in fs2 then (CompileFailed(Read(fs2, CompileErrorPath(name))), fs2)
    else
      var e := Execute(fs2, name, program);
      var fs3 := Ran(fs2, name, e);
      var sig := TermSignal(e.status);
      if sig != 0 then (Signaled(sig), fs3)
      else (Finished(Read(fs3, StdoutPath(name)), Read(fs3, StderrPath(name))), fs3)
  }

  /** Compilation is judged by the existence of the executable afterwards, not
      by the toolchain's exit status: it succeeds when the toolchain wrote one
      or when one was already there. */
  lemma CompileVerdict(fs: FileSystem, name: string, run: ToolchainRun)
    ensures ExePath(name) in Compiled(fs, name, run) <==> run.binary.Some? || ExePath(name) in fs
  {
    PathOfInjective(name, CompileError, name, Executable);
  }

  /** The compiler's own writes (the two files it writes, the compile-error
      redirect, the `-o` executable and the two capture redirects) stay inside
      the request's workspace. Any other file the toolchain or the program
      writes is outside the model. */
  lemma {:induction false} ProcessStaysInWorkspace(fs: FileSystem, name: string, code: string, input: string,
                                  toolchain: Toolchain, program: Program)
    ensures SameOutside(fs, Process(fs, name, code, input, toolchain, program).1, name)
  {
    assert forall a :: PathOf(name, a) in Paths(name);
  }

  /** How a request ends when its workspace held no file before: the compile
      log is the toolchain's diagnostics verbatim, compilation fails exactly
      when no executable was written (and then the program never runs), the
      program sees the submitted input, and the verdict carries its output and
      error streams verbatim. The source and input files keep what was written. */
  lemma {:induction false} FreshWorkspaceOutcome(fs: FileSystem, name: string, code: string, input: string,
                                                 toolchain: Toolchain, program: Program)
    requires forall a :: PathOf(name, a) !in fs
    ensures var fs1 := Written(fs, name, code, input);
      var run := toolchain(CompileArgs(name), fs1);
      var (v, fs') := Process(fs, name, code, input, toolchain, program);
      Read(fs', SrcPath(name)) == code && Read(fs', StdinPath(name)) == input &&
      match run.binary
      case None => v == CompileFailed(run.diagnostics) && Read(fs', CompileErrorPath(name)) == run.diagnostics
                   && StdoutPath(name) !in fs' && StderrPath(name) !in fs'
      case Some(b) =>
        var e := program(b, input);
        if TermSignal(e.status) != 0 then v == Signaled(TermSignal(e.status))
        else v == Finished(e.stdout, e.stderr)
  {
    PathOfInjective(name, Source, name, Stdin);
    var src, err, exe, inp, out, errp :=
      PathOf(name, Source), PathOf(name, CompileError), PathOf(name, Executable),
      PathOf(name, Stdin), PathOf(name, Stdout), PathOf(name, Stderr);
    PathOfInjective(name, CompileError, name, Source);
    PathOfInjective(name, CompileError, name, Stdin);
    PathOfInjective(name, Executable, name, Source);
    PathOfInjective(name, Executable, name, Stdin);
    PathOfInjective(name, Executable, name, CompileError);
    PathOfInjective(name, Stdout, name, Source);
    PathOfInjective(name, Stdout, name, Stdin);
    PathOfInjective(name, Stdout, name, CompileError);
    PathOfInjective(name, Stdout, name, Executable);
    PathOfInjective(name, Stderr, name, Source);
    PathOfInjective(name, Stderr, name, Stdin);
    PathOfInjective(name, Stderr, name, CompileError);
    PathOfInjective(name, Stderr, name, Executable);
    PathOfInjective(name, Stderr, name, Stdout);
    var fs1 := Written(fs, name, code, input);
    var run := toolchain(CompileArgs(name), fs1);
    assert err !in fs1 && exe !in fs1 && out !in fs1 && errp !in fs1;
    var fs2 := Compiled(fs1, name, run);
    assert Read(fs2, err) == run.diagnostics;
    if run.binary.Some? {
      assert fs2[exe] == run.binary.value && Read(fs2, inp) == input;
      assert out !in fs2 && errp !in fs2;
      var e := Execute(fs2, name, program);
      assert e == program(run.binary.value, input);
      var fs3 := Ran(fs2, name, e);
      assert Read(fs3, out) == e.stdout && Read(fs3, errp) == e.stderr;
    } else {
      assert exe !in fs2;
    }
  }

  // ---------------------------------------------------------------------------
  // The compiler object: the allocation counter and the filesystem it works on

  class Compiler {
    /** The process-wide `static std::atomic_int id`. */
    var counter: Int32
    var fs: FileSystem
    /** The names allocated so far and the timestamps they were made with. */
    ghost var issued: seq<string>
    ghost var stamps: seq<int>

    /** The n-th allocation (from 0) saw counter value n + 1. */
    ghost predicate Valid()
      reads this`counter, this`issued, this`stamps
    {
      AllocatedNames(issued, stamps) && counter == Wrap(|issued|)
    }

    constructor (disk: FileSystem)
      ensures Valid() && counter == 0 && issued == [] && fs == disk
    {
      counter := 0;
      fs := disk;
      issued, stamps := [], [];
    }

    /** Increments the counter, builds the name from the timestamp and the new
        counter value, and writes the source and standard-input files. A name
        never repeats within 2^32 allocations. */
    method WriteTmpFile(code: string, input: string, timestamp: int) returns (name: string)
      requires Valid()
      modifies this
      ensures Valid()
      ensures counter == Increment(old(counter))
      ensures name == TmpName(timestamp, counter)
      ensures issued == old(issued) + [name] && stamps == old(stamps) + [timestamp]
      ensures fs == Written(old(fs), name, code, input)
      ensures |old(issued)| < TwoTo32 ==> name !in old(issued)
    {
      IncrementWraps(|issued|);
      counter := Increment(counter);
      name := TmpName(timestamp, counter);
      fs := fs[SrcPath(name) := code];
      fs := fs[StdinPath(name) := input];
      if |issued| < TwoTo32 {
        NextNameFresh(issued, stamps, timestamp);
      }
      issued, stamps := issued + [name], stamps + [timestamp];
    }

    /** Builds the argument vector, lets the toolchain run with its standard
        error sent to the compile-error log, and reports whether the
        executable exists afterwards. */
    method Compile(name: string, toolchain: Toolchain) returns (ok: bool)
      requires |name| <= 32 && '\0' !in name
      modifies this`fs
      ensures fs == Compiled(old(fs), name, toolchain(CompileArgs(name), old(fs)))
      ensures ok <==> ExePath(name) in fs
    {
      var command := BuildCommand(name);
      var run := toolchain(ArgvFrom(command, 0), fs);
      fs := fs[CompileErrorPath(name) := Overwrite(fs, CompileErrorPath(name), run.diagnostics)];
      if run.binary.Some? {
        fs := fs[ExePath(name) := run.binary.value];
      }
      ok := ExePath(name) in fs;
    }

    /** Runs the executable with the capture files as its standard streams and
        returns the signal that ended it, 0 for a normal exit. */
    method Run(name: string, program: Program) returns (sig: int)
      modifies this`fs
      ensures fs == Ran(old(fs), name, Execute(old(fs), name, program))
      ensures sig == TermSignal(Execute(old(fs), name, program).status)
      ensures 0 <= sig < 128
    {
      var e := Execute(fs, name, program);
      PathOfInjective(name, Stdout, name, Stderr);
      fs := fs[StdoutPath(name) := Overwrite(fs, StdoutPath(name), e.stdout)];
      fs := fs[StderrPath(name) := Overwrite(fs, StderrPath(name), e.stderr)];
      sig := TermSignal(e.status);
    }

    /** The whole request: rejects a request whose code is absent or the empty
        string before anything is allocated or written (the corrected test
        `CodeMissing`; jsoncpp's `empty()` lets the empty string through);
        otherwise allocates a name and runs the stages, each failure ending the
        request. Returns true exactly on success, which by Respond's contract
        and ErrorCodeDistinguishes is when `error` is 0. */
    method CompileAndRun(req: Object, resp: Object, timestamp: int, toolchain: Toolchain, program: Program)
      returns (ok: bool, out: Object)
      requires Valid()
      requires 0 <= timestamp < MaxTimestamp
      modifies this
      ensures Valid()
      ensures CodeMissing(Member(req, "code")) ==>
                !ok && out == Respond(resp, Rejected)
                && counter == old(counter) && fs == old(fs)
                && issued == old(issued) && stamps == old(stamps)
      ensures !CodeMissing(Member(req, "code")) ==>
                counter == Increment(old(counter))
                && issued == old(issued) + [TmpName(timestamp, counter)]
                && stamps == old(stamps) + [timestamp]
                && var r := Process(old(fs), TmpName(timestamp, counter), AsString(Member(req, "code")),
                                    AsString(Member(req, "stdin")), toolchain, program);
                   out == Respond(resp, r.0) && fs == r.1 && (ok <==> r.0.Finished?)
    {
      var code := Member(req, "code");
      if CodeMissing(code) {
        return false, Respond(resp, Rejected);
      }
      ghost var fs0 := fs;
      var input := AsString(Member(req, "stdin"));
      var name := WriteTmpFile(AsString(code), input, timestamp);
      ghost var fs1 := fs;
      TmpNameLength(timestamp, counter);
      var compiled := Compile(name, toolchain);
      ghost var fs2 := fs;
      assert fs2 == Compiled(fs1, name, toolchain(CompileArgs(name), fs1));
      if !compiled {
        return false, Respond(resp, CompileFailed(Read(fs, CompileErrorPath(name))));
      }
      var sig := Run(name, program);
      assert fs == Ran(fs2, name, Execute(fs2, name, program));
      if sig != 0 {
        return false, Respond(resp, Signaled(sig));
      }
      out := Respond(resp, Finished(Read(fs, StdoutPath(name)), Read(fs, StderrPath(name))));
      ok := true;
    }
  }
}

# GiraffeOJ online compiler, modelled in Dafny

This project models the `Compiler` class of GiraffeOJ's `compile.hpp`, the component that takes
one submission, compiles it and runs it. A request (a JSON object with `code` and `stdin`) goes through
these steps:

- A request whose code is absent or empty is rejected with error 3. The source's own test lets the empty
  string through; the model uses the corrected test (see Findings).
- Otherwise the request gets a name `tmp_<timestamp>.<counter>` from a process-wide counter.
- The source and the standard input are written to the name's workspace under `./temp_files/`.
- The source is compiled with `g++`. The build counts as failed (error 1, reason = the compile log) when no
  executable exists afterwards.
- The executable runs with its standard streams redirected to capture files. A run ended by a signal gives
  error 2, with the signal number in the reason.
- Otherwise the answer is error 0, with the captured standard output and standard error.

Modules:

- `Workspace` (workspace.dfy) holds the six path functions and the filesystem as a map from path to
  contents. It also holds the effect of opening a capture file with `O_WRONLY | O_CREAT`, which does not
  truncate.
- `Decimal` (decimal.dfy) is `std::to_string` with a parser that inverts it. `Int32` (int32.dfy) is the
  counter's 32-bit two's-complement wrap-around.
- `Naming` (naming.dfy) is the allocated names and their distinctness.
- `Command` (command.dfy) builds the toolchain's argument vector in place: twenty pointers into twenty
  character rows of fifty characters each, filled by `sprintf`.
- `WaitStatus` (wait_status.dfy) is the `waitpid` status word, as `bv32`, and the signal taken from it.
- `Json` (json.dfy) is the part of jsoncpp's `Json::Value` the compiler reads and writes.
- `OnlineCompiler` (compiler.dfy) has the stages, the verdicts and the response on values. It also has the
  class `Compiler`:
  - its fields are the counter and the filesystem, plus the ghost history of the names issued so far;
  - its methods are `WriteTmpFile`, `Compile`, `Run` and `CompileAndRun`.

The clock, the toolchain and the submitted program are parameters:

- the timestamp is an `int` argument;
- the toolchain is a function from the argument vector and the filesystem to its diagnostics and the binary
  it writes, if any;
- the program is a function from the executable's contents and the standard input to its two output
  streams and its wait status.

`CompileAndRun` is proved against the value-level pipeline `Process`, and the lemmas about `Process`,
`Respond` and the naming functions state what the source promises.

Two behaviours of compile.hpp are easy to miss.

- The compile log and the two capture files are opened without `O_TRUNC`, so they are not truncated.
  Writing over a longer existing file keeps that file's tail (`Overwrite`). The model follows the code here.
  The outcome is exact only for a workspace with no files yet, and `FreshWorkspaceOutcome` states that case.
- The empty-code test is jsoncpp's `empty()`, which does not hold for the empty string. `Json.Empty` and
  `Json.EmptyStringNotRejected` model that test as written. `CompileAndRun` uses the corrected test
  `Json.CodeMissing` instead, so for code `""` it answers error 3 where the code compiles the empty file
  (see Findings and "## Left out").

## Model

| member | source | states |
|---|---|---|
| Workspace.PathOf | compile.hpp:26-48 | each path function returns `./temp_files/` + name + its own suffix |
| Workspace.Paths | compile.hpp:26-48 | the workspace of a name holds the path of each of the six artifacts |
| Workspace.PathsAreArtifacts | compile.hpp:26-48 | every path in a workspace is one of the six artifact paths |
| Workspace.PathOfInjective | compile.hpp:26-48 | two paths are equal exactly when their names and their artifacts are equal. So each path function is injective in the name, and one name's six paths are pairwise distinct |
| Workspace.DisjointWorkspaces | compile.hpp:22-48 | requests with different names share no file |
| Workspace.Overwrite | compile.hpp:182-184 | a file opened without truncation and written from offset 0 starts with the new data and keeps the old tail beyond it |
| Decimal.NatToString | compile.hpp:115 | the decimal text of a natural is non-empty and all digits |
| Decimal.IntToString | compile.hpp:115 | the decimal text is non-empty, made of digits and `-`, and starts with `-` exactly for negatives |
| Decimal.NatToStringRoundTrip | compile.hpp:115 | reading back the digits gives the number |
| Decimal.IntToStringRoundTrip | compile.hpp:115 | parsing `to_string(i)` gives `i` |
| Decimal.IntToStringInjective | compile.hpp:115 | different integers have different decimal texts |
| Decimal.IntToStringHasNoDot | compile.hpp:115 | decimal text never contains the name separator `.` |
| Decimal.IntToStringLength | compile.hpp:115 | a value below 10^k has a text of at most k characters, plus one for the sign |
| Int32.Wrap | compile.hpp:113-114 | the 32-bit value is congruent to its argument modulo 2^32 |
| Int32.IncrementWraps | compile.hpp:113-114 | `++id` on the 32-bit counter after x increments gives the value after x + 1 increments |
| Int32.WrapDistinct | compile.hpp:113-114 | counter values fewer than 2^32 increments apart differ |
| Int32.WrapPeriod | compile.hpp:113-114 | 2^32 increments bring the counter back to the same value |
| Naming.SplitAtDot | compile.hpp:115 | strings without a `.`, joined by a `.`, split back uniquely |
| Naming.TmpNameInjective | compile.hpp:115 | the name determines the timestamp and the counter value, and each of them determines the name |
| Naming.AllocationsDistinct | compile.hpp:113-115 | two allocations fewer than 2^32 apart get different names, whatever their timestamps |
| Naming.NextNameFresh | compile.hpp:113-115 | the next name differs from every name issued before, while fewer than 2^32 were issued |
| Naming.AllocatedNamesDistinct | compile.hpp:113-115 | up to 2^32 issued names are pairwise distinct |
| Naming.CounterWrapCollides | compile.hpp:113-115 | 2^32 allocations within one second repeat a name |
| Naming.TmpNameLength | compile.hpp:115-133 | a timestamp under 10^16 gives a name of at most 32 characters with no NUL, so both paths fit a 50-character row |
| Command.CompileArgs | compile.hpp:130-134 | the argument vector has five entries, with the source path second and the executable path fourth |
| Command.CStringOfRow | compile.hpp:130-134 | a row holding s and then a NUL reads back as s |
| Command.Sprintf | compile.hpp:130-134 | `sprintf(row, "%s", s)` puts s and a NUL at the row's start and leaves the rest of the row alone; it requires s to be shorter than the row |
| Command.NewRows | compile.hpp:125 | twenty new, distinct rows of fifty characters, every one `\0` |
| Command.PrintArgs | compile.hpp:130-134 | after the five `sprintf` calls, row r reads back as argument r |
| Command.ArgvOfFiveRows | compile.hpp:130-135 | with rows 0-4 holding the arguments and pointer 5 NULL, `execvp` sees exactly those arguments |
| Command.BuildCommand | compile.hpp:124-135 | the twenty-pointer vector read up to its NULL is exactly `g++ <src> -o <exe> -std=c++11`, for every name of at most 32 characters without NUL |
| WaitStatus.TermSignal | compile.hpp:176 | the verdict `status & 0x7f` lies in 0..127 |
| WaitStatus.ExitCodeIgnored | compile.hpp:174-176 | every normal exit reads as signal 0, whatever the exit code |
| WaitStatus.SignalReported | compile.hpp:174-176 | a child killed by signal n reads as n, core dump or not |
| Json.EmptyStringNotRejected | compile.hpp:52 | jsoncpp's `empty()` is false for the string "", whose text is nonetheless empty |
| Json.CodeMissingIffNoText | compile.hpp:52-60 | the corrected test rejects a code member exactly when its text is empty |
| Int32.Increment | compile.hpp:114 | `++id` on a 32-bit counter is the value one more, wrapped modulo 2^32 |
| Naming.TmpName | compile.hpp:115 | every name starts with `tmp_` and has more after it; the lemmas below show it determines timestamp and counter |
| Workspace.Read | compile.hpp:71 | `FileUtil::Read` gives non-empty text only for a file that exists |
| Json.Member | compile.hpp:52-62 | `req["key"]` is a non-null value only when the key is present, and is then its member |
| Json.AsString | compile.hpp:60-62 | `asString()` never gives "" for an integer member |
| Json.Empty | compile.hpp:52 | the source's test, jsoncpp's `empty()`: whatever it rejects has empty text |
| Json.CodeMissing | compile.hpp:52 | the corrected test rejects everything the source's test rejects |
| OnlineCompiler.Written | compile.hpp:116-118 | the source and stdin files hold the code and the input; no other file is created and every other file keeps its contents |
| OnlineCompiler.Compiled | compile.hpp:137-166 | after the toolchain child the compile log exists and starts with the toolchain's diagnostics; the exe exists afterwards exactly when the toolchain wrote one or one was there already, and holds the new binary when one was written; every other file keeps its contents |
| OnlineCompiler.Execute | compile.hpp:171-190 | a missing executable (a failing `execl`, then `exit(0)`) reads as a normal exit |
| OnlineCompiler.Ran | compile.hpp:180-189 | after the run child both capture files exist and start with the program's standard output and standard error; every other file keeps its contents |
| OnlineCompiler.SignalReason | compile.hpp:84 | the reason is `Program exit by signo: ` followed by the signal's text |
| OnlineCompiler.Respond | compile.hpp:52-101 | the response's `error` field is the verdict's error code |
| OnlineCompiler.Process | compile.hpp:50-102 | a request with code is never rejected; it ends as a compile failure exactly when no executable exists at the end, and a signalled verdict carries a signal in 1..127. A compile failure's log is the final compile-log file, and both capture files are then as they were before the request (the program never runs). A success's two streams are the final capture files |
| OnlineCompiler.RespondFields | compile.hpp:52-101 | each verdict writes its own error code and a reason. Only success writes `stdout`/`stderr`, with reason "". A rejection's reason is `code is empyt`, a compile failure's is the log, a signalled run's is `SignalReason(sig)`. No other field changes |
| OnlineCompiler.ErrorCodeDistinguishes | compile.hpp:53-92 | the four error codes tell the verdicts apart, and only success has code 0 |
| OnlineCompiler.SignalReasonInjective | compile.hpp:84 | different signals give different reasons |
| OnlineCompiler.CompileVerdict | compile.hpp:155-166 | the exe exists after compiling exactly when the toolchain wrote one or one was there already; the toolchain's exit status plays no part |
| OnlineCompiler.ProcessStaysInWorkspace | compile.hpp:50-102 | the compiler's own writes (source, stdin, compile-log redirect, `-o` executable, capture redirects) leave every file outside the request's six paths as it was |
| OnlineCompiler.FreshWorkspaceOutcome | compile.hpp:50-102 | in an empty workspace: the compile log is the diagnostics verbatim (and so is the log file when compilation fails); no executable gives a compile failure and creates no capture files. Otherwise the program gets the submitted input, and the verdict is its signal or its two streams verbatim |
| OnlineCompiler.Compiler.constructor | compile.hpp:113 | the counter starts at 0 with no names issued |
| OnlineCompiler.Compiler.WriteTmpFile | compile.hpp:110-120 | WriteTmpFile increments the counter first and names the request from the timestamp and the new value. It writes the source and stdin files, and the name is new while fewer than 2^32 were issued |
| OnlineCompiler.Compiler.Compile | compile.hpp:122-167 | the log and the executable are the toolchain's output, run on the argv of `BuildCommand`; the result is true exactly when the exe exists afterwards |
| OnlineCompiler.Compiler.Run | compile.hpp:169-191 | the capture files receive the program's streams, and the result is the signal from its status |
| OnlineCompiler.Compiler.CompileAndRun | compile.hpp:50-102 | Missing code gives error 3 with no allocation, no file written and the counter unchanged. Otherwise exactly one name is allocated, and the response and the filesystem are those of `Process`. So a compile failure never runs the program, and the result is true exactly on success |

## Left out

- `fork`, `execvp`/`execl`, `waitpid`, `open`/`dup2` and `stat` (compile.hpp:137-154, 171-190) are process
  and descriptor plumbing. Their combined effect is the toolchain and program functions and the map
  updates of `Compiled` and `Ran`. The following failure paths are not modelled:
  - a failing `fork` (-1 makes the parent take the child's branch);
  - a failing `open` of the compile log (the child exits 1);
  - an unopenable stdin file (the child keeps the parent's stdin);
  - an unopenable capture file (`dup2(-1, …)` fails and the program writes to the server's own stdout or
    stderr);
  - the buffered-output flush of the child's `exit(0)`.
- The toolchain and the program are deterministic functions of their inputs. Time limits, resource use and
  non-termination are outside the model.
- Atomicity of `std::atomic_int` (compile.hpp:113) is not modelled. Requests are sequential, and the counter
  belongs to one object rather than to the process. The sequential model hides that `to_string(id)` re-reads
  the counter after `++id`, so two concurrent requests can see the same value and the same name.
- Writes by g++ and by the submitted program other than their redirected streams and the `-o` executable are
  not modelled. The program runs without filesystem isolation and can write any file.
- OnlineCompiler.Compiler.Valid: does not relate `fs` to the names issued, so nothing establishes that a newly
  allocated name's workspace is empty (the requires of `FreshWorkspaceOutcome`). That depends on the disk the
  server starts with, which the model does not constrain.
- `TimeUtil::TimeStamp` is a parameter. `FileUtil::Read`/`Write` and `LOG` come from util.hpp, which is not
  part of this model:
  - `Write` is taken to replace the whole file;
  - `Read` of a missing file gives "".
- jsoncpp is reduced to objects of null, integer and string members. Its serialisation is left out.
- OnlineCompiler.Compiler.CompileAndRun: requires the timestamp to be below 10^16, so that every argument
  fits its 50-character row. The source has no such check and would overflow the row for longer names.
- OnlineCompiler.Compiler.CompileAndRun: rejects code `""` with error 3 and no allocation, where compile.hpp:52
  lets it through (jsoncpp's `empty()` is false for strings), allocates a name, writes an empty source and
  answers with g++'s error 1. The model uses the corrected test; the as-written test is `Json.Empty`.
- OnlineCompiler.Compiler.CompileAndRun: the response ensures are stated as `Respond(resp, verdict)`. That
  the `error` field is 0 exactly on success follows from Respond's contract and ErrorCodeDistinguishes, not
  from the method's own contract.
- Naming.NextNameFresh: names are shown fresh only within 2^32 allocations and one process lifetime. The
  source also promises nothing beyond that, since the counter wraps and restarts.
- oj_server.cc, server.cpp, oj_view.hpp, oj_data/1/tail.cpp and test.cpp (HTTP routing, HTML rendering,
  test data and a driver) are not part of this model.

## Findings

| source | as written | input that shows it | evidently intended | confidence | as-written member | corrected member |
|---|---|---|---|---|---|---|
| compile.hpp:52 | `req["code"].empty()` rejects only a null (absent) member, because jsoncpp's `empty()` is false for every string | a form body with `code=` (server.cpp:33-36 stores every body field as a string), so the member is `""` | an empty submission is rejected with error 3, "code is empyt", before anything is allocated | not executed | Json.EmptyStringNotRejected | Json.CodeMissingIffNoText |

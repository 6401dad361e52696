/** The argument vector the compile stage hands to `execvp`: twenty pointers
    into twenty fixed rows of fifty characters, the first five rows filled by
    `sprintf`, the sixth pointer set to NULL. A row is an `array<char>` and a
    pointer is an `array?<char>` aiming at one. */
module Command {
  import opened Workspace

  const Slots: nat := 20
  const RowWidth: nat := 50

  /** The toolchain invocation: `g++ <source> -o <executable> -std=c++11`. */
  function CompileArgs(name: string): (args: seq<string>)
    ensures |args| == 5 && args[1] == PathOf(name, Source) && args[3] == PathOf(name, Executable)
  {
    ["g++", SrcPath(name), "-o", ExePath(name), "-std=c++11"]
  }

  /** The C string that starts at index j of a row: its characters up to the first NUL. */
  function CString(row: array<char>, j: nat): string
    reads row
    requires j <= row.Length
    decreases row.Length - j
  {
    if j == row.Length || row[j] == '\0' then "" else [row[j]] + CString(row, j + 1)
  }

  /** The arguments `execvp` reads: the strings the pointers from slot k on
      point to, up to the first NULL. */
  function ArgvFrom(command: array<array?<char>>, k: nat): seq<string>
    reads command, set i | 0 <= i < command.Length && command[i] != null :: command[i]
    requires k <= command.Length
    decreases command.Length - k
  {
    if k == command.Length || command[k] == null then []
    else [CString(command[k], 0)] + ArgvFrom(command, k + 1)
  }

  /** A row holding s followed by a NUL reads back as s. */
  lemma {:induction false} CStringOfRow(row: array<char>, s: string, j: nat)
    requires j <= |s| < row.Length
    requires '\0' !in s
    requires row[..|s| + 1] == s + ['\0']
    ensures CString(row, j) == s[j..]
    decreases |s| - j
  {
    assert row[j] == row[..|s| + 1][j];
    if j < |s| {
      CStringOfRow(row, s, j + 1);
      assert s[j..] == [s[j]] + s[j + 1..];
    }
  }

  /** `sprintf(row, "%s", s)`: the characters of s and a NUL at the start of
      the row. It stays inside the row only when s is shorter than the row. */
  method Sprintf(row: array<char>, s: string)
    requires |s| < row.Length
    modifies row
    ensures row[..|s| + 1] == s + ['\0']
    ensures row[|s| + 1..] == old(row[|s| + 1..])
  {
    var k := 0;
    while k < |s|
      invariant 0 <= k <= |s|
      invariant row[..k] == s[..k]
      invariant forall j :: k <= j < row.Length ==> row[j] == old(row[j])
    {
      row[k] := s[k];
      k := k + 1;
    }
    row[|s|] := '\0';
  }

  /** Twenty distinct rows of fifty NUL characters (`char buf[20][50] = {{0}}`). */
  method NewRows() returns (buf: array<array<char>>)
    ensures fresh(buf) && buf.Length == Slots
    ensures forall k :: 0 <= k < Slots ==> fresh(buf[k]) && buf[k].Length == RowWidth
    ensures forall a, b :: 0 <= a < b < Slots ==> buf[a] != buf[b]
    ensures forall k, j :: 0 <= k < Slots && 0 <= j < RowWidth ==> buf[k][j] == '\0'
  {
    var none := new char[0];
    buf := new array<char>[Slots](_ => none);
    for i := 0 to Slots
      invariant forall k :: 0 <= k < i ==> fresh(buf[k]) && buf[k].Length == RowWidth
      invariant forall a, b :: 0 <= a < b < i ==> buf[a] != buf[b]
      invariant forall k, j :: 0 <= k < i && 0 <= j < RowWidth ==> buf[k][j] == '\0'
    {
      buf[i] := new char[RowWidth](_ => '\0');
    }
  }

  /** Prints the five arguments into the rows the first five pointers aim at. */
  method PrintArgs(command: array<array?<char>>, args: seq<string>)
    requires command.Length == Slots && |args| == 5
    requires forall r :: 0 <= r < 5 ==> command[r] != null && |args[r]| < command[r].Length
    requires forall a, b :: 0 <= a < b < 5 ==> command[a] != command[b]
    modifies command[0], command[1], command[2], command[3], command[4]
    requires forall r :: 0 <= r < 5 ==> '\0' !in args[r]
    ensures forall r :: 0 <= r < 5 ==> CString(command[r], 0) == args[r]
  {
    Sprintf(command[0], args[0]);
    Sprintf(command[1], args[1]);
    Sprintf(command[2], args[2]);
    Sprintf(command[3], args[3]);
    Sprintf(command[4], args[4]);
    forall r | 0 <= r < 5
      ensures CString(command[r], 0) == args[r]
    {
      CStringOfRow(command[r], args[r], 0);
    }
  }

  /** With rows 0 to 4 holding the arguments and pointer 5 NULL, `execvp` sees exactly the arguments. */
  lemma ArgvOfFiveRows(command: array<array?<char>>, args: seq<string>)
    requires command.Length == Slots && |args| == 5 && command[5] == null
    requires forall r :: 0 <= r < 5 ==> command[r] != null && CString(command[r], 0) == args[r]
    ensures ArgvFrom(command, 0) == args
  {
    assert ArgvFrom(command, 5) == [];
    assert ArgvFrom(command, 4) == args[4..];
    assert ArgvFrom(command, 3) == args[3..];
    assert ArgvFrom(command, 2) == args[2..];
    assert ArgvFrom(command, 1) == args[1..];
  }

  /** Builds the vector: each of the twenty pointers aims at its own zeroed
      row of fifty characters (`command[i] = buf[i]`), the five arguments are
      printed into rows 0 to 4 and pointer 5 becomes NULL. Every argument,
      NUL included, fits its row exactly when the name is at most 32
      characters, since the two paths add 17 characters to it. */
  method BuildCommand(name: string) returns (command: array<array?<char>>)
    requires |name| <= 32 && '\0' !in name
    ensures fresh(command) && command.Length == Slots
    ensures ArgvFrom(command, 0) == CompileArgs(name)
  {
    var buf := NewRows();
    command := new array?<char>[Slots](_ => null);
    for i := 0 to Slots
      invariant forall k :: 0 <= k < Slots ==> fresh(buf[k]) && buf[k].Length == RowWidth
      invariant forall a, b :: 0 <= a < b < Slots ==> buf[a] != buf[b]
      invariant forall k :: 0 <= k < i ==> command[k] == buf[k]
    {
      command[i] := buf[i];
    }
    var args := CompileArgs(name);
    PrintArgs(command, args);
    command[5] := null;
    ArgvOfFiveRows(command, args);
  }
}

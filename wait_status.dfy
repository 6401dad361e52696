/** The 32 bits of the status `waitpid` stores, and what the runner reads from them. */
module WaitStatus {

  /** What the runner returns: `status & 0x7f`, the number of the signal that
      ended the child, or 0 when it exited normally. */
  function TermSignal(status: bv32): (sig: int)
    ensures 0 <= sig < 128
  {
    (status & 0x7f) as int
  }

  /** The status of a child that called `exit(code)`: the low byte of the
      code sits in bits 8 to 15, the low seven bits are zero. */
  function ExitedStatus(code: int): bv32 {
    ((code % 256) as bv32) << 8
  }

  /** The status of a child ended by signal `sig`; bit 7 says whether it dumped core. */
  function SignaledStatus(sig: bv32, coreDumped: bool): bv32
    requires 1 <= sig < 127
  {
    sig | (if coreDumped then 0x80 else 0)
  }

  /** Whatever the exit code, a normal exit reads as signal 0. */
  lemma ExitCodeIgnored(code: int)
    ensures TermSignal(ExitedStatus(code)) == 0
  {
  }

  /** A child ended by a signal reads as that signal, core dump or not. */
  lemma SignalReported(sig: bv32, coreDumped: bool)
    requires 1 <= sig < 127
    ensures TermSignal(SignaledStatus(sig, coreDumped)) == sig as int
  {
  }
}

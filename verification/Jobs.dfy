/** The records of include/Command.hpp, include/Job.hpp, include/IIsolator.hpp and
    include/JobResult.hpp, and the two places where a wait status becomes a result. */
module Jobs {
  type JobId = nat

  datatype Option<+T> = None | Some(value: T)

  datatype Command = Command(
    executable: string,
    arguments: seq<string>,
    isBackground: bool,
    redirectInput: string,
    redirectOutput: string)

  const EMPTY_COMMAND := Command("", [], false, "", "")

  /** `hasPromise` stands for a non-null `result_promise`; `pid <= 0` means "never cloned" and
      `timeQuantum <= 0` means "not preemptive". */
  datatype Job = Job(
    id: JobId,
    cmd: Command,
    hasPromise: bool,
    priority: int,
    pid: int,
    timeQuantum: int,
    elapsedBursts: int,
    uniqueId: int)

  /** What a producer hands to the queue: the default member values of `struct Job`. */
  predicate FreshJob(j: Job) {
    j.pid == -1 && j.elapsedBursts == 0 && j.uniqueId == 0
  }

  /** A job that was preempted once more, as it goes back to the queue. */
  function Demoted(j: Job): Job {
    j.(elapsedBursts := j.elapsedBursts + 1)
  }

  /** A terminal wait status: WIFEXITED with its code, or WIFSIGNALED with its signal. */
  datatype Status = ExitedWith(code: int) | KilledBy(signal: int)

  /** `output` names the job whose capture file was read into `stdout_out` and `stderr_out`. */
  datatype ExecResult = ExecResult(exitCode: int, termSignal: int, success: bool, output: Option<JobId>)

  const DEFAULT_RESULT := ExecResult(-1, 0, false, None)

  datatype Verdict = SUCCESS | TIMEOUT | SECCOMP_VIOLATION | KILLED | FAILED

  datatype JobResult = JobResult(
    jobId: JobId,
    exitCode: int,
    termSignal: int,
    verdict: Verdict,
    commandLine: string,
    output: Option<JobId>)

  /** The polling branch, src/LinuxNamespaceIsolator.cpp:259-268. */
  function DecodePolled(st: Status): ExecResult {
    match st
    case ExitedWith(c) => DEFAULT_RESULT.(exitCode := c, success := c == 0)
    case KilledBy(sig) => DEFAULT_RESULT.(termSignal := sig, success := false)
  }

  /** The blocking branch, src/LinuxNamespaceIsolator.cpp:292-298. */
  function DecodeBlocked(st: Status): ExecResult {
    if st.ExitedWith? then
      DEFAULT_RESULT.(exitCode := st.code, success := st.code == 0)
    else
      DEFAULT_RESULT.(termSignal := st.signal, success := false)
  }

  function VerdictOf(r: ExecResult): Verdict {
    if r.success then SUCCESS
    else if r.termSignal == 9 then TIMEOUT
    else if r.termSignal == 31 then SECCOMP_VIOLATION
    else if r.termSignal != 0 then KILLED
    else FAILED
  }

  /** The result that src/WorkerPool.cpp:44-62 assembles. */
  function ResultFor(j: Job, r: ExecResult): JobResult {
    JobResult(j.id, r.exitCode, r.termSignal, VerdictOf(r), j.cmd.executable, r.output)
  }

  function PromiseValue(r: ExecResult): int {
    if r.success then 0 else 1
  }

  /** Both branches make the same of a terminal status. */
  lemma BranchesDecodeAlike(st: Status)
    ensures DecodePolled(st) == DecodeBlocked(st)
  {
  }

  /** The verdict and the promise value, told from the way the child ended. */
  lemma VerdictTellsTheEnding(st: Status)
    requires st.KilledBy? ==> st.signal > 0
    ensures
      var r := DecodeBlocked(st);
      && (VerdictOf(r) == SUCCESS <==> st == ExitedWith(0))
      && (VerdictOf(r) == FAILED <==> st.ExitedWith? && st.code != 0)
      && (VerdictOf(r) == TIMEOUT <==> st == KilledBy(9))
      && (VerdictOf(r) == SECCOMP_VIOLATION <==> st == KilledBy(31))
      && (VerdictOf(r) == KILLED <==> st.KilledBy? && st.signal != 9 && st.signal != 31)
      && (PromiseValue(r) == 0 <==> st == ExitedWith(0))
  {
  }
}

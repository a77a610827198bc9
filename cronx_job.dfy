/**
 * The cron job record of package cronx (pkg/cronx/job.go): the display
 * name derived from the wrapped job's type, the mapping from the internal
 * numeric status to the public StatusCode, and the lifecycle of one run.
 *
 * The interceptor chain together with the wrapped job's own Run is an
 * oracle: a function from the job as the chain sees it to an outcome.
 */
module Cronx {

  /** Go's uint32, the type of the internal status word. */
  newtype uint32 = x: int | 0 <= x < 0x1_0000_0000

  // The internal status words. Their declarations are not part of this
  // model; the model only relies on their being pairwise distinct.
  const statusDown: uint32 := 0
  const statusUp: uint32 := 1
  const statusIdle: uint32 := 2
  const statusRunning: uint32 := 3
  const statusError: uint32 := 4

  /** The public status reported in listings. */
  datatype StatusCode =
    | StatusCodeUp
    | StatusCodeRunning
    | StatusCodeIdle
    | StatusCodeDown
    | StatusCodeError

  /** The three strings reflection offers about the wrapped job's type:
      Name(), Elem().Name() and String(). */
  datatype TypeDescriptor = TypeDescriptor(name: string, elemName: string, str: string)

  /** The user's job value, known to this model only through its type. */
  datatype JobItf = JobItf(typ: TypeDescriptor)

  /** What the interceptor chain, and through it the job body, reports. */
  datatype Outcome = Succeeded | Failed(message: string)

  /** The job as the interceptor chain receives it: every field, and
      whether the run-lock is held at that moment. */
  datatype JobView = JobView(
    Name: string,
    Status: StatusCode,
    Latency: string,
    Error: string,
    EntryID: int,
    inner: JobItf,
    status: uint32,
    locked: bool)

  /** The name of the package's own function adapter type. */
  const FuncTypeName := "Func"
  /** The display name given to jobs wrapped in that adapter. */
  const Nameless := "(nameless)"

  /** The public code for an internal status word; any word other than
      the four recognised ones reads as Up. */
  function StatusOf(s: uint32): (code: StatusCode)
    ensures code == StatusCodeRunning <==> s == statusRunning
    ensures code == StatusCodeIdle <==> s == statusIdle
    ensures code == StatusCodeDown <==> s == statusDown
    ensures code == StatusCodeError <==> s == statusError
    ensures code == StatusCodeUp <==>
              s != statusRunning && s != statusIdle && s != statusDown && s != statusError
  {
    if s == statusRunning then StatusCodeRunning
    else if s == statusIdle then StatusCodeIdle
    else if s == statusDown then StatusCodeDown
    else if s == statusError then StatusCodeError
    else StatusCodeUp
  }

  /** The display name of a job: the first non-empty of the type's name,
      its element type's name and its string form, with the adapter's
      name "Func" shown as "(nameless)". */
  function DeriveName(t: TypeDescriptor): (name: string)
    ensures name != FuncTypeName
    ensures name == "" <==> t.name == "" && t.elemName == "" && t.str == ""
    ensures t.name != "" && t.name != FuncTypeName ==> name == t.name
    ensures t.name == "" && t.elemName != "" && t.elemName != FuncTypeName ==> name == t.elemName
    ensures t.name == "" && t.elemName == "" && t.str != FuncTypeName ==> name == t.str
    ensures t.name == FuncTypeName ==> name == Nameless
    ensures t.name == "" && t.elemName == FuncTypeName ==> name == Nameless
    ensures t.name == "" && t.elemName == "" && t.str == FuncTypeName ==> name == Nameless
    ensures name == Nameless ==>
              Nameless in [t.name, t.elemName, t.str] || FuncTypeName in [t.name, t.elemName, t.str]
  {
    var first := if t.name != "" then t.name
                 else if t.elemName != "" then t.elemName
                 else t.str;
    if first == FuncTypeName then Nameless else first
  }

  class Job {
    var Name: string
    var Status: StatusCode
    var Latency: string
    var Error: string
    var EntryID: int
    const inner: JobItf
    var status: uint32
    /** Whether the run-lock is held. */
    var running: bool

    /** The job as an interceptor sees it. */
    function View(): JobView
      reads this
    {
      JobView(Name, Status, Latency, Error, EntryID, inner, status, running)
    }

    /** A new job record around `job`, Up and never run. */
    constructor NewJob(job: JobItf)
      ensures Name == DeriveName(job.typ)
      ensures Status == StatusCodeUp && status == statusUp
      ensures Error == "" && Latency == "" && EntryID == 0
      ensures inner == job && !running
    {
      Name := DeriveName(job.typ);
      Status := StatusCodeUp;
      Latency := "";
      Error := "";
      EntryID := 0;
      inner := job;
      status := statusUp;
      running := false;
    }

    /** Re-publishes the internal status as the public one and returns it. */
    method UpdateStatus() returns (code: StatusCode)
      modifies this`Status
      ensures code == Status && Status == StatusOf(status)
      ensures old(Status) == StatusOf(status) ==> Status == old(Status)
    {
      if status == statusRunning {
        Status := StatusCodeRunning;
      } else if status == statusIdle {
        Status := StatusCodeIdle;
      } else if status == statusDown {
        Status := StatusCodeDown;
      } else if status == statusError {
        Status := StatusCodeError;
      } else {
        Status := StatusCodeUp;
      }
      code := Status;
    }

    /** One firing: take the run-lock, mark the job Running, pass it through
        `interceptor`, record the outcome and `latency`, re-publish the
        status and release the lock. `observed` is the job exactly as the
        interceptor was handed it. */
    method Run(interceptor: JobView -> Outcome, latency: string) returns (observed: JobView)
      requires !running
      modifies this
      ensures observed == JobView(old(Name), StatusCodeRunning, old(Latency), old(Error),
                                  old(EntryID), inner, statusRunning, true)
      ensures interceptor(observed).Failed? ==>
                Error == interceptor(observed).message
                && status == statusError && Status == StatusCodeError
      ensures interceptor(observed).Succeeded? ==>
                Error == old(Error) && status == statusIdle && Status == StatusCodeIdle
      ensures Latency == latency
      ensures Status == StatusOf(status)
      ensures Name == old(Name) && EntryID == old(EntryID)
      ensures !running
    {
      running := true;
      status := statusRunning;
      var _ := UpdateStatus();
      observed := View();
      var outcome := interceptor(observed);
      match outcome {
        case Failed(message) =>
          Error := message;
          status := statusError;
        case Succeeded =>
          status := statusIdle;
      }
      Latency := latency;
      var _ := UpdateStatus();
      running := false;
    }
  }

  /** A failing run followed by a successful one: the job reports Idle yet
      still carries the first run's error message, because a successful
      run does not clear Error. */
  method ErrorKeptAfterRecovery(job: JobItf, message: string)
    returns (code: StatusCode, error: string)
    ensures code == StatusCodeIdle && error == message
  {
    var j := new Job.NewJob(job);
    var first := j.Run(_ => Failed(message), "");
    var second := j.Run(_ => Succeeded, "");
    code, error := j.Status, j.Error;
  }

  /** Two runs in a row: the second run finds the lock free again, which
      it needs in order to start, and sees the first run's outcome. */
  method RunTwiceSeesPreviousOutcome(job: JobItf, first: Outcome, second: Outcome)
    returns (seen: JobView, code: StatusCode)
    ensures seen.locked && seen.Status == StatusCodeRunning && seen.Latency == "first"
    ensures seen.Error == (if first.Failed? then first.message else "")
    ensures code == (if second.Failed? then StatusCodeError else StatusCodeIdle)
  {
    var j := new Job.NewJob(job);
    var a := j.Run(_ => first, "first");
    seen := j.Run(_ => second, "second");
    code := j.Status;
  }
}

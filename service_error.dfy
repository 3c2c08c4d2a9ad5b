/**
 The one domain-specific error of the sub-command dispatcher, `TuistServiceError`,
 and how the command-line front end is told to report it.
 */
module ServiceError {

  /** How a fatal error is reported: an abort is the user's problem, a bug is the tool's;
      the silent variants print only the description, without a trace. */
  datatype ErrorType = Abort | Bug | AbortSilent | BugSilent

  predicate IsSilent(t: ErrorType) {
    t == AbortSilent || t == BugSilent
  }

  predicate IsBug(t: ErrorType) {
    t == Bug || t == BugSilent
  }

  /** No plugin binary and no installed command handles the requested task. */
  datatype TuistServiceError = TaskUnavailable

  const TaskUnavailableDescription: string := "Task was not found in the environment"

  /** The error's `type`: a missing task is the user's problem, reported silently. */
  function TypeOf(e: TuistServiceError): (t: ErrorType)
    ensures IsSilent(t) && !IsBug(t)
  {
    match e
    case TaskUnavailable => AbortSilent
  }

  /** The error's `description`: the fixed line shown to the user. */
  function DescriptionOf(e: TuistServiceError): (d: string)
    ensures e == TaskUnavailable ==> d == TaskUnavailableDescription
    ensures |d| > 0
  {
    match e
    case TaskUnavailable => TaskUnavailableDescription
  }
}

/** `SchedulerError` and its `Display` rendering. */
module Errors {
  import opened Common

  datatype SchedulerError =
    | ConfigLoadError(msg: string)
    | PoolCreationError(msg: string)
    | TaskExecutionError(msg: string)
    | SchedulerUnimplemented(msg: string)
    | SchedulerServiceError(msg: string)
    | LoggerSetupError(msg: string)
    | DataLayerError(msg: string)

  /** The text `Display` writes for an error. Every rendering ends with the
      variant's message verbatim. */
  function Display(e: SchedulerError): (r: string)
    ensures |e.msg| < |r| && r[|r| - |e.msg|..] == e.msg
  {
    match e
    case ConfigLoadError(msg) => "Config load error: " + msg
    case TaskExecutionError(msg) => "Task execution error: " + msg
    case PoolCreationError(msg) => "Pool creation error: " + msg
    case SchedulerUnimplemented(msg) => "Unimplemented: " + msg
    case SchedulerServiceError(msg) => "Scheduler service error: " + msg
    case LoggerSetupError(msg) => "Scheduler logger error: " + msg
    case DataLayerError(msg) => "Scheduler data layer error: " + msg
  }

  /** Recovers an error from its rendering by its prefix: the inverse of `Display`. */
  function Parse(s: string): Option<SchedulerError>
  {
    if StartsWith(s, "Config load error: ") then Some(ConfigLoadError(s[19..]))
    else if StartsWith(s, "Task execution error: ") then Some(TaskExecutionError(s[22..]))
    else if StartsWith(s, "Pool creation error: ") then Some(PoolCreationError(s[21..]))
    else if StartsWith(s, "Unimplemented: ") then Some(SchedulerUnimplemented(s[15..]))
    else if StartsWith(s, "Scheduler service error: ") then Some(SchedulerServiceError(s[25..]))
    else if StartsWith(s, "Scheduler logger error: ") then Some(LoggerSetupError(s[24..]))
    else if StartsWith(s, "Scheduler data layer error: ") then Some(DataLayerError(s[28..]))
    else None
  }

  /** A string whose character `k` differs from the prefix's does not start with it. */
  lemma DiffersAt(s: string, prefix: string, k: nat)
    requires k < |prefix| && k < |s| && s[k] != prefix[k]
    ensures !StartsWith(s, prefix)
  {
  }

  /** A rendering starts with its own prefix. */
  lemma StartsWithPrefix(prefix: string, msg: string)
    ensures StartsWith(prefix + msg, prefix) && (prefix + msg)[|prefix|..] == msg
  {
    assert (prefix + msg)[..|prefix|] == prefix;
  }

  /** Each rendering parses back to its error: its own prefix matches, and every
      prefix tried before it differs from it at some character. */
  lemma ParsesConfigLoadError(m: string)
    ensures Parse(Display(ConfigLoadError(m))) == Some(ConfigLoadError(m))
  {
    StartsWithPrefix("Config load error: ", m);
  }

  lemma ParsesTaskExecutionError(m: string)
    ensures Parse(Display(TaskExecutionError(m))) == Some(TaskExecutionError(m))
  {
    StartsWithPrefix("Task execution error: ", m);
    DiffersAt(Display(TaskExecutionError(m)), "Config load error: ", 0);
  }

  lemma ParsesPoolCreationError(m: string)
    ensures Parse(Display(PoolCreationError(m))) == Some(PoolCreationError(m))
  {
    StartsWithPrefix("Pool creation error: ", m);
    DiffersAt(Display(PoolCreationError(m)), "Config load error: ", 0);
    DiffersAt(Display(PoolCreationError(m)), "Task execution error: ", 0);
  }

  lemma ParsesSchedulerUnimplemented(m: string)
    ensures Parse(Display(SchedulerUnimplemented(m))) == Some(SchedulerUnimplemented(m))
  {
    StartsWithPrefix("Unimplemented: ", m);
    DiffersAt(Display(SchedulerUnimplemented(m)), "Config load error: ", 0);
    DiffersAt(Display(SchedulerUnimplemented(m)), "Task execution error: ", 0);
    DiffersAt(Display(SchedulerUnimplemented(m)), "Pool creation error: ", 0);
  }

  lemma ParsesSchedulerServiceError(m: string)
    ensures Parse(Display(SchedulerServiceError(m))) == Some(SchedulerServiceError(m))
  {
    StartsWithPrefix("Scheduler service error: ", m);
    DiffersAt(Display(SchedulerServiceError(m)), "Config load error: ", 0);
    DiffersAt(Display(SchedulerServiceError(m)), "Task execution error: ", 0);
    DiffersAt(Display(SchedulerServiceError(m)), "Pool creation error: ", 0);
    DiffersAt(Display(SchedulerServiceError(m)), "Unimplemented: ", 0);
  }

  lemma ParsesLoggerSetupError(m: string)
    ensures Parse(Display(LoggerSetupError(m))) == Some(LoggerSetupError(m))
  {
    StartsWithPrefix("Scheduler logger error: ", m);
    DiffersAt(Display(LoggerSetupError(m)), "Config load error: ", 0);
    DiffersAt(Display(LoggerSetupError(m)), "Task execution error: ", 0);
    DiffersAt(Display(LoggerSetupError(m)), "Pool creation error: ", 0);
    DiffersAt(Display(LoggerSetupError(m)), "Unimplemented: ", 0);
    DiffersAt(Display(LoggerSetupError(m)), "Scheduler service error: ", 10);
  }

  lemma ParsesDataLayerError(m: string)
    ensures Parse(Display(DataLayerError(m))) == Some(DataLayerError(m))
  {
    StartsWithPrefix("Scheduler data layer error: ", m);
    DiffersAt(Display(DataLayerError(m)), "Config load error: ", 0);
    DiffersAt(Display(DataLayerError(m)), "Task execution error: ", 0);
    DiffersAt(Display(DataLayerError(m)), "Pool creation error: ", 0);
    DiffersAt(Display(DataLayerError(m)), "Unimplemented: ", 0);
    DiffersAt(Display(DataLayerError(m)), "Scheduler service error: ", 10);
    DiffersAt(Display(DataLayerError(m)), "Scheduler logger error: ", 10);
  }

  /** No variant's prefix is a prefix of another's, so parsing a rendering finds
      the variant and the message it was made from. */
  lemma ParseDisplay(e: SchedulerError)
    ensures Parse(Display(e)) == Some(e)
  {
    match e
    case ConfigLoadError(m) => ParsesConfigLoadError(m);
    case TaskExecutionError(m) => ParsesTaskExecutionError(m);
    case PoolCreationError(m) => ParsesPoolCreationError(m);
    case SchedulerUnimplemented(m) => ParsesSchedulerUnimplemented(m);
    case SchedulerServiceError(m) => ParsesSchedulerServiceError(m);
    case LoggerSetupError(m) => ParsesLoggerSetupError(m);
    case DataLayerError(m) => ParsesDataLayerError(m);
  }

  /** Two errors with the same rendering are the same error. */
  lemma DisplayInjective(e1: SchedulerError, e2: SchedulerError)
    requires Display(e1) == Display(e2)
    ensures e1 == e2
  {
    ParseDisplay(e1);
    ParseDisplay(e2);
  }
}

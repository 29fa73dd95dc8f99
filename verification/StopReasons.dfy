/** Stop reasons and process exit codes (`internal/runtime/exit.go`). */
module StopReasons {
  /** A stop reason; `Named` is any other text a backend gives. */
  datatype Reason =
    | NoReason | EndTurn | Refusal | ToolDenied | MaxTokens | MaxTurnRequests | Blocked | QuotaExhausted | RateLimited
    | Cancelled | ProgressTimedOut | TimedOut | SessionIdConflict | MessagingUnavailable | DegenerateStream
    | IncompleteOutput | Errored | Named(text: string)

  function ExitCode(reason: Reason): int {
    match reason
    case EndTurn => 0
    case Refusal => 2
    case ToolDenied => 2
    case MaxTokens => 3
    case MaxTurnRequests => 4
    case Blocked => 5
    case QuotaExhausted => 6
    case RateLimited => 7
    case Cancelled => 130
    case ProgressTimedOut => 124
    case TimedOut => 124
    case _ => 1
  }

  function ReasonFor(exitCode: int): Reason {
    match exitCode
    case 0 => EndTurn
    case 2 => Refusal
    case 3 => MaxTokens
    case 4 => MaxTurnRequests
    case 5 => Blocked
    case 6 => QuotaExhausted
    case 7 => RateLimited
    case 124 => TimedOut
    case 130 => Cancelled
    case _ => NoReason
  }

  predicate Retryable(exitCode: int, reason: Reason) {
    reason != SessionIdConflict && reason != MessagingUnavailable && (exitCode == 1 || reason == RateLimited)
  }
}

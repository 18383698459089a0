/** The white-listed transition tables of parent and child tasks, with the guards
    that go beyond the tables: human resume and the one controlled retry. */
module StateMachine {
  import opened Wrappers

  datatype ParentStatus =
    | Draft | Reviewing | Reviewed | Fixing | Testing | PendingApproval
    | Merged | NeedsHuman | Rejected | Failed

  datatype ChildStatus = Submitted | Working | InputRequired | Completed | ChildFailed | Canceled

  datatype ErrorCode =
    | InvalidInput | PatchInvalid | ArtifactSchemaInvalid | ArtifactHashMismatch | ModelOutputInvalid
    | PermissionDenied | Forbidden | Unauthorized
    | StepLimitExceeded | ToolLoopDetected | BudgetExceeded
    | Conflict | ScopeDrift | WideImpact | TestGap | QualityGateFailed
    | SandboxTimeout | SandboxViolation | SandboxUnavailable
    | IllegalStateTransition | StateVersionConflict | VersionConflict
    | ProtocolVersionUnsupported | TaskTimeout | TaskStatusUnknown | TaskCanceled | ParentTaskMismatch
    | AgentUnavailable | AgentCardInvalid | CapabilityNotAvailable
    | IdempotencyConflict | IdempotencyKeyRequired
    | ModelTimeout | ModelUnavailable
    | ResourceNotFound | InternalError

  /** What the error_code column of a child row may hold: nothing, a known code, or a foreign text. */
  datatype StoredCode = NoCode | Known(code: ErrorCode) | Foreign(text: string)

  const MAX_CHILD_ATTEMPTS: nat := 2

  /** The white list of parent edges; what is not listed is denied. */
  predicate ParentEdge(from: ParentStatus, to: ParentStatus) {
    match from
    case Draft => to.Reviewing? || to.NeedsHuman? || to.Failed?
    case Reviewing => to.Reviewed? || to.NeedsHuman? || to.Failed?
    case Reviewed => to.Fixing? || to.Rejected? || to.NeedsHuman? || to.Failed?
    case Fixing => to.Testing? || to.NeedsHuman? || to.Failed?
    case Testing => to.PendingApproval? || to.NeedsHuman? || to.Failed?
    case PendingApproval => to.Merged? || to.Rejected? || to.NeedsHuman?
    case NeedsHuman => false
    case Merged => false
    case Rejected => false
    case Failed => false
  }

  /** Statuses nothing leads out of, not even a person. */
  predicate Final(s: ParentStatus) {
    s.Merged? || s.Rejected? || s.Failed?
  }

  predicate CanTransitionParent(current: ParentStatus, target: ParentStatus) {
    current == target || ParentEdge(current, target)
  }

  predicate CanHumanResume(current: ParentStatus, target: ParentStatus) {
    current.NeedsHuman? && !target.Merged? && !target.NeedsHuman?
  }

  /** The white list of child edges. The one out of FAILED also needs CanRetryChild. */
  predicate ChildEdge(from: ChildStatus, to: ChildStatus) {
    match from
    case Submitted => to.Working? || to.ChildFailed? || to.Canceled?
    case Working => to.InputRequired? || to.Completed? || to.ChildFailed? || to.Canceled?
    case InputRequired => to.Working? || to.ChildFailed? || to.Canceled?
    case ChildFailed => to.Working?
    case Completed => false
    case Canceled => false
  }

  predicate ChildTerminal(s: ChildStatus) {
    s.Completed? || s.ChildFailed? || s.Canceled?
  }

  predicate CanTransitionChild(current: ChildStatus, target: ChildStatus) {
    current == target || ChildEdge(current, target)
  }

  predicate Retryable(code: ErrorCode) {
    code.SandboxTimeout? || code.StateVersionConflict? || code.TaskTimeout? || code.AgentUnavailable?
    || code.ModelTimeout? || code.ModelUnavailable?
  }

  predicate CanRetryChild(status: ChildStatus, attempt: nat, code: StoredCode, maxAttempts: nat) {
    status.ChildFailed? && attempt < maxAttempts && code.Known? && Retryable(code.code)
  }

  /** The parent status an error leads to by itself; None leaves the choice to the caller. */
  function DefaultParentStatus(code: ErrorCode): Option<ParentStatus> {
    match code
    case InvalidInput => Some(Failed)
    case Forbidden | Unauthorized | WideImpact | StateVersionConflict | AgentCardInvalid => None
    case IdempotencyConflict | IdempotencyKeyRequired | ResourceNotFound => None
    case _ => Some(NeedsHuman)
  }

  /** The text of an error code, as it appears in audit rows and idempotency keys. */
  function CodeText(code: ErrorCode): string {
    match code
    case InvalidInput => "INVALID_INPUT"
    case PatchInvalid => "PATCH_INVALID"
    case ArtifactSchemaInvalid => "ARTIFACT_SCHEMA_INVALID"
    case ArtifactHashMismatch => "ARTIFACT_HASH_MISMATCH"
    case ModelOutputInvalid => "MODEL_OUTPUT_INVALID"
    case PermissionDenied => "PERMISSION_DENIED"
    case Forbidden => "FORBIDDEN"
    case Unauthorized => "UNAUTHORIZED"
    case StepLimitExceeded => "STEP_LIMIT_EXCEEDED"
    case ToolLoopDetected => "TOOL_LOOP_DETECTED"
    case BudgetExceeded => "BUDGET_EXCEEDED"
    case Conflict => "CONFLICT"
    case ScopeDrift => "SCOPE_DRIFT"
    case WideImpact => "WIDE_IMPACT"
    case TestGap => "TEST_GAP"
    case QualityGateFailed => "QUALITY_GATE_FAILED"
    case SandboxTimeout => "SANDBOX_TIMEOUT"
    case SandboxViolation => "SANDBOX_VIOLATION"
    case SandboxUnavailable => "SANDBOX_UNAVAILABLE"
    case IllegalStateTransition => "ILLEGAL_STATE_TRANSITION"
    case StateVersionConflict => "STATE_VERSION_CONFLICT"
    case VersionConflict => "VERSION_CONFLICT"
    case ProtocolVersionUnsupported => "PROTOCOL_VERSION_UNSUPPORTED"
    case TaskTimeout => "TASK_TIMEOUT"
    case TaskStatusUnknown => "TASK_STATUS_UNKNOWN"
    case TaskCanceled => "TASK_CANCELED"
    case ParentTaskMismatch => "PARENT_TASK_MISMATCH"
    case AgentUnavailable => "AGENT_UNAVAILABLE"
    case AgentCardInvalid => "AGENT_CARD_INVALID"
    case CapabilityNotAvailable => "CAPABILITY_NOT_AVAILABLE"
    case IdempotencyConflict => "IDEMPOTENCY_CONFLICT"
    case IdempotencyKeyRequired => "IDEMPOTENCY_KEY_REQUIRED"
    case ModelTimeout => "MODEL_TIMEOUT"
    case ModelUnavailable => "MODEL_UNAVAILABLE"
    case ResourceNotFound => "RESOURCE_NOT_FOUND"
    case InternalError => "INTERNAL_ERROR"
  }
}

/** Values shared by every module: identities, times, optional values, and the
    rows of job_instance and job_task. */
module Base {
  type Id = int

  /** A database or process time, in the database's microseconds. */
  type Time = int

  const SECOND: int := 1_000_000

  datatype Option<+T> = None | Some(value: T)

  const MAX_INT32: int := 0x7FFF_FFFF
  type Int32 = x: int | -MAX_INT32 - 1 <= x <= MAX_INT32

  const MAX_INT64: int := 0x7FFF_FFFF_FFFF_FFFF

  datatype EndReason = Success | ExecutionFailed | DispatchRejected | ResultUnknown | ManualStop | InstanceTimeout

  datatype TaskType = Ordinary | Prepare | Shard | Post

  datatype TaskStatus = TaskWaiting | TaskRunning | TaskRetryWaiting | TaskSucceeded | TaskFailed | TaskCanceled {
    predicate Unfinished() { TaskWaiting? || TaskRunning? || TaskRetryWaiting? }
  }

  datatype InstanceStatus =
    | InstanceWaiting | InstanceRunning | InstanceStopping
    | InstanceSucceeded | InstanceFailed | InstanceCanceled
  {
    predicate Terminal() { InstanceSucceeded? || InstanceFailed? || InstanceCanceled? }
    predicate Active() { !Terminal() }
  }

  datatype ExecutionMode = Normal | Sharded | OtherMode

  /** The execution snapshot frozen at trigger time. `textValid` stands for the
      processor-name and parameter text checks. */
  datatype Config = Config(
    schemaVersion: int, mode: ExecutionMode, postEnabled: bool, textValid: bool,
    maxRetries: Int32, retryInterval: Int32, timeoutSeconds: Int32)
  {
    /** What registration demands of a snapshot it will execute. */
    predicate Executable() {
      && schemaVersion == 1 && mode == Normal && !postEnabled && textValid
      && 0 <= maxRetries && 0 < retryInterval && 0 < timeoutSeconds
    }

    /** The execution budget, including the first opportunity, widened past int32. */
    function Budget(): int { maxRetries + 1 }
  }

  datatype Instance = Instance(
    job: Id, group: Id, config: Config, status: InstanceStatus,
    startedAt: Option<Time>, deadlineAt: Option<Time>, finishedAt: Option<Time>,
    endReason: Option<EndReason>, summary: Option<string>)

  datatype Task = Task(
    instance: Id, kind: TaskType, status: TaskStatus,
    attemptNo: int, usedAttempts: int,
    registeredAt: Option<Time>, nextDispatchAt: Option<Time>,
    executor: Option<Id>, address: Option<string>,
    data: Option<string>, summary: Option<string>, endReason: Option<EndReason>,
    startedAt: Option<Time>, finishedAt: Option<Time>, updatedAt: Time)

  /** Why a call failed, as far as the caller may react to it. */
  datatype Failure = InvalidInput | InvalidState | InvalidConfig | NotFound | Locked | Unsupported | Technical

  datatype Result<+T> = Ok(value: T) | Err(error: Failure)

  /** What happens to one independently committed write: the confirmation arrives,
      the write is rolled back, or the write commits and its confirmation is lost. */
  datatype Fate = Confirmed | RolledBack | ConfirmationLost
}

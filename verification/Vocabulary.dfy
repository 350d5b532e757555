/** The portable vocabulary shared by every part of the poller: interests, modes,
    registration states, commit statuses and errors. */
module Vocabulary {

  datatype Option<+T> = None | Some(value: T)

  datatype Result<+T, +E> = Ok(value: T) | Err(error: E)

  datatype Unit = Unit

  const U32_MAX: int := 0xFFFF_FFFF
  const U64_MAX: int := 0xFFFF_FFFF_FFFF_FFFF
  const I32_MAX: int := 0x7FFF_FFFF

  type U32 = x: int | 0 <= x <= U32_MAX
  type U64 = x: int | 0 <= x <= U64_MAX

  /** A raw 64-bit registration identity, which is also the native token. */
  type RegistrationId = U64
  type Key = U64
  /** The number of an open descriptor. */
  type Descriptor = x: int | 0 <= x <= I32_MAX

  datatype Interest = Interest(readable: bool, writable: bool) {
    predicate IsEmpty() { !readable && !writable }

    /** Number of native filters this interest needs. */
    function Width(): (n: nat)
      ensures n == 0 <==> IsEmpty()
    {
      (if readable then 1 else 0) + (if writable then 1 else 0)
    }
  }

  const EMPTY_INTEREST := Interest(false, false)
  const READABLE := Interest(true, false)
  const WRITABLE := Interest(false, true)
  const BOTH := Interest(true, true)

  datatype Mode = Level | OneShot

  datatype ArmState = Armed | Disarmed

  datatype RegistrationState = Registered(arm: ArmState) | Uncertain

  const ARMED := Registered(Armed)
  const DISARMED := Registered(Disarmed)

  datatype CommitStatus = Applied | NotApplied | Unknown

  datatype Operation = OpRegister | OpModify | OpDelete | OpDisarm | OpWait

  datatype ErrorKind = PermissionDenied | TimedOut | BrokenPipe | InvalidInput | InvalidData | OtherKind

  /** An operating-system error: a raw code, or a kind made by the library. */
  datatype IoError = Os(code: int) | Kind(kind: ErrorKind)

  datatype Error =
    | Stale(registration: RegistrationId)
    | WrongPoller(registration: RegistrationId)
    | UncertainState(registration: RegistrationId)
    | InvalidInterest
    | Capacity(limit: nat)
    | RegistrationSpaceExhausted
    | BackendOverflow
    | EventsTooSmall(required: nat, actual: nat)
    | Invariant
    | Mutation(operation: Operation, commit: CommitStatus, source: IoError)
    | Io(operation: Operation, source: IoError)

  /** What a driver reports when a mutation fails. */
  datatype MutationFailure = MutationFailure(commit: CommitStatus, source: IoError)

  lemma {:induction false} SubsetCount<T>(a: set<T>, b: set<T>)
    requires a <= b
    ensures |a| <= |b|
  {
    assert b == a + (b - a);
  }

  type NativeResult = Result<Unit, MutationFailure>

  /** What the driver claims about the backend: success and `Applied` say the change was made. */
  function CommitOf(native: NativeResult): CommitStatus {
    match native
    case Ok(_) => Applied
    case Err(failure) => failure.commit
  }
}

/**
 The lifecycle values of a backend (common/src/types/backend_state.rs): statuses, their
 numbers, states, the transitions between states and the public stream entries.
 */
module BackendStates {
  import opened Basics

  datatype Status =
    | Scheduled
    | Loading
    | Starting
    | Waiting
    | Ready
    | Terminating
    | HardTerminating
    | Terminated
  {
    /** The number stored in the database; the gaps are the source's. */
    function AsInt(): int {
      match this
      case Scheduled => 10
      case Loading => 20
      case Starting => 30
      case Waiting => 40
      case Ready => 50
      case Terminating => 60
      case HardTerminating => 65
      case Terminated => 70
    }

    /** Position in the declaration, which is what the derived comparison uses. */
    function Rank(): nat {
      match this
      case Scheduled => 0
      case Loading => 1
      case Starting => 2
      case Waiting => 3
      case Ready => 4
      case Terminating => 5
      case HardTerminating => 6
      case Terminated => 7
    }

    predicate AtMost(other: Status) {
      Rank() <= other.Rank()
    }
  }

  datatype TerminationKind = Soft | Hard

  datatype TerminationReason = Swept | External | KeyExpired | Lost | StartupTimeout | InternalError

  datatype State =
    | InScheduled
    | InLoading
    | InStarting
    | InWaiting(address: Address)
    | InReady(address: Address)
    | InTerminating(lastStatus: Status, termination: TerminationKind, reason: TerminationReason)
    | InHardTerminating(lastStatus: Status, reason: TerminationReason)
    | InTerminated(lastStatus: Status, kind: Option<TerminationKind>,
                   why: Option<TerminationReason>, exitCode: Option<int>)
  {
    function Status(): Status {
      match this
      case InScheduled => Scheduled
      case InLoading => Loading
      case InStarting => Starting
      case InWaiting(_) => Waiting
      case InReady(_) => Ready
      case InTerminating(_, _, _) => Terminating
      case InHardTerminating(_, _) => HardTerminating
      case InTerminated(_, _, _, _) => Terminated
    }

    function StatusInt(): int {
      Status().AsInt()
    }

    function AddressOf(): Option<Address> {
      match this
      case InWaiting(a) => Some(a)
      case InReady(a) => Some(a)
      case _ => None
    }

    function ToTerminating(r: TerminationReason): State {
      if Terminating.AtMost(Status()) then this
      else InTerminating(Status(), Soft, r)
    }

    function ToHardTerminating(r: TerminationReason): State {
      if HardTerminating.AtMost(Status()) then this
      else match this
        case InTerminating(last, _, _) => InHardTerminating(last, r)
        case _ => InHardTerminating(Status(), r)
    }

    function ToTerminated(exit: Option<int>): State {
      match this
      case InTerminated(_, _, _, _) => this
      case InHardTerminating(last, r) => InTerminated(last, Some(Hard), Some(r), exit)
      case InTerminating(last, k, r) => InTerminated(last, Some(k), Some(r), exit)
      case _ => InTerminated(Status(), None, None, exit)
    }
  }

  /** What a client of the status stream sees of a state. */
  datatype StreamEntry = StreamEntry(
    status: Status,
    reason: Option<TerminationReason>,
    kind: Option<TerminationKind>,
    exitError: Option<bool>,
    time: Time)

  function FromState(s: State, time: Time): StreamEntry {
    var reason := match s
      case InTerminated(_, _, why, _) => why
      case InTerminating(_, _, r) => Some(r)
      case InHardTerminating(_, r) => Some(r)
      case _ => None;
    var kind := match s
      case InTerminated(_, k, _, _) => k
      case InTerminating(_, _, _) => Some(Soft)
      case InHardTerminating(_, _) => Some(Hard)
      case _ => None;
    var exitError := match s
      case InTerminated(_, _, _, Some(code)) => Some(code != 0)
      case InTerminated(_, _, _, None) => Some(false)
      case _ => None;
    StreamEntry(s.Status(), reason, kind, exitError, time)
  }

  /** The derived order and the stored numbers order statuses alike, and both tell them apart. */
  lemma StatusOrdersAgree(a: Status, b: Status)
    ensures a.AtMost(b) <==> a.AsInt() <= b.AsInt()
    ensures a.AsInt() == b.AsInt() <==> a == b
  {
  }

  /** The numbers that are stored, and compared by the database. */
  lemma StoredNumbers()
    ensures Scheduled.AsInt() == 10 && Loading.AsInt() == 20 && Starting.AsInt() == 30
    ensures Waiting.AsInt() == 40 && Ready.AsInt() == 50 && Terminating.AsInt() == 60
    ensures HardTerminating.AsInt() == 65 && Terminated.AsInt() == 70
  {
  }

  /** A state's status tells which state it is. */
  lemma StatusTells(s: State)
    ensures (s.Status() == Scheduled <==> s.InScheduled?) && (s.Status() == Loading <==> s.InLoading?)
    ensures (s.Status() == Starting <==> s.InStarting?) && (s.Status() == Waiting <==> s.InWaiting?)
    ensures (s.Status() == Ready <==> s.InReady?) && (s.Status() == Terminating <==> s.InTerminating?)
    ensures s.Status() == HardTerminating <==> s.InHardTerminating?
    ensures s.Status() == Terminated <==> s.InTerminated?
  {
  }

  /** A backend has an address exactly while it is waited for, or ready. */
  lemma AddressIff(s: State, a: Address)
    ensures s.AddressOf() == Some(a) <==> s == InWaiting(a) || s == InReady(a)
  {
  }

  /** A stream entry tells of an exit only at the end, and of an error exactly for a nonzero code. */
  lemma EntryTellsExit(s: State, time: Time)
    ensures FromState(s, time).status == s.Status() && FromState(s, time).time == time
    ensures FromState(s, time).exitError.Some? <==> s.InTerminated?
    ensures FromState(s, time).exitError == Some(true)
            <==> s.InTerminated? && s.exitCode.Some? && s.exitCode.value != 0
  {
  }
}

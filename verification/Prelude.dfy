/** Values shared by every component: optional values, fault categories and time.

    Time is an unbounded integer; 0 stands for the unset time, which the program
    tests with IsZero. Durations are plain integers too. */
module Prelude {

  type Time = int
  const UNSET: Time := 0

  datatype Option<+T> = None | Some(value: T)

  /** The fault categories, plus one for errors that carry no category. */
  datatype Fault =
    | InvalidInput | StaleInput | Unavailable | DeadlineExceeded
    | CapabilityMissing | PolicyBlocked | PermissionDenied | AdapterRejected
    | Uncategorized

  /** A call's context, and the fault a call that finds it ended gives. */
  datatype Context = Live | Ended(timedOut: bool)

  function ContextFault(c: Context): Fault { if c.Ended? && c.timedOut then DeadlineExceeded else Unavailable }

  datatype Result<+T> = Ok(value: T) | Err(fault: Fault)

  ghost predicate Distinct<T>(s: seq<T>) {
    forall i, j :: 0 <= i < j < |s| ==> s[i] != s[j]
  }

  function Last<T>(s: seq<T>): T
    requires s != []
  {
    s[|s| - 1]
  }
}

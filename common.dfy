/** Values shared by every layer of the rig: optional readings, the faults the
    layers raise to one another, and the bookkeeping of a straight-line
    sequence of opaque hardware calls that stops at the first call that raises. */
module Common {

  datatype Option<+T> = None | Some(value: T)

  /** The exceptions that cross a layer boundary. A wrapping fault keeps the
      fault it was raised from (Python's `raise ... from error`).
      `EnvironmentError` is an OSError raised with the gripper it concerns,
      readable as its `gripper` attribute; `OsError` is any other OSError (a
      serial port failure, or one built from positional arguments only),
      which has no such attribute. Gripper and Dynamixel servo errors are not
      OSErrors. */
  datatype Fault =
    | EnvironmentError(gripperId: int, message: string, cause: Option<Fault>)
    | OsError(message: string, cause: Option<Fault>)
    | GripperError(message: string, cause: Option<Fault>)
    | DynamixelServoError(message: string)
    | IndexError
    | OtherError(name: string)

  /** What reading a missing attribute raises. */
  const AttributeError: Fault := OtherError("AttributeError")

  /** Whether a fault is an OSError, with or without a gripper. */
  predicate IsOsError(f: Fault)
  {
    f.EnvironmentError? || f.OsError?
  }

  /** A call that either returns a value or raises. */
  datatype Result<+T> = Ok(value: T) | Err(fault: Fault)

  /** The outcome of a call whose return value is not used. */
  type Status = Result<()>

  /** What `step` hands back: (state, reward, done/terminated, truncated). */
  datatype StepReturn = StepReturn(state: seq<real>, reward: real, done: bool, truncated: bool)

  /** Index of the first call that raised, or |statuses| when none did. */
  function FirstRaised(statuses: seq<Status>): (k: nat)
    ensures k <= |statuses|
    ensures forall i :: 0 <= i < k ==> statuses[i].Ok?
    ensures k < |statuses| ==> statuses[k].Err?
  {
    if statuses == [] then 0
    else if statuses[0].Err? then 0
    else 1 + FirstRaised(statuses[1..])
  }

  /** The calls of `plan` that are actually issued when the i-th call has
      outcome statuses[i]: every call up to and including the first that raises. */
  function Issued<C>(plan: seq<C>, statuses: seq<Status>): (issued: seq<C>)
    requires |statuses| == |plan|
    ensures issued <= plan
    ensures |issued| == if FirstRaised(statuses) < |plan| then FirstRaised(statuses) + 1 else |plan|
  {
    var k := FirstRaised(statuses);
    if k < |plan| then plan[..k + 1] else plan
  }

  /** What a sequence of calls amounts to for its caller: the fault of the
      first call that raises, or a normal return when none does. */
  function Outcome(statuses: seq<Status>): (r: Status)
    ensures r.Ok? <==> forall i :: 0 <= i < |statuses| ==> statuses[i].Ok?
    ensures r.Err? ==> FirstRaised(statuses) < |statuses| && r == statuses[FirstRaised(statuses)]
  {
    var k := FirstRaised(statuses);
    if k < |statuses| then statuses[k] else Ok(())
  }

  /** Running a non-empty sequence call by call: its first call is issued,
      and the rest of the sequence runs only when that call returns. */
  lemma {:induction false} IssuedStep<C>(plan: seq<C>, statuses: seq<Status>)
    requires |statuses| == |plan| >= 1
    ensures Issued(plan, statuses) ==
      if statuses[0].Err? then [plan[0]] else [plan[0]] + Issued(plan[1..], statuses[1..])
    ensures Outcome(statuses) == if statuses[0].Err? then statuses[0] else Outcome(statuses[1..])
  {
    if statuses[0].Ok? {
      var k := FirstRaised(statuses[1..]);
      assert FirstRaised(statuses) == 1 + k;
      if k < |plan| - 1 {
        assert plan[..k + 2] == [plan[0]] + plan[1..][..k + 1];
      }
    }
  }

  /** When every call returns, the whole sequence is issued and the caller sees a normal return. */
  lemma AllIssuedWhenNoneRaises<C>(plan: seq<C>, statuses: seq<Status>)
    requires |statuses| == |plan|
    requires forall i :: 0 <= i < |statuses| ==> statuses[i].Ok?
    ensures Issued(plan, statuses) == plan
    ensures Outcome(statuses) == Ok(())
  {
    assert FirstRaised(statuses) == |plan|;
  }
}

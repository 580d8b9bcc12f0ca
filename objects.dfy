/** The object pose sources of scripts/Objects.py: a target servo whose
    encoder gives the yaw, a fiducial marker seen by a camera, and a magnetic
    sensor on a serial line, plus the decorator that re-wraps environment
    errors with the gripper they belong to.

    The opaque collaborators are parameters: the statuses of the calls made to
    the target servo, the camera's successive marker detections, the serial
    line's successive replies, the float parser and the random draw. */
module Objects {
  import opened Common
  import opened Text

  // ---------------------------------------------------------------------------
  // exception_handler

  /** The message an environment error is re-raised with. */
  function HandlerMessage(gripperId: int, errorMessage: string): string
  {
    "Environment for Gripper#" + IntToDecimal(gripperId) + ": " + errorMessage
  }

  /** The decorator applied to a call's outcome: a normal return and every
      fault that is not an OSError pass through unchanged. An OSError whose
      gripper can be read is re-raised, caused by it, as a new OSError with
      the handler's message; the gripper is only one of the new error's
      positional arguments, so it cannot be read from it. An OSError whose
      gripper cannot be read makes the handler itself fail with an
      AttributeError. */
  function ExceptionHandler<T>(errorMessage: string, outcome: Result<T>): (r: Result<T>)
    ensures outcome.Ok? ==> r == outcome
    ensures outcome.Err? && !IsOsError(outcome.fault) ==> r == outcome
    ensures outcome.Err? && outcome.fault.EnvironmentError? ==>
      r == Err(OsError(HandlerMessage(outcome.fault.gripperId, errorMessage), Some(outcome.fault)))
    ensures outcome.Err? && outcome.fault.OsError? ==> r == Err(AttributeError)
  {
    match outcome
    case Ok(_) => outcome
    case Err(f) =>
      if f.EnvironmentError? then Err(OsError(HandlerMessage(f.gripperId, errorMessage), Some(f)))
      else if f.OsError? then Err(AttributeError)
      else outcome
  }

  /** An error that has already passed through the handler carries no
      readable gripper, so a second handler around it fails with an
      AttributeError instead of re-raising it again. */
  lemma HandlerTwiceRaisesAttributeError<T>(first: string, second: string, gripperId: int, message: string,
                                            cause: Option<Fault>)
    ensures var once := ExceptionHandler<T>(first, Err(EnvironmentError(gripperId, message, cause)));
      && once.Err? && IsOsError(once.fault)
      && ExceptionHandler<T>(second, once) == Err(AttributeError)
  {
  }

  /** The characters that can occur in a rendered integer. */
  predicate IsNumeral(c: char) {
    IsDigit(c) || c == '-'
  }

  lemma IntToDecimalNumerals(i: int)
    ensures forall j :: 0 <= j < |IntToDecimal(i)| ==> IsNumeral(IntToDecimal(i)[j])
  {
    var d := NatToDecimal(if i < 0 then -i else i);
    assert forall j :: 0 <= j < |d| ==> IsDigit(d[j]);
    if i < 0 {
      assert IntToDecimal(i) == "-" + d;
    }
  }

  /** The ':' after the shorter of two numerals sits where the longer one
      still has a numeral character, which a colon is not. */
  lemma ColonNotNumeral(s: string, i: nat, c: char)
    requires i < |s| && s[i] == ':' && s[i] == c
    ensures !IsNumeral(c)
  {
  }

  /** The handler's message identifies both the gripper and the error message. */
  lemma HandlerMessageInjective(a: int, m1: string, b: int, m2: string)
    requires HandlerMessage(a, m1) == HandlerMessage(b, m2)
    ensures a == b && m1 == m2
  {
    var prefix := "Environment for Gripper#";
    var da, db := IntToDecimal(a), IntToDecimal(b);
    var s := HandlerMessage(a, m1);
    assert s == prefix + da + ": " + m1;
    assert s == prefix + db + ": " + m2;
    IntToDecimalNumerals(a);
    IntToDecimalNumerals(b);
    if |da| < |db| {
      ColonNotNumeral(s, |prefix| + |da|, db[|da|]);
    } else if |db| < |da| {
      ColonNotNumeral(s, |prefix| + |db|, da[|db|]);
    }
    assert da == s[|prefix|..|prefix| + |da|] == db;
    IntToDecimalInjective(a, b);
    assert m1 == s[|prefix| + |da| + 2..] == m2;
  }

  // ---------------------------------------------------------------------------
  // Command

  datatype Command = GetYaw | Offset

  function CommandValue(c: Command): nat
  {
    match c
    case GetYaw => 0
    case Offset => 1
  }

  /** The GET_YAW request: the command value and a comma, with no newline. */
  function GetYawRequest(): string
  {
    NatToDecimal(CommandValue(GetYaw)) + ","
  }

  /** The OFFSET request: the command value, a comma, the rendered yaw and a newline. */
  function OffsetRequest(yawText: string): string
  {
    NatToDecimal(CommandValue(Offset)) + "," + yawText + "\n"
  }

  /** The request texts; the first comma field of each is its command's value. */
  lemma RequestTexts(yawText: string)
    ensures GetYawRequest() == "0,"
    ensures OffsetRequest(yawText) == "1," + yawText + "\n"
    ensures ParseInt(Split(GetYawRequest(), ',')[0]) == CommandValue(GetYaw)
    ensures ParseInt(Split(OffsetRequest(yawText), ',')[0]) == CommandValue(Offset)
  {
    assert NatToDecimal(0) == "0";
    assert NatToDecimal(1) == "1";
    SplitAfterPrefix("0", "", ',');
    assert "0" + [','] + "" == "0,";
    SplitAfterPrefix("1", yawText + "\n", ',');
    assert "1" + [','] + (yawText + "\n") == "1," + yawText + "\n";
  }

  // ---------------------------------------------------------------------------
  // ServoObject

  /** A command given to the target servo, a servo whose internals are not part of this model. */
  datatype ServoCommand = EnableTorque | MoveTo(step: int) | DisableTorque

  /** `reset`: move to the drawn position, then release the torque. */
  function ResetPlan(position: int): seq<ServoCommand>
  {
    [MoveTo(position), DisableTorque]
  }

  /** `reset_target_servo`: enable torque, move home, release the torque. */
  function ResetTargetPlan(home: int): seq<ServoCommand>
  {
    [EnableTorque, MoveTo(home), DisableTorque]
  }

  const ResetTargetMessage := "Failed while trying to reset target servo"

  /** The yaw of the target servo from the angle its position converts to:
      a negative angle is moved up by one turn, any other is kept. */
  function WrapYaw(angle: real): (yaw: real)
    ensures angle < 0.0 ==> yaw == angle + 360.0
    ensures angle >= 0.0 ==> yaw == angle
  {
    if angle < 0.0 then angle + 360.0 else angle
  }

  /** An angle within one turn either side of zero wraps into [0, 360). */
  lemma WrapYawRange(angle: real)
    requires -360.0 <= angle < 360.0
    ensures 0.0 <= WrapYaw(angle) < 360.0
    ensures WrapYaw(WrapYaw(angle)) == WrapYaw(angle)
  {
  }

  class ServoObject {
    const servoId: int
    const min: int
    const max: int

    /** Every command given to the target servo, oldest first. */
    var commands: seq<ServoCommand>

    constructor (servoId: int)
      ensures this.servoId == servoId && min == 0 && max == 4095
      ensures commands == []
    {
      this.servoId := servoId;
      min, max := 0, 4095;
      commands := [];
    }

    /** `get_yaw`, given the angle the servo's current position converts to. */
    function GetYaw(angle: real): (yaw: real)
      ensures -360.0 <= angle < 360.0 ==> 0.0 <= yaw < 360.0
    {
      WrapYaw(angle)
    }

    /** Gives one command; `status` is how the servo call ends. */
    method Issue(c: ServoCommand, status: Status) returns (s: Status)
      modifies this
      ensures commands == old(commands) + [c] && s == status
    {
      commands := commands + [c];
      s := status;
    }

    /** `reset`: `position` is the uniform draw from [min, max]. A fault of
        either call escapes unchanged. */
    method Reset(position: int, statuses: seq<Status>) returns (outcome: Status)
      requires min <= position <= max
      requires |statuses| == 2
      modifies this
      ensures commands == old(commands) + Issued(ResetPlan(position), statuses)
      ensures outcome == Outcome(statuses)
    {
      var plan := ResetPlan(position);
      IssuedStep(plan, statuses);
      IssuedStep(plan[1..], statuses[1..]);
      AllIssuedWhenNoneRaises(plan[2..], statuses[2..]);
      assert plan[1..][1..] == plan[2..] && statuses[1..][1..] == statuses[2..];
      outcome := Issue(MoveTo(position), statuses[0]);
      if outcome.Err? { return; }
      outcome := Issue(DisableTorque, statuses[1]);
      assert outcome.Ok? ==> outcome.value == ();
    }

    /** `reset_target_servo`: enable, move home, disable, stopping at the
        first call that raises; the escaping fault goes through the handler. */
    method ResetTargetServo(home: int, statuses: seq<Status>) returns (outcome: Status)
      requires |statuses| == 3
      modifies this
      ensures commands == old(commands) + Issued(ResetTargetPlan(home), statuses)
      ensures outcome == ExceptionHandler(ResetTargetMessage, Outcome(statuses))
    {
      var plan := ResetTargetPlan(home);
      IssuedStep(plan, statuses);
      IssuedStep(plan[1..], statuses[1..]);
      IssuedStep(plan[2..], statuses[2..]);
      AllIssuedWhenNoneRaises(plan[3..], statuses[3..]);
      assert plan[1..][1..] == plan[2..] && statuses[1..][1..] == statuses[2..];
      assert plan[2..][1..] == plan[3..] && statuses[2..][1..] == statuses[3..];
      var s := Issue(EnableTorque, statuses[0]);
      if s.Ok? {
        s := Issue(MoveTo(home), statuses[1]);
        if s.Ok? {
          s := Issue(DisableTorque, statuses[2]);
        }
      }
      assert s.Ok? ==> s.value == ();
      outcome := ExceptionHandler(ResetTargetMessage, s);
    }
  }

  // ---------------------------------------------------------------------------
  // ArucoObject

  datatype Vec3 = Vec3(x: real, y: real, z: real)

  /** A detected marker's pose; `orientation.z` is its yaw. */
  datatype MarkerPose = MarkerPose(position: Vec3, orientation: Vec3)

  /** The markers found in one camera frame, by marker id. */
  type Detection = map<int, MarkerPose>

  /** What `get_yaw` of the marker source comes to: the marker's yaw, None
      after the allowed misses, or still polling when the given frames ran out. */
  datatype Sighting = Seen(yaw: real) | NotSeen | StillPolling

  /** Index of the first frame in which the marker is found, or |frames|. */
  function FirstSighting(frames: seq<Detection>, markerId: int): (k: nat)
    ensures k <= |frames|
    ensures forall i :: 0 <= i < k ==> markerId !in frames[i]
    ensures k < |frames| ==> markerId in frames[k]
  {
    if frames == [] then 0
    else if markerId in frames[0] then 0
    else 1 + FirstSighting(frames[1..], markerId)
  }

  /** The polling outcome and the number of frames polled. A blindable
      search gives up after `attempts` misses; otherwise only a hit ends it. */
  function ArucoOutcome(frames: seq<Detection>, markerId: int, blindable: bool, attempts: int): (Sighting, nat)
  {
    var k := FirstSighting(frames, markerId);
    if blindable && attempts <= k then (NotSeen, if attempts < 0 then 0 else attempts)
    else if k < |frames| then (Seen(frames[k][markerId].orientation.z), k + 1)
    else (StillPolling, |frames|)
  }

  /** `get_yaw`'s default arguments. */
  const DefaultBlindable: bool := false
  const DefaultDetectionAttempts: int := 10

  /** `ArucoObject.get_yaw`: polls `frames` in order, one per attempt. */
  method ArucoGetYaw(markerId: int, blindable: bool, detectionAttempts: int, frames: seq<Detection>)
    returns (sighting: Sighting, polled: nat)
    ensures (sighting, polled) == ArucoOutcome(frames, markerId, blindable, detectionAttempts)
    ensures polled <= |frames|
    ensures blindable ==> polled <= detectionAttempts || polled == 0
    ensures sighting.Seen? ==>
      markerId in frames[polled - 1] && sighting.yaw == frames[polled - 1][markerId].orientation.z
    ensures sighting.NotSeen? <==>
      (&& blindable
       && polled == (if detectionAttempts < 0 then 0 else detectionAttempts)
       && forall i :: 0 <= i < polled ==> markerId !in frames[i])
  {
    var attempt := 0;
    while !blindable || attempt < detectionAttempts
      invariant 0 <= attempt <= |frames|
      invariant blindable ==> attempt <= detectionAttempts || attempt == 0
      invariant forall i :: 0 <= i < attempt ==> markerId !in frames[i]
      decreases |frames| - attempt
    {
      if attempt == |frames| {
        return StillPolling, attempt;
      }
      attempt := attempt + 1;
      if markerId in frames[attempt - 1] {
        return Seen(frames[attempt - 1][markerId].orientation.z), attempt;
      }
    }
    return NotSeen, attempt;
  }

  /** A blindable search for a marker that never shows polls exactly
      `attempts` frames and then reports None. */
  lemma BlindableGivesUpAfterAttempts(frames: seq<Detection>, markerId: int, attempts: nat)
    requires attempts <= |frames|
    requires forall i :: 0 <= i < |frames| ==> markerId !in frames[i]
    ensures ArucoOutcome(frames, markerId, true, attempts) == (NotSeen, attempts)
  {
  }

  /** Called with its defaults, the search is not blindable: the attempt
      count is ignored, and it ends only on a sighting, never with None. */
  lemma DefaultSearchNeverGivesUp(frames: seq<Detection>, markerId: int)
    ensures var (sighting, polled) := ArucoOutcome(frames, markerId, DefaultBlindable, DefaultDetectionAttempts);
      && !sighting.NotSeen?
      && (sighting.StillPolling? <==> forall i :: 0 <= i < |frames| ==> markerId !in frames[i])
  {
  }

  // ---------------------------------------------------------------------------
  // MagnetObject

  /** What `read_until(b'\n')` returns on a port opened without a read
      timeout: it waits for the newline, so the text always ends in one. */
  type SerialLine = s: string | |s| > 0 && s[|s| - 1] == '\n' witness "\n"

  /** One line read from the serial port: decodable text, or bytes that do not decode. */
  datatype Reply = Line(text: SerialLine) | Undecodable

  /** `get_response`: the comma fields of the next line, a decode error, or
      nothing when no reply is available. */
  datatype Response = Fields(fields: seq<string>) | DecodeError | NoReply

  function Decode(reply: Reply): (r: Response)
    ensures r.Fields? ==> |r.fields| >= 1
  {
    match reply
    case Line(text) => Fields(Split(text, ','))
    case Undecodable => DecodeError
  }

  /** Whether a reply ends the resend loop waiting for `tag`: its first field
      is the tag, or it cannot be decoded (which escapes the loop as an error). */
  predicate EndsExchange(reply: Reply, tag: string)
  {
    reply.Undecodable? || Split(reply.text, ',')[0] == tag
  }

  /** Index of the reply that ends the resend loop, or |replies|. */
  function StopIndex(replies: seq<Reply>, tag: string): (k: nat)
    ensures k <= |replies|
    ensures forall i :: 0 <= i < k ==> !EndsExchange(replies[i], tag)
    ensures k < |replies| ==> EndsExchange(replies[k], tag)
  {
    if replies == [] then 0
    else if EndsExchange(replies[0], tag) then 0
    else 1 + StopIndex(replies[1..], tag)
  }

  /** Number of replies the resend loop reads. */
  function RepliesRead(replies: seq<Reply>, tag: string): nat
  {
    var k := StopIndex(replies, tag);
    if k < |replies| then k + 1 else |replies|
  }

  /** The response on which the resend loop stops. */
  function FinalResponse(replies: seq<Reply>, tag: string): (r: Response)
    ensures r.Fields? ==> |r.fields| >= 1 && r.fields[0] == tag
  {
    var k := StopIndex(replies, tag);
    if k < |replies| then Decode(replies[k]) else NoReply
  }

  function Repeat(s: string, n: nat): (r: seq<string>)
    ensures |r| == n && forall i :: 0 <= i < n ==> r[i] == s
  {
    if n == 0 then [] else Repeat(s, n - 1) + [s]
  }

  /** How a magnetic-sensor call ends: with a value, with None (a decode or
      number-parse error is caught), with an uncaught IndexError (a tagged
      reply without a second field), or blocked waiting for a reply. */
  datatype SerialOutcome<T> = Returned(value: T) | ReturnedNone | RaisesIndexError | Blocked

  function YawOutcome(replies: seq<Reply>, parseFloat: string -> Option<real>): SerialOutcome<real>
  {
    match FinalResponse(replies, "YAW")
    case NoReply => Blocked
    case DecodeError => ReturnedNone
    case Fields(fields) =>
      if |fields| < 2 then RaisesIndexError
      else match parseFloat(fields[1])
        case None => ReturnedNone
        case Some(v) => Returned(v)
  }

  function OffsetOutcome(replies: seq<Reply>): SerialOutcome<bool>
  {
    match FinalResponse(replies, "OFFSET")
    case NoReply => Blocked
    case DecodeError => ReturnedNone
    case Fields(fields) =>
      if |fields| < 2 then RaisesIndexError else Returned(|fields[1]| > 0)
  }

  class MagnetObject {
    /** Every request written to the serial port, oldest first. */
    var written: seq<string>
    /** The replies the serial port has yet to deliver. */
    var unread: seq<Reply>
    /** How the calibration made on construction ended, if one was made. */
    ghost var calibration: Option<SerialOutcome<bool>>

    /** Opens the port on the given replies and, when a marker yaw is given,
        calibrates the sensor to it. The calibration's result is dropped; it
        cannot raise, and when it is blocked construction does not return. */
    constructor (replies: seq<Reply>, arucoYawText: Option<string>)
      ensures arucoYawText.None? ==> written == [] && unread == replies && calibration == None
      ensures arucoYawText.Some? ==>
        && written == Repeat(OffsetRequest(arucoYawText.value), StopIndex(replies, "OFFSET") + 1)
        && unread == replies[RepliesRead(replies, "OFFSET")..]
        && calibration == Some(OffsetOutcome(replies))
        && !OffsetOutcome(replies).RaisesIndexError?
    {
      written := [];
      unread := replies;
      calibration := None;
      new;
      if arucoYawText.Some? {
        var outcome := Offset(arucoYawText.value);
        calibration := Some(outcome);
      }
    }

    method GetResponse() returns (response: Response)
      modifies this
      ensures written == old(written) && calibration == old(calibration)
      ensures old(unread) == [] ==> response == NoReply && unread == []
      ensures old(unread) != [] ==> response == Decode(old(unread)[0]) && unread == old(unread)[1..]
    {
      if unread == [] {
        response := NoReply;
      } else {
        response := Decode(unread[0]);
        unread := unread[1..];
      }
    }

    /** Writes `request`, and writes it again after every response whose
        first field is not `tag`, until a response carries the tag. */
    method Exchange(request: string, tag: string) returns (response: Response)
      modifies this
      ensures response == FinalResponse(old(unread), tag)
      ensures written == old(written) + Repeat(request, StopIndex(old(unread), tag) + 1)
      ensures unread == old(unread)[RepliesRead(old(unread), tag)..]
      ensures calibration == old(calibration)
    {
      ghost var replies := old(unread);
      ghost var n := 0;
      written := written + [request];
      response := GetResponse();
      if response != NoReply { n := 1; }
      while response.Fields? && response.fields[0] != tag
        invariant 0 <= n <= |replies| && unread == replies[n..]
        invariant calibration == old(calibration)
        invariant response.NoReply? ==>
          (&& n == |replies|
           && written == old(written) + Repeat(request, n + 1)
           && forall i :: 0 <= i < n ==> !EndsExchange(replies[i], tag))
        invariant !response.NoReply? ==>
          (&& 1 <= n && response == Decode(replies[n - 1])
           && written == old(written) + Repeat(request, n)
           && forall i :: 0 <= i < n - 1 ==> !EndsExchange(replies[i], tag))
        decreases |unread| + (if response.Fields? then 1 else 0)
      {
        written := written + [request];
        response := GetResponse();
        if response != NoReply { n := n + 1; }
      }
    }

    /** `get_yaw`; `parseFloat` is Python's `float` on a field. */
    method GetYaw(parseFloat: string -> Option<real>) returns (outcome: SerialOutcome<real>)
      modifies this
      ensures outcome == YawOutcome(old(unread), parseFloat) && !outcome.RaisesIndexError?
      ensures written == old(written) + Repeat(GetYawRequest(), StopIndex(old(unread), "YAW") + 1)
      ensures unread == old(unread)[RepliesRead(old(unread), "YAW")..]
      ensures calibration == old(calibration)
    {
      YawNeverRaisesIndexError(unread, parseFloat);
      var response := Exchange(GetYawRequest(), "YAW");
      match response
      case NoReply => outcome := Blocked;
      case DecodeError => outcome := ReturnedNone;
      case Fields(fields) =>
        if |fields| < 2 {
          outcome := RaisesIndexError;
        } else {
          match parseFloat(fields[1])
          case None => outcome := ReturnedNone;
          case Some(v) => outcome := Returned(v);
        }
    }

    /** `offset`; `yawText` is the marker yaw as Python renders it. */
    method Offset(yawText: string) returns (outcome: SerialOutcome<bool>)
      modifies this
      ensures outcome == OffsetOutcome(old(unread)) && !outcome.RaisesIndexError?
      ensures written == old(written) + Repeat(OffsetRequest(yawText), StopIndex(old(unread), "OFFSET") + 1)
      ensures unread == old(unread)[RepliesRead(old(unread), "OFFSET")..]
      ensures calibration == old(calibration)
    {
      OffsetNeverRaisesIndexError(unread);
      var response := Exchange(OffsetRequest(yawText), "OFFSET");
      match response
      case NoReply => outcome := Blocked;
      case DecodeError => outcome := ReturnedNone;
      case Fields(fields) =>
        outcome := if |fields| < 2 then RaisesIndexError else Returned(|fields[1]| > 0);
    }
  }

  /** The fields of a line made of a tag, a comma and a comma-free payload. */
  lemma TaggedLine(tag: string, payload: string)
    requires ',' !in tag && ',' !in payload
    ensures Split(tag + "," + payload, ',') == [tag, payload]
  {
    SplitAfterPrefix(tag, payload, ',');
    assert tag + [','] + payload == tag + "," + payload;
    SplitNoSeparator(payload, ',');
  }

  /** A line whose first field is a newline-free tag has a second field: a
      single field would be the whole line, newline included. */
  lemma TaggedReplyHasPayload(text: SerialLine, tag: string)
    requires '\n' !in tag
    requires Split(text, ',')[0] == tag
    ensures |Split(text, ',')| >= 2
  {
    SplitJoin(text, ',');
  }

  /** `get_yaw` never raises IndexError: the reply it stops on, when tagged,
      always has the second field it reads. */
  lemma YawNeverRaisesIndexError(replies: seq<Reply>, parseFloat: string -> Option<real>)
    ensures !YawOutcome(replies, parseFloat).RaisesIndexError?
  {
    var k := StopIndex(replies, "YAW");
    if k < |replies| && replies[k].Line? {
      TaggedReplyHasPayload(replies[k].text, "YAW");
    }
  }

  /** `offset` never raises IndexError either. */
  lemma OffsetNeverRaisesIndexError(replies: seq<Reply>)
    ensures !OffsetOutcome(replies).RaisesIndexError?
  {
    var k := StopIndex(replies, "OFFSET");
    if k < |replies| && replies[k].Line? {
      TaggedReplyHasPayload(replies[k].text, "OFFSET");
    }
  }

  /** A yaw request is answered by the first reply tagged "YAW": every
      earlier reply, whatever its tag, costs one identical resend, and the
      yaw is the parsed second field of the tagged reply. */
  lemma YawFromFirstTaggedReply(replies: seq<Reply>, k: nat, parseFloat: string -> Option<real>, v: real)
    requires k < |replies|
    requires forall i :: 0 <= i < k ==> replies[i].Line? && Split(replies[i].text, ',')[0] != "YAW"
    requires replies[k].Line?
    requires var fields := Split(replies[k].text, ',');
      |fields| >= 2 && fields[0] == "YAW" && parseFloat(fields[1]) == Some(v)
    ensures YawOutcome(replies, parseFloat) == Returned(v)
    ensures StopIndex(replies, "YAW") == k && RepliesRead(replies, "YAW") == k + 1
  {
    assert EndsExchange(replies[k], "YAW");
    assert forall i :: 0 <= i < k ==> !EndsExchange(replies[i], "YAW");
  }

  /** An untagged reply is answered with one resend, and then "YAW,173.5\n"
      gives the yaw 173.5. */
  lemma YawExample(untagged: SerialLine, tagged: SerialLine, parseFloat: string -> Option<real>)
    requires untagged == "ERR\n" && tagged == "YAW,173.5\n"
    requires parseFloat("173.5\n") == Some(173.5)
    ensures YawOutcome([Line(untagged), Line(tagged)], parseFloat) == Returned(173.5)
    ensures RepliesRead([Line(untagged), Line(tagged)], "YAW") == 2
  {
    assert Split(untagged, ',') == [untagged] by {
      SplitNoSeparator(untagged, ',');
    }
    assert Split(tagged, ',') == ["YAW", "173.5\n"] by {
      TaggedLine("YAW", "173.5\n");
      assert tagged == "YAW" + "," + "173.5\n";
    }
    YawFromFirstTaggedReply([Line(untagged), Line(tagged)], 1, parseFloat, 173.5);
  }

  /** A reply that does not decode ends the yaw request with None; it is not resent. */
  lemma UndecodableReplyGivesNone(replies: seq<Reply>, parseFloat: string -> Option<real>)
    requires |replies| >= 1 && replies[0] == Undecodable
    ensures YawOutcome(replies, parseFloat) == ReturnedNone
    ensures OffsetOutcome(replies) == ReturnedNone
    ensures StopIndex(replies, "YAW") == 0 && RepliesRead(replies, "YAW") == 1
  {
  }

  /** With a single payload field the newline stays in it, so the calibration
      always counts as a success, whatever the payload ("0" and "" included). */
  lemma OffsetSinglePayloadIsTrue(payload: string)
    requires ',' !in payload
    ensures OffsetOutcome([Line("OFFSET," + payload + "\n")]) == Returned(true)
  {
    TaggedLine("OFFSET", payload + "\n");
    assert "OFFSET," + payload + "\n" == "OFFSET" + "," + (payload + "\n");
  }

  /** With further fields after the payload, the calibration result is the
      truthiness of the payload text: true exactly when it is non-empty. */
  lemma OffsetTruthiness(payload: string, rest: SerialLine)
    requires ',' !in payload
    ensures OffsetOutcome([Line("OFFSET," + payload + "," + rest)]) == Returned(payload != "")
  {
    var text := "OFFSET," + payload + "," + rest;
    SplitAfterPrefix("OFFSET", payload + "," + rest, ',');
    assert text == "OFFSET" + [','] + (payload + "," + rest);
    SplitAfterPrefix(payload, rest, ',');
    assert payload + "," + rest == payload + [','] + rest;
    assert Split(text, ',')[1] == payload;
  }

  lemma OffsetZeroIsTrue()
    ensures OffsetOutcome([Line("OFFSET,0\n")]) == Returned(true)
  {
    OffsetSinglePayloadIsTrue("0");
    assert "OFFSET,0\n" == "OFFSET," + "0" + "\n";
  }

  /** The only way to a failed calibration: an empty payload followed by another field. */
  lemma OffsetEmptyIsFalse()
    ensures OffsetOutcome([Line("OFFSET,,\n")]) == Returned(false)
  {
    OffsetTruthiness("", "\n");
    assert "OFFSET,,\n" == "OFFSET," + "" + "," + "\n";
  }
}

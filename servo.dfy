/** Register-level protocol of one Dynamixel servo (scripts/Servo.py): a fixed
    register address table, an inclusive step-bounds check, one bus
    transaction per operation, and the three-way report of a write's result.

    The bus itself is not modelled: every transaction the servo issues is
    appended to a log, and the bus's answer to that transaction is a parameter. */
module ServoProtocol {

  /** The registers the servo addresses by name. */
  datatype Register =
    | TorqueEnable | TorqueLimit | Led | GoalPosition
    | PresentPosition | PresentVelocity | MovingSpeed | Moving

  /** The register address table, the same for every servo of the family. */
  function Address(r: Register): nat
  {
    match r
    case TorqueEnable => 24
    case TorqueLimit => 35
    case Led => 25
    case GoalPosition => 30
    case PresentPosition => 37
    case PresentVelocity => 38
    case MovingSpeed => 32
    case Moving => 49
  }

  /** No two registers share an address. */
  lemma AddressesDistinct(r1: Register, r2: Register)
    ensures Address(r1) == Address(r2) <==> r1 == r2
  {
  }

  /** The table's entries, as listed. */
  lemma AddressTable()
    ensures Address(TorqueEnable) == 24 && Address(Led) == 25
    ensures Address(GoalPosition) == 30 && Address(MovingSpeed) == 32
    ensures Address(TorqueLimit) == 35 && Address(PresentPosition) == 37
    ensures Address(PresentVelocity) == 38 && Address(Moving) == 49
  {
  }

  /** The bus library's code for a transaction that completed (COMM_SUCCESS). */
  const CommSuccess: int := 0

  /** One bus transaction, of `width` bytes, at a register address. */
  datatype Transaction =
    | Write(width: nat, address: nat, value: int)
    | Read(width: nat, address: nat)

  /** The bus's answer to a write: (communication result, packet error). */
  datatype WriteReply = WriteReply(commResult: int, error: int)

  /** The bus's answer to a read: (data, communication result, packet error). */
  datatype ReadReply = ReadReply(data: int, commResult: int, error: int)

  /** What `process_result` reports about a write. */
  datatype Report = CommFailure(commResult: int) | PacketError(error: int) | Succeeded

  /** The three-way classification of a write's result. A communication
      failure wins over any packet error; a packet error is reported only
      when communication succeeded. */
  function ProcessResult(commResult: int, error: int): (r: Report)
    ensures r.CommFailure? <==> commResult != CommSuccess
    ensures r.PacketError? <==> commResult == CommSuccess && error != 0
    ensures r.Succeeded? <==> commResult == CommSuccess && error == 0
    ensures r.CommFailure? ==> r.commResult == commResult
    ensures r.PacketError? ==> r.error == error
  {
    if commResult != CommSuccess then CommFailure(commResult)
    else if error != 0 then PacketError(error)
    else Succeeded
  }

  class Servo {
    const ledColour: int
    const motorId: int
    const torqueLimit: int
    const speedLimit: int
    const max: int
    const min: int

    /** Every bus transaction this servo has issued, oldest first. */
    var log: seq<Transaction>

    constructor (ledColour: int, motorId: int, torqueLimit: int, speedLimit: int, max: int, min: int)
      ensures this.ledColour == ledColour && this.motorId == motorId
      ensures this.torqueLimit == torqueLimit && this.speedLimit == speedLimit
      ensures this.max == max && this.min == min
      ensures log == []
    {
      this.ledColour := ledColour;
      this.motorId := motorId;
      this.torqueLimit := torqueLimit;
      this.speedLimit := speedLimit;
      this.max := max;
      this.min := min;
      log := [];
    }

    /** Whether a step lies within the configured bounds, both ends included. */
    function VerifyStep(step: int): (valid: bool)
      ensures valid <==> min <= step <= max
    {
      min <= step <= max
    }

    /** Both bounds are valid steps and the steps just outside them are not. */
    lemma VerifyStepInclusive()
      requires min <= max
      ensures VerifyStep(min) && VerifyStep(max)
      ensures !VerifyStep(min - 1) && !VerifyStep(max + 1)
    {
    }

    method TurnOnLED(reply: WriteReply) returns (report: Report)
      modifies this
      ensures log == old(log) + [Write(1, Address(Led), ledColour)]
      ensures report == ProcessResult(reply.commResult, reply.error)
    {
      log := log + [Write(1, Address(Led), ledColour)];
      report := ProcessResult(reply.commResult, reply.error);
    }

    method LimitTorque(reply: WriteReply) returns (report: Report)
      modifies this
      ensures log == old(log) + [Write(2, Address(TorqueLimit), torqueLimit)]
      ensures report == ProcessResult(reply.commResult, reply.error)
    {
      log := log + [Write(2, Address(TorqueLimit), torqueLimit)];
      report := ProcessResult(reply.commResult, reply.error);
    }

    /** Writes 1 to the torque-enable register as a 2-byte value. */
    method EnableTorque(reply: WriteReply) returns (report: Report)
      modifies this
      ensures log == old(log) + [Write(2, Address(TorqueEnable), 1)]
      ensures report == ProcessResult(reply.commResult, reply.error)
    {
      log := log + [Write(2, Address(TorqueEnable), 1)];
      report := ProcessResult(reply.commResult, reply.error);
    }

    /** Writes 0 to the torque-enable register as a 1-byte value. */
    method DisableTorque(reply: WriteReply) returns (report: Report)
      modifies this
      ensures log == old(log) + [Write(1, Address(TorqueEnable), 0)]
      ensures report == ProcessResult(reply.commResult, reply.error)
    {
      log := log + [Write(1, Address(TorqueEnable), 0)];
      report := ProcessResult(reply.commResult, reply.error);
    }

    method LimitSpeed(reply: WriteReply) returns (report: Report)
      modifies this
      ensures log == old(log) + [Write(2, Address(MovingSpeed), speedLimit)]
      ensures report == ProcessResult(reply.commResult, reply.error)
    {
      log := log + [Write(2, Address(MovingSpeed), speedLimit)];
      report := ProcessResult(reply.commResult, reply.error);
    }

    /** Reads the 1-byte moving flag and returns the data component of the answer. */
    method MovingCheck(reply: ReadReply) returns (moving: int)
      modifies this
      ensures log == old(log) + [Read(1, Address(Moving))]
      ensures moving == reply.data
    {
      log := log + [Read(1, Address(Moving))];
      moving := reply.data;
    }

    /** Reads the 2-byte present position and returns the bus's whole answer. */
    method PresentPosition(reply: ReadReply) returns (raw: ReadReply)
      modifies this
      ensures log == old(log) + [Read(2, Address(Register.PresentPosition))]
      ensures raw == reply
    {
      log := log + [Read(2, Address(Register.PresentPosition))];
      raw := reply;
    }
  }
}

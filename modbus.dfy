/**
 * The ADAM box reader of the backend: one Modbus TCP "Read Holding Registers" exchange.
 * The request is the 7-byte MBAP header of section 3.1.3 of the MODBUS Messaging on TCP/IP
 * Implementation Guide V1.0b followed by the function 0x03 PDU of section 6.3 of the MODBUS
 * Application Protocol Specification V1.1b3; the reply is checked in a fixed order of length and
 * function-code tests, with exception replies (section 7 of that specification) reported as
 * errors. The socket is not modelled: the reply bytes, or the way the exchange failed, are inputs.
 */
module Modbus {
  import opened Wrappers
  import opened Text

  newtype byte = x: int | 0 <= x < 256

  /** A value `struct` packs with `H`: an unsigned big-endian 16-bit word. */
  type u16 = x: int | 0 <= x < 0x1_0000

  const TransactionId: u16 := 1
  const ProtocolId: u16 := 0
  /** The MBAP length field of the request: unit identifier plus a 5-byte PDU. */
  const RequestLength: u16 := 6
  const ReadHoldingRegisters: byte := 3
  const RegisterQuantity: u16 := 1

  /** `read_adambox_value`'s defaults. */
  const DefaultPort: int := 502
  const DefaultUnitId: byte := 1
  const DefaultRegisterAddress: u16 := 2

  /** The two bytes `struct.pack('>H', x)` writes. */
  function WordBytes(x: u16): (b: seq<byte>)
    ensures |b| == 2 && Word(b[0], b[1]) == x
  {
    [(x / 256) as byte, (x % 256) as byte]
  }

  /** The word `struct.unpack('>H', ...)` reads from two bytes, high byte first. */
  function Word(hi: byte, lo: byte): (x: u16)
  {
    hi as int * 256 + lo as int
  }

  /** `struct.pack('>HHHBBHH', 1, 0, 6, unit_id, 3, register_address, 1)`. */
  function EncodeRequest(unitId: byte, registerAddress: u16): (request: seq<byte>)
    ensures |request| == 12
    ensures Word(request[0], request[1]) == TransactionId
    ensures Word(request[2], request[3]) == ProtocolId
    ensures Word(request[4], request[5]) == RequestLength == |request[6..]|
    ensures request[6] == unitId && request[7] == ReadHoldingRegisters
    ensures Word(request[8], request[9]) == registerAddress
    ensures Word(request[10], request[11]) == RegisterQuantity
  {
    WordBytes(TransactionId) + WordBytes(ProtocolId) + WordBytes(RequestLength)
      + [unitId, ReadHoldingRegisters] + WordBytes(registerAddress) + WordBytes(RegisterQuantity)
  }

  /**
   * Reads a request back: the unit and register of a 12-byte read of one holding register with
   * the fixed header, or nothing for any other byte string.
   */
  function DecodeRequest(request: seq<byte>): (fields: Option<(byte, u16)>)
    ensures fields.Some? ==> |request| == 12 && request[7] == ReadHoldingRegisters
  {
    if |request| == 12
      && Word(request[0], request[1]) == TransactionId && Word(request[2], request[3]) == ProtocolId
      && Word(request[4], request[5]) == RequestLength && request[7] == ReadHoldingRegisters
      && Word(request[10], request[11]) == RegisterQuantity
    then Some((request[6], Word(request[8], request[9])))
    else None
  }

  /** Decoding an encoded request gives back its unit and register. */
  lemma RequestRoundTrip(unitId: byte, registerAddress: u16)
    ensures DecodeRequest(EncodeRequest(unitId, registerAddress)) == Some((unitId, registerAddress))
  {
  }

  /** With the defaults the request is `00 01 00 00 00 06 01 03 00 02 00 01`. */
  lemma DefaultRequest()
    ensures EncodeRequest(DefaultUnitId, DefaultRegisterAddress) == [0, 1, 0, 0, 0, 6, 1, 3, 0, 2, 0, 1]
  {
  }

  /** Why a reply yielded no value. */
  datatype ReplyError =
    | TooShort(length: nat)
    | ModbusException(functionCode: int, exceptionCode: int)
    | UnexpectedFunctionCode(functionCode: int)
    | TooShortForData
    | TooShortForCount(expected: nat, got: nat)
      /** `struct.unpack('>H', response[9:11])` given fewer than two bytes. */
    | UnpackFailed

  /** `f_code & 0x80` is set. */
  predicate IsExceptionCode(f: byte)
  {
    (f as bv8) & 0x80 != 0
  }

  /** `f_code & 0x7F`: the low seven bits of the byte, that is, its value modulo 128. */
  function BaseFunctionCode(f: byte): (code: int)
    ensures 0 <= code < 128
    ensures f >= 128 ==> code == f as int - 128
    ensures f < 128 ==> code == f as int
  {
    f as int % 128
  }

  /** The high bit of a byte is set exactly from 128 on. */
  lemma ExceptionBit(f: byte)
    ensures IsExceptionCode(f) <==> f >= 128
  {
  }

  /** The checks after `recv`, in order; a success is the word in bytes 9 and 10. */
  function DecodeReply(response: seq<byte>): (r: Result<u16, ReplyError>)
    ensures |response| < 8 ==> r == Err(TooShort(|response|))
    ensures r.Ok? <==>
      |response| >= 11 && response[7] == ReadHoldingRegisters && |response| >= 9 + response[8] as int
    ensures r.Ok? ==> r.value == Word(response[9], response[10])
    ensures |response| >= 8 && response[7] as int >= 128 ==>
      r == Err(ModbusException(response[7] as int - 128, if |response| > 8 then response[8] as int else 0))
    ensures |response| >= 8 && response[7] < 128 && response[7] != 3 ==>
      r == Err(UnexpectedFunctionCode(response[7] as int))
    ensures |response| == 8 && response[7] == 3 ==> r == Err(TooShortForData)
    ensures |response| >= 9 && response[7] == 3 && |response| < 9 + response[8] as int ==>
      r == Err(TooShortForCount(9 + response[8] as int, |response|))
    ensures 9 <= |response| < 11 && response[7] == 3 && |response| >= 9 + response[8] as int ==>
      r == Err(UnpackFailed)
  {
    ExceptionBit(if |response| >= 8 then response[7] else 0);
    if |response| < 8 then Err(TooShort(|response|))
    else
      var functionCode := response[7];
      if IsExceptionCode(functionCode) then
        Err(ModbusException(BaseFunctionCode(functionCode), if |response| > 8 then response[8] as int else 0))
      else if functionCode != ReadHoldingRegisters then Err(UnexpectedFunctionCode(functionCode as int))
      else if |response| < 9 then Err(TooShortForData)
      else
        var byteCount := response[8] as int;
        if |response| < 9 + byteCount then Err(TooShortForCount(9 + byteCount, |response|))
        else if |response| < 11 then Err(UnpackFailed)
        else Ok(Word(response[9], response[10]))
  }

  /**
   * A normal reply of section 6.3 of the MODBUS Application Protocol Specification to a
   * one-register read: header, 0x03, byte count 2, the word.
   */
  function EncodeReply(transactionId: u16, unitId: byte, value: u16): (reply: seq<byte>)
    ensures |reply| == 11
  {
    WordBytes(transactionId) + WordBytes(ProtocolId) + WordBytes(5) + [unitId, ReadHoldingRegisters, 2]
      + WordBytes(value)
  }

  /**
   * An exception reply of section 7 of the MODBUS Application Protocol Specification: the
   * function code with its high bit set, then the exception code.
   */
  function EncodeExceptionReply(transactionId: u16, unitId: byte, functionCode: byte, exceptionCode: byte): (reply: seq<byte>)
    requires functionCode < 128
    ensures |reply| == 9
  {
    WordBytes(transactionId) + WordBytes(ProtocolId) + WordBytes(3)
      + [unitId, functionCode + 128, exceptionCode]
  }

  /**
   * A conforming reply decodes to the value it carries, whatever its transaction and unit fields
   * say: the decoder does not compare them with the request.
   */
  lemma ReplyRoundTrip(transactionId: u16, unitId: byte, value: u16)
    ensures DecodeReply(EncodeReply(transactionId, unitId, value)) == Ok(value)
  {
  }

  /** An exception reply is reported with the original function code and the exception code. */
  lemma ExceptionReplyReported(transactionId: u16, unitId: byte, functionCode: byte, exceptionCode: byte)
    requires functionCode < 128
    ensures DecodeReply(EncodeExceptionReply(transactionId, unitId, functionCode, exceptionCode))
      == Err(ModbusException(functionCode as int, exceptionCode as int))
  {
  }

  /** Replies of 9 or 10 bytes with a small byte count pass the length checks and still fail. */
  lemma ShortReplyFailsInUnpack(response: seq<byte>)
    requires 9 <= |response| < 11 && response[7] == ReadHoldingRegisters && response[8] as int <= |response| - 9
    ensures DecodeReply(response) == Err(UnpackFailed)
  {
    ExceptionBit(response[7]);
  }

  /** How the socket exchange ended: the reply bytes, or the exception that ended it. */
  datatype Exchange = Replied(response: seq<byte>) | Timeout | Refused | Failed(message: string)

  /** The dictionary `read_adambox_value` returns, without its timestamp. */
  datatype ReadResult =
    | Success(ipAddress: string, registerAddress: u16, value: u16)
    | Failure(error: string)

  /** The `error` text of each failed reply. */
  function ReplyErrorMessage(e: ReplyError): (message: string)
    ensures message != ""
    ensures e.TooShort? ==> message == "Response too short: " + NatToString(e.length) + " bytes"
    ensures e.ModbusException? ==>
      (message == "Modbus exception: function code " + IntToString(e.functionCode) + ", exception "
                  + IntToString(e.exceptionCode))
    ensures e.UnexpectedFunctionCode? ==> message == "Unexpected function code: " + IntToString(e.functionCode)
    ensures e.TooShortForData? ==> message == "Response too short for data"
    ensures e.TooShortForCount? ==>
      (message == "Response too short: expected " + NatToString(e.expected) + " bytes, got " + NatToString(e.got))
    ensures e.UnpackFailed? ==> message == "unpack requires a buffer of 2 bytes"
  {
    match e
    case TooShort(n) => "Response too short: " + NatToString(n) + " bytes"
    case ModbusException(f, x) =>
      "Modbus exception: function code " + IntToString(f) + ", exception " + IntToString(x)
    case UnexpectedFunctionCode(f) => "Unexpected function code: " + IntToString(f)
    case TooShortForData => "Response too short for data"
    case TooShortForCount(expected, got) =>
      "Response too short: expected " + NatToString(expected) + " bytes, got " + NatToString(got)
    case UnpackFailed => "unpack requires a buffer of 2 bytes"
  }

  /** `read_adambox_value(ip_address)` with the default unit and register. */
  function ReadAdamBoxValue(ipAddress: string, exchange: Exchange): (result: ReadResult)
    ensures result.Success? <==> exchange.Replied? && DecodeReply(exchange.response).Ok?
    ensures result.Success? ==>
      result.ipAddress == ipAddress && result.registerAddress == DefaultRegisterAddress
      && result.value == DecodeReply(exchange.response).value
    ensures exchange.Timeout? ==> result == Failure("Connection timeout")
    ensures exchange.Refused? ==> result == Failure("Connection refused - check if AdamBox is running")
    ensures exchange.Failed? ==> result == Failure(exchange.message)
    ensures exchange.Replied? && DecodeReply(exchange.response).Err? ==>
      result == Failure(ReplyErrorMessage(DecodeReply(exchange.response).error))
  {
    match exchange
    case Timeout => Failure("Connection timeout")
    case Refused => Failure("Connection refused - check if AdamBox is running")
    case Failed(message) => Failure(message)
    case Replied(response) =>
      match DecodeReply(response)
      case Ok(value) => Success(ipAddress, DefaultRegisterAddress, value)
      case Err(e) => Failure(ReplyErrorMessage(e))
  }

  /** What `GET /api/adambox` answers: a status code and the result, if the box was read. */
  datatype RouteResponse = RouteResponse(status: int, result: Option<ReadResult>)

  /** `get_adambox_value`: 400 without an `ip` parameter, 500 for a failed read, 200 otherwise. */
  function AdamBoxRoute(ip: Option<string>, exchange: Exchange): (response: RouteResponse)
    ensures (ip.None? || ip.value == "") <==> response.status == 400
    ensures response.status == 400 <==> response.result.None?
    ensures response.status == 500 <==> response.result.Some? && response.result.value.Failure?
    ensures response.status == 200 <==> response.result.Some? && response.result.value.Success?
    ensures response.result.Some? ==> response.result.value == ReadAdamBoxValue(ip.value, exchange)
  {
    if ip.None? || ip.value == "" then RouteResponse(400, None)
    else
      var result := ReadAdamBoxValue(ip.value, exchange);
      if result.Failure? then RouteResponse(500, Some(result)) else RouteResponse(200, Some(result))
  }

  /** A box answering a conforming reply is served with 200 and the register's value. */
  lemma RouteServesConformingReply(ip: string, transactionId: u16, unitId: byte, value: u16)
    requires ip != ""
    ensures AdamBoxRoute(Some(ip), Replied(EncodeReply(transactionId, unitId, value)))
      == RouteResponse(200, Some(Success(ip, DefaultRegisterAddress, value)))
  {
    ReplyRoundTrip(transactionId, unitId, value);
  }
}

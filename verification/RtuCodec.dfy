/** Modbus RTU framing: the CRC of section 2.5.1.2 of the MODBUS over Serial Line
    Specification V1.02, and function 04 responses of section 6.4 of the MODBUS
    Application Protocol V1.1b3. */
module RtuCodec {
  import opened Octets

  datatype Result<T> = Ok(value: T) | Err(error: CodecError)

  datatype CodecError = InvalidRegisterCount | RegisterOutOfRange(register: int)

  datatype Option<T> = None | Some(value: T)

  type Bytes = seq<bv8>

  const MAX_REGISTERS: nat := 125
  const READ_INPUT_REGISTERS: bv8 := 0x04
  const POLYNOMIAL: bv16 := 0xA001

  // ------------------------------------------------------------------ CRC

  /** One bit of the register. */
  function Shift(crc: bv16): bv16 {
    if crc & 1 != 0 then (crc >> 1) ^ POLYNOMIAL else crc >> 1
  }

  function Shifts(crc: bv16, n: nat): bv16 {
    if n == 0 then crc else Shift(Shifts(crc, n - 1))
  }

  /** One byte into the register. */
  function Fold(crc: bv16, byte: bv8): bv16 {
    Shifts(crc ^ (byte as bv16), 8)
  }

  function CrcFrom(crc: bv16, data: Bytes): bv16 {
    if data == [] then crc else Fold(CrcFrom(crc, data[..|data| - 1]), data[|data| - 1])
  }

  function Crc(data: Bytes): bv16 {
    CrcFrom(0xFFFF, data)
  }

  function Low(crc: bv16): bv8 {
    (crc & 0xFF) as bv8
  }

  function High(crc: bv16): bv8 {
    (crc >> 8) as bv8
  }

  function Joined(low: bv8, high: bv8): bv16 {
    (low as bv16) | ((high as bv16) << 8)
  }

  function AppendCrc(payload: Bytes): Bytes {
    payload + [Low(Crc(payload)), High(Crc(payload))]
  }

  predicate VerifyCrc(frame: Bytes) {
    |frame| >= 4 && Joined(frame[|frame| - 2], frame[|frame| - 1]) == Crc(frame[..|frame| - 2])
  }

  method Crc16Modbus(data: Bytes) returns (crc: bv16)
    ensures crc == Crc(data)
  {
    hide Shift;
    crc := 0xFFFF;
    for i := 0 to |data|
      invariant crc == Crc(data[..i])
    {
      assert data[..i + 1][..i] == data[..i];
      ghost var start := crc ^ (data[i] as bv16);
      crc := crc ^ (data[i] as bv16);
      for bit := 0 to 8
        invariant crc == Shifts(start, bit)
      {
        OneShift(crc);
        if crc & 1 != 0 {
          crc := (crc >> 1) ^ 0xA001;
        } else {
          crc := crc >> 1;
        }
      }
    }
    assert data[..|data|] == data;
  }

  lemma OneShift(crc: bv16)
    ensures Shift(crc) == if crc & 1 != 0 then (crc >> 1) ^ 0xA001 else crc >> 1
  {
  }

  // ------------------------------------------------------------------ responses

  predicate IsRegister(value: int) {
    0 <= value <= 0xFFFF
  }

  function BuildException(slave: int, request: bv8, code: int): Bytes {
    AppendCrc([Byte(slave), request | 0x80, Byte(code)])
  }

  function RegisterBytes(values: seq<int>): Bytes {
    if values == [] then []
    else RegisterBytes(values[..|values| - 1]) + [Byte(values[|values| - 1] / 256), Byte(values[|values| - 1])]
  }

  /** The first value that is not a 16-bit register. */
  function FirstBad(values: seq<int>): Option<int> {
    if values == [] then None
    else if FirstBad(values[..|values| - 1]).Some? then FirstBad(values[..|values| - 1])
    else if IsRegister(values[|values| - 1]) then None
    else Some(values[|values| - 1])
  }

  function ResponseFrame(slave: int, values: seq<int>): Bytes {
    AppendCrc([Byte(slave), READ_INPUT_REGISTERS, Byte(2 * |values|)] + RegisterBytes(values))
  }

  function Response(slave: int, values: seq<int>): Result<Bytes> {
    if |values| > MAX_REGISTERS then Err(InvalidRegisterCount)
    else if FirstBad(values).Some? then Err(RegisterOutOfRange(FirstBad(values).value))
    else Ok(ResponseFrame(slave, values))
  }

  method BuildReadInputRegistersResponse(slave: int, values: seq<int>) returns (r: Result<Bytes>)
    ensures r == Response(slave, values)
  {
    hide AppendCrc, Byte;
    if |values| > MAX_REGISTERS {
      return Err(InvalidRegisterCount);
    }
    var payload := [Byte(slave), READ_INPUT_REGISTERS, Byte(2 * |values|)];
    ghost var head := payload;
    for i := 0 to |values|
      invariant FirstBad(values[..i]) == None
      invariant payload == head + RegisterBytes(values[..i])
    {
      assert values[..i + 1][..i] == values[..i];
      if !IsRegister(values[i]) {
        BadStays(values, i + 1);
        return Err(RegisterOutOfRange(values[i]));
      }
      payload := payload + [Byte(values[i] / 256), Byte(values[i])];
    }
    assert values[..|values|] == values;
    r := Ok(AppendCrc(payload));
  }

  lemma {:induction false} BadStays(values: seq<int>, n: nat)
    requires n <= |values| && FirstBad(values[..n]).Some?
    ensures FirstBad(values) == FirstBad(values[..n])
    decreases |values| - n
  {
    if n == |values| {
      assert values[..n] == values;
    } else {
      assert values[..n + 1][..n] == values[..n];
      BadStays(values, n + 1);
    }
  }

  // ------------------------------------------------------------------ the receiving side

  /** How a master reads a function 04 response: the registers it carries, or nothing. */
  function Decoded(frame: Bytes, slave: int): Option<seq<int>> {
    if !VerifyCrc(frame) || |frame| < 5 || frame[0] != Byte(slave) || frame[1] != READ_INPUT_REGISTERS
       || Value(frame[2]) != |frame| - 5 || Value(frame[2]) % 2 != 0 then None
    else Some(Registers(frame[3..|frame| - 2]))
  }

  function Registers(data: Bytes): seq<int>
    requires |data| % 2 == 0
  {
    if data == [] then []
    else Registers(data[..|data| - 2]) + [Word(data[|data| - 2], data[|data| - 1])]
  }
}

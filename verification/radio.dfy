/** The capability layer of src/lib.rs: the calls a radio accepts, the
    standard receive-info and channel types, and the read-modify-write
    default of the `Registers` capability. */
module Radio {
  import opened Base

  /** The capability calls the poll engines issue, named after the trait
      methods of `Power`, `Transmit` and `Receive`. */
  datatype Call =
    | SetPower(power: i8)
    | StartTransmit(data: seq<u8>)
    | CheckTransmit
    | StartReceive
    | CheckReceive(restart: bool)
    | GetReceived

  /** What `Receive::get_received` hands back: the number of bytes copied into
      the caller's buffer and the device's information about the packet. */
  datatype Received<Inf> = Received(len: nat, info: Inf)

  // ---------------------------------------------------------------------------
  // Receive info and channels

  /** `BasicInfo`: signal strength in dBm and link quality of a packet. */
  datatype BasicInfo = BasicInfo(rssi: i16, lqi: u16)

  /** `BasicInfo::default`: the weakest reading either field can hold. */
  function DefaultBasicInfo(): (d: BasicInfo)
    ensures d.rssi == I16_MIN && d.lqi == U16_MIN
    ensures forall i: BasicInfo :: Rssi(d) <= Rssi(i) && d.lqi <= i.lqi
  {
    BasicInfo(I16_MIN, U16_MIN)
  }

  /** `BasicInfo::new`. */
  function NewBasicInfo(rssi: i16, lqi: u16): BasicInfo {
    BasicInfo(rssi, lqi)
  }

  /** `ReceiveInfo::rssi` for `BasicInfo`. */
  function Rssi(i: BasicInfo): i16 {
    i.rssi
  }

  /** The accessor gives back the strength a `BasicInfo` was built with, and
      a default info reads as `i16::MIN`. */
  lemma RssiOfNew(rssi: i16, lqi: u16)
    ensures Rssi(NewBasicInfo(rssi, lqi)) == rssi
    ensures NewBasicInfo(rssi, lqi).lqi == lqi
    ensures Rssi(DefaultBasicInfo()) == -0x8000
  {
  }

  /** `BasicChannel`: a plain integer channel number. */
  datatype BasicChannel = BasicChannel(number: u16)

  /** `From<u16> for BasicChannel`. */
  function ChannelFrom(u: u16): BasicChannel {
    BasicChannel(u)
  }

  /** `Into<u16> for BasicChannel`. */
  function ChannelInto(c: BasicChannel): u16 {
    c.number
  }

  /** The two conversions are inverse to each other. */
  lemma ChannelRoundTrip(u: u16, c: BasicChannel)
    ensures ChannelInto(ChannelFrom(u)) == u
    ensures ChannelFrom(ChannelInto(c)) == c
  {
  }

  // ---------------------------------------------------------------------------
  // Registers

  /** A register access as seen from outside the device. */
  datatype RegisterCall = ReadRegister(address: u8) | WriteRegister(address: u8, value: u8)

  /** A device implementing `Registers`: its two required methods, each
      taking the device state and returning the outcome and the new state.
      A register type is modelled by its `ADDRESS` and its `u8` contents. */
  datatype RegisterDevice<!S, E> = RegisterDevice(
    read: (S, u8) -> (Result<u8, E>, S),
    write: (S, u8, u8) -> (Result<(), E>, S))

  /** The outcome of `update_register`, the device state after it and the
      register accesses it made, in order. */
  datatype Update<S, E> = Update(result: Result<u8, E>, state: S, calls: seq<RegisterCall>)

  /** `Registers::update_register`: read the register, apply `f`, write the
      new value back and return it. */
  function UpdateRegister<S, E>(dev: RegisterDevice<S, E>, s: S, address: u8, f: u8 -> u8): (r: Update<S, E>)
    ensures |r.calls| >= 1 && r.calls[0] == ReadRegister(address)
    ensures var (read, afterRead) := dev.read(s, address);
      && (read.Err? ==> r == Update(Err(read.error), afterRead, [ReadRegister(address)]))
      && (read.Ok? ==>
            var (written, afterWrite) := dev.write(afterRead, address, f(read.value));
            && r.calls == [ReadRegister(address), WriteRegister(address, f(read.value))]
            && r.state == afterWrite
            && (r.result.Ok? <==> written.Ok?)
            && (r.result.Ok? ==> r.result.value == f(read.value))
            && (written.Err? ==> r.result == Err(written.error)))
  {
    var (read, afterRead) := dev.read(s, address);
    match read
    case Err(e) => Update(Err(e), afterRead, [ReadRegister(address)])
    case Ok(existing) =>
      var updated := f(existing);
      var (written, afterWrite) := dev.write(afterRead, address, updated);
      var calls := [ReadRegister(address), WriteRegister(address, updated)];
      match written
      case Err(e) => Update(Err(e), afterWrite, calls)
      case Ok(_) => Update(Ok(updated), afterWrite, calls)
  }

  /** A device whose successful writes are read back unchanged. */
  ghost predicate ReadsBackWrites<S(!new), E>(dev: RegisterDevice<S, E>, address: u8) {
    forall t: S, v: u8 ::
      dev.write(t, address, v).0.Ok? ==> dev.read(dev.write(t, address, v).1, address).0 == Ok(v)
  }

  /** On such a device, a successful update leaves the register holding the
      updated value, `f` of the value read before. */
  lemma UpdateThenRead<S(!new), E>(dev: RegisterDevice<S, E>, s: S, address: u8, f: u8 -> u8)
    requires ReadsBackWrites(dev, address)
    ensures var r := UpdateRegister(dev, s, address, f);
      r.result.Ok? ==>
        && dev.read(s, address).0.Ok?
        && r.result.value == f(dev.read(s, address).0.value)
        && dev.read(r.state, address).0 == r.result
  {
    var (read, afterRead) := dev.read(s, address);
    if read.Ok? {
      var (written, afterWrite) := dev.write(afterRead, address, f(read.value));
      assert dev.write(afterRead, address, f(read.value)).0.Ok? ==>
        dev.read(dev.write(afterRead, address, f(read.value)).1, address).0 == Ok(f(read.value));
    }
  }

  /** The single-register test device of the crate's unit test: only
      register address 123 exists, anything else fails with `()`. */
  const TEST_REGISTER_ADDRESS: u8 := 123

  datatype TestDevice = TestDevice(deviceRegister: u8)

  function TestRead(d: TestDevice, address: u8): (Result<u8, ()>, TestDevice) {
    if address == TEST_REGISTER_ADDRESS then (Ok(d.deviceRegister), d) else (Err(()), d)
  }

  function TestWrite(d: TestDevice, address: u8, value: u8): (Result<(), ()>, TestDevice) {
    if address == TEST_REGISTER_ADDRESS then (Ok(()), TestDevice(value)) else (Err(()), d)
  }

  function TestRegisters(): RegisterDevice<TestDevice, ()> {
    RegisterDevice(TestRead, TestWrite)
  }

  /** The test device reads back what it was given. */
  lemma TestDeviceReadsBackWrites()
    ensures ReadsBackWrites(TestRegisters(), TEST_REGISTER_ADDRESS)
  {
  }

  /** The crate's unit test: after writing 1, the update "1 becomes 2,
      anything else becomes 3" leaves 2 in the register. */
  lemma UpdateRegisterTest()
    ensures var dev := TestRegisters();
      var (w, afterWrite) := dev.write(TestDevice(0), TEST_REGISTER_ADDRESS, 1);
      var r := UpdateRegister(dev, afterWrite, TEST_REGISTER_ADDRESS, (v: u8) => if v == 1 then 2 else 3);
      && w.Ok?
      && r.result == Ok(2)
      && dev.read(r.state, TEST_REGISTER_ADDRESS).0 == Ok(2)
  {
  }
}

/** The mock radio of src/mock.rs: a strict record/replay checker. Every
    capability call pops the head of an ordered queue of (request, response)
    transactions, fails the test unless the call equals the recorded request,
    and otherwise hands back the recorded response. */
module Mock {
  import opened Base
  import Radio

  /** `MockState`, the state type of the concrete mock radio. */
  datatype MockState = Idle | Sleep | Receive | Receiving | Transmitting

  /** `MockError`, the error type of the concrete mock radio. */
  datatype MockError = Timeout

  /** A call as the mock records it, with the exact arguments expected. */
  datatype Request<St, Reg, Ch> =
    | SetState(state: St)
    | GetState
    | IsBusy
    | SetRegister(register: Reg, value: u8)
    | GetRegister
    | GetIrq(clear: bool)
    | PollRssi
    | SetChannel(channel: Ch)
    | SetPower(power: i8)
    | StartTransmit(data: seq<u8>)
    | CheckTransmit
    | StartReceive
    | CheckReceive(restart: bool)
    | GetReceived
    | DelayNs(ns: u32)

  /** The canned answer to a recorded request. */
  datatype Response<St, Inf, Irq, E> =
    | Ok
    | State(state: St)
    | Register(value: u8)
    | Irq(irq: Irq)
    | Rssi(rssi: i16)
    | Received(data: seq<u8>, info: Inf)
    | Bool(flag: bool)
    | Err(error: E)

  /** `From<Option<E>> for Response`: no error means a plain `Ok`. */
  function FromOption<St, Inf, Irq, E>(err: Option<E>): (r: Response<St, Inf, Irq, E>)
    ensures r.Ok? <==> err.None?
    ensures r.Err? <==> err.Some?
    ensures r.Err? ==> r.error == err.value
  {
    match err
    case Some(e) => Response.Err(e)
    case None => Response.Ok
  }

  /** A `Result`-valued factory argument as a response: `map_or_else` with
      the error variant for `Err` and `wrap` for the value. */
  function FromResult<T, St, Inf, Irq, E>(res: Result<T, E>, wrap: T -> Response<St, Inf, Irq, E>): Response<St, Inf, Irq, E> {
    match res
    case Ok(v) => wrap(v)
    case Err(e) => Response.Err(e)
  }

  /** One expected interaction: the request the code under test must make and
      the response the mock then replays. The static functions are the
      factories tests build expectations with. */
  datatype Transaction<St, Reg, Ch, Inf, Irq, E> = Transaction(
    request: Request<St, Reg, Ch>,
    response: Response<St, Inf, Irq, E>)
  {
    static function ForSetState(state: St, err: Option<E>): Transaction<St, Reg, Ch, Inf, Irq, E> {
      Transaction(SetState(state), FromOption(err))
    }

    static function ForGetState(res: Result<St, E>): Transaction<St, Reg, Ch, Inf, Irq, E> {
      Transaction(GetState, FromResult(res, s => State(s)))
    }

    static function ForIsBusy(res: Result<bool, E>): Transaction<St, Reg, Ch, Inf, Irq, E> {
      Transaction(IsBusy, FromResult(res, b => Bool(b)))
    }

    static function ForSetRegister(register: Reg, value: u8, err: Option<E>): Transaction<St, Reg, Ch, Inf, Irq, E> {
      Transaction(SetRegister(register, value), FromOption(err))
    }

    static function ForGetRegister(res: Result<u8, E>): Transaction<St, Reg, Ch, Inf, Irq, E> {
      Transaction(GetRegister, FromResult(res, v => Register(v)))
    }

    static function ForSetChannel(channel: Ch, err: Option<E>): Transaction<St, Reg, Ch, Inf, Irq, E> {
      Transaction(SetChannel(channel), FromOption(err))
    }

    static function ForSetPower(power: i8, err: Option<E>): Transaction<St, Reg, Ch, Inf, Irq, E> {
      Transaction(SetPower(power), FromOption(err))
    }

    static function ForStartTransmit(data: seq<u8>, err: Option<E>): Transaction<St, Reg, Ch, Inf, Irq, E> {
      Transaction(StartTransmit(data), FromOption(err))
    }

    static function ForCheckTransmit(res: Result<bool, E>): Transaction<St, Reg, Ch, Inf, Irq, E> {
      Transaction(CheckTransmit, FromResult(res, b => Bool(b)))
    }

    static function ForStartReceive(err: Option<E>): Transaction<St, Reg, Ch, Inf, Irq, E> {
      Transaction(StartReceive, FromOption(err))
    }

    static function ForCheckReceive(restart: bool, res: Result<bool, E>): Transaction<St, Reg, Ch, Inf, Irq, E> {
      Transaction(CheckReceive(restart), FromResult(res, b => Bool(b)))
    }

    static function ForGetReceived(res: Result<(seq<u8>, Inf), E>): Transaction<St, Reg, Ch, Inf, Irq, E> {
      Transaction(GetReceived, FromResult(res, (p: (seq<u8>, Inf)) => Received(p.0, p.1)))
    }

    static function ForGetIrq(clear: bool, res: Result<Irq, E>): Transaction<St, Reg, Ch, Inf, Irq, E> {
      Transaction(GetIrq(clear), FromResult(res, i => Irq(i)))
    }

    static function ForPollRssi(res: Result<i16, E>): Transaction<St, Reg, Ch, Inf, Irq, E> {
      Transaction(PollRssi, FromResult(res, v => Rssi(v)))
    }

    static function ForDelayNs(ns: u32): Transaction<St, Reg, Ch, Inf, Irq, E> {
      Transaction(DelayNs(ns), Response.Ok)
    }
  }

  /** The pending expectations of a mock radio, head first. */
  type Queue<St, Reg, Ch, Inf, Irq, E> = seq<Transaction<St, Reg, Ch, Inf, Irq, E>>

  /** The concrete `MockRadio`: mock states, `u8` registers, channels and
      interrupts, `BasicInfo` packets and `MockError`. */
  type MockRadio = Queue<MockState, u8, u8, Radio.BasicInfo, u8, MockError>

  /** Why a mock call fails the test. */
  datatype Panic<St, Reg, Ch> =
    | NoExpectation(call: string)                                   // `expect("no expectation for ...")`
    | Mismatch(expected: Request<St, Reg, Ch>, actual: Request<St, Reg, Ch>)  // `assert_eq!`
    | Unreachable                                                   // `unreachable!()`
    | SliceOutOfRange                                               // `buff[..d.len()]` too short
    | ExpectationsLeft(count: nat)                                  // `done()` with a non-empty queue

  /** A call on the mock: either it returns a value and the queue left
      behind, or the test fails. */
  datatype Step<R, St, Reg, Ch, Inf, Irq, E> =
    | Returned(value: R, rest: Queue<St, Reg, Ch, Inf, Irq, E>)
    | Panicked(reason: Panic<St, Reg, Ch>)

  /** `Radio::next`: pop the head expectation, if any. */
  function Next<St, Reg, Ch, Inf, Irq, E>(q: Queue<St, Reg, Ch, Inf, Irq, E>): (r: Option<(Transaction<St, Reg, Ch, Inf, Irq, E>, Queue<St, Reg, Ch, Inf, Irq, E>)>)
    ensures r.None? <==> |q| == 0
    ensures r.Some? ==> [r.value.0] + r.value.1 == q
  {
    if q == [] then None else Some((q[0], q[1..]))
  }

  /** `Radio::done`: passes only once every expectation has been consumed. */
  function Done<St, Reg, Ch, Inf, Irq, E>(q: Queue<St, Reg, Ch, Inf, Irq, E>): (r: Step<(), St, Reg, Ch, Inf, Irq, E>)
    ensures r.Returned? <==> |q| == 0
    ensures r.Returned? ==> r.rest == q
    ensures r.Panicked? ==> r.reason == ExpectationsLeft(|q|)
  {
    if q == [] then Returned((), q) else Panicked(ExpectationsLeft(|q|))
  }

  /** Whether a response is of a kind the handler for `req` accepts, so that
      its `unreachable!()` arm is not taken. `delay_ns` ignores its response. */
  predicate Accepts<St, Reg, Ch, Inf, Irq, E>(req: Request<St, Reg, Ch>, resp: Response<St, Inf, Irq, E>) {
    match req
    case SetState(_) => resp.Ok? || resp.Err?
    case GetState => resp.State? || resp.Err?
    case IsBusy => resp.Bool? || resp.Err?
    case SetRegister(_, _) => resp.Ok? || resp.Err?
    case GetRegister => resp.Register? || resp.Err?
    case GetIrq(_) => resp.Irq? || resp.Err?
    case PollRssi => resp.Rssi? || resp.Err?
    case SetChannel(_) => resp.Ok? || resp.Err?
    case SetPower(_) => resp.Ok? || resp.Err?
    case StartTransmit(_) => resp.Ok? || resp.Err?
    case CheckTransmit => resp.Bool? || resp.Err?
    case StartReceive => resp.Ok? || resp.Err?
    case CheckReceive(_) => resp.Bool? || resp.Err?
    case GetReceived => resp.Received? || resp.Err?
    case DelayNs(_) => true
  }

  predicate WellFormed<St, Reg, Ch, Inf, Irq, E>(t: Transaction<St, Reg, Ch, Inf, Irq, E>) {
    Accepts(t.request, t.response)
  }

  /** The factories never pair a request with a response its handler
      rejects. */
  lemma FactoriesWellFormed<St, Reg, Ch, Inf, Irq, E>(
    st: St, reg: Reg, ch: Ch, value: u8, power: i8, data: seq<u8>, flag: bool, ns: u32,
    err: Option<E>, state: Result<St, E>, b: Result<bool, E>, v: Result<u8, E>,
    rx: Result<(seq<u8>, Inf), E>, irq: Result<Irq, E>, rssi: Result<i16, E>)
    ensures WellFormed(Transaction<St, Reg, Ch, Inf, Irq, E>.ForSetState(st, err))
    ensures WellFormed(Transaction<St, Reg, Ch, Inf, Irq, E>.ForGetState(state))
    ensures WellFormed(Transaction<St, Reg, Ch, Inf, Irq, E>.ForIsBusy(b))
    ensures WellFormed(Transaction<St, Reg, Ch, Inf, Irq, E>.ForSetRegister(reg, value, err))
    ensures WellFormed(Transaction<St, Reg, Ch, Inf, Irq, E>.ForGetRegister(v))
    ensures WellFormed(Transaction<St, Reg, Ch, Inf, Irq, E>.ForSetChannel(ch, err))
    ensures WellFormed(Transaction<St, Reg, Ch, Inf, Irq, E>.ForSetPower(power, err))
    ensures WellFormed(Transaction<St, Reg, Ch, Inf, Irq, E>.ForStartTransmit(data, err))
    ensures WellFormed(Transaction<St, Reg, Ch, Inf, Irq, E>.ForCheckTransmit(b))
    ensures WellFormed(Transaction<St, Reg, Ch, Inf, Irq, E>.ForStartReceive(err))
    ensures WellFormed(Transaction<St, Reg, Ch, Inf, Irq, E>.ForCheckReceive(flag, b))
    ensures WellFormed(Transaction<St, Reg, Ch, Inf, Irq, E>.ForGetReceived(rx))
    ensures WellFormed(Transaction<St, Reg, Ch, Inf, Irq, E>.ForGetIrq(flag, irq))
    ensures WellFormed(Transaction<St, Reg, Ch, Inf, Irq, E>.ForPollRssi(rssi))
    ensures WellFormed(Transaction<St, Reg, Ch, Inf, Irq, E>.ForDelayNs(ns))
  {
  }

  // ---------------------------------------------------------------------------
  // The handlers

  /** The requests the mock radio implements a capability for; the register
      factories exist, but the mock has no `Registers` implementation. */
  predicate Handled<St, Reg, Ch>(req: Request<St, Reg, Ch>) {
    !req.SetRegister? && !req.GetRegister?
  }

  /** The name each handler gives in its "no expectation" failure. */
  function ExpectationName<St, Reg, Ch>(req: Request<St, Reg, Ch>): string
    requires Handled(req)
  {
    match req
    case SetState(_) => "State::set_state"
    case GetState => "State::get_state"
    case IsBusy => "is_busy"
    case GetIrq(_) => "Interrupts::get_interrupts"
    case PollRssi => "Rssi::poll_rssi"
    case SetChannel(_) => "State::set_channel"
    case SetPower(_) => "Power::set_power"
    case StartTransmit(_) => "Transmit::start_transmit"
    case CheckTransmit => "Transmit::check_transmit"
    case StartReceive => "Receive::start_receive"
    case CheckReceive(_) => "Receive::check_receive"
    case GetReceived => "Receive::get_received"
    case DelayNs(_) => "delay_ns"
  }

  /** The replay rule shared by every handler: pop the head, fail when there
      is none, fail when it records a different request. */
  function Expect<St(==), Reg(==), Ch(==), Inf, Irq, E>(q: Queue<St, Reg, Ch, Inf, Irq, E>, actual: Request<St, Reg, Ch>, name: string): Step<Response<St, Inf, Irq, E>, St, Reg, Ch, Inf, Irq, E> {
    match Next(q)
    case None => Panicked(NoExpectation(name))
    case Some((t, rest)) =>
      if t.request != actual then Panicked(Mismatch(t.request, actual))
      else Returned(t.response, rest)
  }

  /** Turn the popped response into the handler's result; `None` from the
      decoder is the handler's `unreachable!()` arm. */
  function Answer<R, St, Reg, Ch, Inf, Irq, E>(s: Step<Response<St, Inf, Irq, E>, St, Reg, Ch, Inf, Irq, E>, decode: Response<St, Inf, Irq, E> -> Option<R>): Step<R, St, Reg, Ch, Inf, Irq, E> {
    match s
    case Panicked(p) => Panicked(p)
    case Returned(resp, rest) =>
      match decode(resp)
      case None => Panicked(Unreachable)
      case Some(v) => Returned(v, rest)
  }

  function AsUnit<St, Inf, Irq, E>(resp: Response<St, Inf, Irq, E>): Option<Result<(), E>> {
    match resp
    case Ok => Some(Result.Ok(()))
    case Err(e) => Some(Result.Err(e))
    case _ => None
  }

  function AsState<St, Inf, Irq, E>(resp: Response<St, Inf, Irq, E>): Option<Result<St, E>> {
    match resp
    case State(s) => Some(Result.Ok(s))
    case Err(e) => Some(Result.Err(e))
    case _ => None
  }

  function AsBool<St, Inf, Irq, E>(resp: Response<St, Inf, Irq, E>): Option<Result<bool, E>> {
    match resp
    case Bool(b) => Some(Result.Ok(b))
    case Err(e) => Some(Result.Err(e))
    case _ => None
  }

  function AsRssi<St, Inf, Irq, E>(resp: Response<St, Inf, Irq, E>): Option<Result<i16, E>> {
    match resp
    case Rssi(v) => Some(Result.Ok(v))
    case Err(e) => Some(Result.Err(e))
    case _ => None
  }

  function AsIrq<St, Inf, Irq, E>(resp: Response<St, Inf, Irq, E>): Option<Result<Irq, E>> {
    match resp
    case Irq(i) => Some(Result.Ok(i))
    case Err(e) => Some(Result.Err(e))
    case _ => None
  }

  /** What every handler promises about the queue: it consumes exactly the
      head, only when the head records this very call, leaves the rest in
      order, and fails with the right reason otherwise. A well-formed head
      that matches is always answered. */
  ghost predicate Replays<R, St, Reg, Ch, Inf, Irq, E>(q: Queue<St, Reg, Ch, Inf, Irq, E>, actual: Request<St, Reg, Ch>, name: string, r: Step<R, St, Reg, Ch, Inf, Irq, E>) {
    && (|q| == 0 ==> r == Panicked(NoExpectation(name)))
    && (|q| > 0 && q[0].request != actual ==> r == Panicked(Mismatch(q[0].request, actual)))
    && (r.Returned? ==> |q| > 0 && q[0].request == actual && r.rest == q[1..])
    && (|q| > 0 && q[0].request == actual && WellFormed(q[0]) ==> r.Returned?)
  }

  /** The result a unit handler (`set_state`, `set_channel`, `set_power`,
      `start_transmit`, `start_receive`) replays: `Ok(())` for a recorded
      `Ok`, `Err(e)` for a recorded `Err(e)`. */
  ghost predicate UnitReplay<R, St, Reg, Ch, Inf, Irq, E>(q: Queue<St, Reg, Ch, Inf, Irq, E>, r: Step<Result<(), E>, St, Reg, Ch, Inf, Irq, E>) {
    r.Returned? ==>
      && |q| > 0
      && (r.value.Ok? <==> q[0].response.Ok?)
      && (r.value.Err? ==> q[0].response == Response.Err(r.value.error))
  }

  /** The result a boolean handler (`is_busy`, `check_transmit`,
      `check_receive`) replays. */
  ghost predicate BoolReplay<St, Reg, Ch, Inf, Irq, E>(q: Queue<St, Reg, Ch, Inf, Irq, E>, r: Step<Result<bool, E>, St, Reg, Ch, Inf, Irq, E>) {
    r.Returned? ==>
      && |q| > 0
      && (r.value.Ok? <==> q[0].response.Bool?)
      && (r.value.Ok? ==> q[0].response.flag == r.value.value)
      && (r.value.Err? ==> q[0].response == Response.Err(r.value.error))
  }

  /** `DelayNs::delay_ns`: checks the request and ignores the response. */
  function DelayNsCall<St(==), Reg(==), Ch(==), Inf, Irq, E>(q: Queue<St, Reg, Ch, Inf, Irq, E>, ns: u32): (r: Step<(), St, Reg, Ch, Inf, Irq, E>)
    ensures Replays(q, DelayNs(ns), "delay_ns", r)
    ensures |q| > 0 && q[0].request == DelayNs(ns) ==> r.Returned?
  {
    Answer(Expect(q, DelayNs(ns), "delay_ns"), (_: Response<St, Inf, Irq, E>) => Some(()))
  }

  /** `State::set_state`. */
  function SetStateCall<St(==), Reg(==), Ch(==), Inf, Irq, E>(q: Queue<St, Reg, Ch, Inf, Irq, E>, state: St): (r: Step<Result<(), E>, St, Reg, Ch, Inf, Irq, E>)
    ensures Replays(q, SetState(state), "State::set_state", r)
    ensures UnitReplay<(), St, Reg, Ch, Inf, Irq, E>(q, r)
  {
    Answer(Expect(q, SetState(state), "State::set_state"), AsUnit)
  }

  /** `State::get_state`. */
  function GetStateCall<St(==), Reg(==), Ch(==), Inf, Irq, E>(q: Queue<St, Reg, Ch, Inf, Irq, E>): (r: Step<Result<St, E>, St, Reg, Ch, Inf, Irq, E>)
    ensures Replays(q, GetState, "State::get_state", r)
    ensures r.Returned? ==> (r.value.Ok? <==> q[0].response.State?)
    ensures r.Returned? && r.value.Ok? ==> q[0].response.state == r.value.value
    ensures r.Returned? && r.value.Err? ==> q[0].response == Response.Err(r.value.error)
  {
    Answer(Expect(q, GetState, "State::get_state"), AsState)
  }

  /** `Busy::is_busy`. */
  function IsBusyCall<St(==), Reg(==), Ch(==), Inf, Irq, E>(q: Queue<St, Reg, Ch, Inf, Irq, E>): (r: Step<Result<bool, E>, St, Reg, Ch, Inf, Irq, E>)
    ensures Replays(q, IsBusy, "is_busy", r)
    ensures BoolReplay(q, r)
  {
    Answer(Expect(q, IsBusy, "is_busy"), AsBool)
  }

  /** `Channel::set_channel`. */
  function SetChannelCall<St(==), Reg(==), Ch(==), Inf, Irq, E>(q: Queue<St, Reg, Ch, Inf, Irq, E>, channel: Ch): (r: Step<Result<(), E>, St, Reg, Ch, Inf, Irq, E>)
    ensures Replays(q, SetChannel(channel), "State::set_channel", r)
    ensures UnitReplay<(), St, Reg, Ch, Inf, Irq, E>(q, r)
  {
    Answer(Expect(q, SetChannel(channel), "State::set_channel"), AsUnit)
  }

  /** `Power::set_power`. */
  function SetPowerCall<St(==), Reg(==), Ch(==), Inf, Irq, E>(q: Queue<St, Reg, Ch, Inf, Irq, E>, power: i8): (r: Step<Result<(), E>, St, Reg, Ch, Inf, Irq, E>)
    ensures Replays(q, SetPower(power), "Power::set_power", r)
    ensures UnitReplay<(), St, Reg, Ch, Inf, Irq, E>(q, r)
  {
    Answer(Expect(q, SetPower(power), "Power::set_power"), AsUnit)
  }

  /** `Rssi::poll_rssi`. */
  function PollRssiCall<St(==), Reg(==), Ch(==), Inf, Irq, E>(q: Queue<St, Reg, Ch, Inf, Irq, E>): (r: Step<Result<i16, E>, St, Reg, Ch, Inf, Irq, E>)
    ensures Replays(q, PollRssi, "Rssi::poll_rssi", r)
    ensures r.Returned? ==> (r.value.Ok? <==> q[0].response.Rssi?)
    ensures r.Returned? && r.value.Ok? ==> q[0].response.rssi == r.value.value
    ensures r.Returned? && r.value.Err? ==> q[0].response == Response.Err(r.value.error)
  {
    Answer(Expect(q, PollRssi, "Rssi::poll_rssi"), AsRssi)
  }

  /** `Interrupts::get_interrupts` as written: its "no expectation" failure
      names `Transmit::check_transmit` instead of itself. */
  function GetInterruptsAsWritten<St(==), Reg(==), Ch(==), Inf, Irq, E>(q: Queue<St, Reg, Ch, Inf, Irq, E>, clear: bool): (r: Step<Result<Irq, E>, St, Reg, Ch, Inf, Irq, E>)
    ensures Replays(q, GetIrq(clear), "Transmit::check_transmit", r)
  {
    Answer(Expect(q, GetIrq(clear), "Transmit::check_transmit"), AsIrq)
  }

  /** `Interrupts::get_interrupts`, with the failure naming the call that
      found no expectation. */
  function GetInterruptsCall<St(==), Reg(==), Ch(==), Inf, Irq, E>(q: Queue<St, Reg, Ch, Inf, Irq, E>, clear: bool): (r: Step<Result<Irq, E>, St, Reg, Ch, Inf, Irq, E>)
    ensures Replays(q, GetIrq(clear), "Interrupts::get_interrupts", r)
    ensures r.Returned? ==> (r.value.Ok? <==> q[0].response.Irq?)
    ensures r.Returned? && r.value.Ok? ==> q[0].response.irq == r.value.value
    ensures r.Returned? && r.value.Err? ==> q[0].response == Response.Err(r.value.error)
  {
    Answer(Expect(q, GetIrq(clear), "Interrupts::get_interrupts"), AsIrq)
  }

  /** `Transmit::start_transmit`: the bytes must equal the recorded ones. */
  function StartTransmitCall<St(==), Reg(==), Ch(==), Inf, Irq, E>(q: Queue<St, Reg, Ch, Inf, Irq, E>, data: seq<u8>): (r: Step<Result<(), E>, St, Reg, Ch, Inf, Irq, E>)
    ensures Replays(q, StartTransmit(data), "Transmit::start_transmit", r)
    ensures UnitReplay<(), St, Reg, Ch, Inf, Irq, E>(q, r)
  {
    Answer(Expect(q, StartTransmit(data), "Transmit::start_transmit"), AsUnit)
  }

  /** `Transmit::check_transmit`. */
  function CheckTransmitCall<St(==), Reg(==), Ch(==), Inf, Irq, E>(q: Queue<St, Reg, Ch, Inf, Irq, E>): (r: Step<Result<bool, E>, St, Reg, Ch, Inf, Irq, E>)
    ensures Replays(q, CheckTransmit, "Transmit::check_transmit", r)
    ensures BoolReplay(q, r)
  {
    Answer(Expect(q, CheckTransmit, "Transmit::check_transmit"), AsBool)
  }

  /** `Receive::start_receive`. */
  function StartReceiveCall<St(==), Reg(==), Ch(==), Inf, Irq, E>(q: Queue<St, Reg, Ch, Inf, Irq, E>): (r: Step<Result<(), E>, St, Reg, Ch, Inf, Irq, E>)
    ensures Replays(q, StartReceive, "Receive::start_receive", r)
    ensures UnitReplay<(), St, Reg, Ch, Inf, Irq, E>(q, r)
  {
    Answer(Expect(q, StartReceive, "Receive::start_receive"), AsUnit)
  }

  /** `Receive::check_receive`: the restart flag must equal the recorded
      one. */
  function CheckReceiveCall<St(==), Reg(==), Ch(==), Inf, Irq, E>(q: Queue<St, Reg, Ch, Inf, Irq, E>, restart: bool): (r: Step<Result<bool, E>, St, Reg, Ch, Inf, Irq, E>)
    ensures Replays(q, CheckReceive(restart), "Receive::check_receive", r)
    ensures BoolReplay(q, r)
  {
    Answer(Expect(q, CheckReceive(restart), "Receive::check_receive"), AsBool)
  }

  /** `buff[..d.len()].copy_from_slice(&d)`. */
  function CopyInto(buff: seq<u8>, d: seq<u8>): (r: seq<u8>)
    requires |d| <= |buff|
    ensures |r| == |buff| && r[..|d|] == d && r[|d|..] == buff[|d|..]
  {
    d + buff[|d|..]
  }

  /** `Receive::get_received`: copies the recorded bytes to the front of the
      caller's buffer and returns their count with the recorded info. The
      result carries the buffer as it is after the call. */
  function GetReceivedCall<St(==), Reg(==), Ch(==), Inf, Irq, E>(q: Queue<St, Reg, Ch, Inf, Irq, E>, buff: seq<u8>): (r: Step<(Result<Radio.Received<Inf>, E>, seq<u8>), St, Reg, Ch, Inf, Irq, E>)
    ensures |q| == 0 ==> r == Panicked(NoExpectation("Receive::get_received"))
    ensures |q| > 0 && q[0].request != GetReceived ==> r == Panicked(Mismatch(q[0].request, GetReceived))
    ensures r.Returned? ==> |q| > 0 && q[0].request == GetReceived && r.rest == q[1..]
    ensures r.Returned? && r.value.0.Ok? ==>
      && q[0].response.Received?
      && var d := q[0].response.data;
      && q[0].response.info == r.value.0.value.info
      && r.value.0.value.len == |d| <= |buff|
      && |r.value.1| == |buff| && r.value.1[..|d|] == d && r.value.1[|d|..] == buff[|d|..]
    ensures r.Returned? && r.value.0.Err? ==> q[0].response == Response.Err(r.value.0.error) && r.value.1 == buff
    ensures |q| > 0 && q[0].request == GetReceived && WellFormed(q[0]) ==>
      (r.Returned? <==> (q[0].response.Received? ==> |q[0].response.data| <= |buff|))
  {
    match Expect(q, GetReceived, "Receive::get_received")
    case Panicked(p) => Panicked(p)
    case Returned(resp, rest) =>
      match resp
      case Received(d, i) =>
        if |d| > |buff| then Panicked(SliceOutOfRange)
        else Returned((Result.Ok(Radio.Received(|d|, i)), CopyInto(buff, d)), rest)
      case Err(e) => Returned((Result.Err(e), buff), rest)
      case _ => Panicked(Unreachable)
  }

  // ---------------------------------------------------------------------------
  // Replaying the recorded transactions

  /** Replaying a factory-built expectation with the matching call gives back
      the recorded outcome and leaves the rest of the queue untouched. */
  lemma UnitFactoriesRoundTrip<St, Reg, Ch, Inf, Irq, E>(rest: Queue<St, Reg, Ch, Inf, Irq, E>, st: St, ch: Ch, power: i8, data: seq<u8>, err: Option<E>)
    ensures SetStateCall([Transaction.ForSetState(st, err)] + rest, st) == Returned(ToUnit(err), rest)
    ensures SetChannelCall([Transaction.ForSetChannel(ch, err)] + rest, ch) == Returned(ToUnit(err), rest)
    ensures SetPowerCall([Transaction.ForSetPower(power, err)] + rest, power) == Returned(ToUnit(err), rest)
    ensures StartTransmitCall([Transaction.ForStartTransmit(data, err)] + rest, data) == Returned(ToUnit(err), rest)
    ensures StartReceiveCall([Transaction.ForStartReceive(err)] + rest) == Returned(ToUnit(err), rest)
  {
    assert ([Transaction.ForSetState(st, err)] + rest)[1..] == rest;
    assert ([Transaction.ForSetChannel(ch, err)] + rest)[1..] == rest;
    assert ([Transaction.ForSetPower(power, err)] + rest)[1..] == rest;
    assert ([Transaction.ForStartTransmit(data, err)] + rest)[1..] == rest;
    assert ([Transaction.ForStartReceive(err)] + rest)[1..] == rest;
  }

  /** The outcome a unit factory's `Option<E>` argument stands for. */
  function ToUnit<E>(err: Option<E>): (r: Result<(), E>)
    ensures r.Ok? <==> err.None?
  {
    match err
    case None => Result.Ok(())
    case Some(e) => Result.Err(e)
  }

  /** Replaying a factory-built state query gives back exactly the recorded
      `Result`. */
  lemma StateQueryRoundTrip<St, Reg, Ch, Inf, Irq, E>(rest: Queue<St, Reg, Ch, Inf, Irq, E>, state: Result<St, E>)
    ensures GetStateCall([Transaction.ForGetState(state)] + rest) == Returned(state, rest)
  {
    assert ([Transaction<St, Reg, Ch, Inf, Irq, E>.ForGetState(state)] + rest)[1..] == rest;
  }

  /** Replaying a factory-built boolean query gives back exactly the
      recorded `Result`; `check_receive` needs the recorded restart flag. */
  lemma FlagQueriesRoundTrip<St, Reg, Ch, Inf, Irq, E>(rest: Queue<St, Reg, Ch, Inf, Irq, E>, restart: bool, b: Result<bool, E>)
    ensures IsBusyCall([Transaction.ForIsBusy(b)] + rest) == Returned(b, rest)
    ensures CheckTransmitCall([Transaction.ForCheckTransmit(b)] + rest) == Returned(b, rest)
    ensures CheckReceiveCall([Transaction.ForCheckReceive(restart, b)] + rest, restart) == Returned(b, rest)
    ensures CheckReceiveCall([Transaction.ForCheckReceive(restart, b)] + rest, !restart)
      == Panicked(Mismatch(CheckReceive(restart), CheckReceive(!restart)))
  {
    assert ([Transaction<St, Reg, Ch, Inf, Irq, E>.ForIsBusy(b)] + rest)[1..] == rest;
    assert ([Transaction<St, Reg, Ch, Inf, Irq, E>.ForCheckTransmit(b)] + rest)[1..] == rest;
    assert ([Transaction<St, Reg, Ch, Inf, Irq, E>.ForCheckReceive(restart, b)] + rest)[1..] == rest;
  }

  /** Replaying factory-built interrupt, RSSI and delay expectations. */
  lemma ReadingQueriesRoundTrip<St, Reg, Ch, Inf, Irq, E>(rest: Queue<St, Reg, Ch, Inf, Irq, E>, clear: bool, ns: u32, irq: Result<Irq, E>, rssi: Result<i16, E>)
    ensures GetInterruptsCall([Transaction.ForGetIrq(clear, irq)] + rest, clear) == Returned(irq, rest)
    ensures PollRssiCall([Transaction.ForPollRssi(rssi)] + rest) == Returned(rssi, rest)
    ensures DelayNsCall([Transaction.ForDelayNs(ns)] + rest, ns) == Returned((), rest)
  {
    assert ([Transaction<St, Reg, Ch, Inf, Irq, E>.ForGetIrq(clear, irq)] + rest)[1..] == rest;
    assert ([Transaction<St, Reg, Ch, Inf, Irq, E>.ForPollRssi(rssi)] + rest)[1..] == rest;
    assert ([Transaction<St, Reg, Ch, Inf, Irq, E>.ForDelayNs(ns)] + rest)[1..] == rest;
  }

  /** Replaying a factory-built `get_received` into a buffer large enough:
      the recorded bytes land at the front of the buffer, the count and info
      come back, and a recorded error leaves the buffer alone. */
  lemma GetReceivedRoundTrip<St, Reg, Ch, Inf, Irq, E>(rest: Queue<St, Reg, Ch, Inf, Irq, E>, res: Result<(seq<u8>, Inf), E>, buff: seq<u8>)
    requires res.Ok? ==> |res.value.0| <= |buff|
    ensures var r := GetReceivedCall([Transaction.ForGetReceived(res)] + rest, buff);
      && r.Returned? && r.rest == rest
      && (res.Ok? ==> r.value == (Result.Ok(Radio.Received(|res.value.0|, res.value.1)), res.value.0 + buff[|res.value.0|..]))
      && (res.Err? ==> r.value == (Result.Err(res.error), buff))
  {
    assert ([Transaction<St, Reg, Ch, Inf, Irq, E>.ForGetReceived(res)] + rest)[1..] == rest;
  }

  // ---------------------------------------------------------------------------
  // The mock as a whole: any handled request, and runs of them

  /** A handler's result, whichever capability it belongs to. */
  datatype Reply<St, Inf, Irq, E> =
    | Delayed
    | Unit(unit: Result<(), E>)
    | StateOf(state: Result<St, E>)
    | Flag(flag: Result<bool, E>)
    | Strength(rssi: Result<i16, E>)
    | Interrupts(irq: Result<Irq, E>)
    | Fetched(fetched: Result<Radio.Received<Inf>, E>, buffer: seq<u8>)

  function Lift<R, St, Reg, Ch, Inf, Irq, E>(s: Step<R, St, Reg, Ch, Inf, Irq, E>, wrap: R -> Reply<St, Inf, Irq, E>): Step<Reply<St, Inf, Irq, E>, St, Reg, Ch, Inf, Irq, E> {
    match s
    case Panicked(p) => Panicked(p)
    case Returned(v, rest) => Returned(wrap(v), rest)
  }

  /** Whether `buff` is large enough for the packet a transaction records. */
  predicate Fits<St, Reg, Ch, Inf, Irq, E>(t: Transaction<St, Reg, Ch, Inf, Irq, E>, buff: seq<u8>) {
    t.response.Received? ==> |t.response.data| <= |buff|
  }

  /** Make the call `req` describes on the mock, through its handler;
      `get_received` is given the buffer `buff`. */
  function Perform<St(==), Reg(==), Ch(==), Inf, Irq, E>(q: Queue<St, Reg, Ch, Inf, Irq, E>, req: Request<St, Reg, Ch>, buff: seq<u8>): (r: Step<Reply<St, Inf, Irq, E>, St, Reg, Ch, Inf, Irq, E>)
    requires Handled(req)
    ensures |q| == 0 ==> r == Panicked(NoExpectation(ExpectationName(req)))
    ensures |q| > 0 && q[0].request != req ==> r == Panicked(Mismatch(q[0].request, req))
    ensures r.Returned? ==> |q| > 0 && q[0].request == req && r.rest == q[1..]
    ensures |q| > 0 && q[0].request == req && WellFormed(q[0]) && Fits(q[0], buff) ==> r.Returned?
  {
    match req
    case SetState(s) => Lift(SetStateCall(q, s), x => Unit(x))
    case GetState => Lift(GetStateCall(q), x => StateOf(x))
    case IsBusy => Lift(IsBusyCall(q), x => Flag(x))
    case GetIrq(clear) => Lift(GetInterruptsCall(q, clear), x => Interrupts(x))
    case PollRssi => Lift(PollRssiCall(q), x => Strength(x))
    case SetChannel(ch) => Lift(SetChannelCall(q, ch), x => Unit(x))
    case SetPower(p) => Lift(SetPowerCall(q, p), x => Unit(x))
    case StartTransmit(data) => Lift(StartTransmitCall(q, data), x => Unit(x))
    case CheckTransmit => Lift(CheckTransmitCall(q), x => Flag(x))
    case StartReceive => Lift(StartReceiveCall(q), x => Unit(x))
    case CheckReceive(restart) => Lift(CheckReceiveCall(q, restart), x => Flag(x))
    case GetReceived => Lift(GetReceivedCall(q, buff), (x: (Result<Radio.Received<Inf>, E>, seq<u8>)) => Fetched(x.0, x.1))
    case DelayNs(ns) => Lift(DelayNsCall(q, ns), (_: ()) => Delayed)
  }

  /** The reply a well-formed expectation stands for: its recorded response
      decoded the way its handler decodes it, a recorded packet copied to
      the front of `buff`. */
  function ReplyTo<St, Reg, Ch, Inf, Irq, E>(t: Transaction<St, Reg, Ch, Inf, Irq, E>, buff: seq<u8>): Reply<St, Inf, Irq, E>
    requires Handled(t.request) && WellFormed(t) && Fits(t, buff)
  {
    var resp := t.response;
    match t.request
    case SetState(_) => Unit(if resp.Ok? then Result.Ok(()) else Result.Err(resp.error))
    case SetChannel(_) => Unit(if resp.Ok? then Result.Ok(()) else Result.Err(resp.error))
    case SetPower(_) => Unit(if resp.Ok? then Result.Ok(()) else Result.Err(resp.error))
    case StartTransmit(_) => Unit(if resp.Ok? then Result.Ok(()) else Result.Err(resp.error))
    case StartReceive => Unit(if resp.Ok? then Result.Ok(()) else Result.Err(resp.error))
    case GetState => StateOf(if resp.State? then Result.Ok(resp.state) else Result.Err(resp.error))
    case IsBusy => Flag(if resp.Bool? then Result.Ok(resp.flag) else Result.Err(resp.error))
    case CheckTransmit => Flag(if resp.Bool? then Result.Ok(resp.flag) else Result.Err(resp.error))
    case CheckReceive(_) => Flag(if resp.Bool? then Result.Ok(resp.flag) else Result.Err(resp.error))
    case PollRssi => Strength(if resp.Rssi? then Result.Ok(resp.rssi) else Result.Err(resp.error))
    case GetIrq(_) => Interrupts(if resp.Irq? then Result.Ok(resp.irq) else Result.Err(resp.error))
    case GetReceived =>
      if resp.Received? then Fetched(Result.Ok(Radio.Received(|resp.data|, resp.info)), CopyInto(buff, resp.data))
      else Fetched(Result.Err(resp.error), buff)
    case DelayNs(_) => Delayed
  }

  /** A call that the head expectation records is answered with the reply
      that expectation stands for, and consumes exactly the head. */
  lemma PerformReplies<St, Reg, Ch, Inf, Irq, E>(q: Queue<St, Reg, Ch, Inf, Irq, E>, buff: seq<u8>)
    requires |q| > 0 && Handled(q[0].request) && WellFormed(q[0]) && Fits(q[0], buff)
    ensures Perform(q, q[0].request, buff) == Returned(ReplyTo(q[0], buff), q[1..])
  {
  }

  /** Make the calls `reqs` on the mock one after the other, stopping at the
      first failure. */
  function Replay<St(==), Reg(==), Ch(==), Inf, Irq, E>(q: Queue<St, Reg, Ch, Inf, Irq, E>, reqs: seq<Request<St, Reg, Ch>>, buff: seq<u8>): Step<seq<Reply<St, Inf, Irq, E>>, St, Reg, Ch, Inf, Irq, E>
    requires forall i :: 0 <= i < |reqs| ==> Handled(reqs[i])
    decreases |reqs|
  {
    if |reqs| == 0 then Returned([], q)
    else
      match Perform(q, reqs[0], buff)
      case Panicked(p) => Panicked(p)
      case Returned(reply, rest) =>
        match Replay(rest, reqs[1..], buff)
        case Panicked(p) => Panicked(p)
        case Returned(replies, left) => Returned([reply] + replies, left)
  }

  /** The first `n` expectations record `reqs`, well-formed and with room in
      `buff` for any packet they carry. */
  ghost predicate Recorded<St, Reg, Ch, Inf, Irq, E>(q: Queue<St, Reg, Ch, Inf, Irq, E>, reqs: seq<Request<St, Reg, Ch>>, n: nat, buff: seq<u8>)
    requires n <= |reqs|
  {
    n <= |q| && forall i :: 0 <= i < n ==> q[i].request == reqs[i] && WellFormed(q[i]) && Fits(q[i], buff)
  }

  /** Calls made in the recorded order are all answered, one reply each,
      and consume exactly the recorded prefix of the queue. */
  lemma {:induction false} ReplayAlongQueue<St, Reg, Ch, Inf, Irq, E>(q: Queue<St, Reg, Ch, Inf, Irq, E>, reqs: seq<Request<St, Reg, Ch>>, buff: seq<u8>)
    requires forall i :: 0 <= i < |reqs| ==> Handled(reqs[i])
    requires Recorded(q, reqs, |reqs|, buff)
    ensures Replay(q, reqs, buff).Returned?
    ensures Replay(q, reqs, buff).rest == q[|reqs|..]
    ensures |Replay(q, reqs, buff).value| == |reqs|
    decreases |reqs|
  {
    if |reqs| > 0 {
      var first := Perform(q, reqs[0], buff);
      assert first.Returned? && first.rest == q[1..];
      assert Recorded(q[1..], reqs[1..], |reqs| - 1, buff) by {
        forall i | 0 <= i < |reqs| - 1
          ensures q[1..][i].request == reqs[1..][i] && WellFormed(q[1..][i]) && Fits(q[1..][i], buff)
        {
          assert q[1..][i] == q[i + 1];
        }
      }
      ReplayAlongQueue(q[1..], reqs[1..], buff);
      assert q[1..][|reqs| - 1..] == q[|reqs|..];
    }
  }

  /** Calls made in the recorded order get back, one for one and in order,
      the replies the recorded responses stand for. */
  lemma {:induction false} ReplayRepliesInOrder<St, Reg, Ch, Inf, Irq, E>(q: Queue<St, Reg, Ch, Inf, Irq, E>, reqs: seq<Request<St, Reg, Ch>>, buff: seq<u8>)
    requires forall i :: 0 <= i < |reqs| ==> Handled(reqs[i])
    requires Recorded(q, reqs, |reqs|, buff)
    ensures Replay(q, reqs, buff).Returned? && |Replay(q, reqs, buff).value| == |reqs|
    ensures forall i :: 0 <= i < |reqs| ==> Replay(q, reqs, buff).value[i] == ReplyTo(q[i], buff)
    decreases |reqs|
  {
    ReplayAlongQueue(q, reqs, buff);
    if |reqs| > 0 {
      PerformReplies(q, buff);
      assert Recorded(q[1..], reqs[1..], |reqs| - 1, buff) by {
        forall i | 0 <= i < |reqs| - 1
          ensures q[1..][i].request == reqs[1..][i] && WellFormed(q[1..][i]) && Fits(q[1..][i], buff)
        {
          assert q[1..][i] == q[i + 1];
        }
      }
      ReplayRepliesInOrder(q[1..], reqs[1..], buff);
      var v := Replay(q, reqs, buff).value;
      assert v == [ReplyTo(q[0], buff)] + Replay(q[1..], reqs[1..], buff).value;
      forall i | 1 <= i < |reqs| ensures v[i] == ReplyTo(q[i], buff) {
        assert q[1..][i - 1] == q[i];
      }
    }
  }

  /** Hence, when the recorded responses stand for `answers`, a run in the
      recorded order gets back exactly `answers`. */
  lemma ReplayGivesAnswers<St, Reg, Ch, Inf, Irq, E>(q: Queue<St, Reg, Ch, Inf, Irq, E>, reqs: seq<Request<St, Reg, Ch>>, buff: seq<u8>, answers: seq<Reply<St, Inf, Irq, E>>)
    requires forall i :: 0 <= i < |reqs| ==> Handled(reqs[i])
    requires Recorded(q, reqs, |reqs|, buff) && |answers| == |reqs|
    requires forall i :: 0 <= i < |reqs| ==> ReplyTo(q[i], buff) == answers[i]
    ensures Replay(q, reqs, buff) == Returned(answers, q[|reqs|..])
  {
    ReplayAlongQueue(q, reqs, buff);
    ReplayRepliesInOrder(q, reqs, buff);
    var r := Replay(q, reqs, buff);
    assert r.value == answers;
    assert r == Returned(r.value, r.rest);
  }

  /** The run fails at the first call that departs from the queue, not
      later: with no expectation left, or with the recorded and the actual
      request. */
  lemma {:induction false} ReplayStopsAtFirstMismatch<St, Reg, Ch, Inf, Irq, E>(q: Queue<St, Reg, Ch, Inf, Irq, E>, reqs: seq<Request<St, Reg, Ch>>, k: nat, buff: seq<u8>)
    requires forall i :: 0 <= i < |reqs| ==> Handled(reqs[i])
    requires k < |reqs| && Recorded(q, reqs, k, buff)
    ensures k == |q| ==> Replay(q, reqs, buff) == Panicked(NoExpectation(ExpectationName(reqs[k])))
    ensures k < |q| && q[k].request != reqs[k] ==> Replay(q, reqs, buff) == Panicked(Mismatch(q[k].request, reqs[k]))
    decreases k
  {
    if k > 0 {
      var first := Perform(q, reqs[0], buff);
      assert first.Returned? && first.rest == q[1..];
      assert Recorded(q[1..], reqs[1..], k - 1, buff) by {
        forall i | 0 <= i < k - 1
          ensures q[1..][i].request == reqs[1..][i] && WellFormed(q[1..][i]) && Fits(q[1..][i], buff)
        {
          assert q[1..][i] == q[i + 1];
        }
      }
      ReplayStopsAtFirstMismatch(q[1..], reqs[1..], k - 1, buff);
    }
  }

  /** A run that does not fail was made in exactly the recorded order. */
  lemma {:induction false} ReplayOnlyAlongQueue<St, Reg, Ch, Inf, Irq, E>(q: Queue<St, Reg, Ch, Inf, Irq, E>, reqs: seq<Request<St, Reg, Ch>>, buff: seq<u8>)
    requires forall i :: 0 <= i < |reqs| ==> Handled(reqs[i])
    requires Replay(q, reqs, buff).Returned?
    ensures |reqs| <= |q|
    ensures forall i :: 0 <= i < |reqs| ==> q[i].request == reqs[i]
    ensures Replay(q, reqs, buff).rest == q[|reqs|..]
    decreases |reqs|
  {
    if |reqs| > 0 {
      var first := Perform(q, reqs[0], buff);
      ReplayOnlyAlongQueue(first.rest, reqs[1..], buff);
      forall i | 1 <= i < |reqs|
        ensures q[i].request == reqs[i]
      {
        assert q[1..][i - 1] == q[i];
      }
      assert q[1..][|reqs| - 1..] == q[|reqs|..];
    }
  }

  /** The requests a queue records, in order. */
  function Requests<St, Reg, Ch, Inf, Irq, E>(q: Queue<St, Reg, Ch, Inf, Irq, E>): (reqs: seq<Request<St, Reg, Ch>>)
    ensures |reqs| == |q| && forall i :: 0 <= i < |q| ==> reqs[i] == q[i].request
  {
    seq(|q|, i requires 0 <= i < |q| => q[i].request)
  }

  /** A test that ends with `done()` passes exactly when it made every
      recorded call, in the recorded order, and nothing else. */
  lemma ReplayThenDone<St, Reg, Ch, Inf, Irq, E>(q: Queue<St, Reg, Ch, Inf, Irq, E>, reqs: seq<Request<St, Reg, Ch>>, buff: seq<u8>)
    requires forall i :: 0 <= i < |reqs| ==> Handled(reqs[i])
    requires forall i :: 0 <= i < |q| ==> WellFormed(q[i]) && Fits(q[i], buff)
    ensures (Replay(q, reqs, buff).Returned? && Done(Replay(q, reqs, buff).rest).Returned?) <==> reqs == Requests(q)
  {
    var r := Replay(q, reqs, buff);
    if r.Returned? && Done(r.rest).Returned? {
      ReplayOnlyAlongQueue(q, reqs, buff);
    }
    if reqs == Requests(q) {
      ReplayAlongQueue(q, reqs, buff);
    }
  }

  // ---------------------------------------------------------------------------
  // Failure messages

  /** As written, an exhausted queue makes `get_interrupts` report the same
      missing call as `check_transmit`. */
  lemma GetInterruptsAsWrittenMisnames<St, Reg, Ch, Inf, Irq, E>(q: Queue<St, Reg, Ch, Inf, Irq, E>, clear: bool)
    requires |q| == 0
    ensures GetInterruptsAsWritten(q, clear).reason == CheckTransmitCall(q).reason
    ensures GetInterruptsAsWritten(q, clear).reason != NoExpectation(ExpectationName<St, Reg, Ch>(GetIrq(clear)))
  {
  }

  /** With the name corrected, every handled call names itself, and no two
      different capability methods share a name. */
  lemma ExpectationNamesDistinct<St, Reg, Ch, Inf, Irq, E>(q: Queue<St, Reg, Ch, Inf, Irq, E>, a: Request<St, Reg, Ch>, b: Request<St, Reg, Ch>, clear: bool)
    requires |q| == 0 && Handled(a) && Handled(b)
    ensures GetInterruptsCall(q, clear).reason == NoExpectation(ExpectationName<St, Reg, Ch>(GetIrq(clear)))
    ensures GetInterruptsCall(q, clear).reason != CheckTransmitCall(q).reason
    ensures ExpectationName(a) == ExpectationName(b) <==> SameMethod(a, b)
  {
  }

  /** Whether two requests are for the same capability method, whatever
      their arguments. */
  predicate SameMethod<St, Reg, Ch>(a: Request<St, Reg, Ch>, b: Request<St, Reg, Ch>) {
    && a.SetState? == b.SetState? && a.GetState? == b.GetState? && a.IsBusy? == b.IsBusy?
    && a.SetRegister? == b.SetRegister? && a.GetRegister? == b.GetRegister?
    && a.GetIrq? == b.GetIrq? && a.PollRssi? == b.PollRssi?
    && a.SetChannel? == b.SetChannel? && a.SetPower? == b.SetPower?
    && a.StartTransmit? == b.StartTransmit? && a.CheckTransmit? == b.CheckTransmit?
    && a.StartReceive? == b.StartReceive? && a.CheckReceive? == b.CheckReceive?
    && a.GetReceived? == b.GetReceived? && a.DelayNs? == b.DelayNs?
  }

  // ---------------------------------------------------------------------------
  // The unit tests of the mock, on the concrete `MockRadio`

  lemma StateTests()
    ensures var q: MockRadio := [Transaction.ForSetState(Idle, None)];
      && SetStateCall(q, Idle) == Returned(Result.Ok(()), [])
      && Done(SetStateCall(q, Idle).rest).Returned?
    ensures var q: MockRadio := [Transaction.ForSetState(Idle, None)];
      SetStateCall(q, Sleep) == Panicked(Mismatch(SetState(Idle), SetState(Sleep)))
    ensures var q: MockRadio := [Transaction.ForGetState(Result.Ok(Idle))];
      GetStateCall(q) == Returned(Result.Ok(Idle), [])
  {
  }

  lemma ConfigurationTests()
    ensures var q: MockRadio := [Transaction.ForSetChannel(10, None)];
      SetChannelCall(q, 10) == Returned(Result.Ok(()), [])
    ensures var q: MockRadio := [Transaction.ForSetPower(10, None)];
      SetPowerCall(q, 10) == Returned(Result.Ok(()), [])
  {
  }

  lemma TransmitTests()
    ensures var q: MockRadio := [Transaction.ForStartTransmit([0xaa, 0xbb, 0xcc], None)];
      StartTransmitCall(q, [0xaa, 0xbb, 0xcc]) == Returned(Result.Ok(()), [])
    ensures var q: MockRadio := [Transaction.ForCheckTransmit(Result.Ok(false)), Transaction.ForCheckTransmit(Result.Ok(true))];
      && CheckTransmitCall(q).Returned? && CheckTransmitCall(q).value == Result.Ok(false)
      && CheckTransmitCall(CheckTransmitCall(q).rest) == Returned(Result.Ok(true), [])
  {
    var q: MockRadio := [Transaction.ForCheckTransmit(Result.Ok(false)), Transaction.ForCheckTransmit(Result.Ok(true))];
    assert q[1..] == [Transaction.ForCheckTransmit(Result.Ok(true))];
  }

  lemma ReceiveTests()
    ensures var q: MockRadio := [Transaction.ForStartReceive(None)];
      StartReceiveCall(q) == Returned(Result.Ok(()), [])
    ensures var q: MockRadio := [Transaction.ForCheckReceive(true, Result.Ok(false)), Transaction.ForCheckReceive(true, Result.Ok(true))];
      && CheckReceiveCall(q, true).Returned? && CheckReceiveCall(q, true).value == Result.Ok(false)
      && CheckReceiveCall(CheckReceiveCall(q, true).rest, true) == Returned(Result.Ok(true), [])
    ensures var q: MockRadio := [Transaction.ForGetReceived(Result.Ok(([0xaa, 0xbb], Radio.NewBasicInfo(10, 12))))];
      var r := GetReceivedCall(q, [0, 0, 0]);
      && r.Returned? && r.rest == []
      && r.value.0 == Result.Ok(Radio.Received(2, Radio.NewBasicInfo(10, 12)))
      && r.value.1[..2] == [0xaa, 0xbb]
  {
    var q: MockRadio := [Transaction.ForCheckReceive(true, Result.Ok(false)), Transaction.ForCheckReceive(true, Result.Ok(true))];
    assert q[1..] == [Transaction.ForCheckReceive(true, Result.Ok(true))];
  }
}

/** The cooperative poll engine of src/nonblocking.rs: `async_transmit` and
    `async_receive` make the set-up calls at once and hand back a future;
    each `poll` of that future makes one check and either resolves or asks
    to be woken again.

    An executor here is the simplest one there is: it polls the future
    again after every wake-up, as `block_on` does. The device is a finite
    script, as in the blocking engine. */
module Nonblocking {
  import opened Base
  import opened Radio
  import Blocking
  import Mock

  /** A wake function supplied by the caller, known by its name. */
  datatype WakeFn = WakeFn(name: string)

  /** `AsyncOptions`. The deprecated `timeout` is carried but never read. */
  datatype AsyncOptions = AsyncOptions(
    power: Option<i8>,
    timeout: Option<Duration>,
    pollPeriod: Duration,
    wakeFn: Option<WakeFn>)

  /** `AsyncOptions::default`: no power setting, no timeout, the executor's
      own waker, and a poll period of ten milliseconds. */
  function DefaultOptions(): (o: AsyncOptions)
    ensures o.power.None? && o.timeout.None? && o.wakeFn.None?
    ensures o.pollPeriod.nanos / 1_000_000 == 10 && o.pollPeriod.nanos % 1_000_000 == 0
  {
    AsyncOptions(None, None, FromMillis(10), None)
  }

  /** `AsyncError`: a device error, or a timeout. */
  datatype AsyncError<E> = Inner(error: E) | Timeout

  /** `From<E> for AsyncError<E>`, the conversion `?` applies. */
  function FromError<E>(e: E): AsyncError<E> {
    Inner(e)
  }

  /** `core::task::Poll`. */
  datatype Poll<T> = Ready(value: T) | Pending

  /** How a pending future asks to be polled again: through the wake
      function of the options, given the poll period, or by waking the
      context's own waker at once. */
  datatype Wakeup = CalledWakeFn(wakeFn: WakeFn, period: Duration) | WokeWaker

  /** The wake-up a pending `poll` requests under `o`. */
  function WakeupFor(o: AsyncOptions): (w: Wakeup)
    ensures w.WokeWaker? <==> o.wakeFn.None?
    ensures w.CalledWakeFn? ==> w == CalledWakeFn(o.wakeFn.value, o.pollPeriod)
  {
    match o.wakeFn
    case Some(f) => CalledWakeFn(f, o.pollPeriod)
    case None => WokeWaker
  }

  /** What the engine does, in order: a capability call, or a wake-up. */
  datatype Event = Device(call: Call) | Woke(wakeup: Wakeup)

  /** `TransmitFuture`: the radio is the device script, passed to `poll`. */
  datatype TransmitFuture = TransmitFuture(options: AsyncOptions)

  /** `ReceiveFuture`: the info slot the caller lent it, and the options. */
  datatype ReceiveFuture<Inf> = ReceiveFuture(info: Inf, options: AsyncOptions)

  // ---------------------------------------------------------------------------
  // Set-up and a single poll

  /** `async_transmit`: set the power when asked to, start the transmission,
      and hand back a future; an error from either call is returned at once. */
  function AsyncTransmit<E>(dev: Blocking.TransmitDevice<E>, data: seq<u8>, options: AsyncOptions): (r: (Result<TransmitFuture, E>, seq<Event>))
    ensures r.0.Ok? <==> Blocking.TransmitSetupOk(dev, options.power)
    ensures r.0.Ok? ==> r.0.value.options == options
    ensures options.power.Some? && dev.setPower.Err? ==> r == (Err(dev.setPower.error), [Device(SetPower(options.power.value))])
    ensures (options.power.None? || dev.setPower.Ok?) ==>
      r.1 == (if options.power.Some? then [Device(SetPower(options.power.value))] else []) + [Device(StartTransmit(data))]
    ensures (options.power.None? || dev.setPower.Ok?) && dev.startTransmit.Err? ==> r.0 == Err(dev.startTransmit.error)
  {
    var setPower := if options.power.Some? then [Device(SetPower(options.power.value))] else [];
    if options.power.Some? && dev.setPower.Err? then (Err(dev.setPower.error), setPower)
    else if dev.startTransmit.Err? then (Err(dev.startTransmit.error), setPower + [Device(StartTransmit(data))])
    else (Ok(TransmitFuture(options)), setPower + [Device(StartTransmit(data))])
  }

  /** `TransmitFuture::poll`: one `check_transmit`. `true` resolves to
      `Ok(())`, an error resolves to that error wrapped, and `false` leaves
      the future pending after requesting a wake-up. */
  function PollTransmit<E>(fut: TransmitFuture, check: Result<bool, E>): (r: (Poll<Result<(), AsyncError<E>>>, seq<Event>))
    ensures r.0.Pending? <==> check == Ok(false)
    ensures r.0 == Ready(Ok(())) <==> check == Ok(true)
    ensures check.Err? ==> r.0 == Ready(Err(Inner(check.error)))
    ensures r.0.Pending? ==> r.1 == [Device(CheckTransmit), Woke(WakeupFor(fut.options))]
    ensures r.0.Ready? ==> r.1 == [Device(CheckTransmit)]
  {
    match check
    case Err(e) => (Ready(Err(FromError(e))), [Device(CheckTransmit)])
    case Ok(true) => (Ready(Ok(())), [Device(CheckTransmit)])
    case Ok(false) => (Pending, [Device(CheckTransmit), Woke(WakeupFor(fut.options))])
  }

  /** `async_receive`: start receiving and hand back a future holding the
      caller's info slot; an error is returned at once. */
  function AsyncReceive<Inf, E>(startReceive: Result<(), E>, info: Inf, options: AsyncOptions): (r: (Result<ReceiveFuture<Inf>, E>, seq<Event>))
    ensures r.1 == [Device(StartReceive)]
    ensures r.0.Ok? <==> startReceive.Ok?
    ensures r.0.Ok? ==> r.0.value == ReceiveFuture(info, options)
    ensures r.0.Err? ==> r.0.error == startReceive.error
  {
    match startReceive
    case Err(e) => (Err(e), [Device(StartReceive)])
    case Ok(_) => (Ok(ReceiveFuture(info, options)), [Device(StartReceive)])
  }

  /** `ReceiveFuture::poll`: one `check_receive(true)`. On `true` it fetches
      the packet and resolves to its length, keeping the packet's info; an
      error from either call resolves to that error wrapped; `false` leaves
      the future pending after requesting a wake-up. */
  function PollReceive<Inf, E>(fut: ReceiveFuture<Inf>, check: Result<bool, E>, received: Result<Received<Inf>, E>)
    : (r: (Poll<Result<nat, AsyncError<E>>>, ReceiveFuture<Inf>, seq<Event>))
    ensures r.1.options == fut.options
    ensures r.0.Pending? <==> check == Ok(false)
    ensures Device(GetReceived) in r.2 <==> check == Ok(true)
    ensures r.0.Pending? ==> r.2 == [Device(CheckReceive(true)), Woke(WakeupFor(fut.options))]
    ensures check == Ok(true) ==> r.2 == [Device(CheckReceive(true)), Device(GetReceived)]
    ensures check.Err? ==> r.0 == Ready(Err(Inner(check.error))) && r.2 == [Device(CheckReceive(true))]
    ensures check == Ok(true) && received.Ok? ==> r.0 == Ready(Ok(received.value.len)) && r.1.info == received.value.info
    ensures check == Ok(true) && received.Err? ==> r.0 == Ready(Err(Inner(received.error)))
    ensures !(check == Ok(true) && received.Ok?) ==> r.1 == fut
  {
    match check
    case Err(e) => (Ready(Err(FromError(e))), fut, [Device(CheckReceive(true))])
    case Ok(false) => (Pending, fut, [Device(CheckReceive(true)), Woke(WakeupFor(fut.options))])
    case Ok(true) =>
      var trace := [Device(CheckReceive(true)), Device(GetReceived)];
      match received
      case Err(e) => (Ready(Err(FromError(e))), fut, trace)
      case Ok(p) => (Ready(Ok(p.len)), fut.(info := p.info), trace)
  }

  // ---------------------------------------------------------------------------
  // Awaiting a future

  /** A future driven by the executor: resolved after the events in
      `trace`, or still pending when the device script ran out. */
  datatype Awaited<T, E> = Resolved(result: Result<T, AsyncError<E>>, trace: seq<Event>) | Stalled(trace: seq<Event>)

  /** Poll a transmit future, once per check answer, until it resolves. */
  function AwaitTransmit<E>(fut: TransmitFuture, checks: seq<Result<bool, E>>): Awaited<(), E>
    decreases |checks|
  {
    if |checks| == 0 then Stalled([])
    else
      var (p, t) := PollTransmit(fut, checks[0]);
      match p
      case Ready(v) => Resolved(v, t)
      case Pending =>
        match AwaitTransmit(fut, checks[1..])
        case Resolved(v, rest) => Resolved(v, t + rest)
        case Stalled(rest) => Stalled(t + rest)
  }

  /** Poll a receive future, once per check answer, until it resolves; the
      future's info slot afterwards comes with the outcome. */
  function AwaitReceive<Inf, E>(fut: ReceiveFuture<Inf>, checks: seq<Result<bool, E>>, received: Result<Received<Inf>, E>)
    : (Awaited<nat, E>, Inf)
    decreases |checks|
  {
    if |checks| == 0 then (Stalled([]), fut.info)
    else
      var (p, fut', t) := PollReceive(fut, checks[0], received);
      match p
      case Ready(v) => (Resolved(v, t), fut'.info)
      case Pending =>
        var (a, info) := AwaitReceive(fut', checks[1..], received);
        match a
        case Resolved(v, rest) => (Resolved(v, t + rest), info)
        case Stalled(rest) => (Stalled(t + rest), info)
  }

  /** `radio.async_transmit(data, options)?.await`: the form the crate's
      documentation uses, with a set-up error converted by `?`. */
  function TransmitAndAwait<E>(dev: Blocking.TransmitDevice<E>, data: seq<u8>, options: AsyncOptions): Awaited<(), E> {
    var (f, setup) := AsyncTransmit(dev, data, options);
    match f
    case Err(e) => Resolved(Err(FromError(e)), setup)
    case Ok(fut) =>
      match AwaitTransmit(fut, dev.checks)
      case Resolved(v, t) => Resolved(v, setup + t)
      case Stalled(t) => Stalled(setup + t)
  }

  /** `radio.async_receive(info, buff, options)?.await`, with the caller's
      info slot afterwards. */
  function ReceiveAndAwait<Inf, E>(dev: Blocking.ReceiveDevice<Inf, E>, info: Inf, options: AsyncOptions): (Awaited<nat, E>, Inf) {
    var (f, setup) := AsyncReceive(dev.startReceive, info, options);
    match f
    case Err(e) => (Resolved(Err(FromError(e)), setup), info)
    case Ok(fut) =>
      var (a, info') := AwaitReceive(fut, dev.checks, dev.getReceived);
      match a
      case Resolved(v, t) => (Resolved(v, setup + t), info')
      case Stalled(t) => (Stalled(setup + t), info')
  }

  // ---------------------------------------------------------------------------
  // Agreement with the blocking engine

  /** A blocking trace with every sleep replaced by the wake-up `w`. */
  function AsAsync(t: seq<Blocking.Event>, w: Wakeup): (u: seq<Event>)
    ensures |u| == |t|
    ensures forall i :: 0 <= i < |t| ==> u[i] == if t[i].Device? then Device(t[i].call) else Woke(w)
  {
    seq(|t|, i requires 0 <= i < |t| => if t[i].Device? then Device(t[i].call) else Woke(w))
  }

  lemma AsAsyncAppend(a: seq<Blocking.Event>, b: seq<Blocking.Event>, w: Wakeup)
    ensures AsAsync(a + b, w) == AsAsync(a, w) + AsAsync(b, w)
  {
    assert forall i :: 0 <= i < |a + b| ==> AsAsync(a + b, w)[i] == (AsAsync(a, w) + AsAsync(b, w))[i];
  }

  /** Awaiting a transmit future makes the calls of the blocking check loop
      on the same answers, with a wake-up wherever the loop sleeps, and ends
      the same way, device errors wrapped in `Inner`. */
  lemma {:induction false} AwaitTransmitFollowsLoop<E>(fut: TransmitFuture, checks: seq<Result<bool, E>>)
    ensures var loop := Blocking.PollLoop(CheckTransmit, checks, fut.options.pollPeriod);
      var t := AsAsync(loop.trace, WakeupFor(fut.options));
      AwaitTransmit(fut, checks) ==
        match loop.end
        case Completed => Resolved(Ok(()), t)
        case CheckFailed(e) => Resolved(Err(Inner(e)), t)
        case StillPolling => Stalled(t)
    decreases |checks|
  {
    var w := WakeupFor(fut.options);
    var period := fut.options.pollPeriod;
    if |checks| > 0 && checks[0] == Ok(false) {
      AwaitTransmitFollowsLoop(fut, checks[1..]);
      var rest := Blocking.PollLoop(CheckTransmit, checks[1..], period);
      AsAsyncAppend([Blocking.Device(CheckTransmit), Blocking.Sleep(period)], rest.trace, w);
    }
  }

  /** The same for a receive future: the calls of the blocking loop with
      wake-ups for sleeps, then `get_received` once a check says `true`;
      the packet length is the result and the packet info ends up in the
      caller's slot, which is otherwise left alone. */
  lemma {:induction false} AwaitReceiveFollowsLoop<Inf, E>(fut: ReceiveFuture<Inf>, checks: seq<Result<bool, E>>, received: Result<Received<Inf>, E>)
    ensures var loop := Blocking.PollLoop(CheckReceive(true), checks, fut.options.pollPeriod);
      var t := AsAsync(loop.trace, WakeupFor(fut.options));
      AwaitReceive(fut, checks, received) ==
        match loop.end
        case Completed =>
          if received.Ok? then (Resolved(Ok(received.value.len), t + [Device(GetReceived)]), received.value.info)
          else (Resolved(Err(Inner(received.error)), t + [Device(GetReceived)]), fut.info)
        case CheckFailed(e) => (Resolved(Err(Inner(e)), t), fut.info)
        case StillPolling => (Stalled(t), fut.info)
    decreases |checks|
  {
    var w := WakeupFor(fut.options);
    var period := fut.options.pollPeriod;
    if |checks| > 0 && checks[0] == Ok(false) {
      AwaitReceiveFollowsLoop(fut, checks[1..], received);
      var rest := Blocking.PollLoop(CheckReceive(true), checks[1..], period);
      AsAsyncAppend([Blocking.Device(CheckReceive(true)), Blocking.Sleep(period)], rest.trace, w);
      AsAsyncAppend([Blocking.Device(CheckReceive(true)), Blocking.Sleep(period)] + rest.trace, [Blocking.Device(GetReceived)], w);
      AsAsyncAppend(rest.trace, [Blocking.Device(GetReceived)], w);
      var head := [Device(CheckReceive(true)), Woke(w)];
      assert AsAsync([Blocking.Device(CheckReceive(true)), Blocking.Sleep(period)], w) == head;
      var (a, info) := AwaitReceive(fut, checks[1..], received);
      assert AwaitReceive(fut, checks, received) ==
        match a
        case Resolved(v, r) => (Resolved(v, head + r), info)
        case Stalled(r) => (Stalled(head + r), info);
      assert head + (AsAsync(rest.trace, w) + [Device(GetReceived)]) == head + AsAsync(rest.trace, w) + [Device(GetReceived)];
    } else if |checks| > 0 {
      var t := AsAsync([Blocking.Device(CheckReceive(true))], w);
      assert t == [Device(CheckReceive(true))];
      var loop := Blocking.PollLoop(CheckReceive(true), checks, period);
      assert loop.trace == [Blocking.Device(CheckReceive(true))];
      var (p, fut', u) := PollReceive(fut, checks[0], received);
      if checks[0].Err? {
        assert loop.end == Blocking.CheckFailed(checks[0].error);
        assert AwaitReceive(fut, checks, received) == (Resolved(Err(Inner(checks[0].error)), t), fut.info);
      } else {
        assert loop.end == Blocking.Completed;
        assert u == t + [Device(GetReceived)];
        assert AwaitReceive(fut, checks, received) == (Resolved(p.value, u), fut'.info);
      }
    }
  }

  /** `async_transmit(..)?.await` and `do_transmit` with the same power and
      poll period make the same device calls in the same order, the async
      engine waking where the blocking one sleeps, and they end the same
      way: success together, and the same device error, wrapped. */
  lemma {:induction false} TransmitAgreesWithBlocking<E>(dev: Blocking.TransmitDevice<E>, data: seq<u8>, options: AsyncOptions)
    ensures var b := Blocking.Transmit(dev, data, options.power, options.pollPeriod);
      var a := TransmitAndAwait(dev, data, options);
      && a.trace == AsAsync(b.trace, WakeupFor(options))
      && (a.Resolved? <==> b.Finished?)
      && (a.Resolved? ==> (a.result.Ok? <==> b.result.Ok?))
      && (a.Resolved? && b.result.Err? ==> a.result == Err(Inner(b.result.error)))
  {
    var w := WakeupFor(options);
    var setup := Blocking.TransmitSetup(data, options.power);
    if Blocking.TransmitSetupOk(dev, options.power) {
      var loop := Blocking.PollLoop(CheckTransmit, dev.checks, options.pollPeriod);
      AwaitTransmitFollowsLoop(TransmitFuture(options), dev.checks);
      AsAsyncAppend(setup, loop.trace, w);
      assert AsAsync(setup, w) == AsyncTransmit(dev, data, options).1;
    } else if options.power.None? || dev.setPower.Ok? {
      assert AsAsync(setup, w) == AsyncTransmit(dev, data, options).1;
    } else {
      assert AsAsync([Blocking.Device(SetPower(options.power.value))], w) == [Device(SetPower(options.power.value))];
    }
  }

  /** `async_receive(..)?.await` and `do_receive` with the same poll period
      make the same device calls in the same order, waking where the other
      sleeps, and end the same way: the packet length and info of a
      successful `get_received`, or the same device error, wrapped, with the
      caller's info slot untouched. */
  lemma {:induction false} ReceiveAgreesWithBlocking<Inf, E>(dev: Blocking.ReceiveDevice<Inf, E>, info: Inf, options: AsyncOptions)
    ensures var b := Blocking.Receive(dev, options.pollPeriod);
      var (a, info') := ReceiveAndAwait(dev, info, options);
      && a.trace == AsAsync(b.trace, WakeupFor(options))
      && (a.Resolved? <==> b.Finished?)
      && (a.Resolved? && b.result.Ok? ==> a.result == Ok(b.result.value.len) && info' == b.result.value.info)
      && (a.Resolved? && b.result.Err? ==> a.result == Err(Inner(b.result.error)) && info' == info)
      && (a.Stalled? ==> info' == info)
  {
    var w := WakeupFor(options);
    if dev.startReceive.Ok? {
      var loop := Blocking.PollLoop(CheckReceive(true), dev.checks, options.pollPeriod);
      AwaitReceiveFollowsLoop(ReceiveFuture(info, options), dev.checks, dev.getReceived);
      AsAsyncAppend([Blocking.Device(StartReceive)], loop.trace, w);
      AsAsyncAppend([Blocking.Device(StartReceive)] + loop.trace, [Blocking.Device(GetReceived)], w);
      AsAsyncAppend(loop.trace, [Blocking.Device(GetReceived)], w);
    }
  }

  /** Neither engine ever produces `AsyncError::Timeout`, and the deprecated
      `timeout` option changes nothing: timeouts are left to the caller. */
  lemma NoTimeouts<Inf, E>(tx: Blocking.TransmitDevice<E>, rx: Blocking.ReceiveDevice<Inf, E>, data: seq<u8>, info: Inf, options: AsyncOptions, timeout: Option<Duration>)
    ensures var a := TransmitAndAwait(tx, data, options);
      a.Resolved? ==> a.result != Err(Timeout)
    ensures var a := ReceiveAndAwait(rx, info, options).0;
      a.Resolved? ==> a.result != Err(Timeout)
    ensures TransmitAndAwait(tx, data, options.(timeout := timeout)) == TransmitAndAwait(tx, data, options)
    ensures ReceiveAndAwait(rx, info, options.(timeout := timeout)) == ReceiveAndAwait(rx, info, options)
  {
    var o := options.(timeout := timeout);
    assert WakeupFor(o) == WakeupFor(options);
    TransmitAgreesWithBlocking(tx, data, options);
    TransmitAgreesWithBlocking(tx, data, o);
    ReceiveAgreesWithBlocking(rx, info, options);
    ReceiveAgreesWithBlocking(rx, info, o);
    var b := TransmitAndAwait(tx, data, options);
    var b' := TransmitAndAwait(tx, data, o);
    if b.Resolved? && b.result.Ok? {
      var u: () := b.result.value;
      var u': () := b'.result.value;
      assert u == u';
    }
    var (a, i) := ReceiveAndAwait(rx, info, options);
    var (a', i') := ReceiveAndAwait(rx, info, o);
    if a.Resolved? {
      assert a.result == a'.result && i == i';
    }
  }

  // ---------------------------------------------------------------------------
  // The crate's documentation examples, against the mock radio

  /** The device calls among the events, as requests to the mock radio. */
  function Requests(t: seq<Event>): (reqs: seq<Mock.Request<Mock.MockState, u8, u8>>)
    ensures forall i :: 0 <= i < |reqs| ==> Mock.Handled(reqs[i])
    ensures |reqs| <= |t|
  {
    if |t| == 0 then []
    else (if t[0].Device? then [AsRequest(t[0].call)] else []) + Requests(t[1..])
  }

  function AsRequest(c: Call): (req: Mock.Request<Mock.MockState, u8, u8>)
    ensures Mock.Handled(req)
  {
    match c
    case SetPower(p) => Mock.SetPower(p)
    case StartTransmit(data) => Mock.StartTransmit(data)
    case CheckTransmit => Mock.CheckTransmit
    case StartReceive => Mock.StartReceive
    case CheckReceive(restart) => Mock.CheckReceive(restart)
    case GetReceived => Mock.GetReceived
  }

  /** `Requests` keeps the device calls of a trace, each as its mock
      request, in order, and drops the wake-ups: it distributes over
      concatenation, and a single event gives its call or nothing. */
  lemma {:induction false} RequestsKeepsCalls(a: seq<Event>, b: seq<Event>, c: Call, w: Wakeup)
    ensures Requests(a + b) == Requests(a) + Requests(b)
    ensures Requests([Device(c)]) == [AsRequest(c)]
    ensures Requests([Woke(w)]) == []
    decreases |a|
  {
    if |a| > 0 {
      assert (a + b)[1..] == a[1..] + b;
      RequestsKeepsCalls(a[1..], b, c, w);
    } else {
      assert a + b == b;
    }
  }

  /** The transmit example: a mock expecting the start of a two-byte
      transmission and two checks answered `false` then `true`. With the
      default options the future resolves to `Ok(())`, waking the executor's
      waker once in between, and the mock sees exactly its expectations. */
  lemma TransmitExample()
    ensures var dev := Blocking.TransmitDevice(Ok(()), Ok(()), [Ok(false), Ok(true)]);
      var a := TransmitAndAwait<Mock.MockError>(dev, [0xaa, 0xbb], DefaultOptions());
      && a == Resolved(Ok(()), [Device(StartTransmit([0xaa, 0xbb])), Device(CheckTransmit), Woke(WokeWaker), Device(CheckTransmit)])
      && var q: Mock.MockRadio := [
           Mock.Transaction.ForStartTransmit([0xaa, 0xbb], None),
           Mock.Transaction.ForCheckTransmit(Result.Ok(false)),
           Mock.Transaction.ForCheckTransmit(Result.Ok(true))];
         var r := Mock.Replay(q, Requests(a.trace), []);
         && r.Returned? && Mock.Done(r.rest).Returned?
         && r.value == [Mock.Unit(dev.startTransmit), Mock.Flag(dev.checks[0]), Mock.Flag(dev.checks[1])]
  {
    var dev: Blocking.TransmitDevice<Mock.MockError> := Blocking.TransmitDevice(Ok(()), Ok(()), [Ok(false), Ok(true)]);
    var fut := TransmitFuture(DefaultOptions());
    assert dev.checks[1..] == [Ok(true)];
    assert AwaitTransmit(fut, dev.checks[1..]) == Resolved(Ok(()), [Device(CheckTransmit)]);
    var t := [Device(StartTransmit([0xaa, 0xbb])), Device(CheckTransmit), Woke(WokeWaker), Device(CheckTransmit)];
    assert TransmitAndAwait(dev, [0xaa, 0xbb], DefaultOptions()) == Resolved(Ok(()), t);
    var q: Mock.MockRadio := [
      Mock.Transaction.ForStartTransmit([0xaa, 0xbb], None),
      Mock.Transaction.ForCheckTransmit(Result.Ok(false)),
      Mock.Transaction.ForCheckTransmit(Result.Ok(true))];
    assert Requests(t) == Mock.Requests(q) by {
      assert t[1..] == [Device(CheckTransmit), Woke(WokeWaker), Device(CheckTransmit)];
      assert t[1..][1..] == [Woke(WokeWaker), Device(CheckTransmit)];
      assert t[1..][1..][1..] == [Device(CheckTransmit)];
      assert t[1..][1..][1..][1..] == [];
    }
    Mock.ReplayThenDone(q, Requests(t), []);
    assert Mock.Recorded(q, Requests(t), 3, []) by {
      assert Mock.WellFormed(q[0]) && Mock.WellFormed(q[1]) && Mock.WellFormed(q[2]);
    }
    Mock.ReplayRepliesInOrder(q, Requests(t), []);
    var v := Mock.Replay(q, Requests(t), []).value;
    assert v[0] == Mock.Unit(Result.Ok(())) && v[1] == Mock.Flag(Result.Ok(false)) && v[2] == Mock.Flag(Result.Ok(true));
  }

  /** The mock of the receive example. */
  function ReceiveExampleQueue(): Mock.MockRadio {
    [ Mock.Transaction.ForStartReceive(None),
      Mock.Transaction.ForCheckReceive(true, Result.Ok(false)),
      Mock.Transaction.ForCheckReceive(true, Result.Ok(true)),
      Mock.Transaction.ForGetReceived(Result.Ok(([0xaa, 0xbb], NewBasicInfo(-81, 0))))]
  }

  /** Its last expectation, given a 128-byte buffer: the mock copies the
      two bytes in and reports their count and the info. */
  lemma ReceiveExampleFetch()
    ensures var fetched := Mock.GetReceivedCall(ReceiveExampleQueue()[3..], seq(128, _ => 0));
      && fetched.Returned?
      && fetched.value.0 == Result.Ok(Received(2, NewBasicInfo(-81, 0)))
      && fetched.value.1[..2] == [0xaa, 0xbb]
  {
  }

  /** The calls the receive example makes with the default options: the
      future is pending once, waking the executor's own waker, and then
      resolves to the packet's length, its info in the caller's slot. */
  lemma ReceiveExampleRun()
    ensures var dev := Blocking.ReceiveDevice(Ok(()), [Ok(false), Ok(true)], Result.Ok(Received(2, NewBasicInfo(-81, 0))));
      ReceiveAndAwait<BasicInfo, Mock.MockError>(dev, NewBasicInfo(0, 0), DefaultOptions()) ==
        (Resolved(Ok(2), [Device(StartReceive), Device(CheckReceive(true)), Woke(WokeWaker), Device(CheckReceive(true)), Device(GetReceived)]),
         NewBasicInfo(-81, 0))
  {
    var info := NewBasicInfo(-81, 0);
    var dev: Blocking.ReceiveDevice<BasicInfo, Mock.MockError> := Blocking.ReceiveDevice(Ok(()), [Ok(false), Ok(true)], Result.Ok(Received(2, info)));
    var fut := ReceiveFuture(NewBasicInfo(0, 0), DefaultOptions());
    assert dev.checks[1..] == [Ok(true)];
    assert AwaitReceive(fut, dev.checks[1..], dev.getReceived) ==
      (Resolved(Ok(2), [Device(CheckReceive(true)), Device(GetReceived)]), info);
    assert PollReceive(fut, dev.checks[0], dev.getReceived) == (Pending, fut, [Device(CheckReceive(true)), Woke(WokeWaker)]);
    var t := [Device(StartReceive), Device(CheckReceive(true)), Woke(WokeWaker), Device(CheckReceive(true)), Device(GetReceived)];
    assert t[1..] == [Device(CheckReceive(true)), Woke(WokeWaker)] + [Device(CheckReceive(true)), Device(GetReceived)];
    assert AwaitReceive(fut, dev.checks, dev.getReceived) == (Resolved(Ok(2), t[1..]), info);
    assert t == [Device(StartReceive)] + t[1..];
  }

  /** The requests the receive example records, in order. */
  function ReceiveExampleRequests(): seq<Mock.Request<Mock.MockState, u8, u8>> {
    [Mock.StartReceive, Mock.CheckReceive(true), Mock.CheckReceive(true), Mock.GetReceived]
  }

  /** Its expectations are well formed, record those requests, and any
      buffer of two bytes or more has room for its packet. */
  lemma ReceiveExampleQueueFacts(buff: seq<u8>)
    requires |buff| >= 2
    ensures Mock.Requests(ReceiveExampleQueue()) == ReceiveExampleRequests()
    ensures forall i :: 0 <= i < |ReceiveExampleQueue()| ==> Mock.WellFormed(ReceiveExampleQueue()[i]) && Mock.Fits(ReceiveExampleQueue()[i], buff)
  {
    var q := ReceiveExampleQueue();
    assert Mock.WellFormed(q[0]) && Mock.WellFormed(q[1]) && Mock.WellFormed(q[2]) && Mock.WellFormed(q[3]);
  }

  /** The receive example's calls, as requests to the mock. */
  lemma ReceiveExampleTraceRequests()
    ensures Requests([Device(StartReceive), Device(CheckReceive(true)), Woke(WokeWaker), Device(CheckReceive(true)), Device(GetReceived)])
      == ReceiveExampleRequests()
  {
    var t := [Device(StartReceive), Device(CheckReceive(true)), Woke(WokeWaker), Device(CheckReceive(true)), Device(GetReceived)];
    var reqs := ReceiveExampleRequests();
    assert Requests(t[4..]) == reqs[3..];
    assert Requests(t[3..]) == reqs[2..];
    assert Requests(t[2..]) == reqs[2..];
    assert Requests(t[1..]) == reqs[1..];
  }

  /** The mock of the receive example replays, for the calls it records,
      the device answers of the example's script, the packet landing at the
      front of the buffer. */
  lemma ReceiveExampleReplies(buff: seq<u8>)
    requires |buff| >= 2
    ensures var r := Mock.Replay(ReceiveExampleQueue(), ReceiveExampleRequests(), buff);
      && r.Returned?
      && r.value == ReceiveExampleAnswers(buff)
  {
    ReceiveExampleRecordedReplies(buff);
    Mock.ReplayGivesAnswers(ReceiveExampleQueue(), ReceiveExampleRequests(), buff, ReceiveExampleAnswers(buff));
  }

  /** The device answers of the receive example's script, as mock replies:
      started, `false`, `true`, and the packet at the front of `buff`. */
  function ReceiveExampleAnswers(buff: seq<u8>): seq<Mock.Reply<Mock.MockState, BasicInfo, u8, Mock.MockError>>
    requires |buff| >= 2
  {
    [Mock.Unit(Result.Ok(())), Mock.Flag(Result.Ok(false)), Mock.Flag(Result.Ok(true)),
     Mock.Fetched(Result.Ok(Received(2, NewBasicInfo(-81, 0))), [0xaa, 0xbb] + buff[2..])]
  }

  /** Each expectation of the receive example stands for the matching
      answer of its script. */
  lemma ReceiveExampleRecordedReplies(buff: seq<u8>)
    requires |buff| >= 2
    ensures |ReceiveExampleRequests()| == 4 && forall i :: 0 <= i < 4 ==> Mock.Handled(ReceiveExampleRequests()[i])
    ensures Mock.Recorded(ReceiveExampleQueue(), ReceiveExampleRequests(), 4, buff)
    ensures |ReceiveExampleAnswers(buff)| == 4
    ensures forall i :: 0 <= i < 4 ==> Mock.ReplyTo(ReceiveExampleQueue()[i], buff) == ReceiveExampleAnswers(buff)[i]
  {
    var q := ReceiveExampleQueue();
    ReceiveExampleQueueFacts(buff);
    assert Mock.ReplyTo(q[3], buff) == ReceiveExampleAnswers(buff)[3];
  }

  /** The mock of the receive example accepts exactly those calls. */
  lemma ReceiveExampleReplay(buff: seq<u8>)
    requires |buff| >= 2
    ensures var t := [Device(StartReceive), Device(CheckReceive(true)), Woke(WokeWaker), Device(CheckReceive(true)), Device(GetReceived)];
      var r := Mock.Replay(ReceiveExampleQueue(), Requests(t), buff);
      r.Returned? && Mock.Done(r.rest).Returned?
  {
    ReceiveExampleQueueFacts(buff);
    ReceiveExampleTraceRequests();
    Mock.ReplayThenDone(ReceiveExampleQueue(), ReceiveExampleRequests(), buff);
  }

  /** The receive example: a mock expecting the start of reception, two
      checks with restart answered `false` then `true`, and a two-byte
      packet fetched into a 128-byte buffer. The mock copies the packet
      into the buffer, the future resolves to `Ok(2)` with the packet's
      info in the caller's slot, and the mock sees exactly its
      expectations. */
  lemma ReceiveExample()
    ensures var fetched := Mock.GetReceivedCall(ReceiveExampleQueue()[3..], seq(128, _ => 0));
      && fetched.Returned?
      && fetched.value.0 == Result.Ok(Received(2, NewBasicInfo(-81, 0)))
      && fetched.value.1[..2] == [0xaa, 0xbb]
    ensures var dev := Blocking.ReceiveDevice(Ok(()), [Ok(false), Ok(true)], Result.Ok(Received(2, NewBasicInfo(-81, 0))));
      var (a, info) := ReceiveAndAwait<BasicInfo, Mock.MockError>(dev, NewBasicInfo(0, 0), DefaultOptions());
      && a.Resolved? && a.result == Ok(2) && info == NewBasicInfo(-81, 0)
      && var r := Mock.Replay(ReceiveExampleQueue(), Requests(a.trace), seq(128, _ => 0));
         && r.Returned? && Mock.Done(r.rest).Returned?
         && r.value == [Mock.Unit(dev.startReceive), Mock.Flag(dev.checks[0]), Mock.Flag(dev.checks[1]),
                        Mock.Fetched(dev.getReceived, [0xaa, 0xbb] + seq(126, _ => 0))]
  {
    ReceiveExampleFetch();
    ReceiveExampleRun();
    ReceiveExampleReplay(seq(128, _ => 0));
    ReceiveExampleTraceRequests();
    ReceiveExampleReplies(seq(128, _ => 0));
    assert seq(128, _ => 0)[2..] == seq(126, _ => 0);
  }
}

/** The blocking poll engine of src/blocking.rs: optional power setting, a
    start call, then check after check with a sleep of the poll interval in
    between, until the device reports completion or an error.

    The device is a finite script: the answers it gives to the setup calls
    and to successive checks. The source loops for as long as the device
    keeps answering `false`; when the script runs out first the model stops
    with `Exhausted`, the calls made so far in hand. */
module Blocking {
  import opened Base
  import opened Radio

  /** What the engine does, in order: a capability call, or a thread sleep. */
  datatype Event = Device(call: Call) | Sleep(period: Duration)

  /** How the check loop ended. */
  datatype LoopEnd<E> = Completed | CheckFailed(error: E) | StillPolling

  datatype Loop<E> = Loop(end: LoopEnd<E>, trace: seq<Event>)

  /** The first `k` answers are all `false`. */
  ghost predicate FalseUntil<E>(answers: seq<Result<bool, E>>, k: nat)
    requires k <= |answers|
  {
    forall j :: 0 <= j < k ==> answers[j] == Ok(false)
  }

  /** The index of the first answer that is not `false`, or `|answers|` when
      there is none. */
  function FirstDecisive<E>(answers: seq<Result<bool, E>>): (k: nat)
    ensures k <= |answers| && FalseUntil(answers, k)
    ensures k < |answers| ==> answers[k] != Ok(false)
  {
    if |answers| == 0 || answers[0] != Ok(false) then 0
    else
      var k := 1 + FirstDecisive(answers[1..]);
      assert forall j :: 1 <= j < k ==> answers[j] == answers[1..][j - 1];
      k
  }

  /** Those two facts pin the index down. */
  lemma FirstDecisiveUnique<E>(answers: seq<Result<bool, E>>, k: nat)
    requires k <= |answers| && FalseUntil(answers, k)
    requires k < |answers| ==> answers[k] != Ok(false)
    ensures k == FirstDecisive(answers)
  {
  }

  /** How the loop ends on the decisive answer `a`. */
  function EndOn<E>(a: Result<bool, E>): LoopEnd<E> {
    if a.Ok? then Completed else CheckFailed(a.error)
  }

  /** `k` rounds of a check followed by a sleep. */
  function CheckSleeps(check: Call, k: nat, period: Duration): (t: seq<Event>)
    ensures |t| == 2 * k
    ensures forall i :: 0 <= i < |t| ==> t[i] == (if i % 2 == 0 then Device(check) else Sleep(period))
  {
    if k == 0 then []
    else
      var t := [Device(check), Sleep(period)] + CheckSleeps(check, k - 1, period);
      assert forall i :: 2 <= i < |t| ==> t[i] == CheckSleeps(check, k - 1, period)[i - 2];
      t
  }

  /** The check loop shared by transmit and receive: issue `check`, stop on
      `true` or on an error, otherwise sleep `period` and check again.
      `answers` are the device's replies to successive checks. */
  function PollLoop<E>(check: Call, answers: seq<Result<bool, E>>, period: Duration): Loop<E>
    decreases |answers|
  {
    if |answers| == 0 then Loop(StillPolling, [])
    else
      match answers[0]
      case Err(e) => Loop(CheckFailed(e), [Device(check)])
      case Ok(true) => Loop(Completed, [Device(check)])
      case Ok(false) =>
        var rest := PollLoop(check, answers[1..], period);
        Loop(rest.end, [Device(check), Sleep(period)] + rest.trace)
  }

  /** The loop checks and sleeps while the device answers `false`, and stops
      right after the first answer that is not `false`, on that answer, with
      no sleep after it. If there is none it is still polling when the
      answers run out. */
  lemma {:induction false} PollLoopStopsAtFirstDecisive<E>(check: Call, answers: seq<Result<bool, E>>, period: Duration)
    ensures var k := FirstDecisive(answers);
      PollLoop(check, answers, period) ==
        if k < |answers| then Loop(EndOn(answers[k]), CheckSleeps(check, k, period) + [Device(check)])
        else Loop(StillPolling, CheckSleeps(check, k, period))
  {
    if |answers| > 0 && answers[0] == Ok(false) {
      PollLoopStopsAtFirstDecisive(check, answers[1..], period);
      var k := FirstDecisive(answers[1..]);
      assert FirstDecisive(answers) == k + 1;
      assert CheckSleeps(check, k + 1, period) == [Device(check), Sleep(period)] + CheckSleeps(check, k, period);
      if k < |answers[1..]| {
        assert answers[1..][k] == answers[k + 1];
      }
    }
  }

  /** The loop makes no call but `check`, and otherwise only sleeps the
      poll interval. */
  lemma {:induction false} LoopOnlyChecks<E>(check: Call, answers: seq<Result<bool, E>>, period: Duration)
    ensures forall e :: e in PollLoop(check, answers, period).trace ==> e == Device(check) || e == Sleep(period)
  {
    PollLoopStopsAtFirstDecisive(check, answers, period);
    var k := FirstDecisive(answers);
    var t := CheckSleeps(check, k, period);
    assert forall e :: e in t ==> e == Device(check) || e == Sleep(period);
  }

  /** An engine run: it returned a result after making the calls in `trace`,
      or the device script ran out while the engine was still polling. */
  datatype Run<T, E> = Finished(result: Result<T, E>, trace: seq<Event>) | Exhausted(trace: seq<Event>)

  /** A device as `do_transmit` sees it: its answers to `set_power`,
      `start_transmit` and each successive `check_transmit`. */
  datatype TransmitDevice<E> = TransmitDevice(
    setPower: Result<(), E>,
    startTransmit: Result<(), E>,
    checks: seq<Result<bool, E>>)

  /** A device as `do_receive` sees it: its answers to `start_receive`, each
      successive `check_receive` and `get_received`. */
  datatype ReceiveDevice<Inf, E> = ReceiveDevice(
    startReceive: Result<(), E>,
    checks: seq<Result<bool, E>>,
    getReceived: Result<Received<Inf>, E>)

  /** The setup calls `do_transmit` makes when all succeed. */
  function TransmitSetup(data: seq<u8>, power: Option<i8>): seq<Event> {
    (if power.Some? then [Device(SetPower(power.value))] else []) + [Device(StartTransmit(data))]
  }

  /** `do_transmit`. */
  function Transmit<E>(dev: TransmitDevice<E>, data: seq<u8>, power: Option<i8>, period: Duration): Run<(), E> {
    if power.Some? && dev.setPower.Err? then
      Finished(Err(dev.setPower.error), [Device(SetPower(power.value))])
    else if dev.startTransmit.Err? then
      Finished(Err(dev.startTransmit.error), TransmitSetup(data, power))
    else
      var loop := PollLoop(CheckTransmit, dev.checks, period);
      match loop.end
      case Completed => Finished(Ok(()), TransmitSetup(data, power) + loop.trace)
      case CheckFailed(e) => Finished(Err(e), TransmitSetup(data, power) + loop.trace)
      case StillPolling => Exhausted(TransmitSetup(data, power) + loop.trace)
  }

  /** `do_receive`, with `get_received` as the `Receive` capability declares
      it: it returns the byte count, which `do_receive` returns, and the
      packet info, which `do_receive` hands back through its `info`
      argument. */
  function Receive<Inf, E>(dev: ReceiveDevice<Inf, E>, period: Duration): Run<Received<Inf>, E> {
    if dev.startReceive.Err? then
      Finished(Err(dev.startReceive.error), [Device(StartReceive)])
    else
      var loop := PollLoop(CheckReceive(true), dev.checks, period);
      var trace := [Device(StartReceive)] + loop.trace;
      match loop.end
      case Completed => Finished(dev.getReceived, trace + [Device(GetReceived)])
      case CheckFailed(e) => Finished(Err(e), trace)
      case StillPolling => Exhausted(trace)
  }

  // ---------------------------------------------------------------------------
  // Properties of do_transmit

  /** Whether `e` is a call to `set_power`. */
  predicate IsSetPower(e: Event) {
    e.Device? && e.call.SetPower?
  }

  /** Whether `set_power` (when asked for) and `start_transmit` succeed. */
  predicate TransmitSetupOk<E>(dev: TransmitDevice<E>, power: Option<i8>) {
    (power.None? || dev.setPower.Ok?) && dev.startTransmit.Ok?
  }

  /** `set_power(p)` is called exactly when the power option is `Some(p)`,
      once, before anything else; `start_transmit` with the caller's bytes
      comes next unless `set_power` failed. */
  lemma {:induction false} TransmitSetsPowerFirst<E>(dev: TransmitDevice<E>, data: seq<u8>, power: Option<i8>, period: Duration)
    ensures var t := Transmit(dev, data, power, period).trace;
      && (forall i :: 0 <= i < |t| && IsSetPower(t[i]) ==> i == 0 && power == Some(t[i].call.power))
      && (power.Some? ==> |t| > 0 && t[0] == Device(SetPower(power.value)))
      && (power.None? ==> |t| > 0 && t[0] == Device(StartTransmit(data)))
      && (power.Some? && dev.setPower.Ok? ==> |t| > 1 && t[1] == Device(StartTransmit(data)))
  {
    var t := Transmit(dev, data, power, period).trace;
    if TransmitSetupOk(dev, power) {
      var setup := TransmitSetup(data, power);
      var loop := PollLoop(CheckTransmit, dev.checks, period);
      LoopOnlyChecks(CheckTransmit, dev.checks, period);
      assert t == setup + loop.trace;
      forall i | |setup| <= i < |t| ensures !IsSetPower(t[i]) {
        assert t[i] in loop.trace;
      }
    }
  }

  /** An error from `set_power` or `start_transmit` is returned as it is, and
      `check_transmit` is never called. */
  lemma TransmitSetupErrors<E>(dev: TransmitDevice<E>, data: seq<u8>, power: Option<i8>, period: Duration)
    ensures var r := Transmit(dev, data, power, period);
      && (power.Some? && dev.setPower.Err? ==> r == Finished(Err(dev.setPower.error), [Device(SetPower(power.value))]))
      && ((power.None? || dev.setPower.Ok?) && dev.startTransmit.Err? ==>
            r == Finished(Err(dev.startTransmit.error), TransmitSetup(data, power)))
      && (!TransmitSetupOk(dev, power) ==> Device(CheckTransmit) !in r.trace)
  {
  }

  /** Once set up, `do_transmit` checks, and sleeps one poll interval after
      every `false`. It returns on the first answer that is not `false`:
      `Ok(())` for `true`, the device's error for an error, with no sleep
      after that last check. While the device keeps answering `false` it
      keeps polling. */
  lemma {:induction false} TransmitPolls<E>(dev: TransmitDevice<E>, data: seq<u8>, power: Option<i8>, period: Duration)
    requires TransmitSetupOk(dev, power)
    ensures var r := Transmit(dev, data, power, period);
      var k := FirstDecisive(dev.checks);
      && (k < |dev.checks| ==>
            r == Finished(if dev.checks[k].Ok? then Ok(()) else Err(dev.checks[k].error),
                          TransmitSetup(data, power) + CheckSleeps(CheckTransmit, k, period) + [Device(CheckTransmit)]))
      && (k == |dev.checks| ==>
            r == Exhausted(TransmitSetup(data, power) + CheckSleeps(CheckTransmit, k, period)))
  {
    PollLoopStopsAtFirstDecisive(CheckTransmit, dev.checks, period);
  }

  /** `do_transmit` succeeds exactly when set-up succeeds and the device
      answers `false` some number of times and then `true`; on success the
      last call is the check that answered `true`. */
  lemma {:induction false} TransmitOkIff<E>(dev: TransmitDevice<E>, data: seq<u8>, power: Option<i8>, period: Duration)
    ensures var r := Transmit(dev, data, power, period);
      (r.Finished? && r.result.Ok?) <==>
        && TransmitSetupOk(dev, power)
        && exists k :: 0 <= k < |dev.checks| && FalseUntil(dev.checks, k) && dev.checks[k] == Ok(true)
    ensures var r := Transmit(dev, data, power, period);
      r.Finished? && r.result.Ok? ==>
        var k := FirstDecisive(dev.checks);
        && k < |dev.checks| && dev.checks[k] == Ok(true)
        && r.trace == TransmitSetup(data, power) + CheckSleeps(CheckTransmit, k, period) + [Device(CheckTransmit)]
  {
    if TransmitSetupOk(dev, power) {
      TransmitPolls(dev, data, power, period);
      var d := FirstDecisive(dev.checks);
      if d < |dev.checks| && dev.checks[d].Ok? {
        assert dev.checks[d] == Ok(dev.checks[d].value) && dev.checks[d].value;
      }
      if exists k :: 0 <= k < |dev.checks| && FalseUntil(dev.checks, k) && dev.checks[k] == Ok(true) {
        var k :| 0 <= k < |dev.checks| && FalseUntil(dev.checks, k) && dev.checks[k] == Ok(true);
        FirstDecisiveUnique(dev.checks, k);
      }
    }
  }

  // ---------------------------------------------------------------------------
  // Properties of do_receive

  /** The calls of a receive that reaches its decisive check after `k`
      `false` answers. */
  function ReceiveTrace(k: nat, period: Duration): seq<Event> {
    [Device(StartReceive)] + CheckSleeps(CheckReceive(true), k, period) + [Device(CheckReceive(true))]
  }

  /** An error from `start_receive` is returned at once. Otherwise
      `do_receive` checks with restart set, sleeping one poll interval after
      every `false`; on the first `true` it calls `get_received` once and
      returns what that gives back, and on a check error it returns the
      error without fetching anything. */
  lemma {:induction false} ReceivePolls<Inf, E>(dev: ReceiveDevice<Inf, E>, period: Duration)
    ensures var r := Receive(dev, period);
      var k := FirstDecisive(dev.checks);
      && (dev.startReceive.Err? ==> r == Finished(Err(dev.startReceive.error), [Device(StartReceive)]))
      && (dev.startReceive.Ok? && k < |dev.checks| ==>
            r == if dev.checks[k].Ok? then Finished(dev.getReceived, ReceiveTrace(k, period) + [Device(GetReceived)])
                 else Finished(Err(dev.checks[k].error), ReceiveTrace(k, period)))
      && (dev.startReceive.Ok? && k == |dev.checks| ==>
            r == Exhausted([Device(StartReceive)] + CheckSleeps(CheckReceive(true), k, period)))
  {
    PollLoopStopsAtFirstDecisive(CheckReceive(true), dev.checks, period);
  }

  /** `start_receive` comes first, and every `check_receive` asks for a
      restart. */
  lemma {:induction false} ReceiveRestarts<Inf, E>(dev: ReceiveDevice<Inf, E>, period: Duration)
    ensures var r := Receive(dev, period);
      && |r.trace| > 0 && r.trace[0] == Device(StartReceive)
      && (forall i :: 0 <= i < |r.trace| && r.trace[i].Device? && r.trace[i].call.CheckReceive? ==> r.trace[i].call.restart)
  {
    var r := Receive(dev, period);
    if dev.startReceive.Ok? {
      var loop := PollLoop(CheckReceive(true), dev.checks, period);
      LoopOnlyChecks(CheckReceive(true), dev.checks, period);
      forall i | 0 <= i < |r.trace| && r.trace[i].Device? && r.trace[i].call.CheckReceive?
        ensures r.trace[i].call.restart
      {
        assert r.trace[i] in loop.trace;
      }
    }
  }

  /** `get_received` is called at most once: as the very last call, right
      after the check that answered `true` (the `k + 1`-th check, after `k`
      answers `false`), and its answer is what `do_receive` returns. */
  lemma {:induction false} ReceiveFetchesLast<Inf, E>(dev: ReceiveDevice<Inf, E>, period: Duration)
    ensures var r := Receive(dev, period);
      forall i :: 0 <= i < |r.trace| && r.trace[i] == Device(GetReceived) ==>
        && i == |r.trace| - 1
        && i >= 2 && r.trace[i - 1] == Device(CheckReceive(true))
        && r.Finished? && r.result == dev.getReceived
    ensures var r := Receive(dev, period);
      Device(GetReceived) in r.trace ==>
        var k := FirstDecisive(dev.checks);
        && k < |dev.checks| && dev.checks[k] == Ok(true)
        && r.trace == ReceiveTrace(k, period) + [Device(GetReceived)]
  {
    var r := Receive(dev, period);
    if dev.startReceive.Ok? {
      var loop := PollLoop(CheckReceive(true), dev.checks, period);
      LoopOnlyChecks(CheckReceive(true), dev.checks, period);
      var trace := [Device(StartReceive)] + loop.trace;
      assert Device(GetReceived) !in trace;
      if loop.end.Completed? {
        PollLoopStopsAtFirstDecisive(CheckReceive(true), dev.checks, period);
        var k := FirstDecisive(dev.checks);
        assert k < |dev.checks| && dev.checks[k].Ok?;
        assert dev.checks[k] == Ok(dev.checks[k].value) && dev.checks[k].value;
        assert r.trace == trace + [Device(GetReceived)];
        assert trace[|trace| - 1] == Device(CheckReceive(true));
      }
    }
  }

  /** `do_receive` fetches a packet exactly when `start_receive` succeeds
      and the device answers `false` some number of times and then `true`.
      It returns a count only by fetching, and then returns the fetched
      count (and info) unchanged. */
  lemma {:induction false} ReceiveFetchesIff<Inf, E>(dev: ReceiveDevice<Inf, E>, period: Duration)
    ensures var r := Receive(dev, period);
      Device(GetReceived) in r.trace <==>
        && dev.startReceive.Ok?
        && exists k :: 0 <= k < |dev.checks| && FalseUntil(dev.checks, k) && dev.checks[k] == Ok(true)
    ensures var r := Receive(dev, period);
      r.Finished? && r.result.Ok? ==>
        && Device(GetReceived) in r.trace
        && dev.getReceived.Ok?
        && r.result.value.len == dev.getReceived.value.len
        && r.result.value.info == dev.getReceived.value.info
  {
    var r := Receive(dev, period);
    ReceivePolls(dev, period);
    ReceiveFetchesLast(dev, period);
    if dev.startReceive.Ok? {
      var d := FirstDecisive(dev.checks);
      if d < |dev.checks| && dev.checks[d].Ok? {
        assert r.trace[|r.trace| - 1] == Device(GetReceived);
        assert dev.checks[d] == Ok(dev.checks[d].value) && dev.checks[d].value;
      } else {
        assert |r.trace| > 0 && r.trace[|r.trace| - 1] != Device(GetReceived);
      }
      if exists k :: 0 <= k < |dev.checks| && FalseUntil(dev.checks, k) && dev.checks[k] == Ok(true) {
        var k :| 0 <= k < |dev.checks| && FalseUntil(dev.checks, k) && dev.checks[k] == Ok(true);
        FirstDecisiveUnique(dev.checks, k);
      }
    }
  }
}

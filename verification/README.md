# radio-hal core, modelled in Dafny

This project models the behavioural core of the `radio-hal` crate, a set of
Rust traits for packet radios together with helpers built on them:

- **Frequencies** (`src/modulation/mod.rs`). A `Freq` is stored as a whole-kHz part and a Hz part below 1000. The model covers the conversions between `Freq` and whole Hz, kHz, MHz and GHz in both directions (module `Modulation`).
- **Trait logic of `src/lib.rs`**. This covers the `BasicInfo` default value and accessor, the `BasicChannel` conversions to and from `u16`, and the read-modify-write default method `Registers::update_register` together with its unit test (module `Radio`).
- **The mock radio** (`src/mock.rs`). It is a strict record/replay checker: every capability call pops the head of a queue of `(Request, Response)` transactions, demands that the request matches, and turns the recorded response into the call's result. The queue is a `seq<Transaction>`. Each trait method is a pure function from the queue to a `Step`, which is either `Returned(result, rest)` or `Panicked(reason)` (module `Mock`).
- **The blocking poll engine** (`src/blocking.rs`). `do_transmit` and `do_receive` run against a device given as a finite script of answers. They return the outcome together with the trace of calls and sleeps made (module `Blocking`).
- **The cooperative poll engine** (`src/nonblocking.rs`):
  - `AsyncOptions` and `AsyncError`;
  - the eager constructors `async_transmit` and `async_receive`;
  - one `poll` step of each future, which returns `Ready` or `Pending` and records which wake mechanism it used;
  - an executor that drives a future to completion over a device script (module `Nonblocking`).

  The cooperative engine is proved to make the same calls, in the same order, with the same outcome as the blocking one. The only difference is that sleeps become wake-ups. Its two documentation examples are replayed against the mock radio.

Integer widths (`u8`, `u16`, `u32`, `i8`, `i16`) are subset types of `int` declared in `Base`. A checked `u32` operation that would panic on overflow is a precondition of the function that models it.

## Model

| member | source | states |
|---|---|---|
| Modulation.FromParts | src/modulation/mod.rs:53-63 | `from_parts` returns `None` exactly when the Hz part is 1000 or more; otherwise the frequency satisfies `hz < 1000` and `parts()` gives back both arguments unchanged |
| Modulation.Parts | src/modulation/mod.rs:61-63 | `parts` hands back the stored kHz and Hz parts; its contract is carried by `FromParts` (the parts of `from_parts(khz, hz)` are `(khz, hz)`) and `PartsRoundTrip` |
| Modulation.PartsRoundTrip | src/modulation/mod.rs:53-63 | `parts` inverts `from_parts`, and every valid frequency is rebuilt by `from_parts` from its own parts |
| Modulation.ToHz | src/modulation/mod.rs:68-76 | `Freq::hz` is the Hz count `khz*1000 + hz`: divided by 1000 it gives the kHz part, and its remainder is the Hz part; defined only when the count fits in `u32` |
| Modulation.ToKhz | src/modulation/mod.rs:78-86 | `Freq::khz` is the frequency in Hz divided by 1000, rounded down |
| Modulation.ToMhz | src/modulation/mod.rs:88-96 | `Freq::mhz` is the kHz part divided by 1000, rounded down |
| Modulation.ToGhz | src/modulation/mod.rs:98-106 | `Freq::ghz` is the kHz part divided by 1 000 000, rounded down (the MHz value divided by 1000) |
| Modulation.FromHz | src/modulation/mod.rs:113-123 | `n.hz()` builds a valid frequency whose value in Hz is exactly `n` |
| Modulation.FromKhz | src/modulation/mod.rs:125-133 | `n.khz()` builds a valid frequency with no Hz part that reads back as `n` kHz |
| Modulation.FromMhz | src/modulation/mod.rs:135-146 | `n.mhz()` builds a valid frequency that reads back as `n` MHz, provided `n*1000` fits in `u32` |
| Modulation.FromGhz | src/modulation/mod.rs:148-159 | `n.ghz()` builds a valid frequency that reads back as `n` GHz, provided `n*1 000 000` fits in `u32` |
| Modulation.HzRoundTrip | src/modulation/mod.rs:113-123 | every `u32` Hz count survives `n.hz().hz()` unchanged, through `{khz: n/1000, hz: n%1000}` |
| Modulation.FreqFromItsHz | src/modulation/mod.rs:68-76 | a valid frequency that fits in `u32` is rebuilt exactly from its Hz count, so the split is unique |
| Modulation.KhzRoundTrip | src/modulation/mod.rs:125-133 | `n.khz().khz() == n`, and `n.khz().hz() == n*1000` when that does not overflow |
| Modulation.MhzAgreesWithKhz | src/modulation/mod.rs:135-146 | `n.mhz()` is the same frequency as `(n*1000).khz()` and reads back as `n` MHz |
| Modulation.GhzAgreesWithMhz | src/modulation/mod.rs:148-159 | `n.ghz()` is the same frequency as `(n*1000).mhz()` and reads back as `n` GHz and `n*1000` MHz |
| Modulation.DocumentedExamples | src/modulation/mod.rs:21-33 | the documented examples hold: `434.mhz() == 434_000.khz()`, `from_parts(433_100,200).hz() == 433_100_200`, `from_parts(2_400_100,200).mhz() == 2400`, `from_parts(20_000_000,200).ghz() == 20`, `2.ghz().mhz() == 2000` and the others |
| Radio.DefaultBasicInfo | src/lib.rs:106-113 | the default info holds `rssi = i16::MIN` and `lqi = 0`, the weakest reading either field can hold |
| Radio.NewBasicInfo | src/lib.rs:115-120 | `BasicInfo::new` keeps both readings; stated by `RssiOfNew` |
| Radio.Rssi | src/lib.rs:122-126 | `rssi()` gives back the strength the info was built with; stated by `RssiOfNew` |
| Radio.RssiOfNew | src/lib.rs:115-126 | `BasicInfo::new(r, l).rssi() == r`, and the default info reads as `i16::MIN` |
| Radio.ChannelFrom | src/lib.rs:132-136 | `BasicChannel::from`; inverse of `ChannelInto`, stated by `ChannelRoundTrip` |
| Radio.ChannelInto | src/lib.rs:138-142 | `Into<u16>`; inverse of `ChannelFrom`, stated by `ChannelRoundTrip` |
| Radio.ChannelRoundTrip | src/lib.rs:130-142 | `BasicChannel::from(u)` converted back into a `u16` is `u`, and the other way round |
| Radio.UpdateRegister | src/lib.rs:238-254 | `update_register` reads first. A failed read is returned with no write. Otherwise it writes `f(old)` and returns `Ok(f(old))`, or the write's error |
| Radio.UpdateThenRead | src/lib.rs:248-253 | on a device that reads back its writes, a successful update leaves `f(old)` in the register |
| Radio.TestDeviceReadsBackWrites | src/lib.rs:290-312 | the single-register test device reads back what was written to address 123 |
| Radio.UpdateRegisterTest | src/lib.rs:314-325 | after writing 1, the update "1 becomes 2, else 3" returns `Ok(2)` and leaves 2 in the register |
| Mock.FromOption | src/mock.rs:265-272 | `None` becomes a plain `Ok` response, and `Some(e)` becomes `Err(e)` |
| Mock.Next | src/mock.rs:59-61 | `next` fails exactly on an empty queue, and otherwise splits the queue into its head and the rest in order |
| Mock.Done | src/mock.rs:63-65 | `done` passes exactly when every expectation has been consumed |
| Mock.Transaction.ForSetState | src/mock.rs:108-113 | the `set_state` factory pairs `SetState(state)` with `Ok` for `None` and `Err(e)` for `Some(e)`; replayed by `UnitFactoriesRoundTrip` |
| Mock.Transaction.ForGetState | src/mock.rs:116-121 | the `get_state` factory pairs `GetState` with the recorded state or error; replayed by `StateQueryRoundTrip` |
| Mock.Transaction.ForIsBusy | src/mock.rs:124-129 | the `is_busy` factory pairs `IsBusy` with the recorded flag or error; replayed by `FlagQueriesRoundTrip` |
| Mock.Transaction.ForSetRegister | src/mock.rs:132-137 | the `set_register` factory pairs `SetRegister(reg, value)` with `Ok` or `Err(e)`; well formed by `FactoriesWellFormed`, though no handler takes it |
| Mock.Transaction.ForGetRegister | src/mock.rs:140-145 | the `get_register` factory pairs `GetRegister` with the recorded value or error; well formed by `FactoriesWellFormed`, though no handler takes it |
| Mock.Transaction.ForSetChannel | src/mock.rs:148-153 | the `set_channel` factory pairs `SetChannel(ch)` with `Ok` or `Err(e)`; replayed by `UnitFactoriesRoundTrip` |
| Mock.Transaction.ForSetPower | src/mock.rs:156-161 | the `set_power` factory pairs `SetPower(power)` with `Ok` or `Err(e)`; replayed by `UnitFactoriesRoundTrip` |
| Mock.Transaction.ForStartTransmit | src/mock.rs:164-169 | the `start_transmit` factory pairs `StartTransmit(data)` with `Ok` or `Err(e)`; replayed by `UnitFactoriesRoundTrip` |
| Mock.Transaction.ForCheckTransmit | src/mock.rs:172-177 | the `check_transmit` factory pairs `CheckTransmit` with the recorded flag or error; replayed by `FlagQueriesRoundTrip` |
| Mock.Transaction.ForStartReceive | src/mock.rs:180-185 | the `start_receive` factory pairs `StartReceive` with `Ok` or `Err(e)`; replayed by `UnitFactoriesRoundTrip` |
| Mock.Transaction.ForCheckReceive | src/mock.rs:188-193 | the `check_receive` factory pairs `CheckReceive(restart)` with the recorded flag or error; replayed by `FlagQueriesRoundTrip` |
| Mock.Transaction.ForGetReceived | src/mock.rs:196-201 | the `get_received` factory pairs `GetReceived` with the recorded packet and info, or error; replayed by `GetReceivedRoundTrip` |
| Mock.Transaction.ForGetIrq | src/mock.rs:204-209 | the `get_irq` factory pairs `GetIrq(clear)` with the recorded interrupts or error; replayed by `ReadingQueriesRoundTrip` |
| Mock.Transaction.ForPollRssi | src/mock.rs:212-217 | the `poll_rssi` factory pairs `PollRssi` with the recorded strength or error; replayed by `ReadingQueriesRoundTrip` |
| Mock.Transaction.ForDelayNs | src/mock.rs:220-225 | the `delay_ns` factory pairs `DelayNs(ns)` with a plain `Ok`; replayed by `ReadingQueriesRoundTrip` |
| Mock.FactoriesWellFormed | src/mock.rs:101-225 | every factory pairs its request with a response kind that the request's handler accepts, so no `unreachable!()` arm can be reached from factory-built expectations |
| Mock.DelayNsCall | src/mock.rs:283-288 | `delay_ns` fails on an empty queue, fails on a different recorded request, and otherwise consumes exactly the head and ignores its response |
| Mock.SetStateCall | src/mock.rs:302-318 | `set_state` consumes exactly the head when it records this call, and fails with "no expectation" or a mismatch otherwise. A recorded `Ok` gives `Ok(())` and a recorded `Err(e)` gives `Err(e)` |
| Mock.GetStateCall | src/mock.rs:320-336 | `get_state` replays the head in the same way and returns the recorded state or error |
| Mock.IsBusyCall | src/mock.rs:350-365 | `is_busy` replays the head and returns the recorded flag or error |
| Mock.SetChannelCall | src/mock.rs:379-394 | `set_channel` replays the head, and its channel must equal the recorded one |
| Mock.SetPowerCall | src/mock.rs:407-422 | `set_power` replays the head, and its power must equal the recorded one |
| Mock.PollRssiCall | src/mock.rs:435-452 | `poll_rssi` replays the head and returns the recorded strength or error |
| Mock.GetInterruptsCall | src/mock.rs:466-483 | `get_interrupts(clear)` replays the head, and the clear flag must match. It returns the recorded interrupts or error, and an empty queue fails naming `get_interrupts` |
| Mock.StartTransmitCall | src/mock.rs:496-512 | `start_transmit` replays the head, and its bytes must equal the recorded bytes |
| Mock.CheckTransmitCall | src/mock.rs:514-531 | `check_transmit` replays the head and returns the recorded flag or error |
| Mock.StartReceiveCall | src/mock.rs:545-561 | `start_receive` replays the head |
| Mock.CheckReceiveCall | src/mock.rs:563-579 | `check_receive(restart)` replays the head, and the restart flag must equal the recorded one |
| Mock.CopyInto | src/mock.rs:588-590 | copying the packet into the buffer puts it at the front and leaves the rest of the buffer unchanged |
| Mock.GetReceivedCall | src/mock.rs:581-601 | `get_received` replays the head. On a recorded packet it returns the packet's length and the recorded info, with the packet copied to the front of the buffer. A buffer shorter than the packet panics, and a recorded error leaves the buffer alone |
| Mock.UnitFactoriesRoundTrip | src/mock.rs:107-225 | a unit factory built with `None` replays as `Ok(())`, and with `Some(e)` as `Err(e)`, for `set_state`, `set_channel`, `set_power`, `start_transmit` and `start_receive`; the rest of the queue is untouched |
| Mock.StateQueryRoundTrip | src/mock.rs:115-121 | a factory-built state query replays exactly the recorded `Result` |
| Mock.FlagQueriesRoundTrip | src/mock.rs:123-205 | `is_busy`, `check_transmit` and `check_receive` replay exactly the recorded `Result`; a `check_receive` with the other restart flag fails with a mismatch |
| Mock.ReadingQueriesRoundTrip | src/mock.rs:123-225 | factory-built interrupt, RSSI and delay expectations replay exactly what was recorded |
| Mock.GetReceivedRoundTrip | src/mock.rs:581-601 | a factory-built `get_received` replays the recorded packet into a large enough buffer, with its length and info, or replays the recorded error |
| Mock.Perform | src/mock.rs:283-601 | any handled call consumes exactly the head when that head records it, fails with "no expectation" on an empty queue, and fails with a mismatch otherwise |
| Mock.ReplayAlongQueue | src/mock.rs:59-61 | calls made in the recorded order are all answered, one reply each, and consume exactly the recorded prefix |
| Mock.ReplyTo | src/mock.rs:283-601 | the reply a well-formed expectation stands for, decoded as its handler decodes it; carried by `PerformReplies` |
| Mock.PerformReplies | src/mock.rs:283-601 | a call that the head records is answered with the reply the head stands for and consumes exactly the head |
| Mock.ReplayRepliesInOrder | src/mock.rs:59-61 | calls made in the recorded order get back the recorded responses, decoded, one for one and in queue order |
| Mock.ReplayGivesAnswers | src/mock.rs:59-61 | when the recorded responses stand for a list of answers, a run in the recorded order returns exactly that list |
| Mock.ReplayStopsAtFirstMismatch | src/mock.rs:303-307 | a run fails at the first call that departs from the queue, reporting the missing expectation or the recorded and actual requests |
| Mock.ReplayOnlyAlongQueue | src/mock.rs:59-61 | a run that does not fail was made in exactly the recorded order |
| Mock.Requests | src/mock.rs:101-105 | the requests of a queue, in order, one per transaction |
| Mock.ReplayThenDone | src/mock.rs:59-65 | a run followed by `done()` passes exactly when it made every recorded call, in order, and nothing else |
| Mock.GetInterruptsAsWritten | src/mock.rs:466-483 | `get_interrupts` as written: the replay rule holds, but an empty queue fails naming `Transmit::check_transmit` |
| Mock.GetInterruptsAsWrittenMisnames | src/mock.rs:466-470 | as written, an exhausted queue makes `get_interrupts` report the same missing call as `check_transmit` |
| Mock.ExpectationNamesDistinct | src/mock.rs:283-601 | with the name corrected, each handler names itself, and two calls share a name exactly when they are the same capability method |
| Mock.StateTests | src/mock.rs:609-638 | the mock's `set_state` and `get_state` tests: a matching call returns `Ok` and leaves `done()` passing, and `set_state(Sleep)` against an expected `set_state(Idle)` panics |
| Mock.ConfigurationTests | src/mock.rs:640-656 | the mock's `set_channel` and `set_power` tests |
| Mock.TransmitTests | src/mock.rs:658-682 | the mock's `start_transmit` and `check_transmit` tests: queued checks come back in queue order |
| Mock.ReceiveTests | src/mock.rs:684-723 | the mock's receive tests: queued `check_receive` results come back in order, and `get_received` returns 2 with prefix `[0xaa, 0xbb]` |
| Blocking.PollLoop | src/blocking.rs:19-25 | the shared check loop; its contract is carried by `PollLoopStopsAtFirstDecisive` (checks and sleeps up to the first answer that is not `false`, then stops on it) and `LoopOnlyChecks` |
| Blocking.Transmit | src/blocking.rs:9-28 | `do_transmit`; its contract is carried by `TransmitSetsPowerFirst`, `TransmitSetupErrors`, `TransmitPolls` and `TransmitOkIff` |
| Blocking.Receive | src/blocking.rs:30-51 | `do_receive`; its contract is carried by `ReceivePolls`, `ReceiveRestarts`, `ReceiveFetchesLast` and `ReceiveFetchesIff` |
| Blocking.FirstDecisive | src/blocking.rs:19-25 | the index of the first check answer that is not `Ok(false)`; every earlier answer is `Ok(false)` |
| Blocking.FirstDecisiveUnique | src/blocking.rs:19-25 | that index is the only one with those two properties |
| Blocking.CheckSleeps | src/blocking.rs:19-25 | `k` unsuccessful rounds alternate a check and one sleep of the poll interval |
| Blocking.PollLoopStopsAtFirstDecisive | src/blocking.rs:19-25 | the loop checks and sleeps while the device answers `false`. It stops right after the first other answer: completed on `true`, and failed with the error unchanged on `Err` |
| Blocking.LoopOnlyChecks | src/blocking.rs:19-25 | the loop makes no call but the check, and otherwise only sleeps for the poll interval |
| Blocking.TransmitSetsPowerFirst | src/blocking.rs:13-18 | `set_power(p)` is called exactly when `power == Some(p)`, and it is always the first call, before `start_transmit` |
| Blocking.TransmitSetupErrors | src/blocking.rs:13-18 | an error from `set_power` or `start_transmit` is returned unchanged, and `check_transmit` is never called |
| Blocking.TransmitPolls | src/blocking.rs:19-27 | after setup, `do_transmit` checks and sleeps once per `false`. It returns `Ok(())` right after a `true`, and returns a check error unchanged |
| Blocking.TransmitOkIff | src/blocking.rs:9-28 | `do_transmit` returns `Ok(())` exactly when setup succeeds and a check answers `true` before any check error; then the calls are the setup, `k` rounds of check and sleep, and last the check that answered `true` |
| Blocking.ReceivePolls | src/blocking.rs:30-51 | an error from `start_receive` is returned at once. Otherwise the checks proceed as in the transmit loop, and the fetched length or error is the result |
| Blocking.ReceiveRestarts | src/blocking.rs:36-39 | `start_receive` comes first, and every `check_receive` passes `restart = true` |
| Blocking.ReceiveFetchesLast | src/blocking.rs:39-47 | `get_received` is called at most once, as the very last call, right after the `check_receive(true)` that answered `true` after `k` answers `false`, and its answer is what `do_receive` returns |
| Blocking.ReceiveFetchesIff | src/blocking.rs:39-47 | `do_receive` calls `get_received` exactly when `start_receive` succeeds and a check answers `true` before any error; it returns a count only after fetching, and that count (and info) is what `get_received` gave |
| Nonblocking.DefaultOptions | src/nonblocking.rs:34-44 | the default options set no power, no timeout and no wake function, with a 10 ms poll period |
| Nonblocking.FromError | src/nonblocking.rs:53-57 | a device error becomes `Inner(e)`; its contract is carried by `PollTransmit` and `PollReceive` (`Err(e)` resolves to `Ready(Err(Inner(e)))`) and `NoTimeouts` |
| Nonblocking.WakeupFor | src/nonblocking.rs:149-153 | a pending poll calls the wake function with the poll period when one is set, and wakes the waker otherwise |
| Nonblocking.AsyncTransmit | src/nonblocking.rs:110-128 | `async_transmit` sets the power only when asked, then starts the transmission. Either error is returned before any future exists, and a future exists exactly when both succeed |
| Nonblocking.PollTransmit | src/nonblocking.rs:139-157 | one `check_transmit` per poll: `true` gives `Ready(Ok(()))`, `Err(e)` gives `Ready(Err(Inner(e)))`, and `false` gives `Pending` after the chosen wake-up |
| Nonblocking.AsyncReceive | src/nonblocking.rs:225-239 | `async_receive` calls `start_receive` once and returns a future holding the caller's info slot and options, or the error |
| Nonblocking.PollReceive | src/nonblocking.rs:250-272 | one `check_receive(true)` per poll. On `true` it calls `get_received` exactly once and resolves to `Ready(Ok(n))`, or to the wrapped error. On `false` it wakes and returns `Pending`. It calls `get_received` only after `true` |
| Nonblocking.AwaitTransmit | src/nonblocking.rs:139-157 | polling a transmit future until it resolves; its contract is carried by `AwaitTransmitFollowsLoop` |
| Nonblocking.AwaitReceive | src/nonblocking.rs:250-272 | polling a receive future until it resolves; its contract is carried by `AwaitReceiveFollowsLoop` |
| Nonblocking.TransmitAndAwait | src/nonblocking.rs:110-157 | `async_transmit(..)?.await`; its contract is carried by `TransmitAgreesWithBlocking` and `NoTimeouts` |
| Nonblocking.ReceiveAndAwait | src/nonblocking.rs:225-272 | `async_receive(..)?.await`; its contract is carried by `ReceiveAgreesWithBlocking` and `NoTimeouts` |
| Nonblocking.AsAsync | src/nonblocking.rs:139-157 | a blocking trace seen from the cooperative engine: each sleep replaced by the wake-up, each call kept |
| Nonblocking.AwaitTransmitFollowsLoop | src/nonblocking.rs:139-157 | polling a transmit future to completion makes the calls of the blocking check loop, with sleeps as wake-ups, and ends the same way |
| Nonblocking.AwaitReceiveFollowsLoop | src/nonblocking.rs:250-272 | polling a receive future to completion makes the calls of the blocking check loop, then fetches once, and ends the same way |
| Nonblocking.TransmitAgreesWithBlocking | src/nonblocking.rs:110-157 | `async_transmit(..)?.await` and `do_transmit` with the same options make the same calls in the same order, with each sleep a wake-up, and return the same result, errors wrapped in `Inner` |
| Nonblocking.ReceiveAgreesWithBlocking | src/nonblocking.rs:225-272 | `async_receive(..)?.await` and `do_receive` make the same calls and return the same length or wrapped error, and the info slot receives the fetched info |
| Nonblocking.NoTimeouts | src/nonblocking.rs:48-57 | no path produces `AsyncError::Timeout`, and the deprecated `timeout` option changes nothing |
| Nonblocking.Requests | src/nonblocking.rs:61-85 | the device calls of an engine trace, as requests the mock radio handles, never more than the trace's events |
| Nonblocking.RequestsKeepsCalls | src/nonblocking.rs:61-85 | those requests are the trace's device calls, each as its mock request, in order, with the wake-ups dropped: the map distributes over concatenation, a call gives its request and a wake-up nothing |
| Nonblocking.TransmitExample | src/nonblocking.rs:61-85 | the transmit example: with checks `false, true` the future resolves to `Ok(())`; the mock accepts every call and then `done()`, and its replies are the script's answers, started, `false`, `true` |
| Nonblocking.ReceiveExampleFetch | src/nonblocking.rs:163-197 | the example's last expectation copies `[0xaa, 0xbb]` to the front of a 128-byte buffer and returns 2 |
| Nonblocking.ReceiveExampleRun | src/nonblocking.rs:163-197 | with the default options, the example's future resolves to `Ok(2)` after start, check `false`, wake, check `true` and fetch |
| Nonblocking.ReceiveExampleQueueFacts | src/nonblocking.rs:163-197 | the example's expectations are well formed and record the calls, in order |
| Nonblocking.ReceiveExampleTraceRequests | src/nonblocking.rs:163-197 | the example's calls, as mock requests, are exactly the recorded ones |
| Nonblocking.ReceiveExampleRecordedReplies | src/nonblocking.rs:163-197 | each expectation of the example stands for the matching answer of its script |
| Nonblocking.ReceiveExampleReplies | src/nonblocking.rs:163-197 | the example's mock replies, in order: started, `false`, `true`, and the packet at the front of the buffer with count 2 and its info |
| Nonblocking.ReceiveExampleReplay | src/nonblocking.rs:163-197 | the example's mock accepts exactly those calls and then passes `done()` |
| Nonblocking.ReceiveExample | src/nonblocking.rs:163-197 | the receive example as a whole: `Ok(2)`, a buffer starting `[0xaa, 0xbb]`, a mock left empty, and mock replies equal to the script's answers |

## Left out

- `src/helpers.rs` is CLI and file glue (option parsing, PCAP files and FIFOs, timestamps, logging). It is input/output and is not part of this model.
- `src/config.rs`, `src/modulation/lora.rs`, `src/modulation/gfsk.rs` and `src/params/mod.rs` only declare configuration types and have no behaviour. The model does not need them.
- Thread sleeps and `DelayNs` are trace events (`Sleep(period)`, `DelayNs(ns)`). The model says nothing about timing.
- The executor, `Context` and `Waker` are not modelled. A pending poll records only which wake branch it took. The executor is an idealised one that polls again at once.
- `async_std_task_waker` (src/nonblocking.rs:275-284) spawns a task on the async-std runtime. It is concurrency and is left out.
- Timeouts: `AsyncOptions::timeout` is carried but never read, and neither engine has a timeout. The model follows the code and adds none, and `Nonblocking.NoTimeouts` states that the option has no effect.
- A device is a finite script of answers, so a run that uses up the script ends as `Exhausted` (blocking) or `Stalled` (cooperative). A real radio that never answers `true` would make the source loop forever. The model represents that only as a run that outlasts its script.
- `Blocking.Receive`: the source calls `get_received(info, buff)` and gets back a bare count (src/blocking.rs:40, src/nonblocking.rs:256). That form does not match the trait, which returns `(usize, Info)` and takes only the buffer (src/lib.rs:85). The model uses the trait's form, `Received(len, info)`, and stores the info in the caller's slot. The mismatch is noted, not resolved.
- Blocking.Receive and Nonblocking.PollReceive: the received bytes are not carried through the engines, only the length and info. The mock's copy into the buffer is modelled in `Mock.GetReceivedCall`.
- Blocking.Receive: `do_receive` slices `&buff[0..n]` (src/blocking.rs:42) to pretty-print the packet. That slice is evaluated outside the logging macro and panics when the count from `get_received` exceeds the buffer. The engine model carries no buffer, so it does not model that panic; the cooperative engine has no such slice.
- Logging macros (`debug!`, `info!`) have no effect on results and are left out.
- The `embedded_hal_mock` `Generic` type is modelled only by its queue behaviour (`next`, `done`). `expect()`, which appends expectations, is the list a test builds and has no separate member.
- The mock has factories for `set_register` and `get_register`, but it implements no `Registers` capability. Those requests are therefore outside `Mock.Handled`, and replays are stated for handled requests only.
- Mock.Perform, Mock.ReplayStopsAtFirstMismatch: these whole-mock members route `get_interrupts` through the corrected handler `Mock.GetInterruptsCall`, so on an empty queue they report `Interrupts::get_interrupts`, not the `Transmit::check_transmit` of src/mock.rs:469. The message as written is modelled by `Mock.GetInterruptsAsWritten`.
- Mock panics (`expect`, `assert_eq!`, `unreachable!()`, an out-of-range slice) are `Panicked(reason)` values. They do not abort.
- Registers are modelled by an address and `u8` contents. The register types' own bit-level encodings are not modelled.
- Modulation.ToHz, Modulation.FromMhz and Modulation.FromGhz: the source panics on `u32` overflow in debug builds and wraps in release builds. The model requires the result to fit instead, so neither behaviour is modelled for overflowing inputs.

## Findings

| source | as written | input that shows it | evidently intended | confidence | as-written member | corrected member |
|---|---|---|---|---|---|---|
| src/mock.rs:466-470 | `get_interrupts` with no expectation left fails with "no expectation for Transmit::check_transmit call" | `get_interrupts(true)` on an empty mock | the failure names `Interrupts::get_interrupts`, the method that found no expectation; the other handlers name their own method, though `set_channel` prefixes its name with `State::` (src/mock.rs:384) although the method belongs to `Channel` | high (message text); not executed | Mock.GetInterruptsAsWritten, Mock.GetInterruptsAsWrittenMisnames | Mock.GetInterruptsCall, Mock.ExpectationNamesDistinct |

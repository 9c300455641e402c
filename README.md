# VehicleData producer: payload counters, lifecycle flags and argument scan

A model of the sequential logic of the vsomeip demo producer
`VehicleData_producer.cpp`. It is written in Dafny and verified.

The producer advertises one SOME/IP service. While the service is offered and the
producer is running, it sends a 4-byte event `[gear, type, value, speed]`
on every pass of its send loop. After each send it advances the four counters,
and `type` goes back to 0 when it reaches 4. Four flags decide what it does:

- `blocked_`: `init()` has finished or `stop()` was called
- `running_`: shutdown has not been requested
- `is_offered_`: the service is advertised
- `is_registered_`: vsomeip's registration state

`main` scans the command line for `--tcp`, `--udp` and `--cycle X`.

- `payload.dfy` (module `Payload`): the counters as a value, the update of one
  send cycle, the 4-byte encoding with its decoding partner, the sequence of
  events one run of `notify()` emits and its closed form.
- `command_line.dfy` (module `CommandLine`): the scan of `main` as a
  specification function, the loop with `break` that computes it, and lemmas
  about stopping at a transport flag and about a trailing `--cycle`.
- `producer.dfy` (module `Producer`): the producer object as a class. It holds
  the flags and the counters, and a ghost sequence `Sent` collects every event
  given to the transport. Its methods change the fields as `init`, `offer`,
  `stop_offer`, `stop`, `on_state`, `notify` and `run` do.

Modelling choices:

- **`type` is renamed.** The counter `type` is called `kind`, because `type`
  is a reserved word in Dafny.
- **Counters are unbounded.** The counters are declared in `cluster.h`, which is
  not part of this model, so their width is unknown. They are `nat`, and the
  only truncation is the `uint8_t` cast in `Encode`.
  `Payload.WidthDoesNotShow` proves that `uint8_t` counters would emit exactly
  the same events.
- **The send length.** `set_data` receives `sizeof(its_size)`, the size of a
  `uint32_t`. That is 4, so it equals the length of `its_data`, and the model
  sends exactly the 4 data bytes.
- **The conversion of `--cycle`'s value** (`stringstream >> uint32_t`) is the
  function parameter `convert`. It is given the argument and the cycle read so
  far, because an empty or all-blank argument leaves the target unchanged
  (a non-numeric one stores 0, an out-of-range one the largest value).
- **Threads are not modelled.** Each method runs one operation to completion.
  `Notify(cycles)` shows the first `cycles` passes of `notify()`'s send loop.
  `Run(stopAfter)` shows `run()` when the shutdown request arrives after
  `stopAfter` send cycles.

Two things the code does that its shape suggests otherwise:

- **No offer/withdraw heartbeat.** The shape of `run()` looks like a heartbeat:
  a phase flag that flips after ten 1-second sleeps (VehicleData_producer.cpp:121-132),
  offering the service in one phase and withdrawing it in the next. As written,
  the first round calls `offer()` and then `notify()` (lines 123-125), and
  `notify()` only returns once `running_` is false. So the loop ends after that
  one round, and the `stop_offer()` branch at line 127 is unreachable.
  In the model the shutdown is applied as soon as the nested `notify()`
  returns. Under that, `Producer.VehicleDataProducer.Run` shows that the loop
  makes exactly one round, with the phase flag true, and its dead branch is an
  `assert false`.
- **The `--cycle` value is never used.** `main` passes it to the constructor,
  which stores it in `cycle_` (line 29), and nothing reads `cycle_` again.

## Model

| member | source | states |
|---|---|---|
| `Payload.Encode` | VehicleData_producer.cpp:138-159 | the event is exactly 4 bytes, the size of `its_data` and also `sizeof(uint32_t)`, the length given to `set_data` |
| `Payload.DecodeEncode` | VehicleData_producer.cpp:151-154 | reading the event back field by field gives each counter modulo 256, in the order gear, type, value, speed, with no header |
| `Payload.EncodeDecode` | VehicleData_producer.cpp:151-154 | decoding an event and encoding the result gives back the same 4 bytes |
| `Payload.EncodeOfLowBytes` | VehicleData_producer.cpp:151-154 | truncating each counter to its low byte first does not change the event |
| `Payload.EncodeSeesLowBytesOnly` | VehicleData_producer.cpp:151-154 | two sets of counters that agree modulo 256 give the same event |
| `Payload.Next` | VehicleData_producer.cpp:166-174 | one update adds exactly 1 to gear, value and speed; type 0, 1 and 2 become 1, 2 and 3, and type 3 becomes 0 |
| `Payload.CountersAfterClosedForm` | VehicleData_producer.cpp:140-174 | after k updates from 12, 1, 12, 60 the counters are 12 + k, (1 + k) mod 4, 12 + k, 60 + k |
| `Payload.KindInRange` | VehicleData_producer.cpp:167-174 | after every update from the start values, type is in 0..3 |
| `Payload.CycleAdvancesByOne` | VehicleData_producer.cpp:151-169 | every send cycle raises gear, value and speed by exactly 1, and their emitted bytes by 1 modulo 256 |
| `Payload.PayloadAt` | VehicleData_producer.cpp:145-174 | the k-th event of a run of notify() encodes the counters after k updates: each event is sent before its update |
| `Payload.EventAt` | VehicleData_producer.cpp:140-174 | the k-th event is [(12 + k) mod 256, (1 + k) mod 4, (12 + k) mod 256, (60 + k) mod 256] |
| `Payload.FirstFourPayloads` | VehicleData_producer.cpp:140-174 | the first four events are [12,1,12,60], [13,2,13,61], [14,3,14,62] and [15,0,15,63] |
| `Payload.NextKeepsLowBytes` | VehicleData_producer.cpp:166-174 | while type is in 0..3, taking the low bytes after an update gives the same as updating 8-bit counters that wrap at 256 |
| `Payload.LowBytesAfter` | VehicleData_producer.cpp:166-174 | after k updates, the low bytes of the unbounded counters are the values that 8-bit counters would hold |
| `Payload.WidthDoesNotShow` | VehicleData_producer.cpp:151-174 | counters declared `uint8_t` would emit the same events, cycle for cycle, as the unbounded counters of the model |
| `CommandLine.ParseArgs` | VehicleData_producer.cpp:213-236 | the loop with `i++` and `break` gives exactly the settings of the left-to-right scan `Scan` |
| `CommandLine.NoArguments` | VehicleData_producer.cpp:213-214 | with no arguments the settings are use_tcp = false, cycle = 1000 |
| `CommandLine.CycleTakesNextArgument` | VehicleData_producer.cpp:230-235 | `--cycle X` sets the cycle to the conversion of X from the default 1000, and leaves use_tcp false |
| `CommandLine.FailedConversionKeepsCycle` | VehicleData_producer.cpp:230-235 | in `--cycle X --cycle Y`, a Y that is empty or all blank, so that its conversion leaves the target unchanged, keeps the cycle that X set |
| `CommandLine.TransportFlagEndsScan` | VehicleData_producer.cpp:220-228 | the first `--tcp` or `--udp` the scan reaches sets use_tcp to true or false respectively, and any arguments after it leave the result unchanged |
| `CommandLine.FirstTransportFlagWins` | VehicleData_producer.cpp:220-228 | `--udp --tcp ...` leaves the defaults: the later `--tcp` is never looked at |
| `CommandLine.TrailingCycleIgnored` | VehicleData_producer.cpp:230 | a `--cycle` that the scan reaches as the last argument does not change the settings (`i + 1 < argc` fails) |
| `Producer.RegistrationAfter` | VehicleData_producer.cpp:105-111 | the new registration flag is true exactly when the state is ST_REGISTERED, whatever it was before |
| `Producer.OnStateIdempotent` | VehicleData_producer.cpp:105-111 | applying the same state twice gives the same flag as applying it once |
| `Producer.VehicleDataProducer.constructor` | VehicleData_producer.cpp:25-35 | the new producer is not registered, not initialised (blocked_ false), running and not offered, keeps use_tcp and cycle, has sent nothing, and both threads are started and joinable |
| `Producer.VehicleDataProducer.Init` | VehicleData_producer.cpp:37-65 | when the application does not initialise, init returns false and changes nothing; otherwise it returns true and sets blocked_; no other field changes |
| `Producer.VehicleDataProducer.Offer` | VehicleData_producer.cpp:88-93 | is_offered_ becomes true and no other field changes |
| `Producer.VehicleDataProducer.StopOffer` | VehicleData_producer.cpp:95-98 | is_offered_ becomes false and no other field changes |
| `Producer.VehicleDataProducer.Stop` | VehicleData_producer.cpp:75-85 | running_ becomes false, blocked_ true and is_offered_ false, and both threads are joined; the registration flag, the counters and the sent events are unchanged; it requires the threads to be still joinable; afterwards running_ false implies blocked_ true (`Valid`) |
| `Producer.VehicleDataProducer.OnState` | VehicleData_producer.cpp:100-112 | is_registered_ becomes true exactly when the state is ST_REGISTERED; no other field changes |
| `Producer.VehicleDataProducer.SendCycle` | VehicleData_producer.cpp:151-174 | one pass writes the encoding of the current counters into its_data, appends it to `Sent`, and then advances the counters by one update |
| `Producer.VehicleDataProducer.Notify` | VehicleData_producer.cpp:136-178 | the counters restart at 12, 1, 12, 60; when is_offered_ and running_ both hold, n passes append exactly the first n events to `Sent` and leave the counters advanced n times; otherwise nothing is sent and the counters stay at the start values; the flags do not change |
| `Producer.VehicleDataProducer.Run` | VehicleData_producer.cpp:116-134 | before init() it stays waiting for blocked_ and changes nothing; after a shutdown it is never stuck at that wait and changes nothing; otherwise, with the shutdown applied when the nested notify() returns, the loop makes exactly one round, with the phase flag true: it offers, sends the first `stopAfter` events, and ends with running_ false, blocked_ true, the service withdrawn and the threads joined |
| `Producer.LaunchAsWritten` | VehicleData_producer.cpp:238-249 | as written: exit code 0 when initialisation succeeds; when it fails, `return 1` leaves both threads joinable and the process is terminated |
| `Producer.Launch` | VehicleData_producer.cpp:238-249 | corrected: a failed initialisation shuts the producer down before returning, so the exit code is 0 when initialisation succeeds and 1 when it fails |

## Left out

- Threads, mutexes and condition variables (lines 33-34, 117-119, 146-148, 186-200): concurrency is not modelled. Each method runs to completion, and the wake-ups become the order in which the methods are called.
- The race between the `notify()` called inside `run()` (line 125) and the separate notifier thread: a concurrency effect.
- Producer.VehicleDataProducer.Notify: shows a fixed number of passes of the send loop. The real loop only ends because another thread clears `running_` or `is_offered_`. The blocking wait at lines 147-148 appears as "no event is produced".
- Producer.VehicleDataProducer.Run: the shutdown request from the signal handler is the parameter `stopAfter`, and it is applied as a call to `Stop` after that many send cycles.
- The 1000 ms and 10 ms sleeps, and the loop of ten 1-second slices at lines 129-130: wall-clock time is not modelled, and one pass of a loop is one step.
- All vsomeip calls (`create_application`, `init`, `register_state_handler`, `offer_event`, `offer_service`, `stop_offer_service`, `create_payload`, `clear_all_handler`, `start`, `stop`): foreign library calls. `app_->init()` appears only through its result, the parameter `appReady`. `set_data` and `notify` appear as an append to the ghost sequence `Sent`.
- `app_->stop()` in `stop()` (line 84) and `app_->start()` in `start()` (line 68): library calls. A join at lines 82-83 appears only as the flag `threadsJoinable` going false; waiting for the threads to finish is not modelled.
- The signal handler and the global pointer `vdatasdvobj_ptr` (lines 203-210, 240-242): process plumbing.
- Console output on `std::cout` and `std::cerr`: logging only.
- CommandLine.ParseArgs: the exact behaviour of `stringstream >> uint32_t` (line 234) is library behaviour, so the conversion is the abstract parameter `convert`, a function of the argument and the cycle read so far. Which arguments convert, and to what, is not modelled.
- The fields `use_tcp_` and `cycle_` (lines 28-29, 183-184) are recorded by the constructor. The code never reads them, so nothing else depends on them.
- Producer.VehicleDataProducer.Stop: requires the threads to be still joinable. A second `stop()`, such as SIGINT followed by SIGTERM through the unguarded `handle_signal` (lines 205-208), reaches `offer_thread_.join()` at line 82 on a thread already joined, and `join()` throws `std::system_error`; the model does not allow that second call.
- Producer.LaunchAsWritten and Producer.Launch: exit code 0 on success rests on two assumptions. First, `VSOMEIP_ENABLE_SIGNAL_HANDLING` is undefined, so `stop()` and the signal handler exist (lines 71-86, 203-210, 239-243); with it defined nothing joins the threads, and `return 0` also ends in `std::terminate`. Second, `app_->start()` returns only after `stop()` has run, so the call to `Stop` stands in for `start()`.

## Findings

| source | as written | input that shows it | evidently intended | confidence | as-written member | corrected member |
|---|---|---|---|---|---|---|
| VehicleData_producer.cpp:244-249 | when `init()` fails, `main` returns 1 while `offer_thread_` and `notify_thread_` (lines 33-34, 199-200) are still joinable and waiting at lines 118-119 and 147-148; destroying them calls `std::terminate` | any run in which `app_->init()` fails | the process exits with code 1, as `return 1` says | high; not executed | `Producer.LaunchAsWritten` | `Producer.Launch` |

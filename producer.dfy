/** The producer object of VehicleData_producer.cpp: its availability,
    registration and run flags, the notifier's send loop over the payload
    counters, and the lifecycle loop of run().

    The two threads of the source are not modelled.  Each method is one
    operation run to completion; where an operation of the source only
    finishes because another thread acts (notify() leaves its send loop when
    running_ is cleared by stop()), that action is made explicit: Notify is
    observed for a given number of send cycles, and Run takes the number of
    send cycles that pass before the shutdown request arrives. */
module Producer {
  import opened Payload
  import opened CommandLine

  /** vsomeip::state_type_e as on_state() sees it: ST_REGISTERED, or any
      other state. */
  datatype AppState = Registered | Deregistered

  /** is_registered_ after on_state(state) when it was `registered` before. */
  function RegistrationAfter(registered: bool, state: AppState): (r: bool)
    ensures r <==> state == Registered
  {
    if state == Registered then
      if !registered then true else registered
    else false
  }

  /** How main() ends.  Returning destroys the producer, and destroying a
      std::thread that is still joinable calls std::terminate. */
  datatype Exit = ExitCode(code: int) | Terminated

  /** The end of main() returning `code` while the producer's threads are
      (or are not) still joinable. */
  function ExitOnReturn(joinable: bool, code: int): Exit
  {
    if joinable then Terminated else ExitCode(code)
  }

  /** on_state() with the same state twice leaves what once leaves. */
  lemma OnStateIdempotent(registered: bool, state: AppState)
    ensures RegistrationAfter(RegistrationAfter(registered, state), state)
         == RegistrationAfter(registered, state)
  {
  }

  class VehicleDataProducer {
    var isRegistered: bool
    /** Recorded from the command line and never read again. */
    const useTcp: bool
    const cycle: U32
    /** Set once the transport is set up; run() waits for it. */
    var blocked: bool
    var running: bool
    var isOffered: bool
    /** The payload counters (declared in cluster.h, width unknown). */
    var gear: nat
    var kind: nat
    var value: nat
    var speed: nat
    /** Every event handed to the transport by set_data/notify, in order. */
    ghost var Sent: seq<seq<Byte>>
    /** offer_thread_ and notify_thread_ are started by the constructor and
        stay joinable until stop() joins them. */
    var threadsJoinable: bool

    /** Once running_ is cleared, blocked_ is set as well, so the startup
        wait of run() cannot outlast a shutdown; until then the threads have
        not been joined. */
    ghost predicate Valid()
      reads this
    {
      (!running ==> blocked) && (running ==> threadsJoinable)
    }

    function Current(): Counters
      reads this
    {
      Counters(gear, kind, value, speed)
    }

    /** The constructor: not registered, not yet initialised, running, not
        offered, with both threads started.  The counters keep whatever
        value they had. */
    constructor (useTcp: bool, cycle: U32)
      ensures Valid()
      ensures this.useTcp == useTcp && this.cycle == cycle
      ensures !isRegistered && !blocked && running && !isOffered
      ensures Sent == [] && threadsJoinable
    {
      this.useTcp := useTcp;
      this.cycle := cycle;
      isRegistered := false;
      blocked := false;
      running := true;
      isOffered := false;
      Sent := [];
      threadsJoinable := true;
    }

    /** init(): fails, changing nothing, when the application cannot be
        initialised (`appReady` false); otherwise raises blocked_, which
        releases run(). */
    method Init(appReady: bool) returns (ok: bool)
      requires Valid()
      modifies this`blocked
      ensures Valid()
      ensures ok == appReady
      ensures blocked == (old(blocked) || appReady)
    {
      if !appReady {
        return false;
      }
      blocked := true;
      return true;
    }

    /** offer(): the service is advertised. */
    method Offer()
      modifies this`isOffered
      ensures isOffered
    {
      isOffered := true;
    }

    /** stop_offer(): the advertisement is withdrawn. */
    method StopOffer()
      modifies this`isOffered
      ensures !isOffered
    {
      isOffered := false;
    }

    /** stop(): the shutdown request.  running_ goes down for good, blocked_
        goes up, the service is withdrawn and both threads are joined, which
        needs them to be joinable still. */
    method Stop()
      requires threadsJoinable
      modifies this`running, this`blocked, this`isOffered, this`threadsJoinable
      ensures Valid()
      ensures !running && blocked && !isOffered && !threadsJoinable
    {
      running := false;
      blocked := true;
      StopOffer();
      threadsJoinable := false;
    }

    /** on_state(): registered exactly when the new state is ST_REGISTERED. */
    method OnState(state: AppState)
      modifies this`isRegistered
      ensures isRegistered == RegistrationAfter(old(isRegistered), state)
      ensures isRegistered <==> state == Registered
    {
      if state == Registered {
        if !isRegistered {
          isRegistered := true;
        }
      } else {
        isRegistered := false;
      }
    }

    /** Lines 151-174 of notify(), one pass of the send loop: the counters
        are written into its_data, the event goes to the transport, and
        the counters advance. */
    method SendCycle(itsData: array<Byte>)
      requires itsData.Length == PayloadLength
      modifies this`gear, this`kind, this`value, this`speed, this`Sent, itsData
      ensures Current() == Next(old(Current()))
      ensures Sent == old(Sent) + [Encode(old(Current()))]
      ensures itsData[..] == Encode(old(Current()))
    {
      itsData[0] := ToByte(gear);
      itsData[1] := ToByte(kind);
      itsData[2] := ToByte(value);
      itsData[3] := ToByte(speed);
      assert itsData[..SizeOfU32] == Encode(Current());
      Sent := Sent + [itsData[..SizeOfU32]];
      gear := gear + 1;
      kind := kind + 1;
      value := value + 1;
      speed := speed + 1;
      if kind == 4 {
        kind := 0;
      }
    }

    /** notify(), observed for `cycles` passes of its send loop.  The
        counters start again from 12, 1, 12, 60; the send body runs only
        while the service is offered and the producer is running, and each
        pass emits the current counters and then advances them. */
    method Notify(cycles: nat)
      modifies this`gear, this`kind, this`value, this`speed, this`Sent
      ensures Current() == if isOffered && running then CountersAfter(cycles) else Start
      ensures Sent == old(Sent) + if isOffered && running then Payloads(cycles) else []
    {
      var itsData := new Byte[PayloadLength];
      gear, kind, value, speed := 12, 1, 12, 60;
      var i := 0;
      while i < cycles && isOffered && running
        invariant i <= cycles
        invariant i > 0 ==> isOffered && running
        invariant Current() == CountersAfter(i)
        invariant Sent == old(Sent) + Payloads(i)
      {
        SendCycle(itsData);
        i := i + 1;
      }
    }

    /** run(), the lifecycle loop.  It waits for blocked_; then the phase
        flag starts true, so the first round offers the service and calls
        notify(), which returns only once running_ is false.  The shutdown
        request is taken to arrive after `stopAfter` send cycles.  The
        result lists the phase flag of every round the loop makes, and
        `stuck` says that run() is still waiting for blocked_.  Since the
        shutdown is applied as soon as the nested notify() returns, the loop
        makes one offering round and the withdrawing branch is never
        reached.  After a shutdown run() is never stuck, so stop() can join
        the thread that runs it. */
    method Run(stopAfter: nat) returns (phases: seq<bool>, stuck: bool)
      requires Valid()
      modifies this
      ensures Valid()
      ensures stuck <==> !old(blocked)
      ensures !old(running) ==> !stuck
      ensures !old(blocked) || !old(running) ==> phases == [] && unchanged(this)
      ensures old(blocked) && old(running) ==>
        phases == [true] && !running && blocked && !isOffered && !threadsJoinable &&
        isRegistered == old(isRegistered) &&
        Current() == CountersAfter(stopAfter) && Sent == old(Sent) + Payloads(stopAfter)
    {
      phases := [];
      if !blocked {
        // still waiting on condition_ for init() or stop()
        return [], true;
      }
      stuck := false;
      var isOffer := true;
      while running
        invariant Valid()
        invariant running ==> isOffer && phases == [] && unchanged(this)
        invariant !old(running) ==> phases == [] && unchanged(this)
        invariant old(running) && !running ==>
          phases == [true] && blocked && !isOffered && !threadsJoinable &&
          isRegistered == old(isRegistered) &&
          Current() == CountersAfter(stopAfter) && Sent == old(Sent) + Payloads(stopAfter)
        decreases running
      {
        phases := phases + [isOffer];
        if isOffer {
          Offer();
          Notify(stopAfter);
          Stop();
        } else {
          // stop_offer() at line 127: notify() has returned, so running_
          // is false and the loop has already ended
          assert false;
        }
        isOffer := !isOffer;
      }
    }
  }

  /** main() after the argument scan, as written: the producer is built
      with the scanned settings and initialised.  When initialisation
      succeeds, start() returns only after the signal handler's stop() has
      joined the threads, and main returns 0.  When it fails, main returns 1
      at once, with both threads still joinable, and the process is
      terminated instead of exiting with 1. */
  method LaunchAsWritten(argv: seq<string>, convert: (string, U32) -> U32, appReady: bool)
    returns (exit: Exit)
    ensures appReady ==> exit == ExitCode(0)
    ensures !appReady ==> exit == Terminated
  {
    var useTcp, cycle := ParseArgs(argv, convert);
    var producer := new VehicleDataProducer(useTcp, cycle);
    var ok := producer.Init(appReady);
    var code;
    if ok {
      producer.Stop();
      code := 0;
    } else {
      code := 1;
    }
    exit := ExitOnReturn(producer.threadsJoinable, code);
  }

  /** main() as its `return 1` intends: a failed initialisation shuts the
      producer down, as the signal handler would, before returning, so the
      exit code is 0 when initialisation succeeds and 1 when it fails. */
  method Launch(argv: seq<string>, convert: (string, U32) -> U32, appReady: bool)
    returns (exit: Exit)
    ensures exit == ExitCode(if appReady then 0 else 1)
  {
    var useTcp, cycle := ParseArgs(argv, convert);
    var producer := new VehicleDataProducer(useTcp, cycle);
    var ok := producer.Init(appReady);
    var code;
    if ok {
      // start(): app_->start() returns once stop() has run
      producer.Stop();
      code := 0;
    } else {
      producer.Stop();
      code := 1;
    }
    exit := ExitOnReturn(producer.threadsJoinable, code);
  }
}

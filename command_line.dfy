/** The argument scan of main() in VehicleData_producer.cpp: `--tcp` and
    `--udp` choose the transport and end the scan, `--cycle X` sets the cycle
    in milliseconds when an argument follows it.

    argv is the whole argument vector, argv[0] being the program name, so
    argc is |argv|.  The conversion of X by `stringstream >> uint32_t` is
    library behaviour; it is the parameter `convert`, which is given X and
    the cycle read so far, because a conversion that fails (an empty or
    all-blank X) leaves the target as it was. */
module CommandLine {

  type U32 = x: int | 0 <= x < 0x1_0000_0000

  const TcpFlag: string := "--tcp"
  const UdpFlag: string := "--udp"
  const CycleFlag: string := "--cycle"

  /** The two settings main() passes to the producer. */
  datatype Options = Options(useTcp: bool, cycle: U32)

  /** use_tcp = false, cycle = 1000 (one second). */
  const Defaults: Options := Options(false, 1000)

  predicate IsTransportFlag(arg: string)
  {
    arg == TcpFlag || arg == UdpFlag
  }

  /** The index the scan looks at after argument i when that argument is not
      a transport flag: past the value of a `--cycle` that has one, else the
      next argument. */
  function Advance(argv: seq<string>, i: nat): nat
    requires i < |argv|
  {
    if argv[i] == CycleFlag && i + 1 < |argv| then i + 2 else i + 1
  }

  /** What the scan yields when it resumes at index i with the settings
      `opts` found so far. */
  function ScanFrom(argv: seq<string>, i: nat, opts: Options, convert: (string, U32) -> U32): Options
    decreases |argv| - i
  {
    if i >= |argv| then opts
    else if argv[i] == TcpFlag then opts.(useTcp := true)
    else if argv[i] == UdpFlag then opts.(useTcp := false)
    else if argv[i] == CycleFlag && i + 1 < |argv| then
      ScanFrom(argv, i + 2, opts.(cycle := convert(argv[i + 1], opts.cycle)), convert)
    else ScanFrom(argv, i + 1, opts, convert)
  }

  /** The settings main() ends up with for the argument vector argv. */
  function Scan(argv: seq<string>, convert: (string, U32) -> U32): Options
  {
    ScanFrom(argv, 1, Defaults, convert)
  }

  /** The scan, started at i, gets to index j: it passes no transport flag
      before j and does not jump over j as the value of a `--cycle`. */
  ghost predicate Reaches(argv: seq<string>, i: nat, j: nat)
    decreases |argv| - i
  {
    i == j ||
    (i < j && i < |argv| && !IsTransportFlag(argv[i]) && Reaches(argv, Advance(argv, i), j))
  }

  /** The loop of main(), lines 213-236. */
  method ParseArgs(argv: seq<string>, convert: (string, U32) -> U32) returns (useTcp: bool, cycle: U32)
    ensures Options(useTcp, cycle) == Scan(argv, convert)
  {
    useTcp := false;
    cycle := 1000;
    var i := 1;
    while i < |argv|
      invariant 1 <= i
      invariant ScanFrom(argv, i, Options(useTcp, cycle), convert) == Scan(argv, convert)
      decreases |argv| - i
    {
      if argv[i] == TcpFlag {
        useTcp := true;
        break;
      }
      if argv[i] == UdpFlag {
        useTcp := false;
        break;
      }
      if argv[i] == CycleFlag && i + 1 < |argv| {
        i := i + 1;
        cycle := convert(argv[i], cycle);
      }
      i := i + 1;
    }
  }

  /** With no arguments after the program name the defaults stand. */
  lemma NoArguments(program: string, convert: (string, U32) -> U32)
    ensures Scan([program], convert) == Defaults
    ensures Scan([], convert) == Defaults
  {
  }

  /** `--cycle X` sets the cycle to the conversion of X, starting from the
      default. */
  lemma CycleTakesNextArgument(program: string, x: string, convert: (string, U32) -> U32)
    ensures Scan([program, CycleFlag, x], convert) == Options(false, convert(x, 1000))
  {
    var argv := [program, CycleFlag, x];
    assert CycleFlag != TcpFlag && CycleFlag != UdpFlag by {
      assert CycleFlag[2] != TcpFlag[2] && CycleFlag[2] != UdpFlag[2];
    }
    assert ScanFrom(argv, 3, Options(false, convert(x, 1000)), convert) == Options(false, convert(x, 1000));
  }

  /** The first transport flag the scan meets decides use_tcp, and nothing
      after it is looked at: appending arguments changes nothing. */
  lemma {:induction false} TransportFlagEndsScan(argv: seq<string>, rest: seq<string>, i: nat, j: nat,
                                                 opts: Options, convert: (string, U32) -> U32)
    requires j < |argv| && IsTransportFlag(argv[j])
    requires Reaches(argv, i, j)
    ensures ScanFrom(argv + rest, i, opts, convert) == ScanFrom(argv, i, opts, convert)
    ensures ScanFrom(argv, i, opts, convert).useTcp == (argv[j] == TcpFlag)
    decreases |argv| - i
  {
    var whole := argv + rest;
    assert whole[i] == argv[i];
    if i != j {
      if argv[i] == CycleFlag && i + 1 < |argv| {
        assert whole[i + 1] == argv[i + 1];
        TransportFlagEndsScan(argv, rest, i + 2, j, opts.(cycle := convert(argv[i + 1], opts.cycle)), convert);
      } else {
        TransportFlagEndsScan(argv, rest, i + 1, j, opts, convert);
      }
    }
  }

  /** A `--cycle` that the scan reaches as the last argument has no value to
      consume and leaves the settings as they were. */
  lemma {:induction false} TrailingCycleIgnored(argv: seq<string>, i: nat, opts: Options, convert: (string, U32) -> U32)
    requires Reaches(argv + [CycleFlag], i, |argv|)
    ensures ScanFrom(argv + [CycleFlag], i, opts, convert) == ScanFrom(argv, i, opts, convert)
    decreases |argv| - i
  {
    var whole := argv + [CycleFlag];
    if i < |argv| {
      assert whole[i] == argv[i];
      if argv[i] == CycleFlag && i + 1 < |argv| {
        assert whole[i + 1] == argv[i + 1];
        TrailingCycleIgnored(argv, i + 2, opts.(cycle := convert(argv[i + 1], opts.cycle)), convert);
      } else {
        TrailingCycleIgnored(argv, i + 1, opts, convert);
      }
    }
  }

  /** Of `--udp --tcp` the first flag wins: the transport stays UDP. */
  lemma FirstTransportFlagWins(program: string, rest: seq<string>, convert: (string, U32) -> U32)
    ensures Scan([program, UdpFlag, TcpFlag] + rest, convert) == Defaults
  {
    TransportFlagEndsScan([program, UdpFlag], [TcpFlag] + rest, 1, 1, Defaults, convert);
    assert [program, UdpFlag] + ([TcpFlag] + rest) == [program, UdpFlag, TcpFlag] + rest;
  }

  /** A later `--cycle Y` whose conversion keeps the target, as an empty or
      all-blank Y does, keeps the cycle an earlier `--cycle X` set. */
  lemma FailedConversionKeepsCycle(program: string, x: string, y: string, convert: (string, U32) -> U32)
    requires forall c: U32 :: convert(y, c) == c
    ensures Scan([program, CycleFlag, x, CycleFlag, y], convert) == Options(false, convert(x, 1000))
  {
    var argv := [program, CycleFlag, x, CycleFlag, y];
    var opts := Options(false, convert(x, 1000));
    assert CycleFlag != TcpFlag && CycleFlag != UdpFlag by {
      assert CycleFlag[2] != TcpFlag[2] && CycleFlag[2] != UdpFlag[2];
    }
    assert ScanFrom(argv, 5, opts, convert) == opts;
    assert ScanFrom(argv, 3, opts, convert) == ScanFrom(argv, 5, opts.(cycle := convert(y, opts.cycle)), convert);
  }
}

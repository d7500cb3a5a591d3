/**
 * Command-line handling of the off-line driver (dev/molymain.c, main and
 * optarg).  Arguments are strings; C sees each one up to its first NUL, which
 * CStr models.  Printing the help text and exit() become the outcome Exit,
 * a failed assert in optarg becomes Abort.
 */
module Options {

  datatype Option<T> = None | Some(value: T)

  /** The argument as a C string: everything before the first NUL. */
  function CStr(s: string): (c: string)
    ensures |c| <= |s| && c == s[..|c|]
    ensures '\0' !in c
    ensures |c| < |s| ==> s[|c|] == '\0'
  {
    if s == [] || s[0] == '\0' then [] else [s[0]] + CStr(s[1..])
  }

  /** The character at index i of a C string, its terminator past the end. */
  function CharAt(s: string, i: nat): char
  {
    if i < |s| then s[i] else '\0'
  }

  /** optarg: the value of a digit character; anything else fails its assert. */
  function OptArg(c: char): (r: Option<int>)
    ensures r.Some? <==> '0' <= c <= '9'
    ensures r.Some? ==> 0 <= r.value <= 9
  {
    if '0' <= c <= '9' then Some(c as int - '0' as int) else None
  }

  /** The digit character of a value 0..9. */
  function DigitChar(v: int): char
    requires 0 <= v <= 9
  {
    ('0' as int + v) as char
  }

  /** optarg inverts the digit encoding in both directions. */
  lemma OptArgRoundTrip(v: int, c: char)
    requires 0 <= v <= 9
    ensures OptArg(DigitChar(v)) == Some(v)
    ensures OptArg(c).Some? ==> DigitChar(OptArg(c).value) == c
  {
  }

  /** The option letters that take a digit, in the order main tests them. */
  const DIGIT_OPTIONS: string := "zwtyr"

  /** What one argument is, following main's chain of comparisons. */
  datatype ArgKind =
    | Help                                   // exactly "-h"
    | PrintInfo                              // exactly "-p"
    | Digit(opt: char, value: Option<int>)   // "-z", "-w", "-t", "-y", "-r" followed by anything
    | Verbose                                // exactly "-v"
    | Unknown                                // any other argument starting with '-'
    | FileName                               // an argument not starting with '-'

  function Classify(a: string): ArgKind
  {
    var s := CStr(a);
    if CharAt(s, 0) != '-' then FileName
    else if s == "-h" then Help
    else if s == "-p" then PrintInfo
    else if |s| >= 2 && s[1] in DIGIT_OPTIONS then Digit(s[1], OptArg(CharAt(s, 2)))
    else if s == "-v" then Verbose
    else Unknown
  }

  /** The option variables of main. */
  datatype Settings = Settings(w: int, z: int, t: int, y: int, r: int, v: int, printInfo: bool)

  /** Their initial values. */
  const DEFAULTS: Settings := Settings(0, 0, 0, 0, 5, 0, false)

  function Get(s: Settings, opt: char): int
    requires opt in DIGIT_OPTIONS
  {
    match opt
    case 'w' => s.w
    case 'z' => s.z
    case 't' => s.t
    case 'y' => s.y
    case 'r' => s.r
  }

  function Put(s: Settings, opt: char, value: int): (u: Settings)
    requires opt in DIGIT_OPTIONS
    ensures Get(u, opt) == value
    ensures forall o :: o in DIGIT_OPTIONS && o != opt ==> Get(u, o) == Get(s, o)
    ensures u.v == s.v && u.printInfo == s.printInfo
  {
    match opt
    case 'w' => s.(w := value)
    case 'z' => s.(z := value)
    case 't' => s.(t := value)
    case 'y' => s.(y := value)
    case 'r' => s.(r := value)
  }

  /** The state of the scan: the options so far and the last file name. */
  datatype Parsed = Parsed(settings: Settings, filename: Option<string>)

  /** How main ends its argument handling. */
  datatype Scan =
    | Run(settings: Settings, filename: string)   // goes on to process the file
    | Exit(code: int)                             // help or error text, then exit(code)
    | Abort                                       // optarg's assert fails

  datatype Step = Continue(p: Parsed) | Stop(outcome: Scan)

  /** One iteration of the argument loop. */
  function StepArg(p: Parsed, a: string): Step
  {
    match Classify(a)
    case Help => Stop(Exit(0))
    case PrintInfo => Continue(p.(settings := p.settings.(printInfo := true)))
    case Digit(opt, None) => Stop(Abort)
    case Digit(opt, Some(v)) => Continue(p.(settings := Put(p.settings, opt, v)))
    case Verbose => Continue(p.(settings := p.settings.(v := 1)))
    case Unknown => Stop(Exit(1))
    case FileName => Continue(p.(filename := Some(CStr(a))))
  }

  /** After the loop: without a file name, the help text and exit(1). */
  function Finish(p: Parsed): Scan
  {
    match p.filename
    case None => Exit(1)
    case Some(f) => Run(p.settings, f)
  }

  /** The loop over the remaining arguments. */
  function ScanFrom(p: Parsed, args: seq<string>): Scan
    decreases |args|
  {
    if args == [] then Finish(p)
    else match StepArg(p, args[0])
      case Stop(r) => r
      case Continue(q) => ScanFrom(q, args[1..])
  }

  /** The arguments after the program name. */
  function Tail(argv: seq<string>): seq<string>
  {
    if argv == [] then [] else argv[1..]
  }

  function ScanSpec(argv: seq<string>): Scan
  {
    ScanFrom(Parsed(DEFAULTS, None), Tail(argv))
  }

  /** main's argument loop, with its variables. */
  method ScanArgs(argv: seq<string>) returns (result: Scan)
    ensures result == ScanSpec(argv)
  {
    var filename: Option<string> := None;
    var optPrintInfo := false;
    var opt_w, opt_z, opt_y, opt_r, opt_v, opt_t := 0, 0, 0, 5, 0, 0;
    var i := 1;
    while i < |argv|
      invariant 1 <= i <= |argv| || (argv == [] && i == 1)
      invariant ScanFrom(Parsed(Settings(opt_w, opt_z, opt_t, opt_y, opt_r, opt_v, optPrintInfo), filename),
                         if argv == [] then [] else argv[i..]) == ScanSpec(argv)
    {
      assert argv[i..][1..] == argv[i + 1..];
      match Classify(argv[i]) {
      case Help => return Exit(0);
      case PrintInfo => optPrintInfo := true;
      case Digit(opt, value) =>
        if value.None? {
          return Abort;
        }
        if opt == 'z' {
          opt_z := value.value;
        } else if opt == 'w' {
          opt_w := value.value;
        } else if opt == 't' {
          opt_t := value.value;
        } else if opt == 'y' {
          opt_y := value.value;
        } else {
          opt_r := value.value;
        }
      case Verbose => opt_v := 1;
      case Unknown => return Exit(1);
      case FileName => filename := Some(CStr(argv[i]));
      }
      i := i + 1;
    }
    if filename.None? {
      return Exit(1);
    }
    return Run(Settings(opt_w, opt_z, opt_t, opt_y, opt_r, opt_v, optPrintInfo), filename.value);
  }

  // ---------------------------------------------------------------------
  // What the scan computes, stated without the loop

  /** An argument that ends the scan early. */
  predicate Stops(a: string)
  {
    match Classify(a)
    case Help => true
    case Unknown => true
    case Digit(_, value) => value.None?
    case _ => false
  }

  /** The outcome of an argument that stops the scan. */
  function StopOutcome(a: string): Scan
  {
    match Classify(a)
    case Help => Exit(0)
    case Unknown => Exit(1)
    case _ => Abort
  }

  /** The value given by the last argument setting opt, or dflt. */
  function LastValue(args: seq<string>, opt: char, dflt: int): int
  {
    if args == [] then dflt
    else match Classify(args[|args| - 1])
      case Digit(o, Some(v)) => if o == opt then v else LastValue(args[..|args| - 1], opt, dflt)
      case _ => LastValue(args[..|args| - 1], opt, dflt)
  }

  /** The last file name argument, or dflt. */
  function LastFile(args: seq<string>, dflt: Option<string>): Option<string>
  {
    if args == [] then dflt
    else if Classify(args[|args| - 1]) == FileName then Some(CStr(args[|args| - 1]))
    else LastFile(args[..|args| - 1], dflt)
  }

  predicate AnyIs(args: seq<string>, k: ArgKind)
  {
    exists i :: 0 <= i < |args| && Classify(args[i]) == k
  }

  /** The state after a run of arguments none of which stops. */
  function Summary(p: Parsed, args: seq<string>): Parsed
  {
    var s := p.settings;
    Parsed(Settings(LastValue(args, 'w', s.w), LastValue(args, 'z', s.z), LastValue(args, 't', s.t),
                    LastValue(args, 'y', s.y), LastValue(args, 'r', s.r),
                    if AnyIs(args, Verbose) then 1 else s.v,
                    s.printInfo || AnyIs(args, PrintInfo)),
           LastFile(args, p.filename))
  }

  lemma {:induction false} LastValueCons(a: string, rest: seq<string>, opt: char, dflt: int)
    ensures LastValue([a] + rest, opt, dflt) == LastValue(rest, opt, LastValue([a], opt, dflt))
    decreases |rest|
  {
    if rest != [] {
      var init := rest[..|rest| - 1];
      assert ([a] + rest)[..|rest|] == [a] + init;
      assert ([a] + rest)[|rest|] == rest[|rest| - 1];
      LastValueCons(a, init, opt, dflt);
    } else {
      assert [a] + rest == [a];
    }
  }

  lemma {:induction false} LastFileCons(a: string, rest: seq<string>, dflt: Option<string>)
    ensures LastFile([a] + rest, dflt) == LastFile(rest, LastFile([a], dflt))
    decreases |rest|
  {
    if rest != [] {
      var init := rest[..|rest| - 1];
      assert ([a] + rest)[..|rest|] == [a] + init;
      assert ([a] + rest)[|rest|] == rest[|rest| - 1];
      LastFileCons(a, init, dflt);
    } else {
      assert [a] + rest == [a];
    }
  }

  lemma AnyIsCons(args: seq<string>, k: ArgKind)
    requires args != []
    ensures AnyIs(args, k) <==> Classify(args[0]) == k || AnyIs(args[1..], k)
  {
    if AnyIs(args, k) {
      var i :| 0 <= i < |args| && Classify(args[i]) == k;
      if i > 0 {
        assert args[1..][i - 1] == args[i];
      }
    }
    if AnyIs(args[1..], k) {
      var i :| 0 <= i < |args[1..]| && Classify(args[1..][i]) == k;
      assert args[i + 1] == args[1..][i];
    }
  }

  lemma AnyIsSingle(a: string, k: ArgKind)
    ensures AnyIs([a], k) <==> Classify(a) == k
  {
    assert [a][0] == a;
  }

  /** One step that does not stop is the summary of its argument. */
  lemma StepOne(p: Parsed, a: string)
    requires !Stops(a)
    ensures StepArg(p, a) == Continue(Summary(p, [a]))
  {
    AnyIsSingle(a, Verbose);
    AnyIsSingle(a, PrintInfo);
    var s := p.settings;
    LastValueSingle(a, 'w', s.w);
    LastValueSingle(a, 'z', s.z);
    LastValueSingle(a, 't', s.t);
    LastValueSingle(a, 'y', s.y);
    LastValueSingle(a, 'r', s.r);
    LastFileSingle(a, p.filename);
    match Classify(a)
    case Digit(opt, Some(v)) =>
      assert Summary(p, [a]).settings == Put(s, opt, v);
    case _ =>
  }

  lemma LastFileSingle(a: string, dflt: Option<string>)
    ensures LastFile([a], dflt) == if Classify(a) == FileName then Some(CStr(a)) else dflt
  {
    assert [a][..0] == [];
    assert [a][0] == a;
  }

  lemma LastValueSingle(a: string, opt: char, dflt: int)
    ensures LastValue([a], opt, dflt) ==
      match Classify(a) case Digit(o, Some(v)) => if o == opt then v else dflt case _ => dflt
  {
    assert [a][..0] == [];
    assert [a][0] == a;
  }

  /** Summaries compose: one argument, then the rest. */
  lemma SummaryCons(p: Parsed, args: seq<string>)
    requires args != []
    ensures Summary(Summary(p, [args[0]]), args[1..]) == Summary(p, args)
  {
    var a := args[0];
    assert args == [a] + args[1..];
    LastValueCons(a, args[1..], 'w', p.settings.w);
    LastValueCons(a, args[1..], 'z', p.settings.z);
    LastValueCons(a, args[1..], 't', p.settings.t);
    LastValueCons(a, args[1..], 'y', p.settings.y);
    LastValueCons(a, args[1..], 'r', p.settings.r);
    LastFileCons(a, args[1..], p.filename);
    AnyIsCons(args, Verbose);
    AnyIsCons(args, PrintInfo);
    AnyIsSingle(a, Verbose);
    AnyIsSingle(a, PrintInfo);
  }

  /** One step that does not stop, seen through Summary. */
  lemma StepSummary(p: Parsed, args: seq<string>)
    requires args != [] && !Stops(args[0])
    ensures StepArg(p, args[0]).Continue?
    ensures Summary(StepArg(p, args[0]).p, args[1..]) == Summary(p, args)
  {
    StepOne(p, args[0]);
    SummaryCons(p, args);
  }

  /** Without a stopping argument, the scan ends in Finish of the summary. */
  lemma {:induction false} ScanFromRuns(p: Parsed, args: seq<string>)
    requires forall j :: 0 <= j < |args| ==> !Stops(args[j])
    ensures ScanFrom(p, args) == Finish(Summary(p, args))
    decreases |args|
  {
    if args != [] {
      StepSummary(p, args);
      ScanFromRuns(StepArg(p, args[0]).p, args[1..]);
    }
  }

  /** The first stopping argument decides the outcome. */
  lemma {:induction false} ScanFromStops(p: Parsed, args: seq<string>, k: nat)
    requires k < |args| && Stops(args[k])
    requires forall j :: 0 <= j < k ==> !Stops(args[j])
    ensures ScanFrom(p, args) == StopOutcome(args[k])
    decreases k
  {
    if k > 0 {
      StepSummary(p, args);
      ScanFromStops(StepArg(p, args[0]).p, args[1..], k - 1);
    }
  }

  /**
   * main runs on the options the arguments give when none of them stops it:
   * the last value of each digit option (defaults 0, and 5 for r), -v and -p
   * if they appear anywhere, and the last file name; without a file name it
   * exits with code 1.
   */
  lemma ScanRuns(argv: seq<string>)
    requires forall j :: 1 <= j < |argv| ==> !Stops(argv[j])
    ensures var args := Tail(argv);
      ScanSpec(argv) == Finish(Parsed(
        Settings(LastValue(args, 'w', 0), LastValue(args, 'z', 0), LastValue(args, 't', 0),
                 LastValue(args, 'y', 0), LastValue(args, 'r', 5),
                 if AnyIs(args, Verbose) then 1 else 0, AnyIs(args, PrintInfo)),
        LastFile(args, None)))
  {
    var args := Tail(argv);
    forall j | 0 <= j < |args| ensures !Stops(args[j]) {
      assert args[j] == argv[j + 1];
    }
    ScanFromRuns(Parsed(DEFAULTS, None), args);
  }

  /**
   * The first argument (after the program name) that is "-h", an unknown
   * option or a digit option without a digit ends the scan: exit(0), exit(1)
   * or the failed assert, whatever follows it.
   */
  lemma ScanStops(argv: seq<string>, k: nat)
    requires 1 <= k < |argv| && Stops(argv[k])
    requires forall j :: 1 <= j < k ==> !Stops(argv[j])
    ensures ScanSpec(argv) == StopOutcome(argv[k])
  {
    var args := Tail(argv);
    forall j | 0 <= j < k - 1 ensures !Stops(args[j]) {
      assert args[j] == argv[j + 1];
    }
    ScanFromStops(Parsed(DEFAULTS, None), args, k - 1);
  }

  lemma {:induction false} LastValueRange(args: seq<string>, opt: char, dflt: int)
    requires 0 <= dflt <= 9
    ensures 0 <= LastValue(args, opt, dflt) <= 9
    decreases |args|
  {
    if args != [] {
      LastValueRange(args[..|args| - 1], opt, dflt);
    }
  }

  lemma {:induction false} LastFileSome(args: seq<string>)
    ensures LastFile(args, None).Some? <==> AnyIs(args, FileName)
    decreases |args|
  {
    if args != [] {
      var init := args[..|args| - 1];
      LastFileSome(init);
      if AnyIs(init, FileName) {
        var i :| 0 <= i < |init| && Classify(init[i]) == FileName;
        assert args[i] == init[i];
      }
      if AnyIs(args, FileName) && Classify(args[|args| - 1]) != FileName {
        var i :| 0 <= i < |args| && Classify(args[i]) == FileName;
        assert init[i] == args[i];
      }
    }
  }

  /**
   * When main goes on to process a file, every digit option holds 0..9
   * and -v holds 0 or 1; and it goes on exactly when no argument stops it
   * and some argument names a file.
   */
  lemma RunIff(argv: seq<string>)
    ensures ScanSpec(argv).Run? <==>
      (forall j :: 1 <= j < |argv| ==> !Stops(argv[j])) && AnyIs(Tail(argv), FileName)
    ensures ScanSpec(argv).Run? ==>
      var s := ScanSpec(argv).settings;
      0 <= s.w <= 9 && 0 <= s.z <= 9 && 0 <= s.t <= 9 && 0 <= s.y <= 9 && 0 <= s.r <= 9
      && (s.v == 0 || s.v == 1)
  {
    var args := Tail(argv);
    if forall j :: 1 <= j < |argv| ==> !Stops(argv[j]) {
      ScanRuns(argv);
      LastFileSome(args);
      LastValueRange(args, 'w', 0);
      LastValueRange(args, 'z', 0);
      LastValueRange(args, 't', 0);
      LastValueRange(args, 'y', 0);
      LastValueRange(args, 'r', 5);
    } else {
      var k :| 1 <= k < |argv| && Stops(argv[k]);
      var first := FirstStop(argv, k);
      ScanStops(argv, first);
    }
  }

  /** The earliest stopping argument, given one at k. */
  lemma {:induction false} FirstStop(argv: seq<string>, k: nat) returns (first: nat)
    requires 1 <= k < |argv| && Stops(argv[k])
    ensures 1 <= first <= k && Stops(argv[first])
    ensures forall j :: 1 <= j < first ==> !Stops(argv[j])
    decreases k
  {
    if exists j :: 1 <= j < k && Stops(argv[j]) {
      var j :| 1 <= j < k && Stops(argv[j]);
      first := FirstStop(argv, j);
    } else {
      first := k;
    }
  }
}

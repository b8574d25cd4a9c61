/** fromCommandLine of src/phare/phare.cpp: which data provider the command line asks for. */
module PhareCli {
  import opened Wrappers

  /** std::size_t arithmetic wraps modulo 2^64. */
  const SIZE_MODULUS: int := 0x1_0000_0000_0000_0000

  /** std::string::npos, the largest std::size_t, returned when nothing is found. */
  const NPOS: int := SIZE_MODULUS - 1

  /** The providers fromCommandLine can build; None in its result stands for nullptr. */
  datatype DataProvider = PythonDataProvider(moduleName: string)

  /** Addition of two std::size_t values. */
  function SizeAdd(a: nat, b: nat): (r: nat)
    ensures r < SIZE_MODULUS
    ensures a + b < SIZE_MODULUS ==> r == a + b
  {
    (a + b) % SIZE_MODULUS
  }

  /** std::string::find_last_of with a one-character set: the last position of c, or npos. */
  function FindLastOf(s: string, c: char): (r: nat)
    requires |s| < NPOS
    ensures r == NPOS || (r < |s| && s[r] == c)
    ensures r == NPOS <==> forall i :: 0 <= i < |s| ==> s[i] != c
    ensures r != NPOS ==> forall j :: r < j < |s| ==> s[j] != c
  {
    if |s| == 0 then NPOS
    else if s[|s| - 1] == c then |s| - 1
    else FindLastOf(s[..|s| - 1], c)
  }

  /** std::string::substr(pos, count) for a position inside the string (the source never passes another). */
  function Substr(s: string, pos: nat, count: nat): (r: string)
    requires pos <= |s|
    ensures r == s[pos..if count < |s| - pos then pos + count else |s|]
  {
    if count < |s| - pos then s[pos..pos + count] else s[pos..]
  }

  /**
   * fromCommandLine(argc, argv), with argv[0 .. argc-1] given as `argv`. Only a single argument
   * whose text after its last '.' is "py" gives a provider, built from the text before that '.'.
   */
  function FromCommandLine(argv: seq<string>): (r: Option<DataProvider>)
    requires forall i :: 0 <= i < |argv| ==> |argv[i]| < NPOS
    ensures r.Some? ==> |argv| == 2
    ensures r.Some? ==> argv[1] == r.value.moduleName + ".py" || (argv[1] == "py" && r.value.moduleName == "py")
  {
    if |argv| == 1 then None
    else if |argv| == 2 then
      var arg := argv[1];
      var dot := FindLastOf(arg, '.');
      var moduleName := Substr(arg, 0, dot);
      var extensionStart := SizeAdd(dot, 1);
      assert extensionStart <= |arg|;
      if Substr(arg, extensionStart, NPOS) == "py" then
        assert dot != NPOS ==> arg == arg[..dot] + "." + arg[dot + 1..];
        Some(PythonDataProvider(moduleName))
      else None
    else None
  }

  /** Without arguments there is no provider. */
  lemma NoArgumentNoProvider(program: string)
    requires |program| < NPOS
    ensures FromCommandLine([program]) == None
  {
  }

  /** More than one argument, or none at all (argc 0), gives nullptr too. */
  lemma OtherArgumentCountsNoProvider(argv: seq<string>)
    requires forall i :: 0 <= i < |argv| ==> |argv[i]| < NPOS
    requires |argv| != 2
    ensures FromCommandLine(argv) == None
  {
  }

  /** The last '.' of stem + "." + ext is the one before ext when ext has no '.'. */
  lemma {:induction false} LastDotBeforeExtension(stem: string, ext: string)
    requires '.' !in ext
    requires |stem| + 1 + |ext| < NPOS
    ensures FindLastOf(stem + "." + ext, '.') == |stem|
  {
    var s := stem + "." + ext;
    if ext == [] {
      assert s[|s| - 1] == '.';
    } else {
      assert s[|s| - 1] == ext[|ext| - 1];
      assert s[..|s| - 1] == stem + "." + ext[..|ext| - 1];
      LastDotBeforeExtension(stem, ext[..|ext| - 1]);
    }
  }

  /** A script "<module>.py" selects the Python provider for <module>, whatever dots <module> holds. */
  lemma PythonScriptSelectsPythonProvider(program: string, stem: string)
    requires |program| < NPOS && |stem| + 3 < NPOS
    ensures FromCommandLine([program, stem + ".py"]) == Some(PythonDataProvider(stem))
  {
    LastDotBeforeExtension(stem, "py");
    assert stem + ".py" == stem + "." + "py";
    assert (stem + ".py")[..|stem|] == stem;
    assert (stem + ".py")[|stem| + 1..] == "py";
  }

  /** Any other extension gives nullptr. */
  lemma OtherExtensionGivesNoProvider(program: string, stem: string, ext: string)
    requires '.' !in ext && ext != "py"
    requires |program| < NPOS && |stem| + 1 + |ext| < NPOS
    ensures FromCommandLine([program, stem + "." + ext]) == None
  {
    LastDotBeforeExtension(stem, ext);
    assert (stem + "." + ext)[|stem| + 1..] == ext;
  }

  /**
   * Without a '.', find_last_of gives npos and npos + 1 wraps to 0, so the whole argument is
   * compared with "py" and is also the module name.
   */
  lemma {:induction false} NoDotComparesWholeArgument(program: string, arg: string)
    requires '.' !in arg
    requires |program| < NPOS && |arg| < NPOS
    ensures FromCommandLine([program, arg]) == if arg == "py" then Some(PythonDataProvider(arg)) else None
  {
    assert FindLastOf(arg, '.') == NPOS;
    assert SizeAdd(NPOS, 1) == 0;
  }
}

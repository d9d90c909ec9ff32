/**
 * The holder for the arguments passed to a VM runner: two mandatory values
 * (the class to launch and the class path) fixed at construction, and nine
 * optional values set one at a time through setters.
 *
 * The module has two layers. `Settings`, `Setter`, `Step` and `Run` describe
 * the holder as a value: what each setter call does to the stored fields and
 * what the getters then answer, over one call and over any sequence of calls.
 * The class `VMRunnerConfiguration` is the object itself, with one field per
 * stored value; each of its methods is specified by the matching `Step`.
 */
module VMRunnerConfig {
  import opened Wrappers

  /** A Java `String[]`; a nullable one is an `Option<Strings>`. */
  type Strings = seq<string>

  /** The VM-specific attribute map: String name/value pairs. */
  type AttributeMap = map<string, string>

  /** The IllegalArgumentExceptions the holder throws, one per null check. */
  datatype ArgumentError = ClassNotNull | ClassPathNotNull | VMArgsNotNull | ProgramArgsNotNull
  {
    /** The key under which the exception's message text is looked up. */
    function MessageKey(): string {
      match this
      case ClassNotNull => "vmRunnerConfig.assert.classNotNull"
      case ClassPathNotNull => "vmRunnerConfig.assert.classPathNotNull"
      case VMArgsNotNull => "vmRunnerConfig.assert.vmArgsNotNull"
      case ProgramArgsNotNull => "vmRunnerConfig.assert.programArgsNotNull"
    }
  }

  /** The eleven stored fields, as values; None is a field holding null. */
  datatype Settings = Settings(
    classToLaunch: string,
    vmArgs: Option<Strings>,
    programArgs: Option<Strings>,
    environment: Option<Strings>,
    classPath: Strings,
    prependBootClassPath: Option<Strings>,
    mainBootClassPath: Option<Strings>,
    appendBootClassPath: Option<Strings>,
    bootClassPath: Option<Strings>,
    workingDirectory: Option<string>,
    vmSpecificAttributesMap: Option<AttributeMap>)
  {
    /** What getVMArguments answers: an unset list reads as the empty array. */
    function VMArguments(): Strings {
      if vmArgs.None? then [] else vmArgs.value
    }

    /** What getProgramArguments answers: an unset list reads as the empty array. */
    function ProgramArguments(): Strings {
      if programArgs.None? then [] else programArgs.value
    }

    /** The boot classpath supplements are null when there are none, never an empty array. */
    predicate Normalised() {
      prependBootClassPath != Some([]) && appendBootClassPath != Some([])
    }
  }

  /**
   * The constructor: it rejects a null class name first, then a null class
   * path; otherwise it stores both and leaves every optional field null.
   */
  function New(classToLaunch: Option<string>, classPath: Option<Strings>): (r: Result<Settings, ArgumentError>)
    ensures r.Failure? <==> classToLaunch.None? || classPath.None?
    ensures classToLaunch.None? ==> r.error == ClassNotNull
    ensures classToLaunch.Some? && classPath.None? ==> r.error == ClassPathNotNull
    ensures r.Success? ==> r.value.classToLaunch == classToLaunch.value && r.value.classPath == classPath.value
    ensures r.Success? ==> r.value.VMArguments() == [] && r.value.ProgramArguments() == []
    ensures r.Success? ==> r.value.environment.None? && r.value.workingDirectory.None? && r.value.vmSpecificAttributesMap.None?
    ensures r.Success? ==> r.value.prependBootClassPath.None? && r.value.mainBootClassPath.None?
    ensures r.Success? ==> r.value.appendBootClassPath.None? && r.value.bootClassPath.None?
    ensures r.Success? ==> r.value.Normalised()
  {
    if classToLaunch.None? then Failure(ClassNotNull)
    else if classPath.None? then Failure(ClassPathNotNull)
    else Success(Settings(classToLaunch.value, None, None, None, classPath.value, None, None, None, None, None, None))
  }

  /**
   * What setPrependBootClassPath and setAppendBootClassPath store: the
   * argument as given, except that an empty array becomes null.
   */
  function NormaliseSupplement(entries: Option<Strings>): (r: Option<Strings>)
    ensures entries == Some([]) ==> r.None?
    ensures entries != Some([]) ==> r == entries
    ensures r != Some([])
  {
    if entries.Some? && |entries.value| == 0 then None else entries
  }

  /** One call of a setter, with its (possibly null) argument. */
  datatype Setter =
    | SetVMSpecificAttributesMap(attributes: Option<AttributeMap>)
    | SetVMArguments(args: Option<Strings>)
    | SetProgramArguments(args: Option<Strings>)
    | SetEnvironment(environment: Option<Strings>)
    | SetPrependBootClassPath(entries: Option<Strings>)
    | SetMainBootClassPath(entries: Option<Strings>)
    | SetAppendBootClassPath(entries: Option<Strings>)
    | SetBootClassPath(entries: Option<Strings>)
    | SetWorkingDirectory(path: Option<string>)
  {
    /** The two argument setters throw on null; every other setter accepts it. */
    predicate Rejects() {
      (SetVMArguments? || SetProgramArguments?) && args.None?
    }

    /** The exception a rejected call throws. */
    function Rejection(): ArgumentError
      requires Rejects()
    {
      if SetVMArguments? then VMArgsNotNull else ProgramArgsNotNull
    }

    /** The field the setter writes. */
    function Target(): Field {
      match this
      case SetVMSpecificAttributesMap(_) => VMSpecificAttributesMap
      case SetVMArguments(_) => VMArgs
      case SetProgramArguments(_) => ProgramArgs
      case SetEnvironment(_) => Environment
      case SetPrependBootClassPath(_) => PrependBootClassPath
      case SetMainBootClassPath(_) => MainBootClassPath
      case SetAppendBootClassPath(_) => AppendBootClassPath
      case SetBootClassPath(_) => BootClassPath
      case SetWorkingDirectory(_) => WorkingDirectory
    }
  }

  /** The fields, one per getter. */
  datatype Field =
    | ClassToLaunch | VMArgs | ProgramArgs | Environment | ClassPath
    | PrependBootClassPath | MainBootClassPath | AppendBootClassPath | BootClassPath
    | WorkingDirectory | VMSpecificAttributesMap

  /** What a getter can answer. */
  datatype Reading =
    | Name(name: string)
    | Entries(entries: Option<Strings>)
    | Directory(path: Option<string>)
    | Attributes(attributes: Option<AttributeMap>)

  /** The answer of the getter for field `f`. */
  function Read(s: Settings, f: Field): Reading {
    match f
    case ClassToLaunch => Name(s.classToLaunch)
    case VMArgs => Entries(Some(s.VMArguments()))
    case ProgramArgs => Entries(Some(s.ProgramArguments()))
    case Environment => Entries(s.environment)
    case ClassPath => Entries(Some(s.classPath))
    case PrependBootClassPath => Entries(s.prependBootClassPath)
    case MainBootClassPath => Entries(s.mainBootClassPath)
    case AppendBootClassPath => Entries(s.appendBootClassPath)
    case BootClassPath => Entries(s.bootClassPath)
    case WorkingDirectory => Directory(s.workingDirectory)
    case VMSpecificAttributesMap => Attributes(s.vmSpecificAttributesMap)
  }

  /**
   * One setter call. A rejected call throws before assigning anything; an
   * accepted one overwrites its own field and keeps the mandatory values and
   * the normal form of the boot classpath supplements.
   */
  function Step(s: Settings, c: Setter): (r: Result<Settings, ArgumentError>)
    ensures r.Failure? <==> c.Rejects()
    ensures r.Failure? ==> r.error == c.Rejection()
    ensures r.Success? ==> r.value.classToLaunch == s.classToLaunch && r.value.classPath == s.classPath
    ensures r.Success? && s.Normalised() ==> r.value.Normalised()
  {
    match c
    case SetVMSpecificAttributesMap(attributes) => Success(s.(vmSpecificAttributesMap := attributes))
    case SetVMArguments(args) =>
      if args.None? then Failure(VMArgsNotNull) else Success(s.(vmArgs := args))
    case SetProgramArguments(args) =>
      if args.None? then Failure(ProgramArgsNotNull) else Success(s.(programArgs := args))
    case SetEnvironment(environment) => Success(s.(environment := environment))
    case SetPrependBootClassPath(entries) => Success(s.(prependBootClassPath := NormaliseSupplement(entries)))
    case SetMainBootClassPath(entries) => Success(s.(mainBootClassPath := entries))
    case SetAppendBootClassPath(entries) => Success(s.(appendBootClassPath := NormaliseSupplement(entries)))
    case SetBootClassPath(entries) => Success(s.(bootClassPath := entries))
    case SetWorkingDirectory(path) => Success(s.(workingDirectory := path))
  }

  /** A client calling the setters in order; the first exception ends the sequence. */
  function Run(s: Settings, calls: seq<Setter>): Result<Settings, ArgumentError>
    decreases |calls|
  {
    if calls == [] then Success(s)
    else match Step(s, calls[0])
      case Failure(e) => Failure(e)
      case Success(t) => Run(t, calls[1..])
  }

  // ---------------------------------------------------------------------
  // One setter call

  /** setVMArguments and setProgramArguments throw exactly on null; otherwise the getter returns the array given, empty or not. */
  lemma ArgumentSettersRoundTrip(s: Settings, args: Option<Strings>)
    ensures Step(s, SetVMArguments(args)).Failure? <==> args.None?
    ensures Step(s, SetProgramArguments(args)).Failure? <==> args.None?
    ensures args.Some? ==> Step(s, SetVMArguments(args)).value.VMArguments() == args.value
    ensures args.Some? ==> Step(s, SetProgramArguments(args)).value.ProgramArguments() == args.value
  {
  }

  /** After setting a supplement, its getter answers null for a null or empty argument and the argument otherwise. */
  lemma SupplementSettersNormalise(s: Settings, entries: Option<Strings>)
    ensures Step(s, SetPrependBootClassPath(entries)).value.prependBootClassPath
         == (if entries.None? || entries == Some([]) then None else entries)
    ensures Step(s, SetAppendBootClassPath(entries)).value.appendBootClassPath
         == (if entries.None? || entries == Some([]) then None else entries)
  {
  }

  /** The main boot classpath and the full boot classpath are stored verbatim. */
  lemma BootClassPathsStoredVerbatim(s: Settings, entries: Option<Strings>)
    ensures Step(s, SetMainBootClassPath(entries)).value.mainBootClassPath == entries
    ensures Step(s, SetBootClassPath(entries)).value.bootClassPath == entries
  {
  }

  /**
   * An empty boot classpath (an empty bootpath) and a null one (the default
   * bootpath) stay apart, while the supplements fold the two together.
   */
  lemma EmptyBootClassPathIsNotDefault(s: Settings)
    ensures Read(Step(s, SetBootClassPath(Some([]))).value, BootClassPath)
         != Read(Step(s, SetBootClassPath(None)).value, BootClassPath)
    ensures Read(Step(s, SetMainBootClassPath(Some([]))).value, MainBootClassPath)
         != Read(Step(s, SetMainBootClassPath(None)).value, MainBootClassPath)
    ensures Read(Step(s, SetPrependBootClassPath(Some([]))).value, PrependBootClassPath)
         == Read(Step(s, SetPrependBootClassPath(None)).value, PrependBootClassPath)
    ensures Read(Step(s, SetAppendBootClassPath(Some([]))).value, AppendBootClassPath)
         == Read(Step(s, SetAppendBootClassPath(None)).value, AppendBootClassPath)
  {
  }

  /** The environment, the working directory and the attribute map accept null and read back whatever was set last. */
  lemma NullableFieldsRoundTrip(s: Settings, environment: Option<Strings>, path: Option<string>, attributes: Option<AttributeMap>)
    ensures Read(Step(s, SetEnvironment(environment)).value, Environment) == Entries(environment)
    ensures Read(Step(s, SetWorkingDirectory(path)).value, WorkingDirectory) == Directory(path)
    ensures Read(Step(s, SetVMSpecificAttributesMap(attributes)).value, VMSpecificAttributesMap) == Attributes(attributes)
  {
  }

  /** A setter call changes what its own getter answers and nothing else. */
  lemma StepFrame(s: Settings, c: Setter, f: Field)
    requires f != c.Target()
    ensures Step(s, c).Success? ==> Read(Step(s, c).value, f) == Read(s, f)
  {
  }

  /** Calling a setter twice with the same argument leaves the state of calling it once. */
  lemma SettersIdempotent(s: Settings, c: Setter)
    ensures Run(s, [c, c]) == Run(s, [c])
  {
  }

  // ---------------------------------------------------------------------
  // Any sequence of setter calls

  /** A sequence of calls throws exactly when one of its calls passes null to an argument setter, and then throws that first call's exception. */
  lemma {:induction false} RunFailsExactlyOnRejectedCall(s: Settings, calls: seq<Setter>)
    ensures Run(s, calls).Failure? <==> exists i :: 0 <= i < |calls| && calls[i].Rejects()
    ensures Run(s, calls).Failure? ==>
      exists i :: 0 <= i < |calls| && calls[i].Rejects() && Run(s, calls).error == calls[i].Rejection()
        && forall j :: 0 <= j < i ==> !calls[j].Rejects()
    decreases |calls|
  {
    if calls != [] {
      match Step(s, calls[0])
      case Failure(e) =>
        assert calls[0].Rejects();
      case Success(t) =>
        RunFailsExactlyOnRejectedCall(t, calls[1..]);
        assert !calls[0].Rejects();
        if Run(t, calls[1..]).Failure? {
          var i :| 0 <= i < |calls[1..]| && calls[1..][i].Rejects() && Run(t, calls[1..]).error == calls[1..][i].Rejection()
            && forall j :: 0 <= j < i ==> !calls[1..][j].Rejects();
          assert calls[i + 1] == calls[1..][i];
          assert forall j :: 0 <= j < i + 1 ==> !calls[j].Rejects() by {
            forall j | 0 <= j < i + 1 ensures !calls[j].Rejects() {
              if j > 0 { assert calls[j] == calls[1..][j - 1]; }
            }
          }
        } else {
          forall i | 0 <= i < |calls| ensures !calls[i].Rejects() {
            if i > 0 { assert calls[i] == calls[1..][i - 1]; }
          }
        }
    }
  }

  /** Calls that do not target a field leave what its getter answers unchanged. */
  lemma {:induction false} RunFrame(s: Settings, calls: seq<Setter>, f: Field)
    requires forall i :: 0 <= i < |calls| ==> calls[i].Target() != f
    ensures Run(s, calls).Success? ==> Read(Run(s, calls).value, f) == Read(s, f)
    decreases |calls|
  {
    if calls != [] && Step(s, calls[0]).Success? {
      var t := Step(s, calls[0]).value;
      StepFrame(s, calls[0], f);
      assert forall i :: 0 <= i < |calls[1..]| ==> calls[1..][i] == calls[i + 1];
      RunFrame(t, calls[1..], f);
    }
  }

  /** No sequence of setter calls changes the class to launch or the class path. */
  lemma RunKeepsMandatoryValues(s: Settings, calls: seq<Setter>)
    ensures Run(s, calls).Success? ==> Run(s, calls).value.classToLaunch == s.classToLaunch
    ensures Run(s, calls).Success? ==> Run(s, calls).value.classPath == s.classPath
  {
    RunFrame(s, calls, ClassToLaunch);
    RunFrame(s, calls, ClassPath);
  }

  /** No sequence of setter calls leaves an empty array in a boot classpath supplement. */
  lemma {:induction false} RunKeepsNormalised(s: Settings, calls: seq<Setter>)
    requires s.Normalised()
    ensures Run(s, calls).Success? ==> Run(s, calls).value.Normalised()
    decreases |calls|
  {
    if calls != [] && Step(s, calls[0]).Success? {
      RunKeepsNormalised(Step(s, calls[0]).value, calls[1..]);
    }
  }

  /** After construction and any accepted sequence of calls, the supplements are never empty arrays and the mandatory values are the constructor's. */
  lemma ConfiguredHolderIsNormalised(classToLaunch: string, classPath: Strings, calls: seq<Setter>)
    ensures Run(New(Some(classToLaunch), Some(classPath)).value, calls).Success? ==>
      var t := Run(New(Some(classToLaunch), Some(classPath)).value, calls).value;
      t.Normalised() && t.classToLaunch == classToLaunch && t.classPath == classPath
  {
    var s := New(Some(classToLaunch), Some(classPath)).value;
    RunKeepsNormalised(s, calls);
    RunKeepsMandatoryValues(s, calls);
  }

  // ---------------------------------------------------------------------
  // The holder object

  class VMRunnerConfiguration {
    var classToLaunch: string
    var vmArgs: Option<Strings>
    var programArgs: Option<Strings>
    var environment: Option<Strings>
    var classPath: Strings
    var prependBootClassPath: Option<Strings>
    var mainBootClassPath: Option<Strings>
    var appendBootClassPath: Option<Strings>
    var bootClassPath: Option<Strings>
    var workingDirectory: Option<string>
    var vmSpecificAttributesMap: Option<AttributeMap>

    /** The stored fields as a value. */
    function State(): Settings
      reads this
    {
      Settings(classToLaunch, vmArgs, programArgs, environment, classPath,
               prependBootClassPath, mainBootClassPath, appendBootClassPath, bootClassPath,
               workingDirectory, vmSpecificAttributesMap)
    }

    /** The object invariant: the boot classpath supplements are never empty arrays. */
    ghost predicate Valid()
      reads this
    {
      State().Normalised()
    }

    /** Stores the two mandatory values; every optional field starts null. */
    constructor (classToLaunch: string, classPath: Strings)
      ensures Valid()
      ensures Success(State()) == New(Some(classToLaunch), Some(classPath))
    {
      this.classToLaunch := classToLaunch;
      this.classPath := classPath;
      vmArgs := None;
      programArgs := None;
      environment := None;
      prependBootClassPath := None;
      mainBootClassPath := None;
      appendBootClassPath := None;
      bootClassPath := None;
      workingDirectory := None;
      vmSpecificAttributesMap := None;
    }

    /** `new VMRunnerConfiguration(classToLaunch, classPath)`, with null arguments rejected. */
    static method Create(classToLaunch: Option<string>, classPath: Option<Strings>)
      returns (r: Result<VMRunnerConfiguration, ArgumentError>)
      ensures r.Failure? ==> New(classToLaunch, classPath) == Failure(r.error)
      ensures r.Success? ==> fresh(r.value) && r.value.Valid()
      ensures r.Success? ==> New(classToLaunch, classPath) == Success(r.value.State())
      ensures r.Success? ==> r.value.GetClassToLaunch() == classToLaunch.value && r.value.GetClassPath() == classPath.value
    {
      if classToLaunch.None? {
        return Failure(ClassNotNull);
      }
      if classPath.None? {
        return Failure(ClassPathNotNull);
      }
      var c := new VMRunnerConfiguration(classToLaunch.value, classPath.value);
      return Success(c);
    }

    method SetVMSpecificAttributesMap(attributes: Option<AttributeMap>)
      requires Valid()
      modifies this
      ensures Valid()
      ensures Step(old(State()), Setter.SetVMSpecificAttributesMap(attributes)) == Success(State())
      ensures GetVMSpecificAttributesMap() == attributes
    {
      vmSpecificAttributesMap := attributes;
    }

    method SetVMArguments(args: Option<Strings>) returns (outcome: Outcome<ArgumentError>)
      requires Valid()
      modifies this
      ensures Valid()
      ensures outcome.Fail? <==> args.None?
      ensures outcome.Fail? ==> outcome.error == VMArgsNotNull && State() == old(State())
      ensures Step(old(State()), Setter.SetVMArguments(args))
           == if outcome.Pass? then Success(State()) else Failure(outcome.error)
      ensures outcome.Pass? ==> GetVMArguments() == args.value
    {
      if args.None? {
        return Fail(VMArgsNotNull);
      }
      vmArgs := args;
      return Pass;
    }

    method SetProgramArguments(args: Option<Strings>) returns (outcome: Outcome<ArgumentError>)
      requires Valid()
      modifies this
      ensures Valid()
      ensures outcome.Fail? <==> args.None?
      ensures outcome.Fail? ==> outcome.error == ProgramArgsNotNull && State() == old(State())
      ensures Step(old(State()), Setter.SetProgramArguments(args))
           == if outcome.Pass? then Success(State()) else Failure(outcome.error)
      ensures outcome.Pass? ==> GetProgramArguments() == args.value
    {
      if args.None? {
        return Fail(ProgramArgsNotNull);
      }
      programArgs := args;
      return Pass;
    }

    method SetEnvironment(environment: Option<Strings>)
      requires Valid()
      modifies this
      ensures Valid()
      ensures Step(old(State()), Setter.SetEnvironment(environment)) == Success(State())
      ensures GetEnvironment() == environment
    {
      this.environment := environment;
    }

    /** Assigns the argument, then replaces an empty array by null. */
    method SetPrependBootClassPath(entries: Option<Strings>)
      requires Valid()
      modifies this
      ensures Valid()
      ensures Step(old(State()), Setter.SetPrependBootClassPath(entries)) == Success(State())
      ensures GetPrependBootClassPath() == if entries == Some([]) then None else entries
    {
      prependBootClassPath := entries;
      if entries.Some? && |entries.value| == 0 {
        prependBootClassPath := None;
      }
    }

    method SetMainBootClassPath(entries: Option<Strings>)
      requires Valid()
      modifies this
      ensures Valid()
      ensures Step(old(State()), Setter.SetMainBootClassPath(entries)) == Success(State())
      ensures GetMainBootClassPath() == entries
    {
      mainBootClassPath := entries;
    }

    /** Assigns the argument, then replaces an empty array by null. */
    method SetAppendBootClassPath(entries: Option<Strings>)
      requires Valid()
      modifies this
      ensures Valid()
      ensures Step(old(State()), Setter.SetAppendBootClassPath(entries)) == Success(State())
      ensures GetAppendBootClassPath() == if entries == Some([]) then None else entries
    {
      appendBootClassPath := entries;
      if entries.Some? && |entries.value| == 0 {
        appendBootClassPath := None;
      }
    }

    method SetBootClassPath(entries: Option<Strings>)
      requires Valid()
      modifies this
      ensures Valid()
      ensures Step(old(State()), Setter.SetBootClassPath(entries)) == Success(State())
      ensures GetBootClassPath() == entries
    {
      bootClassPath := entries;
    }

    method SetWorkingDirectory(path: Option<string>)
      requires Valid()
      modifies this
      ensures Valid()
      ensures Step(old(State()), Setter.SetWorkingDirectory(path)) == Success(State())
      ensures GetWorkingDirectory() == path
    {
      workingDirectory := path;
    }

    function GetVMSpecificAttributesMap(): Option<AttributeMap>
      reads this
    {
      vmSpecificAttributesMap
    }

    function GetClassToLaunch(): string
      reads this
    {
      classToLaunch
    }

    function GetClassPath(): Strings
      reads this
    {
      classPath
    }

    /** Never an empty array: null stands for "none". */
    function GetPrependBootClassPath(): (r: Option<Strings>)
      reads this
      requires Valid()
      ensures r != Some([])
    {
      prependBootClassPath
    }

    function GetMainBootClassPath(): Option<Strings>
      reads this
    {
      mainBootClassPath
    }

    /** Never an empty array: null stands for "none". */
    function GetAppendBootClassPath(): (r: Option<Strings>)
      reads this
      requires Valid()
      ensures r != Some([])
    {
      appendBootClassPath
    }

    function GetBootClassPath(): Option<Strings>
      reads this
    {
      bootClassPath
    }

    /** Never null; the empty array until arguments are set. */
    function GetVMArguments(): (r: Strings)
      reads this
      ensures vmArgs.Some? ==> r == vmArgs.value
      ensures vmArgs.None? ==> r == []
    {
      State().VMArguments()
    }

    /** Never null; the empty array until arguments are set. */
    function GetProgramArguments(): (r: Strings)
      reads this
      ensures programArgs.Some? ==> r == programArgs.value
      ensures programArgs.None? ==> r == []
    {
      State().ProgramArguments()
    }

    function GetEnvironment(): Option<Strings>
      reads this
    {
      environment
    }

    function GetWorkingDirectory(): Option<string>
      reads this
    {
      workingDirectory
    }
  }
}

# VMRunnerConfiguration, modelled in Dafny

This project models `VMRunnerConfiguration` from the Eclipse JDT launching plug-in. The class holds the arguments a VM runner uses to start a Java virtual machine:

- Two mandatory values are fixed by the constructor: the fully qualified name of the class to launch, and the class path.
- Nine optional values are set through setters: VM arguments, program arguments, environment, the three boot classpath parts (prepend, main, append), the complete boot classpath, the working directory, and the map of VM-specific attributes.

The Java rules the model captures:

- The constructor, `setVMArguments` and `setProgramArguments` throw `IllegalArgumentException` on `null`.
- The prepend and append setters store an empty array as `null`.
- The two argument getters answer an empty array while nothing is set.
- The main boot classpath and the complete boot classpath keep an empty array (an empty bootpath) apart from `null` (the default bootpath).

Files:

- `wrappers.dfy`: `Option` (a Java reference that may be null), `Result` and `Outcome` (a call that returns normally or throws).
- `vm_runner_configuration.dfy`, module `VMRunnerConfig`, which has two layers:
  - A value model. `Settings` holds the eleven stored fields. `New` is the constructor. `Setter` is one setter call with its argument. `Step` says what one call does, `Run` what a sequence of calls does: the first exception ends the sequence. `Read` gives the answer of each getter. Lemmas state the source's promises over one call and over any sequence of calls.
  - The class `VMRunnerConfiguration`. It has the same eleven fields. `State()` returns them as a `Settings` value. The object invariant `Valid()` says neither boot classpath supplement holds an empty array. Each setter method is specified by the matching `Step`: its `ensures` gives the whole new state and the getter round trip. The getters are functions.

How Java's types map to Dafny:

- A nullable `String[]` or `String` becomes `Option<seq<string>>` or `Option<string>`.
- A thrown `IllegalArgumentException` becomes a `Failure`/`Fail` value. It carries an `ArgumentError` named after the exception's message key. The throw comes before any assignment, so a rejected call leaves the state unchanged.
- `new VMRunnerConfiguration(c, cp)` is the static method `Create`. It performs the two null checks, in source order, then calls the Dafny constructor, which takes non-null arguments.

## Model

| member | source | states |
|---|---|---|
| VMRunnerConfig.New | org.eclipse.jdt.launching/launching/org/eclipse/jdt/launching/VMRunnerConfiguration.java:48-57 | construction fails exactly when the class name or the class path is null, reporting the class name first; on success the two values are stored as given, both argument getters answer the empty array, every other optional field is null, and the supplements are normalised |
| VMRunnerConfig.NormaliseSupplement | org.eclipse.jdt.launching/launching/org/eclipse/jdt/launching/VMRunnerConfiguration.java:123-128 | an empty array is stored as null, any other argument (null included) is stored unchanged, so the stored supplement is never an empty array |
| VMRunnerConfig.Step | org.eclipse.jdt.launching/launching/org/eclipse/jdt/launching/VMRunnerConfiguration.java:66-307 | a setter call throws exactly when it passes null to an argument setter, with that setter's exception; an accepted call never changes the class to launch or the class path and keeps the supplements normalised |
| VMRunnerConfig.ArgumentSettersRoundTrip | org.eclipse.jdt.launching/launching/org/eclipse/jdt/launching/VMRunnerConfiguration.java:79-100 | setVMArguments and setProgramArguments fail if and only if the argument is null; otherwise the matching getter answers exactly the array given, an empty one included |
| VMRunnerConfig.SupplementSettersNormalise | org.eclipse.jdt.launching/launching/org/eclipse/jdt/launching/VMRunnerConfiguration.java:123-156 | after setting the prepend or append boot classpath, its getter answers null when the argument was null or empty, and the argument otherwise |
| VMRunnerConfig.BootClassPathsStoredVerbatim | org.eclipse.jdt.launching/launching/org/eclipse/jdt/launching/VMRunnerConfiguration.java:131-174 | setMainBootClassPath and setBootClassPath store their argument unchanged, null and empty arrays included |
| VMRunnerConfig.EmptyBootClassPathIsNotDefault | org.eclipse.jdt.launching/launching/org/eclipse/jdt/launching/VMRunnerConfiguration.java:240-258 | an empty main or complete boot classpath reads back differently from a null one, while for the prepend and append supplements empty and null read back the same |
| VMRunnerConfig.NullableFieldsRoundTrip | org.eclipse.jdt.launching/launching/org/eclipse/jdt/launching/VMRunnerConfiguration.java:66-319 | the environment, the working directory and the attribute map accept null and their getters answer exactly what was last set |
| VMRunnerConfig.StepFrame | org.eclipse.jdt.launching/launching/org/eclipse/jdt/launching/VMRunnerConfiguration.java:66-307 | an accepted setter call leaves the answer of every getter other than its own unchanged |
| VMRunnerConfig.SettersIdempotent | org.eclipse.jdt.launching/launching/org/eclipse/jdt/launching/VMRunnerConfiguration.java:66-307 | calling any setter twice with the same argument (the normalising supplement setters included) has the same result as calling it once |
| VMRunnerConfig.RunFailsExactlyOnRejectedCall | org.eclipse.jdt.launching/launching/org/eclipse/jdt/launching/VMRunnerConfiguration.java:79-100 | a sequence of setter calls throws if and only if one of its calls passes null to an argument setter, and then it throws the exception of the first such call |
| VMRunnerConfig.RunFrame | org.eclipse.jdt.launching/launching/org/eclipse/jdt/launching/VMRunnerConfiguration.java:66-307 | a sequence of setter calls none of which targets a field leaves that field's getter answer unchanged |
| VMRunnerConfig.RunKeepsMandatoryValues | org.eclipse.jdt.launching/launching/org/eclipse/jdt/launching/VMRunnerConfiguration.java:26-57 | no sequence of setter calls changes the class to launch or the class path |
| VMRunnerConfig.RunKeepsNormalised | org.eclipse.jdt.launching/launching/org/eclipse/jdt/launching/VMRunnerConfiguration.java:123-156 | starting from normalised supplements, no sequence of setter calls leaves an empty array in either supplement |
| VMRunnerConfig.ConfiguredHolderIsNormalised | org.eclipse.jdt.launching/launching/org/eclipse/jdt/launching/VMRunnerConfiguration.java:205-238 | after construction and any accepted sequence of setter calls, the supplement getters never answer an empty array and the mandatory values are those given to the constructor |
| VMRunnerConfig.VMRunnerConfiguration.constructor | org.eclipse.jdt.launching/launching/org/eclipse/jdt/launching/VMRunnerConfiguration.java:55-56 | stores the class to launch and the class path, leaves every optional field null, and establishes the object invariant; the result is the state New yields |
| VMRunnerConfig.VMRunnerConfiguration.Create | org.eclipse.jdt.launching/launching/org/eclipse/jdt/launching/VMRunnerConfiguration.java:48-57 | fails with New's exception when an argument is null; otherwise returns a fresh valid object whose state is New's and whose getters answer the two arguments |
| VMRunnerConfig.VMRunnerConfiguration.SetVMSpecificAttributesMap | org.eclipse.jdt.launching/launching/org/eclipse/jdt/launching/VMRunnerConfiguration.java:66-68 | the new state is Step's; the getter answers the map given, null included |
| VMRunnerConfig.VMRunnerConfiguration.SetVMArguments | org.eclipse.jdt.launching/launching/org/eclipse/jdt/launching/VMRunnerConfiguration.java:79-84 | fails with the VM-arguments exception exactly on null and leaves the state unchanged then; otherwise the new state is Step's and the getter answers the array given |
| VMRunnerConfig.VMRunnerConfiguration.SetProgramArguments | org.eclipse.jdt.launching/launching/org/eclipse/jdt/launching/VMRunnerConfiguration.java:95-100 | fails with the program-arguments exception exactly on null and leaves the state unchanged then; otherwise the new state is Step's and the getter answers the array given |
| VMRunnerConfig.VMRunnerConfiguration.SetEnvironment | org.eclipse.jdt.launching/launching/org/eclipse/jdt/launching/VMRunnerConfiguration.java:111-113 | the new state is Step's; the getter answers the environment given, null included |
| VMRunnerConfig.VMRunnerConfiguration.SetPrependBootClassPath | org.eclipse.jdt.launching/launching/org/eclipse/jdt/launching/VMRunnerConfiguration.java:123-128 | assigns, then replaces an empty array by null; the new state is Step's, the invariant holds, and the getter answers null for an empty argument and the argument otherwise |
| VMRunnerConfig.VMRunnerConfiguration.SetMainBootClassPath | org.eclipse.jdt.launching/launching/org/eclipse/jdt/launching/VMRunnerConfiguration.java:139-141 | the new state is Step's; the getter answers the argument unchanged, empty or null |
| VMRunnerConfig.VMRunnerConfiguration.SetAppendBootClassPath | org.eclipse.jdt.launching/launching/org/eclipse/jdt/launching/VMRunnerConfiguration.java:151-156 | assigns, then replaces an empty array by null; the new state is Step's, the invariant holds, and the getter answers null for an empty argument and the argument otherwise |
| VMRunnerConfig.VMRunnerConfiguration.SetBootClassPath | org.eclipse.jdt.launching/launching/org/eclipse/jdt/launching/VMRunnerConfiguration.java:172-174 | the new state is Step's; the getter answers the argument unchanged, empty or null |
| VMRunnerConfig.VMRunnerConfiguration.SetWorkingDirectory | org.eclipse.jdt.launching/launching/org/eclipse/jdt/launching/VMRunnerConfiguration.java:305-307 | the new state is Step's; the getter answers the path given, null included |
| VMRunnerConfig.VMRunnerConfiguration.GetPrependBootClassPath | org.eclipse.jdt.launching/launching/org/eclipse/jdt/launching/VMRunnerConfiguration.java:213-215 | on a valid object the answer is null or a non-empty array, never an empty one |
| VMRunnerConfig.VMRunnerConfiguration.GetAppendBootClassPath | org.eclipse.jdt.launching/launching/org/eclipse/jdt/launching/VMRunnerConfiguration.java:236-238 | on a valid object the answer is null or a non-empty array, never an empty one |
| VMRunnerConfig.VMRunnerConfiguration.GetVMArguments | org.eclipse.jdt.launching/launching/org/eclipse/jdt/launching/VMRunnerConfiguration.java:266-271 | never null: the stored arguments when set, the empty array otherwise |
| VMRunnerConfig.VMRunnerConfiguration.GetProgramArguments | org.eclipse.jdt.launching/launching/org/eclipse/jdt/launching/VMRunnerConfiguration.java:279-284 | never null: the stored arguments when set, the empty array otherwise |

The other getters (`GetClassToLaunch`, `GetClassPath`, `GetMainBootClassPath`, `GetBootClassPath`, `GetEnvironment`, `GetWorkingDirectory`, `GetVMSpecificAttributesMap`) only read their field, and the source promises nothing more about them. Their behaviour is stated through the setter and constructor contracts above. A Dafny `string` is never null, so `GetClassToLaunch` cannot answer null.

## Left out

- Aliasing: the Java setters keep the caller's array or `Map` reference without copying it (`setVMSpecificAttributesMap` included), and the getters hand out the stored array or map itself, so either side can later change the stored elements. The model stores immutable sequences and maps, so it does not capture such shared updates.
- The shared static empty array `fgEmpty`: only its emptiness is modelled, not its identity.
- Exception messages: the localised text from `LaunchingMessages.getString` is not modelled. An exception is identified only by its message key (`ArgumentError.MessageKey`).
- Null elements inside a `String[]` are not modelled: elements are non-null strings.
- The attribute map's contents: the raw `java.util.Map` is modelled as a `map<string, string>`, following its documentation (String name/value pairs).
- The documentation asks for an absolute working-directory path. The code does not check this, and neither does the model.
- `ManageMethodBreakpointActionDelegate.java` is not part of this model. It is user-interface glue over debugger and workbench plug-in interfaces.
- `LaunchTests.java` and `PerfSteppingTests.java` are not part of this model. They test listener timing and measure stepping performance against an external launch manager and debugger.

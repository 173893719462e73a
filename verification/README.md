# Hilt test-application synthesis and Dagger's source-file lifecycle, in Dafny

This project models two pieces of the Dagger/Hilt annotation-processor code generator.

* **TestApplicationGenerator** (`test_application_generator.dfy`, module `TestApplication`).
  From a test root (test class, base class, generated application class, injector class), a
  set of extra modules and the `waitForBindValue` flag, it builds the generated Android
  `Application` class and writes it to the `Filer`. The class has the component-manager field,
  whose initializer holds an anonymous `ComponentSupplier` and the required-module list. It also
  has the ready-runner field and the fixed lifecycle, accessor, `inject`, `get`,
  `getTestInstance` and `bind` methods. Last comes one `add<Module>` method per extra module.
  The constructor keeps the modules as an `ImmutableSet` (deduplicated, first-occurrence order).
  The helper builders are pure functions. `generate` is a method that drives a mutable
  `TypeSpec.Builder` (class `Poet.TypeSpecBuilder`) and loops over the modules.
* **SourceFileGenerator<T>** (`source_file_generator.dfy`, module `SourceFiles`). This is the
  template every Dagger generator runs through:
  1. Name the type, then ask the subclass's `write` hook for a builder. An empty builder means
     "nothing to generate".
  2. Attach the originating element, then either the `@Generated` annotation or the
     "Generated by Dagger" file comment.
  3. Write once to the `Filer`.
  4. On failure, pass a `SourceFileGenerationException` through and wrap checked exceptions
     with the originating element.

  The non-throwing overload prints the exception to the `Messager` instead. The class is a Dafny
  `class` whose subclass hooks (`nameGeneratedType`, `originatingElement`, `write`) are injected
  functions.

Supporting modules:
* `poet.dfy` models JavaPoet values. `CodeBlock` is kept in JavaPoet's own
  (format, arguments) form, so statements are compared as written in the source.
* `processing.dfy` models exceptions, `Completion` (how a Java call ended), and the `Filer` and
  `Messager` as append-only logs. Whether a file write throws is an injected outcome.
* `strings.dfy` holds `Join` (Guava's `Joiner` / `Collectors.joining`) and `Split`, its
  decoding partner, with the round-trip lemma.
* `wrappers.dfy` holds `Option` and `Attempt` (a value, or an unchecked exception).

Notes on the code's behaviour:
* The catch block of `generate` (`SourceFileGenerator.java:79-85`) is commented "if the code
  above threw a SFGE, use that". But `Throwables.propagateIfPossible(e,
  SourceFileGenerationException.class)` also rethrows unchecked exceptions unchanged. Only
  checked exceptions (an `IOException` from the `Filer`) are wrapped (`SourceFiles.Rethrow`).
* Duplicate extra modules are not rejected. `ImmutableSet.copyOf` silently drops later
  duplicates (`TestApplication.CopyOf`).
* JavaPoet keeps fields and methods in two separate lists. The fixed member order is therefore
  stated per list, each in the order of the `addField` / `addMethod` calls.
* Nothing in `SourceFileGenerator.java` deletes a file. The class Javadoc
  (`SourceFileGenerator.java:34-37`) promises best-effort deletion of files that fail to write.
  Any such clean-up would happen inside `JavaFile.writeTo(Filer)` (line 78), which is modelled
  only through the Filer's injected write outcome.
* The comment in `generate` (`TestApplicationGenerator.java:111`) says each module gets a method
  and an instance field. The loop at lines 112-114 adds only the `add<Module>` method, and the
  model follows the loop.

## Model

| member | source | states |
|---|---|---|
| `TestApplication.CopyOf` | java/dagger/hilt/android/processor/internal/testing/TestApplicationGenerator.java:75 | the copied module set has no duplicates and holds exactly the input's modules |
| `TestApplication.CopyOfKeepsFirstOccurrenceOrder` | java/dagger/hilt/android/processor/internal/testing/TestApplicationGenerator.java:75 | modules keep the order of their first occurrence in the input |
| `TestApplication.CopyOfDistinct` | java/dagger/hilt/android/processor/internal/testing/TestApplicationGenerator.java:67-75 | a duplicate-free input (the `Set` the constructor receives) is kept in its iteration order unchanged |
| `TestApplication.NewTestApplicationGenerator` | java/dagger/hilt/android/processor/internal/testing/TestApplicationGenerator.java:64-84 | the generator keeps the metadata and flag; its extra modules are deduplicated, cover the same modules, and equal the input when that has no duplicates |
| `TestApplication.GeneratedApplication` | java/dagger/hilt/android/processor/internal/testing/TestApplicationGenerator.java:87-114 | the class is named after the app, originates from the test element and extends the base class. Its fields are `componentManager`, `onComponentReadyRunner`, `testInstance`. Its methods are `onCreate`, `componentManager`, `generatedComponent`, `getOnComponentReadyRunner`, `inject`, `get`, `getTestInstance`, `bind`, then exactly one `add` + simple name method per extra module, in module order |
| `TestApplication.AddFixedMembers` | java/dagger/hilt/android/processor/internal/testing/TestApplicationGenerator.java:87-109 | the builder chain adds the fixed fields and methods in source order, plus the generated annotation if the environment supplies one |
| `TestApplication.Generate` | java/dagger/hilt/android/processor/internal/testing/TestApplicationGenerator.java:86-119 | the module loop appends one method per module, and the Filer is asked to write exactly one file, the generated class in the app's package. A write exception propagates |
| `TestApplication.SupplierChainLines` | java/dagger/hilt/android/processor/internal/testing/TestApplicationGenerator.java:174-193 | the supplier chain splits at newlines into exactly one `.lowerCamel(getRegisteredModule(M.class))` entry per module, in module order; no modules give an empty chain |
| `TestApplication.RequiredModulesRoundTrip` | java/dagger/hilt/android/processor/internal/testing/TestApplicationGenerator.java:204-210 | the required-module text decodes (split at `",\n\t"`, strip `.class`, split at `.`) back to each module's nested simple names, in order; no modules give `ImmutableSet.of()` |
| `TestApplication.ClassLiteralRoundTrip` | java/dagger/hilt/android/processor/internal/testing/TestApplicationGenerator.java:208 | one class-literal token holds all nested simple names joined by `.` plus `.class`, and contains no comma |
| `TestApplication.ComponentManagerInitializer` | java/dagger/hilt/android/processor/internal/testing/TestApplicationGenerator.java:127-137 | `ComponentManagerField`, `AnonymousComponentSupplier` and `RequiredModuleList`: the component manager is built with `this`, the anonymous supplier, the required-module list and `waitForBindValue`, in that order. The supplier's `get` builds the Dagger component of the test's package, passing `new ApplicationContextModule(App.this)`. It starts with `.applicationContextModule(...)`, then the module chain, then `.build()` |
| `TestApplication.ModuleMethodShape` | java/dagger/hilt/android/processor/internal/testing/TestApplicationGenerator.java:298-307 | `AddTestModuleMethod`: the k-th module method is named `add` + simple name and takes one parameter named `upperToLowerCamel(simpleName)`. It registers the module under its class, returns `this`, and is typed as the app class |
| `TestApplication.BindAndTestInstanceShape` | java/dagger/hilt/android/processor/internal/testing/TestApplicationGenerator.java:309-329 | `GetTestInstanceMethod` and `BindMethod`: `getTestInstance` checks `testInstance != null` with the "forgot to call #bind()" message before returning it. `bind` assigns `testInstance`, calls `setBindValueCalled()` and returns `this` |
| `TestApplication.InjectableMethodShape` | java/dagger/hilt/android/processor/internal/testing/TestApplicationGenerator.java:268-284 | `InjectableMethod`: `inject` carries `@SuppressWarnings("unchecked")`, takes one parameter of the test type named `upperToLowerCamel` of its simple name, returns `void`, and has the single statement `(($T) this.generatedComponent()).injectTest($L)` with `TestInjector<Test>` and that parameter |
| `TestApplication.LifecycleMethodsShape` | java/dagger/hilt/android/processor/internal/testing/TestApplicationGenerator.java:212-266 | `OnCreateMethod`, `ComponentManagerMethod`, `GeneratedComponentMethod` and `OnComponentReadyRunnerMethod`: each is an `@Override`. `onCreate` calls `super.onCreate()`, then registers the injector listener. The others return the component manager, its generated component and the ready runner |
| `TestApplication.GetInstanceMethodShape` | java/dagger/hilt/android/processor/internal/testing/TestApplicationGenerator.java:286-296 | `GetInstanceMethod`: the public static `get` returns the application context cast to the app class |
| `TestApplication.FixedFieldsShape` | java/dagger/hilt/android/processor/internal/testing/TestApplicationGenerator.java:139-148 | `OnComponentReadyRunnerField`: the ready runner is a private final field initialised with `new OnComponentReadyRunner()`. The component manager is private and final. The test instance (line 104) is private, not final, and has no initializer |
| `SourceFiles.Run` | java/dagger/internal/codegen/SourceFileGenerator.java:71-86 | at most one file write is attempted. Hook failures propagate unwrapped with no write attempted; an empty builder returns normally with no write attempted. Otherwise the builder is finalized. If the finalized type builds, the Filer is asked to write exactly one file: the one for the generated name, in its package. If the build throws, that unchecked exception leaves unwrapped and no write is attempted. A checked write failure becomes a wrapped exception naming the originating element; other failures pass through. No checked exception other than a `SourceFileGenerationException` escapes |
| `SourceFiles.Rethrow` | java/dagger/internal/codegen/SourceFileGenerator.java:79-85 | the catch block never throws a plain checked exception. A `SourceFileGenerationException` or unchecked exception is rethrown as is. A checked one is wrapped with no generated class name, itself as cause and the originating element |
| `SourceFiles.RethrowIsIdempotent` | java/dagger/internal/codegen/SourceFileGenerator.java:81 | an exception already rethrown is never wrapped again |
| `SourceFiles.ExactlyOneProvenanceMarker` | java/dagger/internal/codegen/SourceFileGenerator.java:88-107 | the originating element is attached. Exactly one marker is added: the `@Generated` annotation (value `dagger.internal.codegen.ComponentProcessor`, comments the Dagger URL) when the lookup finds one, otherwise the "Generated by Dagger" file comment |
| `SourceFiles.Report` | java/dagger/internal/codegen/SourceFileGenerator.java:62-68 | a `SourceFileGenerationException` is printed once and swallowed; anything else passes through and prints nothing |
| `SourceFiles.SourceFileGenerator.constructor` | java/dagger/internal/codegen/SourceFileGenerator.java:48-52 | the generator keeps the given filer, elements and source version |
| `SourceFiles.SourceFileGenerator.Create` | java/dagger/internal/codegen/SourceFileGenerator.java:48-52 | a null filer, elements or source version throws `NullPointerException`; otherwise a fresh generator holding them |
| `SourceFiles.SourceFileGenerator.FromDelegate` | java/dagger/internal/codegen/SourceFileGenerator.java:54-56 | the delegate constructor copies the delegate's filer, elements and source version |
| `SourceFiles.SourceFileGenerator.BuildJavaFile` | java/dagger/internal/codegen/SourceFileGenerator.java:88-107 | the builder is updated in place with the element and the optional annotation. Then the type is built (or the build throws) and put in the type's package, with the file comment only when there is no annotation |
| `SourceFiles.SourceFileGenerator.Generate` | java/dagger/internal/codegen/SourceFileGenerator.java:71-86 | the completion, the files handed to the Filer and the builder's final contents are those of `Run` on the hooks' results |
| `SourceFiles.SourceFileGenerator.GenerateAndReport` | java/dagger/internal/codegen/SourceFileGenerator.java:62-68 | the Messager receives exactly what `Report` prints for `generate(input)`'s completion; the Filer is written, and the builder is left finalized, as by `generate(input)` |

## Left out

- JavaPoet pretty-printing, imports and Javadoc. Only in the supplier chain, where the source
  itself calls `CodeBlock.toString()`, is `$T` rendered, as the canonical class name.
- Hilt's `ClassNames` / `AndroidClassNames` constants whose values are not in these files. They
  appear as symbolic `Poet.TypeRef.Known` names.
- `Processors.upperToLowerCamel`, `ComponentNames.generatedComponent` with `getEnclosedClassName`
  and `prepend`, and `Processors.addGeneratedAnnotation`. These are injected through the
  `TestApplication.Processors` value. The lemmas assume only that case conversion maps
  identifiers to identifiers.
- The `GeneratedAnnotations.generatedAnnotation` lookup and JavaPoet's validation in
  `TypeSpec.Builder.build()`. These are injected through `SourceFiles.Library`.
- TestApplication.Generate: assumes `TypeSpec.Builder.build()` accepts the class it assembles, so
  only the Filer's write can fail.
- SourceFiles.SourceFileGenerator.Generate: assumes `originatingElement(input)` does not throw.
  If it threw inside `buildJavaFile`, the catch block would call it again.
- The Filer's and Messager's I/O. They are append-only logs, and a write's failure is an injected
  per-file outcome.
- Runtime behaviour of the emitted Android code (listeners, `ApplicationProvider`, member
  injection). It is generated text here.
- Whatever `JavaFile.writeTo(Filer)` does with a file that fails to write, such as deleting it.
  That code is not part of this model. The Filer log records the attempt, and the failure is the
  injected outcome.
- Determinism across repeated runs is not stated as a separate lemma. Every operation is a
  function of its inputs, and `SourceFiles.SourceFileGenerator.Generate` mutates the hook's
  builder, so a second run on the same builder would attach the element again.
- Module identity is modelled as `ClassName` equality, standing for `TypeElement` identity.
- Java's exact identifier rules (`Character.isJavaIdentifierPart`, reserved words). A simple
  name is any non-empty string free of the separators the generated text uses (`.`, `,`,
  whitespace, parentheses, `;`). Non-ASCII names are therefore covered.

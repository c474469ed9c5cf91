# Manager factory of PCGen-Formula, in Dafny

This project models the `ManagerFactory` interface of the PCGen-Formula
library. The factory is the single place that builds the three context
objects the formula visitors receive:

- a `DependencyManager` for dependency capture,
- a `FormulaSemantics` for type checking,
- an `EvaluationManager` for evaluation.

Each default method allocates a new, empty keyed container, calls `set`
three times, and returns the container. The keys are `FMANAGER` (the formula
manager), `INSTANCE` (the scope instance) or `SCOPE` (the legal scope), and
`ASSERTED` (the asserted format, which may be null). A second evaluation
overload takes the scope instance and the format from a `VariableID`.

Files:

- `formula_base.dfy` (module `FormulaBase`): the collaborators. `FormulaManager`,
  `ScopeInstance`, `LegalScope` and the format class are abstract types with
  equality only. `VariableID` is a value with `GetScope` and `GetVariableFormat`.
  `Option` stands for a reference that may be null.
- `context_manager.dfy` (module `ContextManager`): the keyed container. `Key`
  is the closed key set, and `Value` holds one value of each key's kind.
  `Fits` and `WellTyped` state that keys are typed. `Apply` is the reference
  meaning of a run of `set` calls, and lemmas about it follow. `Manager` is
  the container class; its `flavor` says which of the three Java classes it
  is, and its `entries` map is what `set` writes.
- `manager_factory.dfy` (module `Factory`): the contents each factory method
  produces (`InstanceContents`, `SemanticsContents`, `VariableContents`), the
  `ManagerFactory` class with its four operations, and three client methods.
  The client methods derive the promised cross-call properties from the
  operations' contracts alone.

Two points about the code that the model keeps:

- Java overloads `generateEvaluationManager`; Dafny has no overloading, so the
  `VariableID` overload is `GenerateEvaluationManagerForVariable`.
- `ASSERTED` is set even when the asserted format is null. The key is always
  present, and its value may be null (`FormatValue(None)`).

## Model

| member | source | states |
|---|---|---|
| ContextManager.Apply | PCGen-Formula/code/src/java/pcgen/base/formula/base/ManagerFactory.java:42-46 | after a run of `set` calls, the keys are the old keys plus every key written, and an entry no call writes keeps its old value |
| ContextManager.ApplyLastWriteWins | PCGen-Formula/code/src/java/pcgen/base/formula/base/ManagerFactory.java:43-45 | a key written by the run is present and holds the value of the last `set` of that key |
| ContextManager.ApplyConcat | PCGen-Formula/code/src/java/pcgen/base/formula/base/ManagerFactory.java:43-45 | two runs of `set` calls one after the other have the same effect as their concatenation, so successive `set` calls compose |
| ContextManager.ApplyKeepsWellTyped | PCGen-Formula/code/src/java/pcgen/base/formula/base/ManagerFactory.java:43-45 | writing only values of each key's own kind keeps every entry of the right kind |
| ContextManager.Manager.constructor | PCGen-Formula/code/src/java/pcgen/base/formula/base/ManagerFactory.java:42 | a new manager is empty, well typed and has the requested flavor |
| ContextManager.Manager.Set | PCGen-Formula/code/src/java/pcgen/base/formula/base/ManagerFactory.java:43 | `set` takes a value of the key's kind and overwrites that one entry; every other entry is unchanged |
| Factory.InstanceContents | PCGen-Formula/code/src/java/pcgen/base/formula/base/ManagerFactory.java:39-47 | the three `set` calls leave exactly the keys `FMANAGER`, `INSTANCE`, `ASSERTED`, holding the formula manager, the scope instance and the asserted format; the result is well typed and has what dependency and evaluation managers need |
| Factory.SemanticsContents | PCGen-Formula/code/src/java/pcgen/base/formula/base/ManagerFactory.java:58-72 | the three `set` calls leave exactly `FMANAGER`, `SCOPE`, `ASSERTED` (never `INSTANCE`), holding the formula manager, the legal scope and the asserted format, a null format included |
| Factory.VariableContents | PCGen-Formula/code/src/java/pcgen/base/formula/base/ManagerFactory.java:109-117 | the `VariableID` form holds the same contents as the three-argument form given the variable's scope and its format |
| Factory.ManagerFactory.GenerateDependencyManager | PCGen-Formula/code/src/java/pcgen/base/formula/base/ManagerFactory.java:39-47 | returns a freshly allocated, well-typed dependency manager whose contents are `InstanceContents` of the arguments |
| Factory.ManagerFactory.GenerateFormulaSemantics | PCGen-Formula/code/src/java/pcgen/base/formula/base/ManagerFactory.java:64-72 | returns a freshly allocated, well-typed semantics object whose contents are `SemanticsContents` of the arguments |
| Factory.ManagerFactory.GenerateEvaluationManager | PCGen-Formula/code/src/java/pcgen/base/formula/base/ManagerFactory.java:86-94 | returns a freshly allocated, well-typed evaluation manager whose contents are `InstanceContents` of the arguments |
| Factory.ManagerFactory.GenerateEvaluationManagerForVariable | PCGen-Formula/code/src/java/pcgen/base/formula/base/ManagerFactory.java:109-117 | returns a freshly allocated evaluation manager whose `INSTANCE` is `varID.GetScope()` and whose `ASSERTED` is `varID.GetVariableFormat()` |
| Factory.DependencyAgreesWithEvaluation | PCGen-Formula/code/src/java/pcgen/base/formula/base/ManagerFactory.java:39-94 | the dependency and evaluation managers built from the same three arguments are distinct objects with equal entries |
| Factory.VariableOverloadAgrees | PCGen-Formula/code/src/java/pcgen/base/formula/base/ManagerFactory.java:86-117 | the `VariableID` overload and the three-argument overload called with the variable's scope and format return distinct objects with equal entries |
| Factory.EarlierManagerUnchanged | PCGen-Formula/code/src/java/pcgen/base/formula/base/ManagerFactory.java:39-94 | a dependency manager, a semantics object and an evaluation manager returned earlier keep their contents after later calls of all four operations with independent arguments (formula manager, scope instance, legal scope, format, VariableID) |

## Left out

- `TestUtilities.doubleEqual`, `doParse` and `invokePrivateConstructor` are test support. They do floating-point comparison, drive the generated parser, and use reflection, none of which belongs to the factory.
- The classes `DependencyManager`, `FormulaSemantics` and `EvaluationManager` are outside this model. Their `get`, defaults for missing keys, and deriving a copy with one key changed are not modelled. Only the `set` the factory calls is modelled, as an overwrite of one entry.
- The three Java manager classes are one Dafny class with a `flavor` field. The Java type system keeps them apart; here the factory's contracts state the flavor.
- A null formula manager, scope instance or legal scope is not modelled; only the asserted format, documented as possibly null, is an `Option`.
- GenerateEvaluationManagerForVariable: a null `varID` is not modelled. In Java it throws a NullPointerException at line 114, after the manager is allocated and `FMANAGER` is set; here `VariableID` is a value that cannot be null.
- GenerateEvaluationManagerForVariable: always stores `Some(varID.GetVariableFormat())`, so it assumes a variable's format is never null; a VariableID with a null format is not modelled.
- Overriding the factory's default methods in an implementing class is not modelled; the class carries the default bodies only.
- The dependency, semantics and evaluation tree walks and scope-ancestry resolution are not part of this model.

/** The manager factory: the single construction point of the containers
    that the dependency, semantics and evaluation visitors use. Each
    operation allocates an empty container and fills it with three `set`
    calls. */
module Factory {
  import opened FormulaBase
  import opened ContextManager

  /** The three `set` calls shared by dependency and evaluation managers. */
  function InstanceUpdates(formulaManager: FormulaManager, scopeInst: ScopeInstance,
                           assertedFormat: Option<Format>): seq<Update>
  {
    [ Update(FMANAGER, FormulaManagerValue(formulaManager)),
      Update(INSTANCE, ScopeInstanceValue(scopeInst)),
      Update(ASSERTED, FormatValue(assertedFormat)) ]
  }

  /** The three `set` calls of a FormulaSemantics. */
  function SemanticsUpdates(manager: FormulaManager, legalScope: LegalScope,
                            assertedFormat: Option<Format>): seq<Update>
  {
    [ Update(FMANAGER, FormulaManagerValue(manager)),
      Update(SCOPE, LegalScopeValue(legalScope)),
      Update(ASSERTED, FormatValue(assertedFormat)) ]
  }

  /** What a dependency or evaluation manager holds once its three `set`
      calls are done: exactly the formula manager, the scope instance and the
      asserted format (null included), each under its own key. */
  function InstanceContents(formulaManager: FormulaManager, scopeInst: ScopeInstance,
                            assertedFormat: Option<Format>): (m: map<Key, Value>)
    ensures m.Keys == {FMANAGER, INSTANCE, ASSERTED}
    ensures m[FMANAGER] == FormulaManagerValue(formulaManager)
    ensures m[INSTANCE] == ScopeInstanceValue(scopeInst)
    ensures m[ASSERTED] == FormatValue(assertedFormat)
    ensures WellTyped(m)
    ensures Populated(Dependency, m) && Populated(Evaluation, m)
  {
    var updates := InstanceUpdates(formulaManager, scopeInst, assertedFormat);
    ApplyLastWriteWins(map[], updates, 0);
    ApplyLastWriteWins(map[], updates, 1);
    ApplyLastWriteWins(map[], updates, 2);
    ApplyKeepsWellTyped(map[], updates);
    UpdatedKeysOfThree(updates);
    Apply(map[], updates)
  }

  /** What a FormulaSemantics holds once its three `set` calls are done:
      exactly the formula manager, the legal scope (not a scope instance) and
      the asserted format, which may be null. */
  function SemanticsContents(manager: FormulaManager, legalScope: LegalScope,
                             assertedFormat: Option<Format>): (m: map<Key, Value>)
    ensures m.Keys == {FMANAGER, SCOPE, ASSERTED}
    ensures INSTANCE !in m
    ensures m[FMANAGER] == FormulaManagerValue(manager)
    ensures m[SCOPE] == LegalScopeValue(legalScope)
    ensures m[ASSERTED] == FormatValue(assertedFormat)
    ensures WellTyped(m)
    ensures Populated(Semantics, m)
  {
    var updates := SemanticsUpdates(manager, legalScope, assertedFormat);
    ApplyLastWriteWins(map[], updates, 0);
    ApplyLastWriteWins(map[], updates, 1);
    ApplyLastWriteWins(map[], updates, 2);
    ApplyKeepsWellTyped(map[], updates);
    UpdatedKeysOfThree(updates);
    Apply(map[], updates)
  }

  /** What an evaluation manager built from a VariableID holds: the same
      contents as one built from the variable's own scope and format. */
  function VariableContents(formulaManager: FormulaManager, varID: VariableID): (m: map<Key, Value>)
    ensures m == InstanceContents(formulaManager, varID.GetScope(), Some(varID.GetVariableFormat()))
  {
    Apply(map[], [ Update(FMANAGER, FormulaManagerValue(formulaManager)),
                   Update(INSTANCE, ScopeInstanceValue(varID.GetScope())),
                   Update(ASSERTED, FormatValue(Some(varID.GetVariableFormat()))) ])
  }

  /** The factory. Its operations change no existing object: each result is
      a newly allocated container. */
  class ManagerFactory {

    constructor ()
    {
    }

    /** A new DependencyManager holding the formula manager, the scope
        instance and the asserted format. */
    method GenerateDependencyManager(formulaManager: FormulaManager, scopeInst: ScopeInstance,
                                     assertedFormat: Option<Format>) returns (fdm: Manager)
      ensures fresh(fdm)
      ensures fdm.Valid() && fdm.flavor == Dependency
      ensures fdm.entries == InstanceContents(formulaManager, scopeInst, assertedFormat)
    {
      fdm := new Manager(Dependency);
      fdm.Set(FMANAGER, FormulaManagerValue(formulaManager));
      fdm.Set(INSTANCE, ScopeInstanceValue(scopeInst));
      fdm.Set(ASSERTED, FormatValue(assertedFormat));
      SetsCompose(InstanceUpdates(formulaManager, scopeInst, assertedFormat));
    }

    /** A new FormulaSemantics holding the formula manager, the legal scope
        and the asserted format, which may be null. */
    method GenerateFormulaSemantics(manager: FormulaManager, legalScope: LegalScope,
                                    assertedFormat: Option<Format>) returns (semantics: Manager)
      ensures fresh(semantics)
      ensures semantics.Valid() && semantics.flavor == Semantics
      ensures semantics.entries == SemanticsContents(manager, legalScope, assertedFormat)
    {
      semantics := new Manager(Semantics);
      semantics.Set(FMANAGER, FormulaManagerValue(manager));
      semantics.Set(SCOPE, LegalScopeValue(legalScope));
      semantics.Set(ASSERTED, FormatValue(assertedFormat));
      SetsCompose(SemanticsUpdates(manager, legalScope, assertedFormat));
    }

    /** A new EvaluationManager holding the formula manager, the scope
        instance and the asserted format. */
    method GenerateEvaluationManager(formulaManager: FormulaManager, scopeInst: ScopeInstance,
                                     assertedFormat: Option<Format>) returns (manager: Manager)
      ensures fresh(manager)
      ensures manager.Valid() && manager.flavor == Evaluation
      ensures manager.entries == InstanceContents(formulaManager, scopeInst, assertedFormat)
    {
      manager := new Manager(Evaluation);
      manager.Set(FMANAGER, FormulaManagerValue(formulaManager));
      manager.Set(INSTANCE, ScopeInstanceValue(scopeInst));
      manager.Set(ASSERTED, FormatValue(assertedFormat));
      SetsCompose(InstanceUpdates(formulaManager, scopeInst, assertedFormat));
    }

    /** A new EvaluationManager for the formula that defines `varID`: its
        scope instance and asserted format are the variable's own. */
    method GenerateEvaluationManagerForVariable(formulaManager: FormulaManager, varID: VariableID)
      returns (manager: Manager)
      ensures fresh(manager)
      ensures manager.Valid() && manager.flavor == Evaluation
      ensures manager.entries == VariableContents(formulaManager, varID)
    {
      manager := new Manager(Evaluation);
      manager.Set(FMANAGER, FormulaManagerValue(formulaManager));
      manager.Set(INSTANCE, ScopeInstanceValue(varID.GetScope()));
      manager.Set(ASSERTED, FormatValue(Some(varID.GetVariableFormat())));
      SetsCompose(InstanceUpdates(formulaManager, varID.GetScope(), Some(varID.GetVariableFormat())));
    }
  }

  /** Three single `set` calls from an empty container amount to the run of
      all three. */
  lemma SetsCompose(updates: seq<Update>)
    requires |updates| == 3
    ensures Apply(Apply(Apply(map[], [updates[0]]), [updates[1]]), [updates[2]]) == Apply(map[], updates)
  {
    ApplyConcat(map[], [updates[0]], [updates[1]]);
    ApplyConcat(map[], [updates[0], updates[1]], [updates[2]]);
    assert [updates[0]] + [updates[1]] == [updates[0], updates[1]];
    assert [updates[0], updates[1]] + [updates[2]] == updates;
  }

  /** Dependency and evaluation managers built from the same arguments are
      two distinct objects with the same contents. */
  method DependencyAgreesWithEvaluation(factory: ManagerFactory, formulaManager: FormulaManager,
                                        scopeInst: ScopeInstance, assertedFormat: Option<Format>)
    returns (fdm: Manager, manager: Manager)
    ensures fdm != manager
    ensures fdm.entries == manager.entries
  {
    fdm := factory.GenerateDependencyManager(formulaManager, scopeInst, assertedFormat);
    manager := factory.GenerateEvaluationManager(formulaManager, scopeInst, assertedFormat);
  }

  /** The two evaluation overloads agree when the scope instance and format
      are taken from the VariableID. */
  method VariableOverloadAgrees(factory: ManagerFactory, formulaManager: FormulaManager,
                                varID: VariableID)
    returns (byVariable: Manager, byParts: Manager)
    ensures byVariable != byParts
    ensures byVariable.entries == byParts.entries
  {
    byVariable := factory.GenerateEvaluationManagerForVariable(formulaManager, varID);
    byParts := factory.GenerateEvaluationManager(formulaManager, varID.GetScope(),
                                                 Some(varID.GetVariableFormat()));
  }

  /** Managers returned earlier keep their contents across later calls of
      all four factory operations, whatever the later arguments are. */
  method EarlierManagerUnchanged(factory: ManagerFactory,
                                 formulaManager: FormulaManager, scopeInst: ScopeInstance,
                                 legalScope: LegalScope, assertedFormat: Option<Format>,
                                 laterFormulaManager: FormulaManager, laterScopeInst: ScopeInstance,
                                 laterLegalScope: LegalScope, laterFormat: Option<Format>,
                                 laterVarID: VariableID)
    returns (fdm: Manager, semantics: Manager, manager: Manager)
    ensures fdm.entries == InstanceContents(formulaManager, scopeInst, assertedFormat)
    ensures semantics.entries == SemanticsContents(formulaManager, legalScope, assertedFormat)
    ensures manager.entries == InstanceContents(formulaManager, scopeInst, assertedFormat)
  {
    fdm := factory.GenerateDependencyManager(formulaManager, scopeInst, assertedFormat);
    semantics := factory.GenerateFormulaSemantics(formulaManager, legalScope, assertedFormat);
    manager := factory.GenerateEvaluationManager(formulaManager, scopeInst, assertedFormat);
    var laterDependency := factory.GenerateDependencyManager(laterFormulaManager, laterScopeInst, laterFormat);
    var laterSemantics := factory.GenerateFormulaSemantics(laterFormulaManager, laterLegalScope, laterFormat);
    var laterEvaluation := factory.GenerateEvaluationManager(laterFormulaManager, laterScopeInst, laterFormat);
    var laterByVariable := factory.GenerateEvaluationManagerForVariable(laterFormulaManager, laterVarID);
  }
}

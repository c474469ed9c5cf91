/** The collaborators of the manager factory, seen only from outside.
    A FormulaManager, a ScopeInstance, a LegalScope and a format class are
    handed through the factory untouched, so each is an abstract type that
    supports only equality. A VariableID is a value whose scope and format
    the factory reads. */
module FormulaBase {

  /** The process-wide registry of function, operator and variable libraries. */
  type FormulaManager(==)

  /** A runtime binding of a legal scope to one concrete subject. */
  type ScopeInstance(==)

  /** A static, named node of the scope hierarchy. */
  type LegalScope(==)

  /** The class object that names the format of a formula result. */
  type Format(==)

  /** A reference that may be null: `None` stands for Java's null. */
  datatype Option<+T> = None | Some(value: T)

  /** The resolved identity of one variable: its scope instance, its name and
      its format. */
  datatype VariableID = VariableID(scope: ScopeInstance, name: string, format: Format)
  {
    /** The scope instance in which the variable lives. */
    function GetScope(): ScopeInstance
    {
      scope
    }

    /** The format of the variable's value. */
    function GetVariableFormat(): Format
    {
      format
    }
  }
}

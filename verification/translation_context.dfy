/** The per-statement translation scope: variables keyed by the syntax node
    that introduced them, the names in use statement-wide, and the common path
    expressions visible to the statement. */
module TranslationContext {
  import opened Wrappers
  import opened PropertyGraphIr
  import opened PropertyGraphSyntax

  /** `readOnly` records that the collections are the immutable
      `Collections.empty*` ones, on which any write throws. */
  datatype Context = Context(
    vars: map<Term, QueryVariable>,
    varNames: set<string>,
    commonPathExpressions: map<string, CommonPathExpression>,
    readOnly: bool)

  /** The three-argument constructor, given writable collections. */
  function New(vars: map<Term, QueryVariable>, varNames: set<string>,
               commonPathExpressions: map<string, CommonPathExpression>): (c: Context)
    ensures forall o :: GetVariable(c, o) == (if o in vars then Some(vars[o]) else None)
    ensures forall n :: IsVariableNameInUse(c, n) <==> n in varNames
    ensures GetCommonPathExpressions(c) == commonPathExpressions
    ensures !c.readOnly
  {
    Context(vars, varNames, commonPathExpressions, false)
  }

  /** The no-argument constructor: immutable empty collections. */
  function Empty(): (c: Context)
    ensures forall o :: GetVariable(c, o).None?
    ensures forall n :: !IsVariableNameInUse(c, n)
    ensures GetCommonPathExpressions(c) == map[]
    ensures c.readOnly
  {
    Context(map[], {}, map[], true)
  }

  /** Binds `v` to its origin node and records its name, without checking the
      name for a collision. Writing to an immutable context throws. */
  function AddVar(c: Context, v: QueryVariable, varName: string, originOffset: Term): (r: Result<Context, Error>)
    ensures r.Failure? <==> c.readOnly
    ensures r.Failure? ==> r.error == UnsupportedOperation
    ensures r.Success? ==> GetVariable(r.value, originOffset) == Some(v)
    ensures r.Success? ==> forall o :: o != originOffset ==> GetVariable(r.value, o) == GetVariable(c, o)
    ensures r.Success? ==> forall n :: IsVariableNameInUse(r.value, n) <==> n == varName || IsVariableNameInUse(c, n)
    ensures r.Success? ==> GetCommonPathExpressions(r.value) == GetCommonPathExpressions(c)
    ensures r.Success? ==> !r.value.readOnly
  {
    if c.readOnly then Failure(UnsupportedOperation)
    else Success(c.(vars := c.vars[originOffset := v], varNames := c.varNames + {varName}))
  }

  /** The variable bound to `originOffset`, or `None` (Java's null). */
  function GetVariable(c: Context, originOffset: Term): (r: Option<QueryVariable>)
    ensures r.Some? <==> originOffset in c.vars
    ensures r.Some? ==> r.value == c.vars[originOffset]
  {
    if originOffset in c.vars then Some(c.vars[originOffset]) else None
  }

  predicate IsVariableNameInUse(c: Context, varName: string)
    ensures IsVariableNameInUse(c, varName) <==> varName in c.varNames
  {
    varName in c.varNames
  }

  /** The common path expressions, handed out as stored. */
  function GetCommonPathExpressions(c: Context): (r: map<string, CommonPathExpression>)
    ensures r == c.commonPathExpressions
  {
    c.commonPathExpressions
  }

  /** Adding a name that is already in use succeeds and leaves the set of
      names in use as it was. */
  lemma AddVarDoesNotCheckCollisions(c: Context, v: QueryVariable, varName: string, originOffset: Term)
    requires !c.readOnly
    requires IsVariableNameInUse(c, varName)
    ensures AddVar(c, v, varName, originOffset).Success?
    ensures forall n :: IsVariableNameInUse(AddVar(c, v, varName, originOffset).value, n) <==> IsVariableNameInUse(c, n)
  {
  }

  /** Binding the same origin twice keeps only the later variable, and both
      names stay in use. */
  lemma AddVarOverwrites(c: Context, v1: QueryVariable, n1: string, v2: QueryVariable, n2: string, o: Term)
    requires !c.readOnly
    ensures AddVar(c, v1, n1, o).Success?
    ensures AddVar(AddVar(c, v1, n1, o).value, v2, n2, o).Success?
    ensures GetVariable(AddVar(AddVar(c, v1, n1, o).value, v2, n2, o).value, o) == Some(v2)
    ensures IsVariableNameInUse(AddVar(AddVar(c, v1, n1, o).value, v2, n2, o).value, n1)
    ensures IsVariableNameInUse(AddVar(AddVar(c, v1, n1, o).value, v2, n2, o).value, n2)
  {
  }
}

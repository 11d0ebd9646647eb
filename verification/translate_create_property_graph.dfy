/** Lowering of a parsed CREATE PROPERTY GRAPH statement into IR. Every
    operation is total and returns a `Result`: an unknown constructor name in
    a variant clause is an `IllegalArgument` failure, and a failure of the
    expression translator is returned unchanged. Lists are processed in
    order and the first failure aborts the whole statement. */
module TranslateCreatePropertyGraph {
  import opened Wrappers
  import opened Sequences
  import opened PropertyGraphIr
  import opened PropertyGraphSyntax
  import TranslationContext

  /** The expression translator, which is not part of this model. */
  type ExpTranslator = (Term, TranslationContext.Context) -> Result<QueryExpression, Error>

  const PROPERTY_EXPRESSIONS := "PropertyExpressions"
  const PROPERTIES_ARE_ALL_COLUMNS := "PropertiesAreAllColumns"
  const ELEMENT_TABLES := "ElementTables"
  const ALL_ELEMENT_TABLES := "AllElementTables"

  /** The message of the exception for an unknown element-tables constructor. */
  function UnknownConstructorMessage(constructorName: string): string {
    "Unknown constructor name: " + constructorName
  }

  /** Property expressions cannot refer to query variables or common path
      expressions, so they are translated in an empty (immutable) context. */
  function PropertyExpressionContext(): TranslationContext.Context {
    TranslationContext.Empty()
  }

  // ---------------------------------------------------------------- keys

  function GetKey(keyClause: Option<KeyClause>): (k: Option<Key>)
    ensures k.None? <==> keyClause.None?
    ensures k.Some? ==> |k.value.columnNames| == |keyClause.value.columnNames|
    ensures k.Some? ==> forall i :: 0 <= i < |k.value.columnNames| ==>
                          k.value.columnNames[i] == keyClause.value.columnNames[i]
  {
    match keyClause
    case None => None
    case Some(clause) => Some(Key(clause.columnNames))
  }

  // ------------------------------------------------- labels and properties

  function GetProperty(expAsVar: ExpAsVar, translateExp: ExpTranslator): (r: Result<Property, Error>)
    ensures r.Success? <==> translateExp(expAsVar.exp, PropertyExpressionContext()).Success?
    ensures r.Failure? ==> r == Failure(translateExp(expAsVar.exp, PropertyExpressionContext()).error)
    ensures r.Success? ==> r.value.valueExpression == translateExp(expAsVar.exp, PropertyExpressionContext()).value
    ensures r.Success? ==> (r.value.propertyName.None? <==> expAsVar.name.None?)
    ensures r.Success? && expAsVar.name.Some? ==> r.value.propertyName == expAsVar.name
  {
    var valueExpression :- translateExp(expAsVar.exp, PropertyExpressionContext());
    Success(Property(valueExpression, expAsVar.name))
  }

  function GetProperties(propertiesList: seq<ExpAsVar>, translateExp: ExpTranslator): Result<seq<Property>, Error> {
    MapResult(propertiesList, e => GetProperty(e, translateExp))
  }

  /** The label named `labelName` with the given properties clause; an absent
      clause gives no label at all (Java's null). */
  function GetLabel(labelName: string, propertiesClause: Option<PropertiesSpecification>,
                    translateExp: ExpTranslator): (r: Result<Option<Label>, Error>)
    ensures propertiesClause.None? ==> r == Success(None)
    ensures propertiesClause.Some? && propertiesClause.value.constructorName == PROPERTY_EXPRESSIONS ==>
              var entries := propertiesClause.value.propertiesList;
              && (r.Success? <==> forall i :: 0 <= i < |entries| ==> GetProperty(entries[i], translateExp).Success?)
              && (r.Success? ==>
                    && r.value.Some? && r.value.value.WithProperties? && r.value.value.name == labelName
                    && |r.value.value.properties| == |entries|
                    && forall i :: 0 <= i < |entries| ==>
                         GetProperty(entries[i], translateExp) == Success(r.value.value.properties[i]))
              && (r.Failure? ==>
                    exists k :: && 0 <= k < |entries|
                                && translateExp(entries[k].exp, PropertyExpressionContext()) == Failure(r.error)
                                && forall j :: 0 <= j < k ==>
                                     translateExp(entries[j].exp, PropertyExpressionContext()).Success?)
    ensures propertiesClause.Some? && propertiesClause.value.constructorName == PROPERTIES_ARE_ALL_COLUMNS ==>
              && r.Success? && r.value.Some? && r.value.value.AllColumns?
              && r.value.value.name == labelName
              && r.value.value.propertiesAreAllColumns
              && r.value.value.exceptColumns == propertiesClause.value.exceptPart
    ensures propertiesClause.Some?
            && propertiesClause.value.constructorName != PROPERTY_EXPRESSIONS
            && propertiesClause.value.constructorName != PROPERTIES_ARE_ALL_COLUMNS ==>
              r == Failure(IllegalArgument(propertiesClause.value.constructorName))
    ensures r.Success? && r.value.Some? ==> r.value.value.name == labelName
  {
    match propertiesClause
    case None => Success(None)
    case Some(spec) =>
      if spec.constructorName == PROPERTY_EXPRESSIONS then
        var properties :- GetProperties(spec.propertiesList, translateExp);
        Success(Some(WithProperties(labelName, properties)))
      else if spec.constructorName == PROPERTIES_ARE_ALL_COLUMNS then
        Success(Some(AllColumns(labelName, true, spec.exceptPart)))
      else
        Failure(IllegalArgument(spec.constructorName))
  }

  function GetLabelOf(l: LabelAndProperties, translateExp: ExpTranslator): Result<Option<Label>, Error> {
    GetLabel(l.labelName, l.propertiesClause, translateExp)
  }

  /** One entry (possibly null) per label clause, in order. */
  function GetLabels(labelAndPropertiesList: seq<LabelAndProperties>, translateExp: ExpTranslator)
    : (r: Result<seq<Option<Label>>, Error>)
    ensures r.Success? ==> |r.value| == |labelAndPropertiesList|
    ensures r.Success? ==> forall i :: 0 <= i < |labelAndPropertiesList| ==>
              GetLabel(labelAndPropertiesList[i].labelName, labelAndPropertiesList[i].propertiesClause, translateExp)
              == Success(r.value[i])
    ensures r.Failure? ==>
              exists i :: && 0 <= i < |labelAndPropertiesList|
                          && GetLabel(labelAndPropertiesList[i].labelName, labelAndPropertiesList[i].propertiesClause,
                                      translateExp) == Failure(r.error)
                          && forall j :: 0 <= j < i ==>
                               GetLabel(labelAndPropertiesList[j].labelName, labelAndPropertiesList[j].propertiesClause,
                                        translateExp).Success?
  {
    MapResult(labelAndPropertiesList, l => GetLabelOf(l, translateExp))
  }

  // ----------------------------------------------------------- base graphs

  function GetBaseElementTables(refs: seq<BaseElementTableReference>): (r: seq<BaseElementTable>)
    ensures |r| == |refs|
    ensures forall i :: 0 <= i < |refs| ==>
              r[i].referencedTableName == refs[i].name && r[i].tableAlias == refs[i].alias
  {
    seq(|refs|, i requires 0 <= i < |refs| => BaseElementTable(refs[i].name, refs[i].alias))
  }

  function GetBaseGraph(def: BaseGraphDefinition): (r: Result<BaseGraph, Error>)
    ensures def.elementTables.None? ==> r == Success(BaseGraph(def.graphName, None, None))
    ensures def.elementTables.Some? && def.elementTables.value.constructorName == ELEMENT_TABLES ==>
              && r.Success? && r.value.graphName == def.graphName
              && r.value.allElementTablesExcept.None?
              && r.value.baseElementTables == Some(GetBaseElementTables(def.elementTables.value.tablesList))
    ensures def.elementTables.Some? && def.elementTables.value.constructorName == ALL_ELEMENT_TABLES ==>
              && r.Success? && r.value.graphName == def.graphName
              && r.value.baseElementTables.None?
              && r.value.allElementTablesExcept == def.elementTables.value.exceptPart
    ensures def.elementTables.Some?
            && def.elementTables.value.constructorName != ELEMENT_TABLES
            && def.elementTables.value.constructorName != ALL_ELEMENT_TABLES ==>
              r == Failure(IllegalArgument(UnknownConstructorMessage(def.elementTables.value.constructorName)))
  {
    match def.elementTables
    case None => Success(BaseGraph(def.graphName, None, None))
    case Some(tables) =>
      if tables.constructorName == ELEMENT_TABLES then
        Success(BaseGraph(def.graphName, Some(GetBaseElementTables(tables.tablesList)), None))
      else if tables.constructorName == ALL_ELEMENT_TABLES then
        Success(BaseGraph(def.graphName, None, tables.exceptPart))
      else
        Failure(IllegalArgument(UnknownConstructorMessage(tables.constructorName)))
  }

  /** `None` (Java's null) when the base-graphs clause is absent. */
  function GetBaseGraphs(baseGraphsClause: Option<seq<BaseGraphDefinition>>): (r: Result<Option<seq<BaseGraph>>, Error>)
    ensures baseGraphsClause.None? ==> r == Success(None)
    ensures baseGraphsClause.Some? && r.Success? ==> r.value.Some?
    ensures baseGraphsClause.Some? && r.Success? ==>
              && |r.value.value| == |baseGraphsClause.value|
              && forall i :: 0 <= i < |baseGraphsClause.value| ==>
                   GetBaseGraph(baseGraphsClause.value[i]) == Success(r.value.value[i])
    ensures baseGraphsClause.Some? && r.Failure? ==>
              exists i :: && 0 <= i < |baseGraphsClause.value|
                          && GetBaseGraph(baseGraphsClause.value[i]) == Failure(r.error)
                          && forall j :: 0 <= j < i ==> GetBaseGraph(baseGraphsClause.value[j]).Success?
  {
    match baseGraphsClause
    case None => Success(None)
    case Some(defs) =>
      var baseGraphs :- MapResult(defs, GetBaseGraph);
      Success(Some(baseGraphs))
  }

  // --------------------------------------------------------- vertex tables

  function GetVertexTableDefinition(def: VertexTableDefinition, translateExp: ExpTranslator)
    : (r: Result<VertexTable, Error>)
    ensures r.Success? ==> r.value.Defined?
    ensures r.Success? ==> r.value.tableName == def.tableName && r.value.tableAlias == def.tableAlias
    ensures r.Success? ==> r.value.key == GetKey(def.key)
    ensures r.Success? ==> GetLabels(def.labelAndProperties, translateExp) == Success(r.value.labels)
    ensures r.Failure? ==> GetLabels(def.labelAndProperties, translateExp) == Failure(r.error)
  {
    var labels :- GetLabels(def.labelAndProperties, translateExp);
    Success(Defined(def.tableName, def.tableAlias, GetKey(def.key), labels))
  }

  function GetVertexTables(defs: seq<VertexTableDefinition>, translateExp: ExpTranslator)
    : (r: Result<seq<VertexTable>, Error>)
    ensures r.Success? ==> |r.value| == |defs|
    ensures r.Success? ==> AllDefined(r.value)
    ensures r.Success? ==> forall i :: 0 <= i < |defs| ==>
              GetVertexTableDefinition(defs[i], translateExp) == Success(r.value[i])
    ensures r.Success? ==> forall i :: 0 <= i < |defs| ==>
              r.value[i].tableName == defs[i].tableName && r.value[i].tableAlias == defs[i].tableAlias
    ensures r.Failure? ==>
              exists i :: && 0 <= i < |defs|
                          && GetVertexTableDefinition(defs[i], translateExp) == Failure(r.error)
                          && forall j :: 0 <= j < i ==> GetVertexTableDefinition(defs[j], translateExp).Success?
  {
    MapResult(defs, d => GetVertexTableDefinition(d, translateExp))
  }

  predicate AllDefined(vertexTables: seq<VertexTable>) {
    forall i :: 0 <= i < |vertexTables| ==> vertexTables[i].Defined?
  }

  // ---------------------------------------------------- endpoint resolution

  /** The declarative resolution rule: the first vertex table, in list order,
      whose alias is `alias`; failing that, the placeholder named by the
      alias with no schema. */
  ghost predicate ResolvesTo(vertexTables: seq<VertexTable>, alias: string, vt: VertexTable)
    requires AllDefined(vertexTables)
  {
    || (exists k :: 0 <= k < |vertexTables| && vertexTables[k] == vt && vt.tableAlias == alias
                    && forall j :: 0 <= j < k ==> vertexTables[j].tableAlias != alias)
    || ((forall k :: 0 <= k < |vertexTables| ==> vertexTables[k].tableAlias != alias)
        && vt == Placeholder(SchemaQualifiedName(None, alias)))
  }

  /** The vertex table with the given alias among `vertexTables`, or a
      placeholder for one defined outside the statement. */
  function GetVertexTable(vertexTables: seq<VertexTable>, tableAlias: string): (vt: VertexTable)
    requires AllDefined(vertexTables)
    ensures ResolvesTo(vertexTables, tableAlias, vt)
    ensures vt.Placeholder? <==> forall k :: 0 <= k < |vertexTables| ==> vertexTables[k].tableAlias != tableAlias
    ensures vt.Placeholder? ==> forall k :: 0 <= k < |vertexTables| ==> vertexTables[k] != vt
    decreases |vertexTables|
  {
    if |vertexTables| == 0 then Placeholder(SchemaQualifiedName(None, tableAlias))
    else if vertexTables[0].tableAlias == tableAlias then vertexTables[0]
    else
      var vt := GetVertexTable(vertexTables[1..], tableAlias);
      assert forall k :: 1 <= k < |vertexTables| ==> vertexTables[k] == vertexTables[1..][k - 1];
      vt
  }

  /** Resolution determines at most one table. */
  lemma {:induction false} ResolvesToIsFunctional(vertexTables: seq<VertexTable>, alias: string, a: VertexTable, b: VertexTable)
    requires AllDefined(vertexTables)
    requires ResolvesTo(vertexTables, alias, a) && ResolvesTo(vertexTables, alias, b)
    ensures a == b
  {
    if exists k :: 0 <= k < |vertexTables| && vertexTables[k] == a && a.tableAlias == alias
                   && forall j :: 0 <= j < k ==> vertexTables[j].tableAlias != alias {
      var ka :| 0 <= ka < |vertexTables| && vertexTables[ka] == a && a.tableAlias == alias
                && forall j :: 0 <= j < ka ==> vertexTables[j].tableAlias != alias;
      var kb :| 0 <= kb < |vertexTables| && vertexTables[kb] == b && b.tableAlias == alias
                && forall j :: 0 <= j < kb ==> vertexTables[j].tableAlias != alias;
      assert ka == kb;
    }
  }

  /** The alias an endpoint refers to: only the name part of the referenced
      qualified name; its schema part plays no role. */
  function ReferencedAlias(endpoint: EdgeEndpoint): string {
    endpoint.referencedVertexTable.name.name
  }

  // ----------------------------------------------------------- edge tables

  function GetEdgeTableDefinition(def: EdgeTableDefinition, vertexTables: seq<VertexTable>,
                                  translateExp: ExpTranslator): (r: Result<EdgeTable, Error>)
    requires AllDefined(vertexTables)
    ensures r.Success? ==> r.value.tableName == def.tableName && r.value.tableAlias == def.tableAlias
    ensures r.Success? ==> ResolvesTo(vertexTables, ReferencedAlias(def.source), r.value.sourceVertexTable)
    ensures r.Success? ==> ResolvesTo(vertexTables, ReferencedAlias(def.destination), r.value.destinationVertexTable)
    ensures r.Success? ==> r.value.key == GetKey(def.key)
    ensures r.Success? ==> r.value.edgeSourceKey == GetKey(def.source.edgeKey)
    ensures r.Success? ==> r.value.sourceVertexKey == GetKey(def.source.referencedVertexTable.columnList)
    ensures r.Success? ==> r.value.edgeDestinationKey == GetKey(def.destination.edgeKey)
    ensures r.Success? ==> r.value.destinationVertexKey == GetKey(def.destination.referencedVertexTable.columnList)
    ensures r.Success? ==> GetLabels(def.labelAndProperties, translateExp) == Success(r.value.labels)
    ensures r.Failure? ==> GetLabels(def.labelAndProperties, translateExp) == Failure(r.error)
  {
    var sourceVertexTable := GetVertexTable(vertexTables, ReferencedAlias(def.source));
    var destinationVertexTable := GetVertexTable(vertexTables, ReferencedAlias(def.destination));
    var labels :- GetLabels(def.labelAndProperties, translateExp);
    Success(EdgeTable(
      def.tableName, def.tableAlias, GetKey(def.key),
      sourceVertexTable, GetKey(def.source.edgeKey), GetKey(def.source.referencedVertexTable.columnList),
      destinationVertexTable, GetKey(def.destination.edgeKey), GetKey(def.destination.referencedVertexTable.columnList),
      labels))
  }

  function GetEdgeTables(defs: seq<EdgeTableDefinition>, vertexTables: seq<VertexTable>,
                         translateExp: ExpTranslator): (r: Result<seq<EdgeTable>, Error>)
    requires AllDefined(vertexTables)
    ensures r.Success? ==> |r.value| == |defs|
    ensures r.Success? ==> forall i :: 0 <= i < |defs| ==>
              GetEdgeTableDefinition(defs[i], vertexTables, translateExp) == Success(r.value[i])
    ensures r.Success? ==> forall i :: 0 <= i < |defs| ==>
              && ResolvesTo(vertexTables, ReferencedAlias(defs[i].source), r.value[i].sourceVertexTable)
              && ResolvesTo(vertexTables, ReferencedAlias(defs[i].destination), r.value[i].destinationVertexTable)
    ensures r.Failure? ==>
              exists i :: && 0 <= i < |defs|
                          && GetEdgeTableDefinition(defs[i], vertexTables, translateExp) == Failure(r.error)
                          && forall j :: 0 <= j < i ==> GetEdgeTableDefinition(defs[j], vertexTables, translateExp).Success?
  {
    MapResult(defs, d => GetEdgeTableDefinition(d, vertexTables, translateExp))
  }

  // ------------------------------------------------------------- statement

  /** `getOptions`: the option strings in order; absent when the clause is. */
  function GetOptions(optionsClause: Option<seq<string>>): (r: Option<seq<string>>)
    ensures r.None? <==> optionsClause.None?
    ensures r.Some? ==> r.value == optionsClause.value
  {
    match optionsClause
    case None => None
    case Some(options) => Some(options)
  }

  /** The translation of a whole statement: a super graph exactly when the
      base-graphs clause is present, with the options set on either variant.
      Base graphs are translated first, then vertex tables, then edge tables
      (resolved against the vertex tables of this statement only). */
  function Translate(ast: CreatePropertyGraphStatement, translateExp: ExpTranslator)
    : (r: Result<CreatePropertyGraph, Error>)
    ensures r.Success? ==> (r.value.CreateSuperPropertyGraph? <==> ast.baseGraphs.Some?)
    ensures r.Success? ==> r.value.graphName == ast.graphName
    ensures r.Success? ==> (r.value.options.None? <==> ast.options.None?)
    ensures r.Success? && ast.options.Some? ==> r.value.options == ast.options
    ensures r.Success? && r.value.CreateSuperPropertyGraph? ==> |r.value.baseGraphs| == |ast.baseGraphs.value|
    ensures r.Success? && r.value.CreateSuperPropertyGraph? ==>
              GetBaseGraphs(ast.baseGraphs) == Success(Some(r.value.baseGraphs))
    ensures r.Success? ==> GetVertexTables(ast.vertexTables, translateExp) == Success(r.value.vertexTables)
    ensures r.Success? ==>
              GetEdgeTables(ast.edgeTables, r.value.vertexTables, translateExp) == Success(r.value.edgeTables)
    ensures r.Success? ==> |r.value.vertexTables| == |ast.vertexTables|
    ensures r.Success? ==> |r.value.edgeTables| == |ast.edgeTables|
    ensures r.Success? ==> AllDefined(r.value.vertexTables)
    ensures r.Success? ==> forall i :: 0 <= i < |ast.edgeTables| ==>
              && ResolvesTo(r.value.vertexTables, ReferencedAlias(ast.edgeTables[i].source),
                            r.value.edgeTables[i].sourceVertexTable)
              && ResolvesTo(r.value.vertexTables, ReferencedAlias(ast.edgeTables[i].destination),
                            r.value.edgeTables[i].destinationVertexTable)
  {
    var baseGraphs :- GetBaseGraphs(ast.baseGraphs);
    var vertexTables :- GetVertexTables(ast.vertexTables, translateExp);
    var edgeTables :- GetEdgeTables(ast.edgeTables, vertexTables, translateExp);
    var options := GetOptions(ast.options);
    match baseGraphs
    case None => Success(CreatePropertyGraph(ast.graphName, vertexTables, edgeTables, options))
    case Some(bgs) => Success(CreateSuperPropertyGraph(ast.graphName, bgs, vertexTables, edgeTables, options))
  }
}

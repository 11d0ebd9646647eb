/** The inverse of the translation: IR printed back as a syntax tree. On the
    well-formed IR — the image of the translation — translating the printed
    tree gives the IR back, so the translation loses nothing beyond what
    `WellFormed` rules out. */
module CreatePropertyGraphInverse {
  import opened Wrappers
  import opened Sequences
  import opened PropertyGraphIr
  import opened PropertyGraphSyntax
  import opened TranslateCreatePropertyGraph

  /** `unparseExp` undoes the expression translator on every expression. */
  ghost predicate Inverse(translateExp: ExpTranslator, unparseExp: QueryExpression -> Term) {
    forall e :: translateExp(unparseExp(e), PropertyExpressionContext()) == Success(e)
  }

  // ------------------------------------------------------------ printing

  function UnparseKey(key: Option<Key>): Option<KeyClause> {
    match key
    case None => None
    case Some(k) => Some(KeyClause(k.columnNames))
  }

  function UnparseProperty(p: Property, unparseExp: QueryExpression -> Term): ExpAsVar {
    ExpAsVar(unparseExp(p.valueExpression), p.propertyName)
  }

  /** A null label prints as a clause without properties; its name is not
      recoverable and printed empty. */
  function UnparseLabel(entry: Option<Label>, unparseExp: QueryExpression -> Term): LabelAndProperties {
    match entry
    case None => LabelAndProperties("", None)
    case Some(WithProperties(name, properties)) =>
      LabelAndProperties(name, Some(PropertiesSpecification(
        PROPERTY_EXPRESSIONS,
        seq(|properties|, i requires 0 <= i < |properties| => UnparseProperty(properties[i], unparseExp)),
        None)))
    case Some(AllColumns(name, _, exceptColumns)) =>
      LabelAndProperties(name, Some(PropertiesSpecification(PROPERTIES_ARE_ALL_COLUMNS, [], exceptColumns)))
  }

  function UnparseLabels(labels: seq<Option<Label>>, unparseExp: QueryExpression -> Term): seq<LabelAndProperties> {
    seq(|labels|, i requires 0 <= i < |labels| => UnparseLabel(labels[i], unparseExp))
  }

  function UnparseVertexTable(vt: VertexTable, unparseExp: QueryExpression -> Term): VertexTableDefinition {
    match vt
    case Defined(name, alias, key, labels) =>
      VertexTableDefinition(name, alias, UnparseKey(key), UnparseLabels(labels, unparseExp))
    case Placeholder(name) => VertexTableDefinition(name, "", None, [])
  }

  /** The alias an edge endpoint refers to. */
  function EndpointAlias(vt: VertexTable): string {
    match vt
    case Defined(_, alias, _, _) => alias
    case Placeholder(name) => name.name
  }

  function UnparseEndpoint(vt: VertexTable, edgeKey: Option<Key>, vertexKey: Option<Key>): EdgeEndpoint {
    EdgeEndpoint(UnparseKey(edgeKey),
                 ReferencedVertexTable(SchemaQualifiedName(None, EndpointAlias(vt)), UnparseKey(vertexKey)))
  }

  function UnparseEdgeTable(et: EdgeTable, unparseExp: QueryExpression -> Term): EdgeTableDefinition {
    EdgeTableDefinition(
      et.tableName, et.tableAlias, UnparseKey(et.key),
      UnparseEndpoint(et.sourceVertexTable, et.edgeSourceKey, et.sourceVertexKey),
      UnparseEndpoint(et.destinationVertexTable, et.edgeDestinationKey, et.destinationVertexKey),
      UnparseLabels(et.labels, unparseExp))
  }

  function UnparseBaseGraph(bg: BaseGraph): BaseGraphDefinition {
    BaseGraphDefinition(
      bg.graphName,
      if bg.baseElementTables.Some? then
        var ts := bg.baseElementTables.value;
        Some(BaseElementTables(
          ELEMENT_TABLES,
          seq(|ts|, i requires 0 <= i < |ts| => BaseElementTableReference(ts[i].referencedTableName, ts[i].tableAlias)),
          None))
      else if bg.allElementTablesExcept.Some? then
        Some(BaseElementTables(ALL_ELEMENT_TABLES, [], bg.allElementTablesExcept))
      else None)
  }

  function UnparseBaseGraphs(bgs: seq<BaseGraph>): seq<BaseGraphDefinition> {
    seq(|bgs|, i requires 0 <= i < |bgs| => UnparseBaseGraph(bgs[i]))
  }

  function Unparse(g: CreatePropertyGraph, unparseExp: QueryExpression -> Term): CreatePropertyGraphStatement {
    var vts := g.vertexTables;
    var ets := g.edgeTables;
    CreatePropertyGraphStatement(
      g.graphName,
      if g.CreateSuperPropertyGraph? then
        Some(UnparseBaseGraphs(g.baseGraphs))
      else None,
      seq(|vts|, i requires 0 <= i < |vts| => UnparseVertexTable(vts[i], unparseExp)),
      seq(|ets|, i requires 0 <= i < |ets| => UnparseEdgeTable(ets[i], unparseExp)),
      g.options)
  }

  // ------------------------------------------------------- well-formedness

  predicate LabelWellFormed(entry: Option<Label>) {
    entry.Some? && entry.value.AllColumns? ==> entry.value.propertiesAreAllColumns
  }

  predicate LabelsWellFormed(labels: seq<Option<Label>>) {
    forall j :: 0 <= j < |labels| ==> LabelWellFormed(labels[j])
  }

  /** Each endpoint is what the resolution rule gives for its own alias among
      the statement's vertex tables. */
  ghost predicate EdgeTableWellFormed(et: EdgeTable, vertexTables: seq<VertexTable>)
    requires AllDefined(vertexTables)
  {
    && ResolvesTo(vertexTables, EndpointAlias(et.sourceVertexTable), et.sourceVertexTable)
    && ResolvesTo(vertexTables, EndpointAlias(et.destinationVertexTable), et.destinationVertexTable)
    && LabelsWellFormed(et.labels)
  }

  predicate BaseGraphWellFormed(bg: BaseGraph) {
    !(bg.baseElementTables.Some? && bg.allElementTablesExcept.Some?)
  }

  ghost predicate WellFormed(g: CreatePropertyGraph) {
    && AllDefined(g.vertexTables)
    && (forall i :: 0 <= i < |g.vertexTables| ==> LabelsWellFormed(g.vertexTables[i].labels))
    && (forall i :: 0 <= i < |g.edgeTables| ==> EdgeTableWellFormed(g.edgeTables[i], g.vertexTables))
    && (g.CreateSuperPropertyGraph? ==>
          forall i :: 0 <= i < |g.baseGraphs| ==> BaseGraphWellFormed(g.baseGraphs[i]))
  }

  // ---------------------------------------------------- translation output

  /** Whatever an alias resolves to, in particular what `GetVertexTable`
      returns for it, carries that alias back. */
  lemma ResolvedEndpointHasAlias(vertexTables: seq<VertexTable>, alias: string, vt: VertexTable)
    requires AllDefined(vertexTables)
    requires ResolvesTo(vertexTables, alias, vt)
    ensures EndpointAlias(vt) == alias
  {
    if vt.Defined? {
      var k :| 0 <= k < |vertexTables| && vertexTables[k] == vt && vt.tableAlias == alias
               && forall j :: 0 <= j < k ==> vertexTables[j].tableAlias != alias;
    }
  }

  lemma TranslatedLabelsWellFormed(ls: seq<LabelAndProperties>, translateExp: ExpTranslator)
    requires GetLabels(ls, translateExp).Success?
    ensures LabelsWellFormed(GetLabels(ls, translateExp).value)
  {
    var labels := GetLabels(ls, translateExp).value;
    forall j | 0 <= j < |labels|
      ensures LabelWellFormed(labels[j])
    {
      assert GetLabelOf(ls[j], translateExp) == Success(labels[j]);
    }
  }

  /** Everything the translation produces is well formed. */
  lemma TranslateIsWellFormed(ast: CreatePropertyGraphStatement, translateExp: ExpTranslator)
    requires Translate(ast, translateExp).Success?
    ensures WellFormed(Translate(ast, translateExp).value)
  {
    var g := Translate(ast, translateExp).value;
    var vts := g.vertexTables;
    assert GetVertexTables(ast.vertexTables, translateExp) == Success(vts);
    forall i | 0 <= i < |vts|
      ensures LabelsWellFormed(vts[i].labels)
    {
      var d := ast.vertexTables[i];
      assert GetVertexTableDefinition(d, translateExp) == Success(vts[i]);
      TranslatedLabelsWellFormed(d.labelAndProperties, translateExp);
    }
    assert GetEdgeTables(ast.edgeTables, vts, translateExp) == Success(g.edgeTables);
    forall i | 0 <= i < |g.edgeTables|
      ensures EdgeTableWellFormed(g.edgeTables[i], vts)
    {
      var d := ast.edgeTables[i];
      assert GetEdgeTableDefinition(d, vts, translateExp) == Success(g.edgeTables[i]);
      TranslatedLabelsWellFormed(d.labelAndProperties, translateExp);
      ResolvedEndpointHasAlias(vts, ReferencedAlias(d.source), g.edgeTables[i].sourceVertexTable);
      ResolvedEndpointHasAlias(vts, ReferencedAlias(d.destination), g.edgeTables[i].destinationVertexTable);
    }
    if g.CreateSuperPropertyGraph? {
      var bgs := MapResult(ast.baseGraphs.value, GetBaseGraph).value;
      assert bgs == g.baseGraphs;
      forall i | 0 <= i < |bgs|
        ensures BaseGraphWellFormed(bgs[i])
      {
        assert GetBaseGraph(ast.baseGraphs.value[i]) == Success(bgs[i]);
      }
    }
  }

  // ------------------------------------------------------------ round trip

  lemma LabelRoundTrip(entry: Option<Label>, translateExp: ExpTranslator, unparseExp: QueryExpression -> Term)
    requires Inverse(translateExp, unparseExp)
    requires LabelWellFormed(entry)
    ensures GetLabelOf(UnparseLabel(entry, unparseExp), translateExp) == Success(entry)
  {
    if entry.Some? && entry.value.WithProperties? {
      var ps := entry.value.properties;
      var entries := UnparseLabel(entry, unparseExp).propertiesClause.value.propertiesList;
      forall i | 0 <= i < |ps|
        ensures GetProperty(entries[i], translateExp) == Success(ps[i])
      {
        assert translateExp(unparseExp(ps[i].valueExpression), PropertyExpressionContext())
               == Success(ps[i].valueExpression);
      }
      MapResultPointwise(entries, e => GetProperty(e, translateExp), ps);
    }
  }

  lemma LabelsRoundTrip(labels: seq<Option<Label>>, translateExp: ExpTranslator, unparseExp: QueryExpression -> Term)
    requires Inverse(translateExp, unparseExp)
    requires LabelsWellFormed(labels)
    ensures GetLabels(UnparseLabels(labels, unparseExp), translateExp) == Success(labels)
  {
    var ls := UnparseLabels(labels, unparseExp);
    forall j | 0 <= j < |labels|
      ensures GetLabelOf(ls[j], translateExp) == Success(labels[j])
    {
      LabelRoundTrip(labels[j], translateExp, unparseExp);
    }
    MapResultPointwise(ls, l => GetLabelOf(l, translateExp), labels);
  }

  lemma VertexTablesRoundTrip(g: CreatePropertyGraph, translateExp: ExpTranslator, unparseExp: QueryExpression -> Term)
    requires Inverse(translateExp, unparseExp)
    requires WellFormed(g)
    ensures GetVertexTables(Unparse(g, unparseExp).vertexTables, translateExp) == Success(g.vertexTables)
  {
    var defs := Unparse(g, unparseExp).vertexTables;
    var vts := g.vertexTables;
    forall i | 0 <= i < |vts|
      ensures GetVertexTableDefinition(defs[i], translateExp) == Success(vts[i])
    {
      LabelsRoundTrip(vts[i].labels, translateExp, unparseExp);
    }
    MapResultPointwise(defs, d => GetVertexTableDefinition(d, translateExp), vts);
  }

  lemma EdgeTableRoundTrip(et: EdgeTable, vertexTables: seq<VertexTable>,
                           translateExp: ExpTranslator, unparseExp: QueryExpression -> Term)
    requires Inverse(translateExp, unparseExp)
    requires AllDefined(vertexTables)
    requires EdgeTableWellFormed(et, vertexTables)
    ensures GetEdgeTableDefinition(UnparseEdgeTable(et, unparseExp), vertexTables, translateExp) == Success(et)
  {
    var source := et.sourceVertexTable;
    var destination := et.destinationVertexTable;
    ResolvesToIsFunctional(vertexTables, EndpointAlias(source), source,
                           GetVertexTable(vertexTables, EndpointAlias(source)));
    ResolvesToIsFunctional(vertexTables, EndpointAlias(destination), destination,
                           GetVertexTable(vertexTables, EndpointAlias(destination)));
    LabelsRoundTrip(et.labels, translateExp, unparseExp);
  }

  lemma EdgeTablesRoundTrip(g: CreatePropertyGraph, translateExp: ExpTranslator, unparseExp: QueryExpression -> Term)
    requires Inverse(translateExp, unparseExp)
    requires WellFormed(g)
    ensures GetEdgeTables(Unparse(g, unparseExp).edgeTables, g.vertexTables, translateExp) == Success(g.edgeTables)
  {
    var defs := Unparse(g, unparseExp).edgeTables;
    var vts := g.vertexTables;
    var ets := g.edgeTables;
    forall i | 0 <= i < |ets|
      ensures GetEdgeTableDefinition(defs[i], vts, translateExp) == Success(ets[i])
    {
      EdgeTableRoundTrip(ets[i], vts, translateExp, unparseExp);
    }
    MapResultPointwise(defs, d => GetEdgeTableDefinition(d, vts, translateExp), ets);
  }

  lemma BaseGraphsRoundTrip(bgs: seq<BaseGraph>)
    requires forall i :: 0 <= i < |bgs| ==> BaseGraphWellFormed(bgs[i])
    ensures GetBaseGraphs(Some(UnparseBaseGraphs(bgs))) == Success(Some(bgs))
  {
    var defs := UnparseBaseGraphs(bgs);
    forall i | 0 <= i < |bgs|
      ensures GetBaseGraph(defs[i]) == Success(bgs[i])
    {
      if bgs[i].baseElementTables.Some? {
        var ts := bgs[i].baseElementTables.value;
        assert GetBaseElementTables(defs[i].elementTables.value.tablesList) == ts;
      }
    }
    MapResultPointwise(defs, GetBaseGraph, bgs);
  }

  /** Translating the printed form of well-formed IR gives that IR back. */
  lemma RoundTrip(g: CreatePropertyGraph, translateExp: ExpTranslator, unparseExp: QueryExpression -> Term)
    requires Inverse(translateExp, unparseExp)
    requires WellFormed(g)
    ensures Translate(Unparse(g, unparseExp), translateExp) == Success(g)
  {
    var ast := Unparse(g, unparseExp);
    VertexTablesRoundTrip(g, translateExp, unparseExp);
    EdgeTablesRoundTrip(g, translateExp, unparseExp);
    if g.CreateSuperPropertyGraph? {
      BaseGraphsRoundTrip(g.baseGraphs);
    }
    assert GetOptions(g.options) == g.options;
  }
}

/** Statement-level laws of the CREATE PROPERTY GRAPH translation: exactly
    when it succeeds, which failure a malformed base-graph clause raises,
    independence from the schema part of endpoint references, and the
    conflation of two base-graph clause shapes. */
module CreatePropertyGraphLaws {
  import opened Wrappers
  import opened Sequences
  import opened PropertyGraphIr
  import opened PropertyGraphSyntax
  import opened TranslateCreatePropertyGraph

  // ------------------------------------------------------------ success

  /** A label clause translates: it is absent, is an all-columns clause, or is
      a property list each of whose expressions translates. */
  ghost predicate LabelTranslatable(l: LabelAndProperties, translateExp: ExpTranslator) {
    match l.propertiesClause
    case None => true
    case Some(spec) =>
      || spec.constructorName == PROPERTIES_ARE_ALL_COLUMNS
      || (&& spec.constructorName == PROPERTY_EXPRESSIONS
          && forall k :: 0 <= k < |spec.propertiesList| ==>
               translateExp(spec.propertiesList[k].exp, PropertyExpressionContext()).Success?)
  }

  ghost predicate LabelsTranslatable(ls: seq<LabelAndProperties>, translateExp: ExpTranslator) {
    forall j :: 0 <= j < |ls| ==> LabelTranslatable(ls[j], translateExp)
  }

  ghost predicate BaseGraphTranslatable(def: BaseGraphDefinition) {
    def.elementTables.Some? ==>
      def.elementTables.value.constructorName in {ELEMENT_TABLES, ALL_ELEMENT_TABLES}
  }

  /** Every variant clause carries a known constructor and every property
      expression translates. */
  ghost predicate Translatable(ast: CreatePropertyGraphStatement, translateExp: ExpTranslator) {
    && (ast.baseGraphs.Some? ==>
          forall i :: 0 <= i < |ast.baseGraphs.value| ==> BaseGraphTranslatable(ast.baseGraphs.value[i]))
    && (forall i :: 0 <= i < |ast.vertexTables| ==>
          LabelsTranslatable(ast.vertexTables[i].labelAndProperties, translateExp))
    && (forall i :: 0 <= i < |ast.edgeTables| ==>
          LabelsTranslatable(ast.edgeTables[i].labelAndProperties, translateExp))
  }

  lemma LabelSucceedsIff(l: LabelAndProperties, translateExp: ExpTranslator)
    ensures GetLabelOf(l, translateExp).Success? <==> LabelTranslatable(l, translateExp)
  {
    if l.propertiesClause.Some? && l.propertiesClause.value.constructorName == PROPERTY_EXPRESSIONS {
      var entries := l.propertiesClause.value.propertiesList;
      assert forall k :: 0 <= k < |entries| ==>
               (GetProperty(entries[k], translateExp).Success?
                <==> translateExp(entries[k].exp, PropertyExpressionContext()).Success?);
    }
  }

  lemma LabelsSucceedIff(ls: seq<LabelAndProperties>, translateExp: ExpTranslator)
    ensures GetLabels(ls, translateExp).Success? <==> LabelsTranslatable(ls, translateExp)
  {
    forall j | 0 <= j < |ls| {
      LabelSucceedsIff(ls[j], translateExp);
    }
  }

  /** The vertex tables translate exactly when all their label lists do. */
  lemma VertexTablesSucceedIff(defs: seq<VertexTableDefinition>, translateExp: ExpTranslator)
    ensures GetVertexTables(defs, translateExp).Success?
            <==> forall i :: 0 <= i < |defs| ==> LabelsTranslatable(defs[i].labelAndProperties, translateExp)
  {
    forall i | 0 <= i < |defs| {
      LabelsSucceedIff(defs[i].labelAndProperties, translateExp);
    }
  }

  /** The edge tables translate exactly when all their label lists do,
      whatever vertex tables the endpoints resolve against. */
  lemma EdgeTablesSucceedIff(defs: seq<EdgeTableDefinition>, vertexTables: seq<VertexTable>,
                             translateExp: ExpTranslator)
    requires AllDefined(vertexTables)
    ensures GetEdgeTables(defs, vertexTables, translateExp).Success?
            <==> forall i :: 0 <= i < |defs| ==> LabelsTranslatable(defs[i].labelAndProperties, translateExp)
  {
    forall i | 0 <= i < |defs| {
      LabelsSucceedIff(defs[i].labelAndProperties, translateExp);
    }
  }

  /** The translation succeeds exactly when no variant clause carries an
      unknown constructor and the expression translator accepts every
      property expression. */
  lemma TranslateSucceedsIff(ast: CreatePropertyGraphStatement, translateExp: ExpTranslator)
    ensures Translate(ast, translateExp).Success? <==> Translatable(ast, translateExp)
  {
    VertexTablesSucceedIff(ast.vertexTables, translateExp);
    var vertexTables := GetVertexTables(ast.vertexTables, translateExp);
    if vertexTables.Success? {
      EdgeTablesSucceedIff(ast.edgeTables, vertexTables.value, translateExp);
    }
  }

  /** Base graphs are translated before anything else, so the first base
      graph with an unknown element-tables constructor decides the failure. */
  lemma UnknownBaseGraphConstructorFails(ast: CreatePropertyGraphStatement, translateExp: ExpTranslator, i: nat)
    requires ast.baseGraphs.Some? && i < |ast.baseGraphs.value|
    requires !BaseGraphTranslatable(ast.baseGraphs.value[i])
    requires forall j :: 0 <= j < i ==> BaseGraphTranslatable(ast.baseGraphs.value[j])
    ensures Translate(ast, translateExp)
            == Failure(IllegalArgument(UnknownConstructorMessage(
                 ast.baseGraphs.value[i].elementTables.value.constructorName)))
  {
    var defs := ast.baseGraphs.value;
    var r := MapResult(defs, GetBaseGraph);
    assert GetBaseGraph(defs[i]).Failure?;
    var k :| 0 <= k < |defs| && GetBaseGraph(defs[k]) == Failure(r.error)
             && forall j :: 0 <= j < k ==> GetBaseGraph(defs[j]).Success?;
    assert k == i;
  }

  /** Once the base graphs translate, vertex tables come next: the first
      vertex table whose label clauses fail decides the statement's failure,
      which is that clause list's own failure, unchanged. */
  lemma FirstVertexTableLabelFailureDecides(ast: CreatePropertyGraphStatement, translateExp: ExpTranslator, i: nat)
    requires GetBaseGraphs(ast.baseGraphs).Success?
    requires i < |ast.vertexTables|
    requires GetLabels(ast.vertexTables[i].labelAndProperties, translateExp).Failure?
    requires forall j :: 0 <= j < i ==> GetLabels(ast.vertexTables[j].labelAndProperties, translateExp).Success?
    ensures Translate(ast, translateExp)
            == Failure(GetLabels(ast.vertexTables[i].labelAndProperties, translateExp).error)
  {
    var defs := ast.vertexTables;
    var r := GetVertexTables(defs, translateExp);
    assert GetVertexTableDefinition(defs[i], translateExp).Failure?;
    var k :| 0 <= k < |defs| && GetVertexTableDefinition(defs[k], translateExp) == Failure(r.error)
             && forall j :: 0 <= j < k ==> GetVertexTableDefinition(defs[j], translateExp).Success?;
    assert k == i;
  }

  /** Once base graphs and vertex tables translate, the first edge table
      whose label clauses fail decides the statement's failure, unchanged. */
  lemma FirstEdgeTableLabelFailureDecides(ast: CreatePropertyGraphStatement, translateExp: ExpTranslator, i: nat)
    requires GetBaseGraphs(ast.baseGraphs).Success?
    requires GetVertexTables(ast.vertexTables, translateExp).Success?
    requires i < |ast.edgeTables|
    requires GetLabels(ast.edgeTables[i].labelAndProperties, translateExp).Failure?
    requires forall j :: 0 <= j < i ==> GetLabels(ast.edgeTables[j].labelAndProperties, translateExp).Success?
    ensures Translate(ast, translateExp)
            == Failure(GetLabels(ast.edgeTables[i].labelAndProperties, translateExp).error)
  {
    var vts := GetVertexTables(ast.vertexTables, translateExp).value;
    var defs := ast.edgeTables;
    var r := GetEdgeTables(defs, vts, translateExp);
    assert GetEdgeTableDefinition(defs[i], vts, translateExp).Failure?;
    var k :| 0 <= k < |defs| && GetEdgeTableDefinition(defs[k], vts, translateExp) == Failure(r.error)
             && forall j :: 0 <= j < k ==> GetEdgeTableDefinition(defs[j], vts, translateExp).Success?;
    assert k == i;
  }

  /** A failing property expression in a vertex table is what the statement
      fails with: when none of that table's label clauses has an unknown
      constructor, the first failing expression of the first failing label
      clause is passed on unchanged, never replaced by another error. */
  lemma ExpressionFailurePropagates(ast: CreatePropertyGraphStatement, translateExp: ExpTranslator, i: nat)
    requires GetBaseGraphs(ast.baseGraphs).Success?
    requires i < |ast.vertexTables|
    requires GetLabels(ast.vertexTables[i].labelAndProperties, translateExp).Failure?
    requires forall j :: 0 <= j < i ==> GetLabels(ast.vertexTables[j].labelAndProperties, translateExp).Success?
    requires forall j :: 0 <= j < |ast.vertexTables[i].labelAndProperties| ==>
               var clause := ast.vertexTables[i].labelAndProperties[j].propertiesClause;
               clause.Some? ==> clause.value.constructorName in {PROPERTY_EXPRESSIONS, PROPERTIES_ARE_ALL_COLUMNS}
    ensures Translate(ast, translateExp).Failure?
    ensures exists e :: translateExp(e, PropertyExpressionContext()) == Failure(Translate(ast, translateExp).error)
  {
    FirstVertexTableLabelFailureDecides(ast, translateExp, i);
    var ls := ast.vertexTables[i].labelAndProperties;
    var err := GetLabels(ls, translateExp).error;
    var k :| 0 <= k < |ls| && GetLabel(ls[k].labelName, ls[k].propertiesClause, translateExp) == Failure(err);
    assert ls[k].propertiesClause.value.constructorName == PROPERTY_EXPRESSIONS;
    var entries := ls[k].propertiesClause.value.propertiesList;
    var m :| 0 <= m < |entries| && translateExp(entries[m].exp, PropertyExpressionContext()) == Failure(err);
  }

  /** The same for an edge table, reached once base graphs and vertex tables
      translate. */
  lemma EdgeExpressionFailurePropagates(ast: CreatePropertyGraphStatement, translateExp: ExpTranslator, i: nat)
    requires GetBaseGraphs(ast.baseGraphs).Success?
    requires GetVertexTables(ast.vertexTables, translateExp).Success?
    requires i < |ast.edgeTables|
    requires GetLabels(ast.edgeTables[i].labelAndProperties, translateExp).Failure?
    requires forall j :: 0 <= j < i ==> GetLabels(ast.edgeTables[j].labelAndProperties, translateExp).Success?
    requires forall j :: 0 <= j < |ast.edgeTables[i].labelAndProperties| ==>
               var clause := ast.edgeTables[i].labelAndProperties[j].propertiesClause;
               clause.Some? ==> clause.value.constructorName in {PROPERTY_EXPRESSIONS, PROPERTIES_ARE_ALL_COLUMNS}
    ensures Translate(ast, translateExp).Failure?
    ensures exists e :: translateExp(e, PropertyExpressionContext()) == Failure(Translate(ast, translateExp).error)
  {
    FirstEdgeTableLabelFailureDecides(ast, translateExp, i);
    var ls := ast.edgeTables[i].labelAndProperties;
    var err := GetLabels(ls, translateExp).error;
    var k :| 0 <= k < |ls| && GetLabel(ls[k].labelName, ls[k].propertiesClause, translateExp) == Failure(err);
    assert ls[k].propertiesClause.value.constructorName == PROPERTY_EXPRESSIONS;
    var entries := ls[k].propertiesClause.value.propertiesList;
    var m :| 0 <= m < |entries| && translateExp(entries[m].exp, PropertyExpressionContext()) == Failure(err);
  }

  // --------------------------------------------------- endpoint schemas

  function WithoutSchema(endpoint: EdgeEndpoint): EdgeEndpoint {
    endpoint.(referencedVertexTable := endpoint.referencedVertexTable.(
      name := SchemaQualifiedName(None, endpoint.referencedVertexTable.name.name)))
  }

  /** The statement with the schema part of every endpoint reference dropped. */
  function WithoutEndpointSchemas(ast: CreatePropertyGraphStatement): (r: CreatePropertyGraphStatement)
    ensures |r.edgeTables| == |ast.edgeTables|
  {
    ast.(edgeTables := seq(|ast.edgeTables|, i requires 0 <= i < |ast.edgeTables| =>
      ast.edgeTables[i].(source := WithoutSchema(ast.edgeTables[i].source),
                         destination := WithoutSchema(ast.edgeTables[i].destination))))
  }

  /** Endpoints are resolved by the name part of the reference only: the
      schema parts never affect the outcome. */
  lemma EndpointSchemaIgnored(ast: CreatePropertyGraphStatement, translateExp: ExpTranslator)
    ensures Translate(WithoutEndpointSchemas(ast), translateExp) == Translate(ast, translateExp)
  {
    var stripped := WithoutEndpointSchemas(ast);
    var vertexTables := GetVertexTables(ast.vertexTables, translateExp);
    if vertexTables.Success? {
      var vts := vertexTables.value;
      MapResultCongruence(
        stripped.edgeTables, d => GetEdgeTableDefinition(d, vts, translateExp),
        ast.edgeTables, d => GetEdgeTableDefinition(d, vts, translateExp));
    }
  }

  // -------------------------------------------------------- base graphs

  /** An absent element-tables clause and `ALL ELEMENT TABLES` without an
      EXCEPT part give the same base graph. */
  lemma AbsentAndUnrestrictedAllCoincide(name: SchemaQualifiedName, tablesList: seq<BaseElementTableReference>)
    ensures GetBaseGraph(BaseGraphDefinition(name, None))
            == GetBaseGraph(BaseGraphDefinition(name, Some(BaseElementTables(ALL_ELEMENT_TABLES, tablesList, None))))
            == Success(BaseGraph(name, None, None))
  {
  }

  /** An "all except" clause keeps its exclusion list as given, including an
      empty one, which stays distinct from an absent one. */
  lemma AllExceptKeepsExclusions(name: SchemaQualifiedName, except: seq<string>)
    ensures GetBaseGraph(BaseGraphDefinition(name, Some(BaseElementTables(ALL_ELEMENT_TABLES, [], Some(except)))))
            == Success(BaseGraph(name, None, Some(except)))
    ensures GetBaseGraph(BaseGraphDefinition(name, Some(BaseElementTables(ALL_ELEMENT_TABLES, [], Some([])))))
            != GetBaseGraph(BaseGraphDefinition(name, Some(BaseElementTables(ALL_ELEMENT_TABLES, [], None))))
  {
  }

  // ---------------------------------------------------------- example

  /** Person (alias p) and Company (alias c) keyed by id; WorksAt (alias w)
      from p via pid to c via cid, the source reference carrying a schema;
      and OwnedBy from c to a vertex table `acc` defined outside the statement. */
  function WorksAtStatement(): CreatePropertyGraphStatement {
    var id := Some(KeyClause(["id"]));
    var person := VertexTableDefinition(SchemaQualifiedName(None, "Person"), "p", id, []);
    var company := VertexTableDefinition(SchemaQualifiedName(None, "Company"), "c", id, []);
    var worksAt := EdgeTableDefinition(
      SchemaQualifiedName(None, "WorksAt"), "w", Some(KeyClause(["pid", "cid"])),
      EdgeEndpoint(Some(KeyClause(["pid"])), ReferencedVertexTable(SchemaQualifiedName(Some("hr"), "p"), id)),
      EdgeEndpoint(Some(KeyClause(["cid"])), ReferencedVertexTable(SchemaQualifiedName(None, "c"), id)),
      []);
    var ownedBy := EdgeTableDefinition(
      SchemaQualifiedName(None, "OwnedBy"), "o", None,
      EdgeEndpoint(None, ReferencedVertexTable(SchemaQualifiedName(None, "c"), None)),
      EdgeEndpoint(None, ReferencedVertexTable(SchemaQualifiedName(None, "acc"), None)),
      []);
    CreatePropertyGraphStatement(SchemaQualifiedName(None, "g"), None, [person, company], [worksAt, ownedBy], None)
  }

  /** The edge endpoints of the example point at the very vertex tables the
      statement produced, with one-column join keys, and the reference to
      `acc` becomes a placeholder. */
  lemma WorksAtExample(translateExp: ExpTranslator)
    ensures Translate(WorksAtStatement(), translateExp).Success?
    ensures var g := Translate(WorksAtStatement(), translateExp).value;
            && g.CreatePropertyGraph?
            && |g.vertexTables| == 2 && |g.edgeTables| == 2
            && g.edgeTables[0].sourceVertexTable == g.vertexTables[0]
            && g.edgeTables[0].destinationVertexTable == g.vertexTables[1]
            && g.edgeTables[0].edgeSourceKey == Some(Key(["pid"]))
            && g.edgeTables[0].sourceVertexKey == Some(Key(["id"]))
            && g.edgeTables[0].edgeDestinationKey == Some(Key(["cid"]))
            && g.edgeTables[0].destinationVertexKey == Some(Key(["id"]))
            && g.edgeTables[1].destinationVertexTable == Placeholder(SchemaQualifiedName(None, "acc"))
  {
    var ast := WorksAtStatement();
    var vts := [
      Defined(SchemaQualifiedName(None, "Person"), "p", Some(Key(["id"])), []),
      Defined(SchemaQualifiedName(None, "Company"), "c", Some(Key(["id"])), [])];
    assert GetLabels([], translateExp) == Success([]);
    MapResultPointwise(ast.vertexTables, d => GetVertexTableDefinition(d, translateExp), vts);
    assert GetVertexTables(ast.vertexTables, translateExp) == Success(vts);
    assert GetVertexTable(vts, "p") == vts[0];
    assert GetVertexTable(vts, "c") == vts[1];
    assert GetVertexTable(vts, "acc") == Placeholder(SchemaQualifiedName(None, "acc"));
  }
}

/** The intermediate representation produced by the CREATE PROPERTY GRAPH
    translator. Only the constructor arguments the translator passes are
    mirrored; Java `null` becomes `None`. */
module PropertyGraphIr {
  import opened Wrappers

  /** An optional schema name plus a required name. */
  datatype SchemaQualifiedName = SchemaQualifiedName(schemaName: Option<string>, name: string)

  /** A translated value expression. Expression IR belongs to the expression
      translator, which is not part of this model; only identity matters here. */
  datatype QueryExpression = QueryExpression(id: nat)

  /** A query variable and a common path expression, as opaque values. */
  datatype QueryVariable = QueryVariable(id: nat)
  datatype CommonPathExpression = CommonPathExpression(id: nat)

  /** What the translation can throw: the `IllegalArgumentException` of a
      malformed variant clause, the `UnsupportedOperationException` of writing
      to an immutable collection, and a `PgqlException` raised by the
      expression translator. */
  datatype Error =
    | IllegalArgument(message: string)
    | UnsupportedOperation
    | Pgql(message: string)

  datatype Key = Key(columnNames: seq<string>)

  /** A property: its value expression and its explicit name, if one was given. */
  datatype Property = Property(valueExpression: QueryExpression, propertyName: Option<string>)

  /** `new Label(name, properties)` or `new Label(name, allColumns[, exceptColumns])`. */
  datatype Label =
    | WithProperties(name: string, properties: seq<Property>)
    | AllColumns(name: string, propertiesAreAllColumns: bool, exceptColumns: Option<seq<string>>)

  /** A vertex table defined in the statement, or the placeholder that stands
      for one referenced by alias but defined elsewhere (in a base graph). The
      placeholder is built from a name alone; its other two constructor
      arguments are null. */
  datatype VertexTable =
    | Defined(tableName: SchemaQualifiedName, tableAlias: string, key: Option<Key>, labels: seq<Option<Label>>)
    | Placeholder(tableName: SchemaQualifiedName)

  datatype EdgeTable = EdgeTable(
    tableName: SchemaQualifiedName,
    tableAlias: string,
    key: Option<Key>,
    sourceVertexTable: VertexTable,
    edgeSourceKey: Option<Key>,
    sourceVertexKey: Option<Key>,
    destinationVertexTable: VertexTable,
    edgeDestinationKey: Option<Key>,
    destinationVertexKey: Option<Key>,
    labels: seq<Option<Label>>)

  datatype BaseElementTable = BaseElementTable(referencedTableName: string, tableAlias: string)

  /** A base graph, with the explicit element tables or the exclusion list of
      an "all element tables except" clause (both absent: no restriction). */
  datatype BaseGraph = BaseGraph(
    graphName: SchemaQualifiedName,
    baseElementTables: Option<seq<BaseElementTable>>,
    allElementTablesExcept: Option<seq<string>>)

  /** The statement; the super variant also lists the base graphs it extends.
      `options` is what `setOptions` stores on either variant. */
  datatype CreatePropertyGraph =
    | CreatePropertyGraph(
        graphName: SchemaQualifiedName,
        vertexTables: seq<VertexTable>,
        edgeTables: seq<EdgeTable>,
        options: Option<seq<string>>)
    | CreateSuperPropertyGraph(
        graphName: SchemaQualifiedName,
        baseGraphs: seq<BaseGraph>,
        vertexTables: seq<VertexTable>,
        edgeTables: seq<EdgeTable>,
        options: Option<seq<string>>)
}

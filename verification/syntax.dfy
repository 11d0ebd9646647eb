/** The parsed CREATE PROPERTY GRAPH statement as a typed tree. Each datatype
    stands for one kind of syntax-tree node and its fields for the children the
    translator reads; an optional clause is an `Option`. The two variant
    clauses keep their constructor name as a string, so that a tree carrying
    an unknown constructor stays representable. */
module PropertyGraphSyntax {
  import opened Wrappers
  import opened PropertyGraphIr

  /** An undecoded sub-tree (an expression, or the node a variable originates
      from), known only by its identity. */
  datatype Term = Term(id: nat)

  /** `KEY ( column, ... )` */
  datatype KeyClause = KeyClause(columnNames: seq<string>)

  /** `expression [AS name]` in a PROPERTIES list. */
  datatype ExpAsVar = ExpAsVar(exp: Term, name: Option<string>)

  /** The properties specification: constructor `PropertyExpressions` reads
      `propertiesList`; constructor `PropertiesAreAllColumns` reads
      `exceptPart`, the optional `EXCEPT ( column, ... )`. */
  datatype PropertiesSpecification = PropertiesSpecification(
    constructorName: string,
    propertiesList: seq<ExpAsVar>,
    exceptPart: Option<seq<string>>)

  /** `LABEL name [PROPERTIES ...]` */
  datatype LabelAndProperties = LabelAndProperties(
    labelName: string,
    propertiesClause: Option<PropertiesSpecification>)

  datatype VertexTableDefinition = VertexTableDefinition(
    tableName: SchemaQualifiedName,
    tableAlias: string,
    key: Option<KeyClause>,
    labelAndProperties: seq<LabelAndProperties>)

  /** `REFERENCES name [( column, ... )]` */
  datatype ReferencedVertexTable = ReferencedVertexTable(
    name: SchemaQualifiedName,
    columnList: Option<KeyClause>)

  /** `SOURCE [KEY (...)] REFERENCES ...` or the same for DESTINATION. */
  datatype EdgeEndpoint = EdgeEndpoint(
    edgeKey: Option<KeyClause>,
    referencedVertexTable: ReferencedVertexTable)

  datatype EdgeTableDefinition = EdgeTableDefinition(
    tableName: SchemaQualifiedName,
    tableAlias: string,
    key: Option<KeyClause>,
    source: EdgeEndpoint,
    destination: EdgeEndpoint,
    labelAndProperties: seq<LabelAndProperties>)

  datatype BaseElementTableReference = BaseElementTableReference(name: string, alias: string)

  /** The element-tables clause of a base graph: constructor `ElementTables`
      reads `tablesList`; constructor `AllElementTables` reads `exceptPart`,
      the optional `EXCEPT ( table, ... )`. */
  datatype BaseElementTables = BaseElementTables(
    constructorName: string,
    tablesList: seq<BaseElementTableReference>,
    exceptPart: Option<seq<string>>)

  datatype BaseGraphDefinition = BaseGraphDefinition(
    graphName: SchemaQualifiedName,
    elementTables: Option<BaseElementTables>)

  /** The whole statement; `baseGraphs` is the optional base-graphs clause. */
  datatype CreatePropertyGraphStatement = CreatePropertyGraphStatement(
    graphName: SchemaQualifiedName,
    baseGraphs: Option<seq<BaseGraphDefinition>>,
    vertexTables: seq<VertexTableDefinition>,
    edgeTables: seq<EdgeTableDefinition>,
    options: Option<seq<string>>)
}

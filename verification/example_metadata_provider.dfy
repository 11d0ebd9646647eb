/** The example metadata provider: default types of literals, the union
    (common supertype) of two property types, and the graph schema looked up
    by name. Type names are opaque strings. */
module ExampleMetadataProvider {
  import opened Wrappers
  import opened PropertyGraphIr

  const INTEGER := "INTEGER"
  const LONG := "LONG"
  const DOUBLE := "DOUBLE"
  const STRING := "STRING"
  const TIME := "TIME"
  const TIME_WITH_TIME_ZONE := "TIME WITH TIME ZONE"
  const TIMESTAMP := "TIMESTAMP"
  const TIMESTAMP_WITH_TIME_ZONE := "TIMESTAMP WITH TIME ZONE"

  // ---------------------------------------------------------- union types

  /** The widening table, as an independent reference: a narrower type and
      the wider type it unifies into. */
  const Widenings: set<(string, string)> := {
    (INTEGER, LONG), (INTEGER, DOUBLE), (LONG, DOUBLE),
    (TIME, TIME_WITH_TIME_ZONE), (TIMESTAMP, TIMESTAMP_WITH_TIME_ZONE)
  }

  predicate Widens(narrow: string, wide: string) {
    (narrow, wide) in Widenings
  }

  /** The type names the union table mentions. */
  const UnionTypeNames: set<string> := {
    INTEGER, LONG, DOUBLE, TIME, TIME_WITH_TIME_ZONE, TIMESTAMP, TIMESTAMP_WITH_TIME_ZONE
  }

  /** The common type of `typeA` and `typeB`, if there is one: the wider of
      the two when one widens into the other, and nothing otherwise. */
  function GetUnionType(typeA: string, typeB: string): (r: Option<string>)
    ensures r.Some? <==> Widens(typeA, typeB) || Widens(typeB, typeA)
    ensures Widens(typeA, typeB) ==> r == Some(typeB)
    ensures Widens(typeB, typeA) ==> r == Some(typeA)
  {
    if typeA == INTEGER then
      if typeB == LONG then Some(LONG)
      else if typeB == DOUBLE then Some(DOUBLE)
      else None
    else if typeA == LONG then
      if typeB == INTEGER then Some(LONG)
      else if typeB == DOUBLE then Some(DOUBLE)
      else None
    else if typeA == DOUBLE then
      if typeB == INTEGER || typeB == LONG then Some(DOUBLE)
      else None
    else if typeA == TIME then
      if typeB == TIME_WITH_TIME_ZONE then Some(TIME_WITH_TIME_ZONE)
      else None
    else if typeA == TIME_WITH_TIME_ZONE then
      if typeB == TIME then Some(TIME_WITH_TIME_ZONE)
      else None
    else if typeA == TIMESTAMP then
      if typeB == TIMESTAMP_WITH_TIME_ZONE then Some(TIMESTAMP_WITH_TIME_ZONE)
      else None
    else if typeA == TIMESTAMP_WITH_TIME_ZONE then
      if typeB == TIMESTAMP then Some(TIMESTAMP_WITH_TIME_ZONE)
      else None
    else
      None
  }

  /** The operands may be given in either order. */
  lemma UnionTypeIsSymmetric(typeA: string, typeB: string)
    ensures GetUnionType(typeA, typeB) == GetUnionType(typeB, typeA)
  {
  }

  /** A union type, when there is one, is one of the two operands. */
  lemma UnionTypeIsAnOperand(typeA: string, typeB: string)
    ensures GetUnionType(typeA, typeB).Some? ==>
              GetUnionType(typeA, typeB).value == typeA || GetUnionType(typeA, typeB).value == typeB
  {
  }

  /** A type has no union with itself: same-type pairs are not in the table. */
  lemma UnionWithItselfIsEmpty(t: string)
    ensures GetUnionType(t, t).None?
  {
  }

  /** A type outside the table has no union with anything, on either side. */
  lemma UnknownTypeHasNoUnion(t: string, other: string)
    requires t !in UnionTypeNames
    ensures GetUnionType(t, other).None?
    ensures GetUnionType(other, t).None?
  {
  }

  /** INTEGER widens to LONG, and INTEGER and LONG widen to DOUBLE. */
  lemma NumericWidening()
    ensures GetUnionType(INTEGER, LONG) == GetUnionType(LONG, INTEGER) == Some(LONG)
    ensures GetUnionType(INTEGER, DOUBLE) == GetUnionType(DOUBLE, INTEGER) == Some(DOUBLE)
    ensures GetUnionType(LONG, DOUBLE) == GetUnionType(DOUBLE, LONG) == Some(DOUBLE)
  {
  }

  /** The zone-naive time types widen to their zone-aware forms. */
  lemma TemporalWidening()
    ensures GetUnionType(TIME, TIME_WITH_TIME_ZONE) == GetUnionType(TIME_WITH_TIME_ZONE, TIME)
            == Some(TIME_WITH_TIME_ZONE)
    ensures GetUnionType(TIMESTAMP, TIMESTAMP_WITH_TIME_ZONE) == GetUnionType(TIMESTAMP_WITH_TIME_ZONE, TIMESTAMP)
            == Some(TIMESTAMP_WITH_TIME_ZONE)
    ensures GetUnionType(TIME, TIMESTAMP_WITH_TIME_ZONE).None?
    ensures GetUnionType(STRING, INTEGER).None?
  {
  }

  // ------------------------------------------------------- default types

  function GetDefaultStringType(): (r: Option<string>)
    ensures r == Some(STRING)
  {
    Some(STRING)
  }

  function GetDefaultShortIntegerType(): (r: Option<string>)
    ensures r == Some(INTEGER)
  {
    Some(INTEGER)
  }

  function GetDefaultLongIntegerType(): (r: Option<string>)
    ensures r == Some(LONG)
  {
    Some(LONG)
  }

  function GetDefaultDecimalType(): (r: Option<string>)
    ensures r == Some(DOUBLE)
  {
    Some(DOUBLE)
  }

  /** The numeric defaults widen short integer to long integer to decimal,
      while the string default has no union with any of them. */
  lemma DefaultLiteralTypes()
    ensures GetUnionType(GetDefaultShortIntegerType().value, GetDefaultLongIntegerType().value)
            == GetDefaultLongIntegerType()
    ensures GetUnionType(GetDefaultLongIntegerType().value, GetDefaultDecimalType().value)
            == GetDefaultDecimalType()
    ensures GetUnionType(GetDefaultShortIntegerType().value, GetDefaultDecimalType().value)
            == GetDefaultDecimalType()
    ensures GetUnionType(GetDefaultStringType().value, GetDefaultShortIntegerType().value).None?
    ensures GetUnionType(GetDefaultStringType().value, GetDefaultLongIntegerType().value).None?
    ensures GetUnionType(GetDefaultStringType().value, GetDefaultDecimalType().value).None?
  {
  }

  // --------------------------------------------------------- graph schema

  datatype MetadataProperty = MetadataProperty(name: string, propertyType: string)
  datatype VertexLabel = VertexLabel(name: string, properties: seq<MetadataProperty>)
  datatype EdgeLabel = EdgeLabel(name: string, properties: seq<MetadataProperty>)
  datatype GraphSchema = GraphSchema(vertexLabels: seq<VertexLabel>, edgeLabels: seq<EdgeLabel>)

  /** Upper-casing restricted to ASCII letters; every other character is kept. */
  function ToUpperCase(s: string): (r: string)
    ensures |r| == |s|
    ensures forall i :: 0 <= i < |s| ==> ('a' <= s[i] <= 'z' ==> r[i] as int == s[i] as int - 32)
    ensures forall i :: 0 <= i < |s| ==> (!('a' <= s[i] <= 'z') ==> r[i] == s[i])
  {
    seq(|s|, i requires 0 <= i < |s| =>
      if 'a' <= s[i] <= 'z' then (s[i] as int - 32) as char else s[i])
  }

  const FINANCIAL_NETWORK := "financialNetwork"

  function FinancialNetworkSchema(): GraphSchema {
    GraphSchema(
      [VertexLabel("Account", [MetadataProperty("number", LONG)]),
       VertexLabel("Company", [MetadataProperty("name", STRING)]),
       VertexLabel("Person", [MetadataProperty("name", STRING)])],
      [EdgeLabel("transaction", [MetadataProperty("amount", DOUBLE)]),
       EdgeLabel("worksFor", []),
       EdgeLabel("owner", [])])
  }

  /** The schema of the graph called `financialNetwork`, spelled as is or in
      upper case; the schema part of the name plays no role. */
  function GetGraphSchema(graphName: SchemaQualifiedName): (r: Option<GraphSchema>)
    ensures r.Some? <==> graphName.name == "financialNetwork" || graphName.name == "FINANCIALNETWORK"
    ensures r.Some? ==> |r.value.vertexLabels| == 3 && |r.value.edgeLabels| == 3
    ensures r.Some? ==> r.value.vertexLabels[0].name == "Account" && r.value.vertexLabels[1].name == "Company"
                        && r.value.vertexLabels[2].name == "Person"
    ensures r.Some? ==> r.value.edgeLabels[0].name == "transaction" && r.value.edgeLabels[1].name == "worksFor"
                        && r.value.edgeLabels[2].name == "owner"
  {
    assert ToUpperCase(FINANCIAL_NETWORK) == "FINANCIALNETWORK";
    if graphName.name == FINANCIAL_NETWORK || graphName.name == ToUpperCase(FINANCIAL_NETWORK) then
      Some(FinancialNetworkSchema())
    else
      None
  }

  /** Only the name part is looked at. */
  lemma GraphSchemaIgnoresSchemaName(a: SchemaQualifiedName, b: SchemaQualifiedName)
    requires a.name == b.name
    ensures GetGraphSchema(a) == GetGraphSchema(b)
  {
  }
}

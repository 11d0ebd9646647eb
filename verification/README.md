# PGQL CREATE PROPERTY GRAPH lowering, in Dafny

A model of three pieces of the PGQL front end:

- **The CREATE PROPERTY GRAPH translator** (`TranslateCreatePropertyGraph`). It lowers the parsed
  statement into IR: vertex tables, edge tables, keys, labels and properties, base graphs and options.
  Each edge endpoint is resolved by alias against the vertex tables of the same statement. A
  placeholder vertex table stands in when the alias is not defined there. The result is a
  `CreateSuperPropertyGraph` when a base-graphs clause is present and a `CreatePropertyGraph` otherwise.
- **The translation context** (`TranslationContext`). It holds the variables bound to their origin
  nodes, the variable names in use, and the common path expressions.
- **The example metadata provider** (`ExampleMetadataProvider`). It holds the union-type table, the
  default literal types, and the lookup of the `financialNetwork` graph schema.

The parsed tree is a typed datatype (`PropertyGraphSyntax`). Every optional clause is an `Option`.
The two variant clauses (the properties specification and a base graph's element tables) keep their
constructor name as a string, so an unknown constructor can still be represented and fails. Java
`null` becomes `None`. Exceptions become `Result` failures: `IllegalArgument`,
`UnsupportedOperation`, or the expression translator's own `Pgql` failure, which is passed on
unchanged. The translation is a total function. Lists are processed in order, and the first failure
aborts the statement (`Sequences.MapResult`).

Each operation is checked against something independent of its own body:

- The translation is paired with its inverse, `CreatePropertyGraphInverse.Unparse`. Translating the
  printed form of well-formed IR gives that IR back, and every translation result is well formed.
- Endpoint resolution (`GetVertexTable`) is paired with the declarative resolution rule `ResolvesTo`.
- The union-type table (`GetUnionType`) is paired with a reference widening relation, `Widens`.

Points where the code behaves in a way a reader might not expect; the model follows the code:

- A placeholder vertex table is built from a name alone, `SchemaQualifiedName(None, alias)`; its
  alias is null, not the alias.
- An absent properties clause yields a null label, and `getLabels` adds that null to the label
  list, so labels are `seq<Option<Label>>`.
- An absent base-graph element-tables clause and `ALL ELEMENT TABLES` without `EXCEPT` produce
  the same base graph; only a present-but-empty `EXCEPT` list is kept distinct.
- `addVar` performs no collision check.
- A type has no union with itself.

## Model

| member | source | states |
|---|---|---|
| Sequences.MapResult | pgql-lang/src/main/java/oracle/pgql/lang/TranslateCreatePropertyGraph.java:187-199 | one output per input entry in source order; the first failing entry's failure is returned unchanged, and success holds exactly when every entry succeeds |
| TranslateCreatePropertyGraph.GetKey | pgql-lang/src/main/java/oracle/pgql/lang/TranslateCreatePropertyGraph.java:250-259 | an absent key clause gives no key; otherwise the key's columns are the clause's column names in the same order and count |
| TranslateCreatePropertyGraph.GetProperty | pgql-lang/src/main/java/oracle/pgql/lang/TranslateCreatePropertyGraph.java:284-297 | the value expression is translated in the empty context and its failure propagates; the property name is absent exactly when the entry names none |
| TranslateCreatePropertyGraph.GetLabel | pgql-lang/src/main/java/oracle/pgql/lang/TranslateCreatePropertyGraph.java:274-317 | absent clause gives a null label; PropertyExpressions gives one property per entry in order, and on failure the error is that of the first entry whose expression fails to translate, unchanged; PropertiesAreAllColumns gives the all-columns flag with the except list exactly as present or absent; any other constructor fails with IllegalArgument carrying that name |
| TranslateCreatePropertyGraph.GetLabels | pgql-lang/src/main/java/oracle/pgql/lang/TranslateCreatePropertyGraph.java:262-272 | one entry, possibly null, per label clause in order, each the label of its own clause; a failure is that of the first failing clause |
| TranslateCreatePropertyGraph.GetBaseElementTables | pgql-lang/src/main/java/oracle/pgql/lang/TranslateCreatePropertyGraph.java:153-163 | one (referenced table name, alias) pair per entry, in order |
| TranslateCreatePropertyGraph.GetBaseGraph | pgql-lang/src/main/java/oracle/pgql/lang/TranslateCreatePropertyGraph.java:143-182 | absent clause gives both lists null; ElementTables gives the explicit list and a null except list; AllElementTables gives a null explicit list and the except list as present or absent; any other constructor fails with "Unknown constructor name: " and the name |
| TranslateCreatePropertyGraph.GetBaseGraphs | pgql-lang/src/main/java/oracle/pgql/lang/TranslateCreatePropertyGraph.java:135-185 | an absent base-graphs clause gives null; a present one, even empty, gives a list with one base graph per entry in order; on failure the error is that of the first base graph that fails |
| TranslateCreatePropertyGraph.GetVertexTableDefinition | pgql-lang/src/main/java/oracle/pgql/lang/TranslateCreatePropertyGraph.java:190-198 | a defined vertex table with the table's name, alias and decoded key, and exactly the labels decoded from its label clauses; their failure is its failure |
| TranslateCreatePropertyGraph.GetVertexTables | pgql-lang/src/main/java/oracle/pgql/lang/TranslateCreatePropertyGraph.java:187-200 | one defined vertex table per entry, in order, each the translation of its own entry, keeping name and alias; on failure the error is that of the first vertex table that fails |
| TranslateCreatePropertyGraph.GetVertexTable | pgql-lang/src/main/java/oracle/pgql/lang/TranslateCreatePropertyGraph.java:238-248 | the first vertex table in list order whose alias matches; a placeholder named SchemaQualifiedName(null, alias) exactly when none matches, never equal to any table of the list |
| TranslateCreatePropertyGraph.ResolvesToIsFunctional | pgql-lang/src/main/java/oracle/pgql/lang/TranslateCreatePropertyGraph.java:238-248 | the resolution rule determines at most one vertex table |
| TranslateCreatePropertyGraph.GetEdgeTableDefinition | pgql-lang/src/main/java/oracle/pgql/lang/TranslateCreatePropertyGraph.java:206-234 | both endpoints resolve by the name part of the reference against the given vertex tables; name and alias kept; the edge key, both edge-side endpoint keys and both referenced vertex-side keys are the decoded key clauses of their own positions; labels are exactly those decoded from its label clauses, whose failure is its failure |
| TranslateCreatePropertyGraph.GetEdgeTables | pgql-lang/src/main/java/oracle/pgql/lang/TranslateCreatePropertyGraph.java:202-236 | one edge table per entry, in order, each the translation of its own entry with both endpoints resolved against this statement's vertex tables; on failure the error is that of the first edge table that fails |
| TranslateCreatePropertyGraph.GetOptions | pgql-lang/src/main/java/oracle/pgql/lang/TranslateCreatePropertyGraph.java:319-326 | the option strings in order |
| TranslateCreatePropertyGraph.Translate | pgql-lang/src/main/java/oracle/pgql/lang/TranslateCreatePropertyGraph.java:113-133 | a super graph exactly when the base-graphs clause is present; options null exactly when the clause is absent, on both variants; base graphs, vertex tables and edge tables are exactly the translations of the corresponding clauses, edge tables against the statement's own vertex tables; endpoints resolved by the resolution rule |
| CreatePropertyGraphLaws.LabelSucceedsIff | pgql-lang/src/main/java/oracle/pgql/lang/TranslateCreatePropertyGraph.java:274-317 | a label clause translates exactly when it is absent, all-columns, or a property list whose expressions all translate |
| CreatePropertyGraphLaws.LabelsSucceedIff | pgql-lang/src/main/java/oracle/pgql/lang/TranslateCreatePropertyGraph.java:262-272 | a label list translates exactly when every label clause does |
| CreatePropertyGraphLaws.VertexTablesSucceedIff | pgql-lang/src/main/java/oracle/pgql/lang/TranslateCreatePropertyGraph.java:187-200 | the vertex tables translate exactly when every one of their label lists does |
| CreatePropertyGraphLaws.EdgeTablesSucceedIff | pgql-lang/src/main/java/oracle/pgql/lang/TranslateCreatePropertyGraph.java:202-236 | the edge tables translate exactly when every one of their label lists does, whatever vertex tables they resolve against |
| CreatePropertyGraphLaws.TranslateSucceedsIff | pgql-lang/src/main/java/oracle/pgql/lang/TranslateCreatePropertyGraph.java:113-133 | the statement translates exactly when no variant clause has an unknown constructor and every property expression translates |
| CreatePropertyGraphLaws.UnknownBaseGraphConstructorFails | pgql-lang/src/main/java/oracle/pgql/lang/TranslateCreatePropertyGraph.java:142-179 | the first base graph with an unknown element-tables constructor decides the failure: IllegalArgument with "Unknown constructor name: " and that name |
| CreatePropertyGraphLaws.FirstVertexTableLabelFailureDecides | pgql-lang/src/main/java/oracle/pgql/lang/TranslateCreatePropertyGraph.java:119-121 | once base graphs translate, the first vertex table whose label clauses fail decides the statement's failure, passed on unchanged |
| CreatePropertyGraphLaws.FirstEdgeTableLabelFailureDecides | pgql-lang/src/main/java/oracle/pgql/lang/TranslateCreatePropertyGraph.java:119-123 | once base graphs and vertex tables translate, the first edge table whose label clauses fail decides the statement's failure, passed on unchanged |
| CreatePropertyGraphLaws.ExpressionFailurePropagates | pgql-lang/src/main/java/oracle/pgql/lang/TranslateCreatePropertyGraph.java:284-287 | once base graphs translate, a statement whose first failing vertex table has only property-list or all-columns label clauses fails with an error the expression translator itself returned |
| CreatePropertyGraphLaws.EdgeExpressionFailurePropagates | pgql-lang/src/main/java/oracle/pgql/lang/TranslateCreatePropertyGraph.java:231 | once base graphs and vertex tables translate, a statement whose first failing edge table has only property-list or all-columns label clauses fails with an error the expression translator itself returned |
| CreatePropertyGraphLaws.EndpointSchemaIgnored | pgql-lang/src/main/java/oracle/pgql/lang/TranslateCreatePropertyGraph.java:213-227 | dropping the schema part of every endpoint reference does not change the translation |
| CreatePropertyGraphLaws.AbsentAndUnrestrictedAllCoincide | pgql-lang/src/main/java/oracle/pgql/lang/TranslateCreatePropertyGraph.java:146-176 | an absent element-tables clause and ALL ELEMENT TABLES without EXCEPT give the same base graph, with both lists null |
| CreatePropertyGraphLaws.AllExceptKeepsExclusions | pgql-lang/src/main/java/oracle/pgql/lang/TranslateCreatePropertyGraph.java:165-175 | an EXCEPT list is kept as given, and an empty one stays distinct from an absent one |
| CreatePropertyGraphLaws.WorksAtExample | pgql-lang/src/main/java/oracle/pgql/lang/TranslateCreatePropertyGraph.java:202-248 | Person/Company/WorksAt: endpoints are the statement's own p and c tables, both joined by one-column keys (pid to id at the source, cid to id at the destination), and an undefined alias becomes a placeholder |
| CreatePropertyGraphInverse.ResolvedEndpointHasAlias | pgql-lang/src/main/java/oracle/pgql/lang/TranslateCreatePropertyGraph.java:238-248 | the resolved table, defined or placeholder, carries the alias it was resolved by |
| CreatePropertyGraphInverse.TranslatedLabelsWellFormed | pgql-lang/src/main/java/oracle/pgql/lang/TranslateCreatePropertyGraph.java:262-272 | every all-columns label produced has its flag set |
| CreatePropertyGraphInverse.TranslateIsWellFormed | pgql-lang/src/main/java/oracle/pgql/lang/TranslateCreatePropertyGraph.java:113-133 | every translation result is well formed: defined vertex tables, endpoints that the resolution rule gives for their own aliases, base graphs never with both lists |
| CreatePropertyGraphInverse.LabelRoundTrip | pgql-lang/src/main/java/oracle/pgql/lang/TranslateCreatePropertyGraph.java:274-317 | translating a printed well-formed label gives it back |
| CreatePropertyGraphInverse.LabelsRoundTrip | pgql-lang/src/main/java/oracle/pgql/lang/TranslateCreatePropertyGraph.java:262-272 | translating printed well-formed labels gives them back in order |
| CreatePropertyGraphInverse.VertexTablesRoundTrip | pgql-lang/src/main/java/oracle/pgql/lang/TranslateCreatePropertyGraph.java:187-200 | translating printed vertex tables gives them back |
| CreatePropertyGraphInverse.EdgeTableRoundTrip | pgql-lang/src/main/java/oracle/pgql/lang/TranslateCreatePropertyGraph.java:206-234 | translating a printed well-formed edge table, keys and endpoints included, gives it back |
| CreatePropertyGraphInverse.EdgeTablesRoundTrip | pgql-lang/src/main/java/oracle/pgql/lang/TranslateCreatePropertyGraph.java:202-236 | translating printed edge tables, against the same vertex tables, gives them back |
| CreatePropertyGraphInverse.BaseGraphsRoundTrip | pgql-lang/src/main/java/oracle/pgql/lang/TranslateCreatePropertyGraph.java:135-185 | translating printed well-formed base graphs gives them back |
| CreatePropertyGraphInverse.RoundTrip | pgql-lang/src/main/java/oracle/pgql/lang/TranslateCreatePropertyGraph.java:113-133 | translating the printed form of well-formed IR gives that IR back |
| TranslationContext.New | pgql-lang/src/main/java/oracle/pgql/lang/TranslationContext.java:23-28 | given writable collections, the context exposes exactly the given bindings, names and common path expressions and accepts writes (the call with immutable empty collections is `Empty`) |
| TranslationContext.Empty | pgql-lang/src/main/java/oracle/pgql/lang/TranslationContext.java:30-32 | no variable bound, no name in use, no common path expressions, immutable |
| TranslationContext.AddVar | pgql-lang/src/main/java/oracle/pgql/lang/TranslationContext.java:34-37 | fails exactly on an immutable context; otherwise the origin now maps to the variable, other origins keep their bindings, the names in use are the old ones plus the new name, common path expressions unchanged |
| TranslationContext.GetVariable | pgql-lang/src/main/java/oracle/pgql/lang/TranslationContext.java:39-41 | the variable bound to the origin, and nothing (null) exactly when the origin is unbound |
| TranslationContext.IsVariableNameInUse | pgql-lang/src/main/java/oracle/pgql/lang/TranslationContext.java:43-45 | holds exactly for the names recorded in the context |
| TranslationContext.GetCommonPathExpressions | pgql-lang/src/main/java/oracle/pgql/lang/TranslationContext.java:47-49 | the stored common path expressions, as stored |
| TranslationContext.AddVarDoesNotCheckCollisions | pgql-lang/src/main/java/oracle/pgql/lang/TranslationContext.java:34-37 | adding a name already in use succeeds and leaves the names in use as they were |
| TranslationContext.AddVarOverwrites | pgql-lang/src/main/java/oracle/pgql/lang/TranslationContext.java:34-37 | binding the same origin twice keeps the later variable, and both names are in use |
| ExampleMetadataProvider.GetUnionType | pgql-lang/src/test/java/oracle/pgql/lang/ExampleMetadataProvider.java:108-166 | a union exists exactly when one type widens into the other, and it is the wider one |
| ExampleMetadataProvider.UnionTypeIsSymmetric | pgql-lang/src/test/java/oracle/pgql/lang/ExampleMetadataProvider.java:108-166 | the union type does not depend on operand order |
| ExampleMetadataProvider.UnionTypeIsAnOperand | pgql-lang/src/test/java/oracle/pgql/lang/ExampleMetadataProvider.java:108-166 | a present union type is one of the two operands |
| ExampleMetadataProvider.UnionWithItselfIsEmpty | pgql-lang/src/test/java/oracle/pgql/lang/ExampleMetadataProvider.java:108-166 | a type paired with itself has no union |
| ExampleMetadataProvider.UnknownTypeHasNoUnion | pgql-lang/src/test/java/oracle/pgql/lang/ExampleMetadataProvider.java:164-165 | a type outside the table has no union with any type, on either side |
| ExampleMetadataProvider.NumericWidening | pgql-lang/src/test/java/oracle/pgql/lang/ExampleMetadataProvider.java:110-135 | INTEGER with LONG gives LONG; INTEGER or LONG with DOUBLE gives DOUBLE; both orders |
| ExampleMetadataProvider.TemporalWidening | pgql-lang/src/test/java/oracle/pgql/lang/ExampleMetadataProvider.java:136-163 | TIME with TIME WITH TIME ZONE, and TIMESTAMP with TIMESTAMP WITH TIME ZONE, give the zone-aware type in both orders; two sample unlisted pairs give nothing |
| ExampleMetadataProvider.GetDefaultStringType | pgql-lang/src/test/java/oracle/pgql/lang/ExampleMetadataProvider.java:87-90 | the default string type is present and is STRING |
| ExampleMetadataProvider.GetDefaultShortIntegerType | pgql-lang/src/test/java/oracle/pgql/lang/ExampleMetadataProvider.java:92-95 | the default short-integer type is present and is INTEGER |
| ExampleMetadataProvider.GetDefaultLongIntegerType | pgql-lang/src/test/java/oracle/pgql/lang/ExampleMetadataProvider.java:97-100 | the default long-integer type is present and is LONG |
| ExampleMetadataProvider.GetDefaultDecimalType | pgql-lang/src/test/java/oracle/pgql/lang/ExampleMetadataProvider.java:102-105 | the default decimal type is present and is DOUBLE |
| ExampleMetadataProvider.DefaultLiteralTypes | pgql-lang/src/test/java/oracle/pgql/lang/ExampleMetadataProvider.java:87-105 | the numeric defaults widen short integer to long integer to decimal, and the string default has no union with any of them |
| ExampleMetadataProvider.ToUpperCase | pgql-lang/src/test/java/oracle/pgql/lang/ExampleMetadataProvider.java:53-54 | ASCII lower-case letters are raised, every other character kept, length preserved |
| ExampleMetadataProvider.GetGraphSchema | pgql-lang/src/test/java/oracle/pgql/lang/ExampleMetadataProvider.java:51-85 | a schema exactly for the name financialNetwork or FINANCIALNETWORK, with vertex labels Account, Company, Person and edge labels transaction, worksFor, owner in that order |
| ExampleMetadataProvider.GraphSchemaIgnoresSchemaName | pgql-lang/src/test/java/oracle/pgql/lang/ExampleMetadataProvider.java:52-54 | only the name part of the qualified name is looked at |

## Left out

- Syntax-tree access. Positional sub-term indices and the helpers `getString`, `getSchemaQualifiedName`,
  `getSomeValue`, `isNone` and `getList` are replaced by the typed tree; their decoding is not part of this model.
- `translateExp` is not part of this model. It is a function parameter of the translation, and its result is an opaque `QueryExpression`.
- The internals of the IR classes are not modelled; each datatype mirrors only the constructor arguments the translator passes.
- Java reference identity. Edge tables hold vertex tables by value. "Shared with the vertex table list" becomes equality with the element at the resolved position.
- The context stores the caller's collections by reference. A functional context cannot alias them, so two contexts never see each other's bindings.
- The immutability of `Collections.empty*` is modelled as a `readOnly` flag. `AddVar` fails on it with `UnsupportedOperation`.
- `getVertexTable` would throw a NullPointerException on a table without an alias. The list it searches only holds defined tables, so this is stated as the precondition `AllDefined`.
- ExampleMetadataProvider.ToUpperCase: raises ASCII letters only. Java's `toUpperCase()` uses the default locale, and under a Turkish or Azerbaijani locale `"financialNetwork"` upper-cases to a string with a dotted capital I. The model, and so `GetGraphSchema`'s `"FINANCIALNETWORK"`, assumes a default locale that upper-cases ASCII letters to ASCII.
- ExampleMetadataProvider.GetGraphSchema: the upper-case spelling it accepts is `FINANCIALNETWORK` only under that locale assumption.
- The metadata provider's no-argument `getGraphSchema()` is fixed test data with no logic.
- `ModifyQuery`, `QueryVertex`, `StatementType` and `TableExpression` are value declarations outside the translator and are not modelled.

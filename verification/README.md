# A verified model of mini's core

mini sits between MCP agents and upstream tool servers. It shortens what tools return, prints values
in the TOON format, keeps a registry of upstream tools while upstreams come and go, and proxies a stdio
client to a daemon that may be replaced at any time. This project models the parts of it that are hardest
to get right and proves what they promise. `dafny verify dfyconfig.toml` checks everything.

- **TOON** (`ToonText`, `ToonNumber`, `ToonLayout`, `ToonTables`, `ToonEncoder`, `ToonDecoder`,
  `ToonRoundTrip`, `ToonDocument`, `ToonEncodable`). The layout is a function from values to lines; the
  encoder is the class of writing methods that append to a bounded builder, proved against the layout.
  The repository has no decoder: the one here is written for the format, and decoding is proved to undo
  encoding. `ToonEncodable` says which values have a document.
- **Projection** (`Json`, `Projection`, `ExcludePath`, `JqPath`, `Truncation`, `Utf8`, `Sorting`): what a projection
  removes, that it reports all of it, and what the reports mean.
- **Output schemas** (`Schema`, `SchemaLoosening`, `ProxySchema`, `ProxyTool`, `ProxyResult`): JSON Schema
  validity, the loosening of a tool's output schema, the notice that is placed in it, and the result that
  carries the notice. The main result joins the two halves: a projected result satisfies the schema the
  client was given.
- **Upstreams** (`Aliases`, `Registry`, `Lifecycle`): the registry's indexes, and a state machine in which
  any number of threads install, remove, reconnect, refresh and re-alias upstreams.
- **The stdio proxy** (`Forwarding`, `NotificationRunner`): recovery of a shared daemon link by any number
  of concurrent forwards, and the runner that follows the link with its notification stream.
- **Smaller machines and buffers** (`Refresher`, `NameLocks`, `Sse`, `ResponseStore`).

Concurrent parts are state machines whose steps are the stretches of code between two points where another
thread can come in; every statement about them is for all runs. Where the source changes an object in place
outside such a machine, a class does so too, and its methods are proved against the functions the theorems
are about.

Findings, where the code and a plain reading of its promise part, each with an input and the exact condition:

- A root array that the depth guard lets through may still not be printable (`ToonEncodable.RootArrayNestsOneLess`);
  it is exactly when its lines have room (`ToonEncodable.ArrayEncodableIff`).
- Paths that differ may print alike: a key prints like the index n exactly when it is the text `[n]`
  (`JqPath.KeyPrintsLikeIndexIff`), and `JqPath.UniquelyPrintedIff` says which paths no other prints like.
  Collapsing is off for a key such as `[0]`, and right for a bracketed key exactly when it is inert
  (`JqPath.BracketKeyCollapsesIff`).
- A shortened string may no longer be a listed value (`SchemaLoosening.ListedValueGap`, which the source notes
  itself); listed values stay listed exactly when `SchemaLoosening.ListedValuesIff` says so.
- A string may be reported as cut that comes out whole (`Projection.ReportedWhole`);
  `Projection.CutReportExact` says which.
- A valid result may be invalid with its notice, because notices are not placed in `dependentSchemas`
  (`ProxySchema.DependentSchemaGap`); `ProxySchema.PlacedAcceptsIff` says when it is valid.

## Model

| member | source | states |
|---|---|---|
| ToonDocument.EncodeThenDecode | internal/toon/encode.go:67-110 | For every value without duplicate keys that has a document, decoding the document yields the same JSON value: numbers worth the same, fields in any order, items in order |
| ToonDocument.DocumentRoundTrip | internal/toon/encode.go:67-110 | For every value that has a document, duplicate keys included, the decoder recovers the value with its numbers in canonical form and the objects of tables in header order; all root forms |
| ToonDocument.SettledIsSame | internal/toon/array.go:247-266 | Canonical numbers and header order do not change the value, for values without duplicate keys; numbers are compared by what their texts are worth |
| ToonDocument.ArrangeIsSame | internal/toon/array.go:280-311 | An object put in the order of its table header, nested columns included, has the same fields with the same values |
| ToonEncodable.EncodableIff | internal/toon/encode.go:21-66 | A value whose root is not an array has a document exactly when it is nested at most 1024 deep and every number in it has a canonical form |
| ToonEncodable.ArrayEncodableIff | internal/toon/encode.go:67-92 | For every root array: it has a document exactly when the depth guard passes, every number has a canonical form, and its lines have room, which ignores empty arrays, inline arrays and empty objects; a level of nesting to spare is room enough |
| ToonEncodable.ArrayPrints | internal/toon/array.go:33-106 | An array in any form prints exactly when its numbers do and every table, list and field block in it starts within the depth limit |
| ToonEncodable.ItemPrints | internal/toon/array.go:186-223 | The same of a list item |
| ToonEncodable.FieldsPrint | internal/toon/encode.go:112-180 | The same of the fields of an object, keyed tables included |
| ToonEncodable.RootArrayNestsOneLess | internal/toon/encode.go:67-92 | A concrete root array that the depth guard lets through and whose lines have no room, because the items of a root array are printed one level deeper than the guard counts |
| ToonEncodable.TableRowPrints | internal/toon/array.go:357-368 | The cells of a table row print exactly when the whole object does: no field of a tabular object is left out of its row |
| ToonEncodable.TableIffUniform | internal/toon/array.go:244-311 | A list has table columns exactly when it is uniform: objects with one key set, every column scalars only or uniform again |
| ToonEncodable.ArrayFormIff | internal/toon/array.go:33-50 | A non-empty array is printed inline exactly when it holds scalars only, as a table exactly when it may be one and is uniform, and as a list otherwise |
| ToonEncodable.UniformArrayIsTable | internal/toon/array.go:90-106 | A uniform array prints one row for each object |
| ToonEncodable.UniformObjectIsTable | internal/toon/keyed.go:8-87 | A field holding two or more uniform objects prints one row for each |
| ToonEncodable.NestedArrayIsNoTable | internal/toon/array.go:186-199 | An array inside a list is never a table |
| ToonEncodable.DepthAllowedIff | internal/toon/encode.go:21-63 | The depth guard bounds how many containers lie one in the other |
| ToonRoundTrip.ArrayRoundTrip | internal/toon/array.go:33-106 | Whatever form an array takes - empty, inline, table, list - its bracket and the lines below are read back as the array, leaving the following lines |
| ToonRoundTrip.ItemRoundTrip | internal/toon/array.go:186-223 | A list item, its first field on the hyphen line included, is read back as the item |
| ToonRoundTrip.ListRoundTrip | internal/toon/array.go:171-184 | The items of a list are read back in order and the following lines are left |
| ToonRoundTrip.FieldRoundTrip | internal/toon/encode.go:135-180 | A field in any form is read back with its key |
| ToonRoundTrip.FieldsRoundTrip | internal/toon/encode.go:112-133 | The fields of an object are read back in order and the following lines are left |
| ToonRoundTrip.KeyedRoundTrip | internal/toon/keyed.go:56-104 | A keyed table is read back as the object of objects it was made from |
| ToonRoundTrip.RowsRoundTrip | internal/toon/array.go:90-106 | The rows of a table are read back as the objects, in header order |
| ToonRoundTrip.EntriesRoundTrip | internal/toon/keyed.go:89-104 | The rows of a keyed table are read back with their keys |
| ToonRoundTrip.RowRoundTrip | internal/toon/array.go:225-242 | A row of cells is split into exactly the cells it was joined from, commas inside strings notwithstanding |
| ToonRoundTrip.ColsRoundTrip | internal/toon/array.go:121-152 | A column header with nested columns is parsed back into the columns |
| ToonRoundTrip.UnflattenInverts | internal/toon/array.go:357-368 | The leaf cells of an object rebuild it along the columns they were taken by |
| ToonText.QuotedRoundTrip | internal/toon/quote.go:92-121 | A quoted string is unescaped to the string, for every string |
| ToonText.KeyRoundTrip | internal/toon/quote.go:38-43 | A key, bare or quoted, is read back whatever follows it |
| ToonText.CountRoundTrip | internal/toon/array.go:112-112 | A printed count is read back as the number |
| ToonText.LinesRoundTrip | internal/toon/encode.go:112-133 | Lines survive printing with indentation and splitting |
| ToonText.EncodedStringIsPrintable | internal/toon/quote.go:24-29 | An encoded string stays on its line and is never empty |
| ToonText.PlainWordStaysBare | internal/toon/quote.go:45-90 | A word of letters, digits and underscores that does not start with a digit stays bare exactly when it is not true, false or null |
| ToonNumber.CanonicalKeepsValue | internal/toon/numbers.go:14-122 | The canonical text of a number is worth, digit for digit and power for power, what the number denotes: the lexeme for integers and numbers beyond the range of floats, the float that was read for all others; only a zero is printed as 0 |
| ToonNumber.CanonicalIffReadable | internal/toon/numbers.go:14-76 | A number has canonical text exactly when it is an integer lexeme or a JSON number that was read |
| ToonNumber.CanonicalIsShaped | internal/toon/numbers.go:50-122 | Canonical text is a decimal, with an exponent only behind a lower-case e and a sign |
| ToonNumber.ExponentIsShort | internal/toon/numbers.go:109-122 | The exponent of a float is printed without leading zeros |
| ToonNumber.CanonicalIsNumeric | internal/toon/numbers.go:14-122 | Canonical text is recognised as a number when it is read back |
| ToonNumber.CanonicalIntegersAgree | internal/toon/numbers.go:21-35 | Two integer lexemes have the same canonical form exactly when they have the same value |
| ToonNumber.IsValidJsonNumberLexeme | internal/toon/numbers.go:126-148 | Accepts exactly the number grammar of section 6 of RFC 8259 |
| ToonNumber.ConsumeJsonInteger | internal/toon/numbers.go:150-168 | Stops where the integer part of a JSON number ends |
| ToonNumber.ConsumeDigitRun | internal/toon/numbers.go:170-179 | Stops after a non-empty run of digits, or fails |
| ToonEncoder.Encode | internal/toon/encode.go:67-110 | Succeeds exactly when the value has a document and the printed text, its last line break included, stays within 4 MiB; the text is then the document and at most 4 MiB long |
| ToonEncoder.ValidateDepth | internal/toon/encode.go:28-65 | The depth guard |
| ToonEncoder.QuoteString | internal/toon/quote.go:92-121 | The escaping loop produces the quoted form that the round trip is about |
| ToonEncoder.JoinPrimitives | internal/toon/array.go:225-242 | The joining loop produces the row, or fails when a cell does not print or the row is too long |
| ToonEncoder.Builder.AppendString | internal/toon/encode.go:182-188 | Appends the text or refuses it; the builder never holds more than 4 MiB |
| ToonEncoder.Builder.WriteFields | internal/toon/encode.go:112-125 | Appends exactly the lines of the fields, or fails |
| ToonEncoder.Builder.WriteFieldBody | internal/toon/encode.go:135-157 | Appends the rest of a field's line and the lines below it, or fails |
| ToonEncoder.Builder.WriteFieldValue | internal/toon/encode.go:159-180 | Appends a field's value in the form its kind takes, or fails |
| ToonEncoder.Builder.WriteArray | internal/toon/array.go:33-50 | Appends an array in the form the layout chooses, or fails |
| ToonEncoder.Builder.WriteTabularArray | internal/toon/array.go:90-106 | Appends a table header and its rows, or fails; too deep a table fails before anything is written |
| ToonEncoder.Builder.WriteListItem | internal/toon/array.go:186-207 | Appends the lines of a list item, or fails |
| ToonEncoder.Builder.WriteObjectListItem | internal/toon/array.go:211-223 | Appends an object item with its first field on the hyphen line, or fails |
| ToonEncoder.Builder.WriteKeyedTabular | internal/toon/keyed.go:56-104 | Appends a keyed table, or fails |
| ToonTables.TabularFields | internal/toon/array.go:247-266 | Finds the columns exactly when all objects share one key set and every column is uniform |
| ToonTables.ClassifyColumns | internal/toon/array.go:268-311 | Finds a primitive or nested column for each key, or none at all |
| ToonTables.KeyedTabularCols | internal/toon/keyed.go:8-31 | Finds the columns of an object of at least two uniform objects |
| ToonTables.MatchesKeySetLoop | internal/toon/array.go:370-382 | Accepts exactly the objects with these keys, each once |
| ToonTables.NoDupKeySet | internal/toon/array.go:346-355 | The set of the keys, unless one occurs twice |
| ToonTables.LeafValuesLoop | internal/toon/array.go:357-368 | The cells of an object in column order |
| Projection.ProjectTrims | internal/projection/engine.go:69-157 | Projection only trims: fewer fields, array prefixes, string prefixes, recursively |
| Projection.ProjectedPaths | internal/projection/engine.go:69-129 | A path is in the projected value exactly when it is in the original and none of its steps is removed; what stands there is the projection of what stood there |
| Projection.ExclusionReportExact | internal/projection/engine.go:82-99 | The excluded paths reported are exactly the paths of fields that are missing while their parent survives |
| Projection.MissingIsReported | internal/projection/engine.go:82-99 | Every missing field is reported |
| Projection.CutReportExact | internal/projection/engine.go:115-157 | The cut report lists exactly the arrays and strings that came out shorter, each with how much it lost, and with nothing lost the strings one code point over their limit that end a sentence |
| Projection.ReportedWhole | internal/projection/engine.go:139-183 | A concrete string that is reported as cut and returned whole |
| Projection.ShorterIsReported | internal/projection/engine.go:115-157 | Every shortened array and cut string is reported with how much it lost |
| Projection.UnchangedIff | internal/projection/engine.go:50-157 | The output equals the input exactly when nothing is excluded and every cut report is of nothing lost |
| Projection.NoReportNoChange | internal/projection/engine.go:50-157 | Without a report the output equals the input |
| Projection.ExclusionsAreRules | internal/projection/merge.go:85-93 | The merged exclusions are exactly what some configured rule denotes; rules that do not parse are ignored |
| Projection.MissingFieldNamed | internal/projection/excluded.go:9-24 | A missing field is still named by the collapsed report, with its indexes as [], as long as no bracketed key on its path upsets collapsing |
| Projection.CollapseExcluded | internal/projection/excluded.go:9-24 | Each collapsed path once and no other, in order |
| Projection.ApplyConfig | internal/projection/engine.go:50-67 | The result is as the raw configuration and defaults want it, path by path; its excluded paths are exactly the missing fields, without repetition and in order, and its truncations exactly what was cut, in the order of their paths |
| Projection.ProjectsAsConfigured | internal/projection/merge.go:33-93 | A string of a field is cut by the limit configured for the field, else by the default; an array by its own limit, else the one named default, else not; a path is taken away exactly when some rule denotes it or the include list omits it |
| Projection.ConfiguredOnce | internal/projection/engine.go:69-157 | A configuration leaves no choice: the result is determined by what it asks for |
| Projection.ExcludedKeysDetermined | internal/projection/engine.go:50-63 | The excluded paths of a result are determined by value and configuration, whatever order the fields were walked in |
| Projection.Reports.ProjectValue | internal/projection/engine.go:69-113 | The recursive walk returns the projection and appends exactly its reports |
| Projection.Reports.ProjectMap | internal/projection/engine.go:82-113 | The loop over the fields, in any order, keeps the right ones and appends exactly their reports |
| Projection.Reports.ProjectArray | internal/projection/engine.go:115-129 | The loop over the kept items appends exactly their reports |
| Truncation.CutBounds | internal/projection/engine.go:173-218 | A cut string is not empty, has at most limit+1 code points, the extra one only a sentence end, and in bytes it ends between 98 before and one after the limit |
| Truncation.CutIsLatestBoundary | internal/projection/engine.go:173-218 | The cut is at the latest sentence end in the window, else at the latest space in its window, else at the limit |
| Truncation.CutBytesIsCut | internal/projection/engine.go:173-218 | The byte-wise cut of valid UTF-8 is the encoding of the cut of its code points, so it ends on a code point boundary |
| Truncation.TruncateAtBoundary | internal/projection/engine.go:173-190 | The method computes the byte-wise cut |
| Truncation.RuneOffsetLoop | internal/projection/engine.go:192-202 | The loop finds the byte offset of a code point |
| Truncation.ScanBackward | internal/projection/engine.go:211-218 | The loop finds the last stop byte in the window |
| ExcludePath.ParseIffDenotes | internal/config/projection_validation.go:29-65 | A rule parses to steps exactly when it is a notation for them |
| ExcludePath.ParseExcludePath | internal/config/projection_validation.go:29-42 | Accepts exactly the notation, with the steps it denotes |
| ExcludePath.ParseExcludeSegment | internal/config/projection_validation.go:44-65 | One segment of a rule |
| ExcludePath.CountArraySteps | internal/config/projection_validation.go:67-88 | A run of [] suffixes |
| JqPath.CollapsePrintedPath | internal/jq/path.go:59-112 | Collapsing the indexes of a printed path is printing the path with its indexes as [], whatever quotes, backslashes or [0] its quoted keys contain, and for bracketed keys that are inert: no index in them and no quote left open |
| JqPath.BracketKeyCollapsesIff | internal/jq/path.go:59-112 | A bracketed key is inert exactly when every path through it (and otherwise inert keys) collapses as it should |
| JqPath.UniquelyPrintedIff | internal/jq/path.go:12-40 | No other path prints like a given one exactly when all its segments are identifier keys, except that the last may be a bracketed key that cannot be read as an index, as a quoted key or as several segments |
| JqPath.ReadBackIffPlain | internal/jq/path.go:12-40 | Reading a printed path gives the path back exactly when none of its keys starts with a bracket |
| JqPath.PrintedPathsDiffer | internal/jq/path.go:12-40 | Of the paths whose keys do not start with a bracket, different ones print differently |
| JqPath.KeyPrintsLikeIndexIff | internal/jq/path.go:23-40 | Anywhere in a path, a key prints like the index n exactly when it is the text [n] |
| JqPath.EscapedIsClean | internal/jq/path.go:34-39 | A quoted key is printed without control characters, HTML characters and line separators |
| JqPath.FormatPathLoop | internal/jq/path.go:12-40 | The printing loop |
| JqPath.CollapseIndex | internal/jq/path.go:59-92 | The collapsing loop |
| JqPath.CopyQuotedKey | internal/jq/path.go:94-112 | The loop over a quoted key, escapes included |
| SchemaLoosening.LoosenAccepts | internal/server/proxy_output_schema.go:112-151 | A value valid under a schema is valid under the loosened one, and so is what a trim leaves of it if the schema negates nothing and the trim cuts no listed string to an unlisted one; for every number of references followed |
| SchemaLoosening.LoosenOnlyWeakens | internal/server/proxy_output_schema.go:73-151 | Loosening only weakens, with not, if/then/else and references into the definitions, provided no not or if contains a reference |
| SchemaLoosening.LoosenMeans | internal/server/proxy_output_schema.go:112-151 | A value is valid under the loosened schema exactly when it is valid under the schema with the keywords a trim can break left out and oneOf read as anyOf, except under not and if: nothing else is given up |
| SchemaLoosening.LoosenedSatisfiedIff | internal/server/proxy_output_schema.go:112-151 | The same of whole schemas with their definitions |
| SchemaLoosening.SimpleKept | internal/server/proxy_output_schema.go:11-31 | Among the keywords without subschemas, type, enum, const, maxLength and the numeric bounds stay as they are, and exactly the listed ones go |
| SchemaLoosening.ShortenedStaysValid | internal/server/proxy_output_schema.go:8-35 | The loosened schema accepts what a trim by known string limits leaves of a value that satisfies the schema, enum and const included: each listed string must be out of reach of the limits of the fields it may stand in, or be cut to a listed one |
| SchemaLoosening.TrimmedStaysValid | internal/server/proxy_output_schema.go:8-35 | The same for every trim whatever, where a listed string needs its prefixes listed too; listed numbers, booleans and nulls need nothing |
| SchemaLoosening.ProjectShortens | internal/projection/engine.go:69-157 | Projection cuts each string by the limit of the field that holds it, and touches no number, boolean or null |
| SchemaLoosening.ListedScalarsIff | internal/server/proxy_output_schema.go:8-10 | Every listed scalar of a field is projected to a listed value exactly when each listed string fits the limit of the field or is cut to a listed string |
| SchemaLoosening.ListedValuesIff | internal/server/proxy_output_schema.go:8-10 | For a schema that lists scalars by enum or const, the projection of every value it accepts is accepted by the loosened schema exactly under that condition |
| SchemaLoosening.KeptIff | internal/server/proxy_output_schema.go:8-10 | The condition the general theorems put on lists of scalars is that one |
| SchemaLoosening.RefFree | internal/server/proxy_output_schema.go:91-110 | A schema without references means the same whatever the definitions are |
| SchemaLoosening.ListedValueGap | internal/server/proxy_output_schema.go:8-10 | A concrete list and limit for which it fails: the known gap the source names |
| SchemaLoosening.LoosenReachesDefs | internal/server/proxy_output_schema.go:123-137 | Loosening the schema loosens exactly the definitions its references name |
| SchemaLoosening.CleanIsUntouched | internal/server/proxy_output_schema.go:112-151 | A schema with none of the deleted or rewritten keywords is left exactly as it is |
| SchemaLoosening.LoosenIsClean | internal/server/proxy_output_schema.go:112-151 | A loosened schema has none of those keywords left anywhere on the walk |
| SchemaLoosening.LoosenTwice | internal/server/proxy_output_schema.go:112-137 | Loosening twice is loosening once |
| Schema.LoosenInSteps | internal/server/proxy_output_schema.go:123-151 | Loosening an object is deleting keywords, then rewriting oneOf, then loosening its subschemas |
| ProxySchema.ProjectedResultIsValid | internal/server/proxy_output_schema.go:45-61 | The projection of a result that satisfies the upstream's schema satisfies the schema the proxy lists: without the notice for any keywords, unless the result has an undeclared __mini of its own, and with the notice when the loosened schema takes one |
| ProxySchema.ListedAccepts | internal/server/proxy_output_schema.go:45-61 | The same for any trim, whichever of the two schemas is listed |
| ProxySchema.PlacedStillAccepts | internal/server/proxy_output_schema.go:153-210 | Placing the notice keeps every value valid that has no __mini, or has one the schema declares, under any keywords of the schema |
| ProxySchema.LoosenedDeclares | internal/server/proxy_output_schema.go:112-151 | A __mini that the upstream declares is still declared after loosening |
| ProxySchema.PlacedAccepts | internal/server/proxy_output_schema.go:153-210 | The value with a notice added is valid under the placed schema if the value was valid before, through nested anyOf and allOf, provided field names allow __mini and what depends on other fields tolerates it |
| ProxySchema.PlacedAcceptsIff | internal/server/proxy_output_schema.go:153-210 | Where nothing else stands in the way, an object with its notice is valid under the placed schema exactly when propertyNames accepts __mini and every dependent schema of a field it has accepts the object with the notice |
| ProxySchema.TolerantAccepts | internal/server/proxy_output_schema.go:153-210 | A tolerant dependent schema, in which nothing is placed, accepts an object with its notice, through references, branches and further dependent schemas |
| ProxySchema.DependentSchemaGap | internal/server/proxy_output_schema.go:177-187 | A concrete result that satisfies its schema and is rejected with its notice, because the walk that places notices does not enter dependentSchemas |
| ProxySchema.PlacedKeepsVerdict | internal/server/proxy_output_schema.go:153-210 | For a value without a notice, placing changes no verdict: objects, arrays and scalars that were accepted or rejected stay so, through nested anyOf and allOf |
| ProxySchema.ListedVerdict | internal/server/proxy_output_schema.go:45-61 | The schema the proxy lists judges a value without a notice exactly as the upstream's does leniently, or, where that schema cannot be used, by its type alone |
| ProxySchema.PlacedOnPlainObject | internal/server/proxy_output_schema.go:170-175 | A plain object schema gets exactly the notice property and nothing else |
| ProxySchema.LooseAccepts | internal/server/proxy_output_schema.go:212-217 | The type-only schema accepts every value of the types the schema accepts |
| ProxySchema.LooseVerdict | internal/server/proxy_output_schema.go:212-217 | And it accepts no others |
| ProxySchema.NoticeFits | internal/server/proxy_output_schema.go:252-285 | Every notice the server can write satisfies the schema placed for notices |
| ProxySchema.NoticeVerdict | internal/server/proxy_output_schema.go:252-285 | The schema placed for notices accepts exactly what has the form of one |
| ProxySchema.LoosenedIsPlaceable | internal/server/proxy_output_schema.go:112-151 | A loosened schema has none of the keywords that would get in the way of a notice |
| ProxyTool.SchemaObject.DeleteTrimSensitive | internal/server/proxy_output_schema.go:123-126 | The deletion loop removes exactly the trim-sensitive keywords |
| ProxyTool.SchemaObject.RewriteOneOf | internal/server/proxy_output_schema.go:139-151 | oneOf becomes anyOf, behind an allOf if anyOf is taken |
| ProxyTool.SchemaObject.LoosenInPlace | internal/server/proxy_output_schema.go:123-137 | The in-place edits leave the loosened object |
| ProxyTool.SchemaObject.PlaceNotice | internal/server/proxy_output_schema.go:153-210 | The in-place edits leave the object with the notice placed, or fail; the type is unchanged either way |
| ProxyTool.SchemaObject.PlaceBranchesInPlace | internal/server/proxy_output_schema.go:177-195 | The loop over the branches, which stops at the first that cannot take the notice |
| ProxyTool.Tool.SetProxyOutputSchema | internal/server/proxy_output_schema.go:45-61 | The tool ends up with the listed schema |
| ProxyResult.BuildResult | internal/server/proxy_result.go:31-126 | Without any report the result is as it came. Otherwise, unless the full response cannot be stored, the notice names exactly what the projections of all parts reported and the result is determined block by block: a part's block says its projection, with the notice if it carries it; copies of the structured content stay copies; all other blocks are as they came; and a block for the notice is appended, at the index returned, exactly when no text shows it otherwise |
| ProxyResult.BuiltContentIsValid | internal/server/proxy_result.go:31-122 | The structured content of the built result satisfies the schema the tool is listed with, if the upstream's satisfied the upstream's schema |
| ProxyResult.NotedAll | internal/server/proxy_result.go:52-75 | The gathered reports are those of the projections, each behind the prefix of its part, and there are none exactly when no part has any |
| ProxyResult.SilentUnchanged | internal/server/proxy_result.go:47-84 | When nothing was reported nothing has changed |
| ProxyResult.ReportedPaths | internal/server/proxy_result.go:64-75 | The loops gather every report of every part, in order |
| ProxyResult.Assembler.ProxyNotice | internal/server/proxy_result.go:52-62 | No notice without a report; an error when the full response cannot be stored |
| ProxyResult.Assembler.AnyChanged | internal/server/proxy_result.go:77-84 | Whether some part has changed |
| ProxyResult.Assembler.Project | internal/server/proxy_result_doc.go:31-34 | Every part is projected on its own, with its reports |
| ProxyResult.AppliedBlocks | internal/server/proxy_result_doc.go:134-164 | What each block says once the units are put in: the structured content, its own unit, or what it said before |
| ProxyResult.NoticeReachesText | internal/server/proxy_result.go:86-113 | Whatever was reported, some text block shows the notice: the one made for it, or one that prints the projection carrying it |
| ProxyResult.BlockComesOut | internal/server/proxy_result_doc.go:134-164 | What putting the parts in leaves of any one block |
| ProxyResult.CopiesFollow | internal/server/proxy_result_doc.go:154-164 | Where the structured content changed, its copies changed with it |
| ProxyResult.UnitsAreShaped | internal/server/proxy_result_doc.go:76-112 | No two units and no unit and copy share a block |
| ProxyResult.CollectUnits | internal/server/proxy_result_doc.go:76-112 | The loop over the blocks finds the units and the copies of the structured content |
| ProxyResult.EachBlockHasItsPart | internal/server/proxy_result_doc.go:90-112 | What each block contributes: its text or JSON value, a copy of the structured content, or nothing |
| ProxyResult.PickCarrier | internal/server/proxy_result_doc.go:114-132 | The structured content if it can take a notice, else the only JSON block that can |
| ProxyResult.CarrierIff | internal/server/proxy_result_doc.go:114-132 | The structured content carries the notice exactly if it can; without any, a JSON text does exactly if it is the only one that can |
| ProxyResult.Assembler.Carry | internal/server/proxy_result_doc.go:36-47 | The notice goes into an object or onto an array |
| ProxyResult.Assembler.ApplyStructured | internal/server/proxy_result_doc.go:154-164 | The structured content and all its copies change together |
| ProxyResult.Assembler.Assemble | internal/server/proxy_result.go:86-122 | Units are put in one after the other, and a block is appended for a notice that no text would show |
| Lifecycle.RegistryMatchesUpstreams | internal/server/upstream_install.go:187-235 | In every interleaving of installs, removals, reconnects, refreshes and alias reloads, whenever the server lock is free the registry lists tools for a server only if it has a current upstream, and then exactly the valid distinct names of the list adopted last |
| Lifecycle.RegistryListsLatest | internal/server/upstream_refresh.go:93-118 | In every run, whenever the server lock is free, a server has an upstream exactly if a list was handed over for it - by a checked install, or by a refresh or reconnect that found its connection current - and not withdrawn since, and the registry lists exactly the valid names of the last such list |
| Lifecycle.HandedOverAsFetched | internal/server/upstream_reconnect.go:148-162 | A list is handed over as it arrived for the thread, with the connection it came from |
| Lifecycle.StepLists | internal/server/upstream_install.go:187-235 | Each step changes the list of one server at most: an install takes effect exactly if the server was not removed since the request began and is not running where that is refused, and a fetched list exactly if its connection is still current |
| Lifecycle.RegistryShowsLastView | internal/server/config_watch.go:275-290 | In every run, whenever the server lock is free, a server's tools are listed under the aliases and permissions in force at its last publication or reload: each under its visible name, shown or hidden as permitted, and nothing else |
| Lifecycle.StaleInstallsNeverHappen | internal/server/upstream_install.go:207-220 | An install that began before a removal of its server never takes effect after it |
| Lifecycle.ConnectionsAccountedFor | internal/server/upstream_reconnect.go:126-178 | Every connection ever dialled is closed, in use by a current upstream, in the hands of a thread still at work, or about to be closed by the thread that retired its upstream |
| Lifecycle.AtRestAllClosedOrCurrent | internal/server/upstream_reconnect.go:126-178 | Once all threads are at rest, every connection is closed or a current upstream's own |
| Lifecycle.CurrentConnectionIsOpen | internal/server/upstream.go:58-68 | The connection of a current upstream is never closed under it, and the upstream is not cancelled |
| Lifecycle.OnlyLocksBlock | internal/server/upstream_install.go:187-235 | A thread at work waits for the network or a lock and nothing else: whatever upstream its next step looks up is there |
| Lifecycle.StepKeeps | internal/server/upstream_install.go:187-329 | Every step of every thread keeps the invariant |
| Lifecycle.PutsUp | internal/server/upstream_install.go:187-279 | A checked install keeps the invariant: the new upstream is in place and the old one is to be closed |
| Lifecycle.Detaches | internal/server/upstream_install.go:296-329 | A removal keeps the invariant once it has taken the upstream out of the map |
| Lifecycle.SwapEnds | internal/server/upstream_reconnect.go:166-178 | Swapping the connection under the upstream's lock keeps the invariant, also when the upstream is cancelled in between |
| Lifecycle.Adopting | internal/server/upstream_refresh.go:93-115 | Adopting a list for a connection that is still current keeps the invariant, and the list is then the server's |
| Lifecycle.PublishesAdopted | internal/server/upstream_reconnect.go:146-164 | Publishing the adopted list lists exactly its valid names for the server and keeps the invariant |
| Lifecycle.ReappliesOne | internal/server/config_watch.go:275-290 | Re-applying aliases keeps every server's names |
| Aliases.VisibleNamesDiffer | internal/registry/aliases.go:29-69 | Different tools always get different visible names |
| Aliases.AliasTakenUp | internal/registry/aliases.go:35-69 | An alias is taken up exactly when it is no tool's real name and no other listed tool wants it |
| Aliases.ResolveAliases | internal/registry/aliases.go:29-69 | The loops compute those names and the dropped aliases in whatever order the map is walked |
| Aliases.BuildAliasClaims | internal/registry/aliases.go:35-60 | The first loop records every claim |
| Registry.RunKeepsIndexes | internal/registry/registry.go:35-130 | After any run of removals, replacements and additions the three indexes agree: no tool is both shown and hidden, and every shown tool is in its server's list exactly once |
| Registry.ReplacedKeeps | internal/registry/registry.go:122-130 | Replacing lists exactly the valid names of the new tools and touches no other server |
| Registry.ReplacedShows | internal/registry/registry.go:41-130 | After a replacement the server has an entry for each valid name of the list, under its visible name, hidden exactly where the permissions hide it, and no other |
| Registry.AddedKeeps | internal/registry/registry.go:35-60 | Adding a server lists exactly the valid names of its tools, each once, and touches no other server |
| Registry.RemovedKeeps | internal/registry/registry.go:104-120 | Removing leaves nothing of a server and touches no other |
| Registry.LookupFinds | internal/registry/registry.go:132-141 | A tool that is not hidden is found under its visible name and leads to its upstream name |
| Registry.ToolRegistry.AddServer | internal/registry/registry.go:41-60 | The loop inserts the valid, unseen definitions under their resolved names |
| Registry.ToolRegistry.RemoveServer | internal/registry/registry.go:110-120 | The loops delete the server's entries from all three indexes |
| Registry.ToolRegistry.ReplaceServer | internal/registry/registry.go:125-130 | Removes, then adds |
| Forwarding.SentThriceRunOnce | internal/proxy/session.go:46-64 | Over every run of concurrent forwards a message is sent at most three times and executed at most once |
| Forwarding.RetriesAreLegal | internal/proxy/session.go:84-122 | A retry after a failed dial or a 401 uses a newer generation, one after a lost session the same state, and unless the message is an initialize it directly follows a handshake on the state it uses |
| Forwarding.RetryableDidNotRun | internal/proxy/outcome.go:15-93 | Only replies that prove the request did not run are retried |
| Forwarding.RetryableIff | internal/proxy/outcome.go:24-93 | A reply leads to a retry exactly if it is a failed dial, a 401, or a readable reply below 400 that says the session is not initialized |
| Forwarding.EndsForAReason | internal/proxy/session.go:49-122 | A forward ends with its last reply, and only if that is a success or may have been acted on, it was sent three times, an initialize met a lost session, a resolve failed since, or there is no resolver |
| Forwarding.SessionAsSetUp | internal/proxy/session.go:71-129 | The proxy takes the session for set up exactly when some initialize succeeded or some handshake was replayed to its end, and for ready only once the client has said so |
| Forwarding.RestoringBinds | internal/proxy/session.go:124-129 | While the client is ready, a replayed handshake binds the notification stream to the state it was replayed on |
| Forwarding.GenerationCountsResolves | internal/proxy/link.go:30-54 | The generation counts the resolves, and at most one caller resolves at a time, on the current generation; so each generation is resolved at most once |
| Forwarding.SnapshotsPairTokens | internal/proxy/link.go:26-28 | Every state a forward uses pairs a generation with the token of the last resolve that had succeeded by then |
| Forwarding.LateCallersFailFast | internal/proxy/link.go:34-38 | A caller that failed on an old generation does not resolve, and gives up if the last resolve failed |
| Forwarding.StepKeeps | internal/proxy/session.go:46-129 | Every step of every forward keeps the invariant |
| Forwarding.DaemonLink.Recover | internal/proxy/link.go:30-54 | Resolves exactly when the failed generation is current and there is a resolver; returns the state and the stored error |
| NotificationRunner.DesiredIsMonotone | internal/proxy/notification_stream.go:60-70 | For every interleaving of Bind calls the generation asked for never decreases |
| NotificationRunner.DesiredIsNewest | internal/proxy/notification_stream.go:60-90 | The state asked for is the newest that any caller has named, and of several with its generation the one named last |
| NotificationRunner.LeavesForAReason | internal/proxy/notification_stream.go:90-170 | The runner leaves only when it was closed or the client can no longer be written to |
| NotificationRunner.OneStreamAtMost | internal/proxy/notification_stream.go:84-139 | At most one stream is alive, and none once the runner has left |
| NotificationRunner.NoLostWakeup | internal/proxy/notification_stream.go:113-132 | A runner blocked on a stream that is not the one asked for has a token to find or a Bind about to leave one |
| NotificationRunner.SettledOnDesired | internal/proxy/notification_stream.go:113-154 | With no Bind under way and no token left, a waiting runner is on the stream asked for last |
| NotificationRunner.DesiredStream.Bind | internal/proxy/notification_stream.go:60-70 | Writes the state unless it is of an older generation, then fills the slot |
| Refresher.PendingHasWorker | internal/server/tool_list_refresher.go:29-64 | A pending request on a refresher that is not stopped has a running worker, and never two |
| Refresher.ChannelsClosedOnce | internal/server/tool_list_refresher.go:56-86 | Each done channel is closed at most once, all of them by the time no worker runs |
| Refresher.RequestsAreServed | internal/server/tool_list_refresher.go:29-86 | Every request is followed by a pass that begins after it, unless the refresher was stopped or the worker that will run the pass is there |
| Refresher.ServedWhenQuiet | internal/server/tool_list_refresher.go:76-86 | When no worker runs and the refresher was not stopped, every request has had its pass |
| Refresher.OvertakenStaysStale | internal/server/tool_list_refresher.go:66-74 | A list fetched by a pass that a request overtook is never recorded as fresh |
| Refresher.PublishRecordsIff | internal/server/tool_list_refresher.go:66-74 | On the freshness itself: a worker that publishes records its list's freshness exactly if no request came in since its pass began, and otherwise leaves it as it was |
| Refresher.ExpiredUntilRenewed | internal/server/tool_list_refresher.go:29-74 | A request leaves the list expired until a pass that began after it publishes, or a list is published in another way |
| Refresher.AwaitStarts | internal/server/tool_list_refresher.go:40-54 | A caller starts a pass exactly if the list is stale, no worker runs and the refresher is not stopped |
| Refresher.ToolListRefresher.Request | internal/server/tool_list_refresher.go:29-38 | Expires the list, sets the request and starts a worker if none runs |
| Refresher.ToolListRefresher.RefreshIfStale | internal/server/tool_list_refresher.go:40-54 | Starts a refresh only for a stale list and returns the channel to wait on |
| Refresher.ToolListRefresher.Next | internal/server/tool_list_refresher.go:76-86 | Goes on while a request is pending, else closes the channel |
| Refresher.ToolListRefresher.Published | internal/server/tool_list_refresher.go:68-74 | Records freshness only when no request is pending |
| Refresher.GatheredStale | internal/transport/tools_list.go:27-48 | A list is stale exactly when every page has a lifetime and some page is stale |
| Refresher.Paginate | internal/transport/tools_list.go:82-139 | Reads pages until the first occasion to stop (no further cursor, a repeated cursor, the tenth page, an error) and not before; a list cut short is kept as stale if it has a lifetime at all, and an error is returned when nothing was gathered or the caller has given up |
| Refresher.OneWalk | internal/transport/tools_list.go:82-118 | The pages a listing reads are determined by the replies alone, and are at most ten |
| NameLocks.OneHolderPerName | internal/server/name_locks.go:15-55 | At most one thread holds a name, also across deletion and re-creation of its entry |
| NameLocks.ReferencesAreCounted | internal/server/name_locks.go:15-55 | A thread that refers to an entry finds that entry in the map under its name, and the entry counts exactly the threads that refer to it |
| NameLocks.NoEntryUnreferred | internal/server/name_locks.go:48-55 | No entry stays in the map without a thread that refers to it |
| NameLocks.OnlyHoldersBlock | internal/server/name_locks.go:15-55 | A thread waits for the holder of its name and nothing else: unlocking and uncounting are always possible |
| NameLocks.TryLockIff | internal/server/name_locks.go:24-35 | Trying for a name succeeds exactly when no thread holds it, and otherwise changes nothing |
| NameLocks.HeldIsMapped | internal/server/name_locks.go:24-34 | A failed TryLock leaves no entry behind |
| NameLocks.StepKeeps | internal/server/name_locks.go:15-55 | Every step of every thread keeps the invariant |
| Sse.ReadBack | internal/server/http_serve.go:133-147 | Scanning the frames the server wrote delivers exactly their messages, in order, and ends normally |
| Sse.FramesDelivered | internal/transport/sse.go:100-143 | The same as a statement about the functional scan of any concatenation of frames |
| Sse.ScanFollowsStandard | internal/transport/sse.go:115-143 | While no limit is reached and the handler is content, the scanner delivers exactly the events of section 9.2.6 of the WHATWG HTML Standard whose data is JSON |
| Sse.LineReader.ReadLine | internal/transport/sse.go:159-197 | The byte-wise reader returns the first line of the functional split on CR, LF and CRLF, and refuses exactly the lines over the limit |
| Sse.Scanner.ProcessLine | internal/transport/sse.go:115-130 | One line: deliver, skip or append within the bound |
| Sse.Scanner.Flush | internal/transport/sse.go:132-143 | Delivers the gathered event if it is JSON and empties the buffer |
| Sse.Scanner.ScanAll | internal/transport/sse.go:100-113 | The scanning loop delivers what the functional scan delivers; the event buffer keeps its bound throughout |
| Sse.EventStream.WriteNotifications | internal/server/http_serve.go:133-147 | Writes the frames of the messages in order until the connection breaks |
| ResponseStore.UsedIsSumOfListed | internal/response/storage_cleanup.go:25-75 | In every interleaving of writes, expiry and failed removals the counted size is the sum of the listed sizes |
| ResponseStore.EveryFileInOnePlace | internal/response/storage_cleanup.go:25-85 | Every file is in exactly one place: not recorded yet, listed once, with the one thread removing it, or gone |
| ResponseStore.OvershootIsShortest | internal/response/storage_cleanup.go:51-62 | Eviction takes the shortest front run that meets the budget or leaves one file |
| ResponseStore.JustWrittenStays | internal/response/storage_write.go:34-41 | The file just recorded is never among those evicted for it |
| ResponseStore.PartitionByExpiry | internal/response/storage_cleanup.go:36-46 | The in-place partition keeps exactly the living files, in order, and copies out exactly the expired ones, in order |
| ResponseStore.SelectSplitsFiles | internal/response/storage_cleanup.go:36-46 | No file is lost or doubled by the partition |
| ResponseStore.Store.TakeExpired | internal/response/storage_cleanup.go:25-33 | Expiry under the lock keeps the counted size right |
| ResponseStore.Store.EvictOvershoot | internal/response/storage_cleanup.go:51-62 | The loop evicts exactly that front run and keeps the counted size right |
| ResponseStore.Store.RecordWrite | internal/response/storage_write.go:34-41 | Appends the file, evicts, and keeps the counted size right |
| ResponseStore.Store.RestoreRemoveFailed | internal/response/storage_cleanup.go:64-75 | Files that could not be removed are back at the front and counted again |

## Left out

- Schema.Valid: interprets references to entries of the root's `$defs` and `definitions` only, and a schema object with `unevaluatedProperties`, `additionalItems`, `$dynamicRef` or `$recursiveRef` is satisfied by nothing, so the theorems say nothing about schemas that rely on them.
- ProxySchema.ProjectedResultIsValid: for a result sent with its notice, asks for no `not` and `if`, no listed object or array and no `__mini` of the upstream's own in what is placed; a dependent schema also has to leave additional properties open.
- SchemaLoosening.ShortenedStaysValid: asks for no `not` and `if`, which a trim can turn around, and a listed object or array must be empty; under `patternProperties`, `additionalProperties` and references the limits of all fields count.
- ProxyTool.SchemaObject.LoosenInPlace: edits the top object in place; subschemas are values, so a Go map shared between two places of one schema is not modelled (a parsed schema has none).
- ToonEncoder.Encode: which error is returned is not specified, only when there is one; the same holds of ExcludePath.ParseExcludePath.
- ToonNumber.CanonicalKeepsValue: how `strconv` rounds a lexeme to a float, and which digits it prints for it, are given data; the printed text is proved to be worth exactly those digits.
- Projection.ApplyConfig: when two places print alike, how often their truncation is listed is not stated.
- ProxyResult.BuildResult: encoding never fails, and a result that is not of the expected shape, which is passed on as it came, is not modelled.
- Lifecycle.RegistryMatchesUpstreams: speaks of tool names; that the list is the newest one across a reconnect is not claimed, since the code orders publications by connection, not by fetch time.
- Refresher.RequestsAreServed: says that the worker is there, not that it makes progress; no liveness is claimed of any machine.
- Invalid UTF-8 and the checks for it: strings of the TOON model are sequences of code points.
- Markdown and HTML stripping, which projection may do before it cuts: treated as switched off.
- Server shutdown in the upstream lifecycle, and the per-session connections, projections and startup reports that installs and removals also touch.
- The tests for a full builder at the start of list items and fields, which can never fire because appending already refuses.
- HTTP, sockets, subprocesses, file I/O, clocks and contexts: outcomes of steps.
- JSON, YAML and TOML parsing and printing: the models start from value trees, and whether bytes are JSON is a parameter.
- Detecting whether an HTTP body is an event stream at all, and the retry timing of every loop.
- The CLI, the TUI, OAuth, metrics, logs and status reports.

# Aggregate schema fields and the test-plan converter, in Dafny

This project models two parts of the weaviate repository and proves
properties of the models.

**The aggregate field builders and resolvers of the local GraphQL API**
(`adapters/handlers/graphql/local/aggregate/properties.go`, module
`AggregateProperties`):
- For one class and a numeric property, the builder makes an object type
  with the seven aggregation fields `sum`, `minimum`, `maximum`, `mean`,
  `mode`, `median` and `count`.
- For a non-numeric property, it makes an object type with `count` only.
- Per class, it makes the `path`/`value` "grouped by" object.
- Each field's resolver takes its value from a typed aggregation record or
  from a generic map. It fails on any other source.

GraphQL objects, fields and types are plain datatypes. A resolver closure is
named by a `Resolver` value and run by `Resolve`. Go's type switch over
`interface{}` is a closed `Source` datatype, and its default arm is
`OtherSource`.

**The test-plan converter** (`test/testplans/test2json.py`, function
`parse_markdown`; modules `TestPlanParser` and `Strings`). It makes one pass
over the lines of a markdown test plan. It collects the use case's name,
`ID` and `Description`, the test suites and each suite's test cases into
one nested record. There are two layers:
- **Specification.** `Step`, `ParseLines` and `Render` form a state machine.
  Suites and cases live in arenas and are referred to by index. A record that
  is appended to a list and is still "current" is one index in both places,
  so the Python aliasing is kept exactly.
- **Converter.** `ParseMarkdown` works over mutable classes `PlanData`,
  `TestSuite` and `TestCase`, one method per branch of the `if`/`elif`
  chain. It is proved to produce what the specification gives: the record
  serialises to `ParsePlan(content)`, or the crash is the one `ParsePlan`
  reports.

The two Python crashes become a `Crash` result that carries the line index:
- a `KeyError` on `'Test Suite'` when a review heading comes before any
  title line;
- a `TypeError` when a test description arrives with a current case but no
  current suite.

What the builders' names guarantee, as `properties.go` writes them:
- Names are plain concatenations, so distinct (class, property) pairs can
  collide. `NumericNamesCollide` shows two distinct pairs with identical
  objects. `NumericObjectNamesAcrossProperties` and
  `NumericFieldNamesAcrossProperties` prove uniqueness exactly when class name
  followed by property name differs.
- Names also meet across builders. `NumericFieldVersusCount`,
  `CountNamesAcrossClasses` and `PropertyObjectVersusGroupedBy` give the exact
  condition for each kind of meeting. `CrossBuilderNamesCollide` shows two: the
  numeric `count` field of class `A`, property `b` has the name of the
  non-numeric `count` field of class `Ab`; and the object for property
  `GroupedBy` under prefix `LocalAggregate` has the name of class `A`'s
  grouped-by object.
  `FieldNamesAreNotGroupedByNames` shows that a numeric field name or a
  `count` name is never a grouped-by object name.
- Neither grouped-by field, `path` or `value`, sets a `Name`
  (properties.go:98,112), so both carry Go's empty string. `GroupedByProperty`
  ensures this name `""`. The two fields therefore share a name within one
  object and across all classes.
- The non-numeric `count` field is named `<prefix><Class>Count`, without the
  property name. This is kept as written, and `NonNumericNames` states its
  consequence: two properties of one class give the same `count` field name.
- `properties.go` validates neither names nor property categories, and the
  model has no such error.

## Model

| member | source | states |
|---|---|---|
| `AggregateProperties.ResolveFieldAggregator` | adapters/handlers/graphql/local/aggregate/properties.go:137-148 | Fails exactly on a source that is neither an `aggregation.Property` nor a generic map. The error names the aggregator and the source's Go type. A typed record gives `NumericalAggregations[op]`, or 0 when the key is missing. A map gives `m[op]`, or nil when missing. A missing key is never an error. Partner: `NumericFieldsResolveTransparently` (typed record against its map form as reference), `ErrorSourceTypes`. |
| `AggregateProperties.ResolveGroupedBy` | adapters/handlers/graphql/local/aggregate/properties.go:101-123 | Fails exactly on a source that is neither a `GroupedBy` nor a generic map. The error names `path` or `value` and the source type. Otherwise it returns `.Path`/`.Value`, or `m["path"]`/`m["value"]` (nil when missing). Partner: `GroupedByFieldsResolveTransparently` (typed `GroupedBy` against its map form), `ErrorSourceTypes`. |
| `AggregateProperties.LookupLaws` | adapters/handlers/graphql/local/aggregate/properties.go:143 | Go's `m[k]` on a generic map (`Lookup`): a key never stored gives nil, a key just stored gives its value, and storing one key leaves the others alone. Partner of `Lookup`: the map update `m[k := v]` it reads back. |
| `AggregateProperties.ErrorSourceTypes` | adapters/handlers/graphql/local/aggregate/properties.go:101-146 | The `%T` in a resolver error (`TypeName`) is the refused source's own Go type: `aggregation.GroupedBy` handed to an aggregator, `aggregation.Property` handed to a grouped-by field, or the type of any other value. For a real source (`RealSource`: an other value whose type is none of the handled ones) the error never names a type that resolver accepts. Partner of `TypeName`: the resolvers' error cases, and `RealSource`, which excludes the handled type names from other values. |
| `AggregateProperties.NumericPropertyFields` | adapters/handlers/graphql/local/aggregate/properties.go:25-76 | Object named `prefix+Class+property+"Obj"`. Its keys are exactly the seven operations. Field `k` is named `prefix+Class+property+Capitalize(k)` and is resolved by the aggregator for `k`. `count` is Int and the other six are Float. Each field carries its operation's description constant (`LocalAggregateSum` for `sum`, and so on). Partner: `NumericFieldNamesDistinct` and `NumericObjectNamesAcrossProperties` (naming invariants), `NumericFieldsResolveTransparently` (resolvers). |
| `AggregateProperties.NonNumericPropertyFields` | adapters/handlers/graphql/local/aggregate/properties.go:78-94 | Object named `prefix+Class+property+"Obj"` with exactly one key, `count`. It is an Int field named `prefix+Class+"Count"`, described by `LocalAggregateCount` and resolved by the `count` aggregator. Partner: `NonNumericNames`, `CountNamesAcrossClasses`, `PropertyObjectNameIndependentOfKind`. |
| `AggregateProperties.GroupedByProperty` | adapters/handlers/graphql/local/aggregate/properties.go:96-135 | Object named `"LocalAggregate"+Class+"GroupedByObj"` with exactly the keys `path` (list of String) and `value` (String). Each is resolved by the grouped-by resolver of its key and carries its own description constant, and neither has a `Name`. Partner: `GroupedByNamesUnique`, `GroupedByFieldsResolveTransparently`, `FieldNamesAreNotGroupedByNames`. |
| `AggregateProperties.NumericFieldNamesDistinct` | adapters/handlers/graphql/local/aggregate/properties.go:28-72 | The seven field names of one numeric object are pairwise distinct, and none equals the object's name. Partner of `NumericPropertyFields`, through the injectivity lemma `OperationNamesInjective`. |
| `AggregateProperties.NumericObjectNamesAcrossProperties` | adapters/handlers/graphql/local/aggregate/properties.go:72 | Two numeric objects have the same name exactly when class name followed by property name is the same string. Partner of `NumericPropertyFields`, through `CamelSuffixInjective`. |
| `AggregateProperties.NumericFieldNamesAcrossProperties` | adapters/handlers/graphql/local/aggregate/properties.go:28-72 | When class+property strings differ, no field or object name of one numeric object occurs in the other. Partner of `NumericPropertyFields`, through `DifferentStemsDisjoint`. |
| `AggregateProperties.NumericNamesCollide` | adapters/handlers/graphql/local/aggregate/properties.go:28-72 | Class `Ab` with property `c` and class `A` with property `bc` give identical numeric objects. Counterexample beside `NumericObjectNamesAcrossProperties`: its condition is exact. |
| `AggregateProperties.NumericFieldVersusCount` | adapters/handlers/graphql/local/aggregate/properties.go:64-82 | A numeric field name equals a non-numeric `count` field name exactly when the numeric field is `count` and its class name followed by property name is the other class's name. Partner of `NumericPropertyFields` and `NonNumericPropertyFields`, through `OperationNamesInjective`. |
| `AggregateProperties.CountNamesAcrossClasses` | adapters/handlers/graphql/local/aggregate/properties.go:82-90 | Non-numeric `count` field names of two classes are equal exactly when the classes are, and such a name is never a property object's name. Partner of `NonNumericPropertyFields`, through `CamelSuffixInjective`. |
| `AggregateProperties.PropertyObjectVersusGroupedBy` | adapters/handlers/graphql/local/aggregate/properties.go:72-129 | A numeric or non-numeric property object has a grouped-by object's name exactly when prefix, class name and property name spell `LocalAggregate<Class>GroupedBy`. Partner of the property builders and `GroupedByProperty`, through `CamelSuffixInjective`. |
| `AggregateProperties.CrossBuilderNamesCollide` | adapters/handlers/graphql/local/aggregate/properties.go:64-129 | Class `A`, property `b` gives a numeric `count` field named like class `Ab`'s non-numeric `count` field. Property `GroupedBy` under prefix `LocalAggregate` gives an object named like class `A`'s grouped-by object. Instances of `NumericFieldVersusCount` and `PropertyObjectVersusGroupedBy` where the condition holds. |
| `AggregateProperties.FieldNamesAreNotGroupedByNames` | adapters/handlers/graphql/local/aggregate/properties.go:64-129 | A numeric field name (`<prefix><Class><Property><Op>`) and a non-numeric `count` name (`<prefix><Class>Count`) are never the name of a grouped-by object (`LocalAggregate<Class>GroupedByObj`), for any classes, properties and prefix. Partner of `NumericPropertyFields`, `NonNumericPropertyFields` and `GroupedByProperty`, through `OperationNameIsNotObjectName`. |
| `AggregateProperties.NonNumericNames` | adapters/handlers/graphql/local/aggregate/properties.go:82-90 | The `count` field name does not depend on the property. Object names differ exactly when the property names do. The field name never equals its object's name. Partner of `NonNumericPropertyFields`, through `CamelSuffixInjective`. |
| `AggregateProperties.PropertyObjectNameIndependentOfKind` | adapters/handlers/graphql/local/aggregate/properties.go:72-90 | Both builders give the same object name for one property. Relates the two property builders to each other. |
| `AggregateProperties.GroupedByNamesUnique` | adapters/handlers/graphql/local/aggregate/properties.go:129 | Two grouped-by object names are equal exactly when the class names are. Partner of `GroupedByProperty`: injectivity in the class. |
| `AggregateProperties.NumericFieldsResolveTransparently` | adapters/handlers/graphql/local/aggregate/properties.go:137-145 | A numeric field gives the same value on a typed record and on that record as a generic map when the operation is present. When it is absent, the record gives 0 and the map gives nil. Any other source is an error naming that field's operation. Partner of `ResolveFieldAggregator`: the map form `PropertyAsMap` is the reference. |
| `AggregateProperties.GroupedByFieldsResolveTransparently` | adapters/handlers/graphql/local/aggregate/properties.go:101-123 | `path` and `value` resolve the same on a typed `GroupedBy` and on it as a generic map. Partner of `ResolveGroupedBy`: the map form `GroupedByAsMap` is the reference. |
| `AggregateProperties.ResolverExamples` | adapters/handlers/graphql/local/aggregate/properties.go:137-145 | Typed and generic `sum` of 4.5 give 4.5. `sum` on an int is an error. `path`/`value` of `GroupedBy{["city"], "Berlin"}`, and `path` of a map, give the stored values. Concrete instances of the `ResolveFieldAggregator` and `ResolveGroupedBy` contracts. |
| `Strings.StartsWithAppend` | test/testplans/test2json.py:22-23 | `line.startswith(prefix)` with `line[len(prefix):] == t` holds exactly when the line is `prefix + t`. Partner of `StartsWith`: concatenation as the reference definition. |
| `Strings.ContainsScan` | test/testplans/test2json.py:30 | `'Review' in line` (`Contains`) holds exactly when the line starts with `Review` or `Review` occurs after its first character. Partner of `Contains`: the scan recursion as the reference definition, with `ContainsInfix`. |
| `Strings.ContainsInfix` | test/testplans/test2json.py:30 | `sub in a + sub + b` always holds. Partner of `Contains`, with `ContainsScan`. |
| `Strings.IsSpaceExamples` | test/testplans/test2json.py:23 | `IsSpace` accepts space, tab, newline, carriage return, the file separator, no-break space and ideographic space. It refuses a letter, a digit, zero-width space and the byte-order mark, as `str.isspace` does. Concrete instances of `IsSpace` against `str.isspace`. |
| `Strings.Strip` | test/testplans/test2json.py:23 | `strip()`: the result is a slice of the input with only white space outside it and no white space at its ends. It is empty only for an all-white-space input. Partner: `StripIdempotent` and `StripBorderless`. The `StrippedAt` characterisation is the reference. |
| `Strings.LeadingSpace` | test/testplans/test2json.py:23 | Counts exactly the white space that starts the string. Partner: the characterisation in its own contract, used by `Strip`. |
| `Strings.TrailingSpace` | test/testplans/test2json.py:23 | Counts exactly the white space that ends the string. Partner: the characterisation in its own contract, used by `Strip`. |
| `Strings.StripIdempotent` | test/testplans/test2json.py:23 | Stripping twice equals stripping once. Partner of `Strip` (idempotence), through `StripBorderless`. |
| `Strings.StripBorderless` | test/testplans/test2json.py:23 | A string without white space at its ends is its own strip. Partner of `Strip`: its fixed points. |
| `Strings.Split` | test/testplans/test2json.py:20 | `split(sep)` gives at least one part, and no part contains the separator. Partner: `Join`, through `JoinSplit` and `SplitJoin`. |
| `Strings.JoinSplit` | test/testplans/test2json.py:20 | Joining the parts of a split with the separator gives back the input. Round trip of `Split` with its inverse `Join`. |
| `Strings.SplitJoin` | test/testplans/test2json.py:48 | Splitting a join of separator-free parts gives back the parts. Round trip of `Join` with its inverse `Split`, through `SplitAfterFree`. |
| `TestPlanParser.Step` | test/testplans/test2json.py:21-55 | One line preserves well-formedness. It fails exactly on a review heading with no `Test Suite` key yet, or on a test description with a current case and no current suite. The crash carries the line index. Partner: the invariant `WellFormed`. The per-line lemmas `TitleLine` … `UnrecognisedLineNoop` state its effect. |
| `TestPlanParser.StepKind` | test/testplans/test2json.py:22-55 | The same contract as `Step`, for a line already classified. Partner: `WellFormed`, and `Step`, which is `StepKind` of `Classify`. |
| `TestPlanParser.ParseLines` | test/testplans/test2json.py:20-56 | The lines processed in order. A result is well-formed. A crash names a line of the input that is a review heading or a test description. Partner: `CrashOfPrefix` and `CrashIsFinal`. `ParseMarkdown` refines it. |
| `TestPlanParser.ClassifyByPrefix` | test/testplans/test2json.py:22-52 | No two prefixes can start one line, so first-match-wins shadows nothing. Each kind is recognised exactly by its prefix, and `### Test Cases` is not a case. Partner of `Classify`: the prefix tests as the reference definition, with `ClassifyPayload`. |
| `TestPlanParser.ClassifyPayload` | test/testplans/test2json.py:22-52 | Each kind `Classify` gives carries exactly the text after its prefix. The review flag is `'Review' in line` and the comma flag is `',' in line`. Partner of `Classify`, with `ClassifyByPrefix`, through `StartsWithAppend`. |
| `TestPlanParser.ClassifyTestType` | test/testplans/test2json.py:44 | A `**Test Type**: ` line is classified as one, carrying the rest of the line and the comma test on the whole line. Instance of `ClassifyByPrefix` for one kind. |
| `TestPlanParser.ParsePlanOfLines` | test/testplans/test2json.py:20-21 | `ParsePlan` of newline-free lines joined with `\n` is exactly the result of processing those lines in order: the rendered state, or their crash. Partner of `ParsePlan`: the `SplitJoin` round trip. |
| `TestPlanParser.TitleLine` | test/testplans/test2json.py:22-24 | A `# ` line sets `name` to the stripped rest and resets `Test Suite` to an empty list. Nothing else changes. Partner of `Step`, through `ClassifyByPrefix`. |
| `TestPlanParser.IdAndDescriptionLines` | test/testplans/test2json.py:25-28 | `**UC ID**: ` sets `ID` and `**Description**: ` sets `Description`, each to the stripped text after the prefix. Nothing else changes. Partner of `Step`, through `ClassifyByPrefix`. |
| `TestPlanParser.SuiteHeadingLine` | test/testplans/test2json.py:29-33 | A `## ` line with `Review` appends the current suite (or `None`), or crashes when no `Test Suite` key exists yet. Any other `## ` line makes a fresh empty suite current and appends nothing. Partner of `Step`, through `ClassifyByPrefix`. |
| `TestPlanParser.SuitesAppendedOnlyAtReview` | test/testplans/test2json.py:21-55 | `Test Suite` is unchanged by every line except a title line or a review heading. An invariant of `Step` over all lines. |
| `TestPlanParser.SuiteIdLine` | test/testplans/test2json.py:34-36 | `**ID**: ` sets the current suite's `ID`, and does nothing when there is no current suite. Partner of `Step`, through `ClassifyByPrefix`. |
| `TestPlanParser.CaseHeadingLine` | test/testplans/test2json.py:37-43 | A `### ` line that is not `### Test Cases` makes a new current case: its name is the stripped rest, and its type and description are `None`. Partner of `Step`, through `ClassifyByPrefix`. |
| `TestPlanParser.TestTypeLineSets` | test/testplans/test2json.py:44-51 | With a current case, a line with a comma sets the type to the list of stripped parts (at least two, none containing a comma). A line without one sets the stripped rest. Without a current case nothing changes. Partner of `Step` and `TestTypeOf`, through `ClassifyTestType` and `TestTypeSeveral`. |
| `TestPlanParser.TestTypeSeveral` | test/testplans/test2json.py:46-49 | `TestTypeOf` on a comma line gives a list of at least two names, none containing a comma. Partner of `TestTypeOf`, through `SplitAtLeastTwo` and `Split`'s contract. |
| `TestPlanParser.TestTypeNamesStripped` | test/testplans/test2json.py:48-51 | Every name `TestTypeOf` gives is its own strip: no white space at either end. Partner of `TestTypeOf`, through `StripIdempotent`. |
| `TestPlanParser.TestDescriptionLineAppends` | test/testplans/test2json.py:52-55 | With a current case, sets its description and appends it to the current suite's cases, or crashes when there is no current suite. Without a current case nothing changes. Partner of `Step`, through `ClassifyByPrefix`. |
| `TestPlanParser.CasesAppendedOnlyAtTestDescription` | test/testplans/test2json.py:21-55 | No other line changes any suite's case list or removes a suite. An invariant of `Step` over all lines. |
| `TestPlanParser.UnrecognisedLineNoop` | test/testplans/test2json.py:21-55 | A line matching no prefix, or starting with `### Test Cases`, leaves the whole state unchanged. Partner of `Step`, through `ClassifyByPrefix`. |
| `TestPlanParser.AppendedSuiteStaysShared` | test/testplans/test2json.py:29-36 | After a review heading appends the current suite, a following `**ID**: ` line changes the entry just appended, because it is the same record. Partner of `Render` and `Step`: aliasing through arena indices. |
| `TestPlanParser.AppendedCaseStaysShared` | test/testplans/test2json.py:44-55 | After a test description appends the current case, a following `**Test Type**: ` line changes the entry just appended, because it is the same record. Partner of `Render` and `Step`: aliasing through arena indices. |
| `TestPlanParser.CrashIsFinal` | test/testplans/test2json.py:21-55 | Once a prefix of the lines crashes, any continuation crashes with the same error. Partner of `ParseLines`, through `CrashOfPrefix`. |
| `TestPlanParser.CrashOfPrefix` | test/testplans/test2json.py:21-55 | When the first `n` lines crash, all the lines crash with that same crash. Partner of `ParseLines`, by induction. |
| `TestPlanParser.TestCase.constructor` | test/testplans/test2json.py:39-43 | A new case record has the given name and `None` type and description. Partner: `CaseHeadingLine` gives the same new case in the specification. |
| `TestPlanParser.TestCase.SetTestTypes` | test/testplans/test2json.py:47-49 | Resets `Test Type` to a list and appends each part stripped; afterwards it is the list of stripped parts. Only that field changes. Partner: the specification function `StripAll`, which its contract equates it to. |
| `TestPlanParser.TestSuite.constructor` | test/testplans/test2json.py:33 | A new suite record has no `ID` and an empty `Test Cases` list. Partner: `SuiteHeadingLine` gives the same new suite in the specification. |
| `TestPlanParser.PlanData.constructor` | test/testplans/test2json.py:16 | The top-level record starts with no key set. Partner: the initial state `Initial`, which `ParseMarkdown` establishes `Mirrors` for. |
| `TestPlanParser.ApplyTitle` | test/testplans/test2json.py:22-24 | The title branch sets `name` and resets `Test Suite` to an empty list, as `Step` says. Partner: the invariant `Mirrors` against `StepKind`. |
| `TestPlanParser.ApplyUcId` | test/testplans/test2json.py:25-26 | The UC ID branch sets the top-level `ID`, as `Step` says. Partner: the invariant `Mirrors` against `StepKind`. |
| `TestPlanParser.ApplyDescription` | test/testplans/test2json.py:27-28 | The description branch sets the top-level `Description`, as `Step` says. Partner: the invariant `Mirrors` against `StepKind`. |
| `TestPlanParser.ApplyReview` | test/testplans/test2json.py:30-31 | The review branch appends the current suite record to `Test Suite` as `Step` says. Partner: the invariant `Mirrors` against `StepKind`. |
| `TestPlanParser.ApplyNewSuite` | test/testplans/test2json.py:32-33 | The other `## ` branch allocates a fresh suite record, which becomes current. Partner: the invariant `Mirrors` against `StepKind`. |
| `TestPlanParser.ApplySuiteId` | test/testplans/test2json.py:34-36 | The ID branch sets the current suite record's `ID` when one exists. Partner: the invariant `Mirrors` against `StepKind`. |
| `TestPlanParser.ApplyNewCase` | test/testplans/test2json.py:38-43 | The `### ` branch allocates a fresh case record, which becomes current. Partner: the invariant `Mirrors` against `StepKind`. |
| `TestPlanParser.ApplyTestType` | test/testplans/test2json.py:44-51 | The test-type branch sets the current case record's type when one exists. Partner: the invariant `Mirrors` against `StepKind`, through `TestCase.SetTestTypes`. |
| `TestPlanParser.WithCaseDescription` | test/testplans/test2json.py:54 | Only the current case's description changes. Every arena entry, index and the record stay as they were. Partner: `TestDescriptionStep` composes it into `StepKind`. |
| `TestPlanParser.WithCaseAppended` | test/testplans/test2json.py:55 | Only the current suite's case list changes, by the current case's index at its end. Partner: `TestDescriptionStep` composes it into `StepKind`. |
| `TestPlanParser.TestDescriptionStep` | test/testplans/test2json.py:52-55 | With a current case and suite, a test description line is the description update followed by the append. Relates `StepKind` to `WithCaseDescription` and `WithCaseAppended`. |
| `TestPlanParser.SetCaseDescription` | test/testplans/test2json.py:54 | Writes the description into the current case record, which is the state `WithCaseDescription` gives. Partner: the invariant `Mirrors` against `WithCaseDescription`. |
| `TestPlanParser.AppendCase` | test/testplans/test2json.py:55 | Appends the current case record to the current suite record, which is the state `WithCaseAppended` gives. Partner: the invariant `Mirrors` against `WithCaseAppended`. |
| `TestPlanParser.ApplyTestDescription` | test/testplans/test2json.py:52-55 | The description branch sets the case's description and appends the case record to the current suite record. Partner: the invariant `Mirrors` against `StepKind`, through `TestDescriptionStep`. |
| `TestPlanParser.ApplyLine` | test/testplans/test2json.py:22-55 | One pass through the `if`/`elif` chain. It reports a crash exactly when `StepKind` fails, with the same crash. Otherwise the records stand for the state `StepKind` gives, and every record is old or new. Partner: the invariant `Mirrors` against `StepKind`. |
| `TestPlanParser.ParseMarkdown` | test/testplans/test2json.py:16-56 | The converter's loop. On success the mutated record serialises to `ParsePlan(content)`. On a crash it reports the same crash as `ParsePlan`. Partner: the specification `ParsePlan`, through the loop invariant `Mirrors` and `MirrorsRender`. |

## Left out

- Reading the file (`open`/`read`), `process_files` with its directory listing, and the JSON output: they are file-system and serialisation I/O. `ParseMarkdown` takes the file content as a string.
- `ParseMarkdown`: on a crash it returns the partly updated record beside the crash, and its contract says nothing about that record. Python raises instead and returns nothing.
- `Strings.IsSpace` is the fixed list of code points that Python's `str.isspace` accepts. It is written out by hand, not taken from a Unicode database.
- `AggregateProperties.Capitalize` is the model's own device. `properties.go` writes the suffixes `Sum`, `Minimum`, ... as literals in each format string, and the model derives them from the operation name. It upper-cases only an ASCII first letter, which covers every operation name.
- The text of the `descriptions` constants is not part of this model. Each constant is an opaque `Description` value.
- The exact `fmt.Errorf` texts are left out. An error carries the operation or field name and the source's Go type name.
- The `graphql` library is modelled as plain datatypes: `GraphQLObject`, `Field`, the scalar and list types. A resolver is applied to `p.Source` alone, the only part of `ResolveParams` the closures read. Go's open-ended `interface{}` values are a closed `Value` datatype.
- `aggregation.Property` is modelled by its `NumericalAggregations` map (`map[string]float64`, as a map of reals) only, because no other field is read here. Float rounding is not modelled.
- The caller that picks the numeric or non-numeric builder for a property, and assembles the per-class query type, is not part of this model.
- `test/benchmark_tenants/main.go` (HTTP benchmark client) and `adapters/handlers/rest/operations/actions/actions_references_update.go` (generated HTTP handler) are not part of this model.

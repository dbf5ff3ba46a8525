/**
 * The aggregate part of the local GraphQL API: for one class and one of its
 * properties, the object type whose fields expose the aggregations legal for
 * that property, the per-class "grouped by" object, and the resolvers that
 * pull a field's value out of whatever source value the query engine hands
 * over (a typed aggregation record or a generic map).
 *
 * GraphQL objects, fields and types are plain datatypes here; a field's
 * resolver closure is named by a `Resolver` value and applied by `Resolve`.
 */
module AggregateProperties {
  import opened Wrappers

  /** The part of a schema class the builders read: its name (`class.Class`). */
  datatype ClassDef = ClassDef(className: string)

  /** The part of a schema property the builders read: its name. */
  datatype PropertyDef = PropertyDef(name: string)

  /** The GraphQL output types the builders use. */
  datatype OutputType = Float | Int | String | List(of: OutputType)

  /** The documentation strings of the descriptions package, by name; their text is not part of this model. */
  datatype Description =
    | LocalAggregateSum | LocalAggregateMin | LocalAggregateMax | LocalAggregateMean
    | LocalAggregateMode | LocalAggregateMedian | LocalAggregateCount
    | LocalAggregatePropertyObject
    | LocalAggregateGroupedByGroupedByPath | LocalAggregateGroupedByGroupedByValue
    | LocalAggregateGroupedByObj

  /** The two fields of a grouped-by object. */
  datatype GroupedByKey = GroupedByPath | GroupedByValue

  /** Which closure resolves a field: an aggregator for one operation, or a grouped-by field. */
  datatype Resolver = FieldAggregator(aggregator: string) | GroupedByResolver(key: GroupedByKey)

  /** A GraphQL field; `name` is "" where the source leaves `Name` unset. */
  datatype Field = Field(name: string, description: Description, ty: OutputType, resolve: Resolver)

  /** A GraphQL object type with its fields keyed by field name. */
  datatype GraphQLObject = GraphQLObject(name: string, fields: map<string, Field>, description: Description)

  /** A dynamically typed value as a resolver returns it; `Nil` is Go's nil interface. */
  datatype Value = Nil | Number(n: real) | Text(s: string) | TextList(items: seq<string>) | Opaque(typeName: string)

  /**
   * The source value a resolver is given: a typed `aggregation.Property`
   * (only its `NumericalAggregations` map is read), a typed
   * `aggregation.GroupedBy`, a generic `map[string]interface{}`, or a value
   * of any other Go type, named by its type.
   */
  datatype Source =
    | PropertySource(numericalAggregations: map<string, real>)
    | GroupedBySource(path: seq<string>, value: string)
    | MapSource(entries: map<string, Value>)
    | OtherSource(typeName: string)

  /** A resolver's error: the field it speaks for and the type of the source it could not use. */
  datatype ResolveError =
    | UnsupportedAggregatorSource(aggregator: string, sourceType: string)
    | UnsupportedGroupedBySource(field: string, sourceType: string)

  /** The seven operations a numeric property exposes. */
  const NumericAggregators: set<string> := {"sum", "minimum", "maximum", "mean", "mode", "median", "count"}

  /** Go's `%T` of a source value. */
  function TypeName(src: Source): string {
    match src
    case PropertySource(_) => "aggregation.Property"
    case GroupedBySource(_, _) => "aggregation.GroupedBy"
    case MapSource(_) => "map[string]interface {}"
    case OtherSource(t) => t
  }

  /** Go's `m[k]` on a `map[string]interface{}`: nil when the key is missing. */
  function Lookup(m: map<string, Value>, k: string): Value {
    if k in m then m[k] else Nil
  }

  // ---------------------------------------------------------------------
  // Resolvers
  // ---------------------------------------------------------------------

  /**
   * The closure `makeResolveFieldAggregator(aggregator)` returns, applied to
   * `src`. A typed record gives its numerical aggregation for the operation,
   * 0 (the zero float) when the operation is missing; a generic map gives
   * its entry, nil when missing; every other source is an error naming the
   * operation and the source's type. A missing key is never an error.
   */
  function ResolveFieldAggregator(aggregator: string, src: Source): (r: Result<Value, ResolveError>)
    ensures r.Failure? <==> !(src.PropertySource? || src.MapSource?)
    ensures r.Failure? ==> r.error == UnsupportedAggregatorSource(aggregator, TypeName(src))
    ensures src.PropertySource? ==>
      r == Success(Number(if aggregator in src.numericalAggregations then src.numericalAggregations[aggregator] else 0.0))
    ensures src.MapSource? ==>
      r == Success(if aggregator in src.entries then src.entries[aggregator] else Nil)
  {
    match src
    case PropertySource(nums) =>
      Success(Number(if aggregator in nums then nums[aggregator] else 0.0))
    case MapSource(m) => Success(Lookup(m, aggregator))
    case _ => Failure(UnsupportedAggregatorSource(aggregator, TypeName(src)))
  }

  /** The key a grouped-by field has in a generic map, and in error messages. */
  function KeyName(key: GroupedByKey): string {
    match key
    case GroupedByPath => "path"
    case GroupedByValue => "value"
  }

  /**
   * The `path` and `value` resolvers of the grouped-by object, applied to
   * `src`: a typed `GroupedBy` gives its `Path` or `Value`, a generic map its
   * `"path"` or `"value"` entry (nil when missing), and every other source is
   * an error naming the field and the source's type.
   */
  function ResolveGroupedBy(key: GroupedByKey, src: Source): (r: Result<Value, ResolveError>)
    ensures r.Failure? <==> !(src.GroupedBySource? || src.MapSource?)
    ensures r.Failure? ==> r.error == UnsupportedGroupedBySource(KeyName(key), TypeName(src))
    ensures src.GroupedBySource? ==>
      r == Success(if key == GroupedByPath then TextList(src.path) else Text(src.value))
    ensures src.MapSource? ==>
      r == Success(if KeyName(key) in src.entries then src.entries[KeyName(key)] else Nil)
  {
    match src
    case GroupedBySource(path, value) =>
      Success(match key case GroupedByPath => TextList(path) case GroupedByValue => Text(value))
    case MapSource(m) => Success(Lookup(m, KeyName(key)))
    case _ => Failure(UnsupportedGroupedBySource(KeyName(key), TypeName(src)))
  }

  /** Reading a Go map: a key that was never stored gives nil, a key just stored gives its value, and storing leaves the other keys alone. */
  lemma LookupLaws(m: map<string, Value>, k: string, v: Value, k2: string)
    ensures Lookup(map[], k) == Nil
    ensures Lookup(m[k := v], k) == v
    ensures k2 != k ==> Lookup(m[k := v], k2) == Lookup(m, k2)
  {
  }

  /**
   * A source a Go program can actually pass: a value of any other type
   * never carries the name of one of the three types the type switches
   * handle.
   */
  predicate RealSource(src: Source) {
    src.OtherSource? ==>
      src.typeName != "aggregation.Property" && src.typeName != "aggregation.GroupedBy"
      && src.typeName != "map[string]interface {}"
  }

  /**
   * The `%T` in a resolver's error is the Go type of the source that was
   * refused: a grouped-by record handed to an aggregator, a typed
   * aggregation record handed to a grouped-by field, or the type of any
   * other value. For a real source the error therefore never names a type
   * the resolver accepts.
   */
  lemma ErrorSourceTypes(op: string, key: GroupedByKey, src: Source)
    ensures ResolveFieldAggregator(op, src).Failure? ==>
      ResolveFieldAggregator(op, src).error.sourceType == (if src.GroupedBySource? then "aggregation.GroupedBy" else src.typeName)
    ensures ResolveGroupedBy(key, src).Failure? ==>
      ResolveGroupedBy(key, src).error.sourceType == (if src.PropertySource? then "aggregation.Property" else src.typeName)
    ensures RealSource(src) && ResolveFieldAggregator(op, src).Failure? ==>
      var t := ResolveFieldAggregator(op, src).error.sourceType;
      t != "aggregation.Property" && t != "map[string]interface {}"
    ensures RealSource(src) && ResolveGroupedBy(key, src).Failure? ==>
      var t := ResolveGroupedBy(key, src).error.sourceType;
      t != "aggregation.GroupedBy" && t != "map[string]interface {}"
  {
  }

  /** Runs the closure a field's `Resolve` names. */
  function Resolve(res: Resolver, src: Source): Result<Value, ResolveError> {
    match res
    case FieldAggregator(op) => ResolveFieldAggregator(op, src)
    case GroupedByResolver(key) => ResolveGroupedBy(key, src)
  }

  // ---------------------------------------------------------------------
  // Builders
  // ---------------------------------------------------------------------

  /** `s` with its first letter upper-cased (ASCII), as in the field-name suffixes `Sum`, `Minimum`, ... */
  function Capitalize(s: string): string {
    if s == [] then s
    else if 'a' <= s[0] <= 'z' then [(s[0] as int - 32) as char] + s[1..]
    else s
  }

  /** The description constant of an operation's field: `LocalAggregateSum` for `sum`, and so on. */
  function OperationDescription(k: string): Description {
    match k
    case "sum" => LocalAggregateSum
    case "minimum" => LocalAggregateMin
    case "maximum" => LocalAggregateMax
    case "mean" => LocalAggregateMean
    case "mode" => LocalAggregateMode
    case "median" => LocalAggregateMedian
    case _ => LocalAggregateCount
  }

  /**
   * `numericPropertyFields`: the object `<prefix><Class><property>Obj` with
   * exactly the seven operations as fields; the field of operation `k` is
   * named `<prefix><Class><property>` followed by `k` capitalised, resolves
   * with the aggregator for `k`, and is an Int for `count` and a Float
   * otherwise.
   */
  function NumericPropertyFields(c: ClassDef, p: PropertyDef, prefix: string): (o: GraphQLObject)
    ensures o.name == prefix + c.className + p.name + "Obj"
    ensures o.description == LocalAggregatePropertyObject
    ensures o.fields.Keys == NumericAggregators
    ensures forall k :: k in o.fields ==>
      o.fields[k].name == prefix + c.className + p.name + Capitalize(k)
      && o.fields[k].resolve == FieldAggregator(k)
      && o.fields[k].ty == (if k == "count" then Int else Float)
      && o.fields[k].description == OperationDescription(k)
  {
    var base := prefix + c.className + p.name;
    assert Capitalize("sum") == "Sum" && Capitalize("minimum") == "Minimum"
      && Capitalize("maximum") == "Maximum" && Capitalize("mean") == "Mean"
      && Capitalize("mode") == "Mode" && Capitalize("median") == "Median"
      && Capitalize("count") == "Count";
    GraphQLObject(
      base + "Obj",
      map[
        "sum" := Field(base + "Sum", LocalAggregateSum, Float, FieldAggregator("sum")),
        "minimum" := Field(base + "Minimum", LocalAggregateMin, Float, FieldAggregator("minimum")),
        "maximum" := Field(base + "Maximum", LocalAggregateMax, Float, FieldAggregator("maximum")),
        "mean" := Field(base + "Mean", LocalAggregateMean, Float, FieldAggregator("mean")),
        "mode" := Field(base + "Mode", LocalAggregateMode, Float, FieldAggregator("mode")),
        "median" := Field(base + "Median", LocalAggregateMedian, Float, FieldAggregator("median")),
        "count" := Field(base + "Count", LocalAggregateCount, Int, FieldAggregator("count"))
      ],
      LocalAggregatePropertyObject)
  }

  /**
   * `nonNumericPropertyFields`: the object `<prefix><Class><property>Obj`
   * with the single Int field `count`, which resolves with the `count`
   * aggregator and is named `<prefix><Class>Count`, leaving the property
   * name out.
   */
  function NonNumericPropertyFields(c: ClassDef, p: PropertyDef, prefix: string): (o: GraphQLObject)
    ensures o.name == prefix + c.className + p.name + "Obj"
    ensures o.description == LocalAggregatePropertyObject
    ensures o.fields.Keys == {"count"}
    ensures o.fields["count"].name == prefix + c.className + Capitalize("count")
    ensures o.fields["count"].ty == Int && o.fields["count"].resolve == FieldAggregator("count")
    ensures o.fields["count"].description == LocalAggregateCount
  {
    GraphQLObject(
      prefix + c.className + p.name + "Obj",
      map["count" := Field(prefix + c.className + "Count", LocalAggregateCount, Int, FieldAggregator("count"))],
      LocalAggregatePropertyObject)
  }

  /**
   * `groupedByProperty`: the object `LocalAggregate<Class>GroupedByObj` with
   * exactly the fields `path`, a list of strings, and `value`, a string,
   * each resolved by the grouped-by resolver of the same key; neither field
   * has a name of its own.
   */
  function GroupedByProperty(c: ClassDef): (o: GraphQLObject)
    ensures o.name == "LocalAggregate" + c.className + "GroupedByObj"
    ensures o.description == LocalAggregateGroupedByObj
    ensures o.fields.Keys == {KeyName(GroupedByPath), KeyName(GroupedByValue)}
    ensures forall key: GroupedByKey ::
      && KeyName(key) in o.fields
      && o.fields[KeyName(key)].resolve == GroupedByResolver(key)
      && o.fields[KeyName(key)].name == ""
      && o.fields[KeyName(key)].ty == (if key == GroupedByPath then List(String) else String)
      && o.fields[KeyName(key)].description ==
           (if key == GroupedByPath then LocalAggregateGroupedByGroupedByPath else LocalAggregateGroupedByGroupedByValue)
  {
    GraphQLObject(
      "LocalAggregate" + c.className + "GroupedByObj",
      map[
        "path" := Field("", LocalAggregateGroupedByGroupedByPath, List(String), GroupedByResolver(GroupedByPath)),
        "value" := Field("", LocalAggregateGroupedByGroupedByValue, String, GroupedByResolver(GroupedByValue))
      ],
      LocalAggregateGroupedByObj)
  }

  // ---------------------------------------------------------------------
  // Field and object names
  // ---------------------------------------------------------------------

  /** A word made of lower-case ASCII letters, like every operation name. */
  predicate LowerWord(s: string) {
    |s| >= 1 && forall i :: 0 <= i < |s| ==> 'a' <= s[i] <= 'z'
  }

  /** A capitalised word: upper-case ASCII first, no upper-case letter after it. */
  predicate CamelWord(s: string) {
    |s| >= 1 && 'A' <= s[0] <= 'Z' && forall i :: 1 <= i < |s| ==> !('A' <= s[i] <= 'Z')
  }

  /** Capitalising a lower-case word gives a capitalised word, and different words stay different. */
  lemma CapitalizeLowerWord(k1: string, k2: string)
    requires LowerWord(k1) && LowerWord(k2)
    ensures CamelWord(Capitalize(k1))
    ensures Capitalize(k1) == Capitalize(k2) ==> k1 == k2
  {
    if Capitalize(k1) == Capitalize(k2) {
      assert Capitalize(k1)[1..] == k1[1..];
      assert Capitalize(k2)[1..] == k2[1..];
      assert k1 == [k1[0]] + k1[1..];
      assert k2 == [k2[0]] + k2[1..];
    }
  }

  /**
   * A name ending in a capitalised word determines both that word and what
   * comes before it: `x1 + s1 == x2 + s2` forces `x1 == x2` and `s1 == s2`.
   */
  lemma CamelSuffixInjective(x1: string, s1: string, x2: string, s2: string)
    requires CamelWord(s1) && CamelWord(s2)
    requires x1 + s1 == x2 + s2
    ensures x1 == x2 && s1 == s2
  {
    var w := x1 + s1;
    assert x1 == w[..|x1|] && x2 == w[..|x2|];
    assert s1 == w[|x1|..] && s2 == w[|x2|..];
  }

  /** Names ending in different capitalised words are different. */
  lemma CamelSuffixDistinct(x1: string, s1: string, x2: string, s2: string)
    requires CamelWord(s1) && CamelWord(s2) && s1 != s2
    ensures x1 + s1 != x2 + s2
  {
    if x1 + s1 == x2 + s2 {
      CamelSuffixInjective(x1, s1, x2, s2);
    }
  }

  /** All seven operation names are lower-case words, and none is `obj`. */
  lemma NumericAggregatorsAreLowerWords()
    ensures forall k :: k in NumericAggregators ==> LowerWord(k) && k != "obj"
  {
    assert LowerWord("sum") && LowerWord("minimum") && LowerWord("maximum") && LowerWord("mean");
    assert LowerWord("mode") && LowerWord("median") && LowerWord("count");
  }

  /** Names made of a stem and a capitalised operation determine stem and operation. */
  lemma OperationNamesInjective(b1: string, k1: string, b2: string, k2: string)
    requires LowerWord(k1) && LowerWord(k2)
    requires b1 + Capitalize(k1) == b2 + Capitalize(k2)
    ensures b1 == b2 && k1 == k2
  {
    CapitalizeLowerWord(k1, k2);
    CapitalizeLowerWord(k2, k1);
    CamelSuffixInjective(b1, Capitalize(k1), b2, Capitalize(k2));
  }

  /** A stem and a capitalised operation other than `obj` never spell an object name. */
  lemma OperationNameIsNotObjectName(b1: string, k: string, b2: string)
    requires LowerWord(k) && k != "obj"
    ensures b1 + Capitalize(k) != b2 + "Obj"
  {
    assert LowerWord("obj") && Capitalize("obj") == "Obj" && CamelWord("Obj");
    CapitalizeLowerWord(k, "obj");
    CamelSuffixDistinct(b1, Capitalize(k), b2, "Obj");
  }

  /**
   * Within one numeric object the seven field names are pairwise distinct,
   * and none of them is the object's own name.
   */
  lemma NumericFieldNamesDistinct(c: ClassDef, p: PropertyDef, prefix: string)
    ensures var o := NumericPropertyFields(c, p, prefix);
      && (forall k1, k2 :: k1 in o.fields && k2 in o.fields && k1 != k2 ==> o.fields[k1].name != o.fields[k2].name)
      && (forall k :: k in o.fields ==> o.fields[k].name != o.name)
  {
    var o := NumericPropertyFields(c, p, prefix);
    var base := prefix + c.className + p.name;
    NumericAggregatorsAreLowerWords();
    forall k1, k2 | k1 in o.fields && k2 in o.fields && o.fields[k1].name == o.fields[k2].name
      ensures k1 == k2
    {
      OperationNamesInjective(base, k1, base, k2);
    }
    forall k | k in o.fields
      ensures o.fields[k].name != o.name
    {
      OperationNameIsNotObjectName(base, k, base);
    }
  }

  /** Names of the fields of an object with the given stem, one per operation in `ops`. */
  ghost predicate NamedAfterStem(o: GraphQLObject, stem: string, ops: set<string>) {
    && o.name == stem + "Obj"
    && o.fields.Keys == ops
    && (forall k :: k in ops ==> LowerWord(k) && k != "obj")
    && (forall k :: k in o.fields ==> o.fields[k].name == stem + Capitalize(k))
  }

  /** Objects named after different stems share no field or object name. */
  lemma DifferentStemsDisjoint(o1: GraphQLObject, b1: string, o2: GraphQLObject, b2: string, ops: set<string>)
    requires NamedAfterStem(o1, b1, ops) && NamedAfterStem(o2, b2, ops)
    requires b1 != b2
    ensures o1.name != o2.name
    ensures forall k1, k2 :: k1 in o1.fields && k2 in o2.fields ==> o1.fields[k1].name != o2.fields[k2].name
    ensures forall k :: k in o1.fields ==> o1.fields[k].name != o2.name
    ensures forall k :: k in o2.fields ==> o2.fields[k].name != o1.name
  {
    assert CamelWord("Obj");
    if o1.name == o2.name {
      CamelSuffixInjective(b1, "Obj", b2, "Obj");
    }
    forall k1, k2 | k1 in o1.fields && k2 in o2.fields
      ensures o1.fields[k1].name != o2.fields[k2].name
    {
      if o1.fields[k1].name == o2.fields[k2].name {
        OperationNamesInjective(b1, k1, b2, k2);
      }
    }
    forall k | k in o1.fields
      ensures o1.fields[k].name != o2.name
    {
      OperationNameIsNotObjectName(b1, k, b2);
    }
    forall k | k in o2.fields
      ensures o2.fields[k].name != o1.name
    {
      OperationNameIsNotObjectName(b2, k, b1);
    }
  }

  /** Prefix, class name and property name, concatenated, determine class name followed by property name. */
  lemma StemsEqual(c1: ClassDef, p1: PropertyDef, c2: ClassDef, p2: PropertyDef, prefix: string)
    ensures prefix + c1.className + p1.name == prefix + c2.className + p2.name
        <==> c1.className + p1.name == c2.className + p2.name
  {
    var b1, b2 := prefix + c1.className + p1.name, prefix + c2.className + p2.name;
    assert b1 == prefix + (c1.className + p1.name) && b2 == prefix + (c2.className + p2.name);
    if b1 == b2 {
      assert b1[|prefix|..] == c1.className + p1.name;
      assert b2[|prefix|..] == c2.className + p2.name;
    }
  }

  /**
   * Two numeric objects (for the same prefix) share their object name exactly
   * when class name followed by property name is the same string. The names
   * are plain concatenations, so a different (class, property) pair is not
   * sufficient on its own.
   */
  lemma NumericObjectNamesAcrossProperties(c1: ClassDef, p1: PropertyDef, c2: ClassDef, p2: PropertyDef, prefix: string)
    ensures NumericPropertyFields(c1, p1, prefix).name == NumericPropertyFields(c2, p2, prefix).name
        <==> c1.className + p1.name == c2.className + p2.name
  {
    var b1, b2 := prefix + c1.className + p1.name, prefix + c2.className + p2.name;
    StemsEqual(c1, p1, c2, p2, prefix);
    assert CamelWord("Obj");
    if b1 + "Obj" == b2 + "Obj" {
      CamelSuffixInjective(b1, "Obj", b2, "Obj");
    }
  }

  /**
   * When class name followed by property name differs, no field or object
   * name of the one numeric object is a field or object name of the other.
   */
  lemma NumericFieldNamesAcrossProperties(c1: ClassDef, p1: PropertyDef, c2: ClassDef, p2: PropertyDef, prefix: string)
    requires c1.className + p1.name != c2.className + p2.name
    ensures var o1, o2 := NumericPropertyFields(c1, p1, prefix), NumericPropertyFields(c2, p2, prefix);
      && (forall k1, k2 :: k1 in o1.fields && k2 in o2.fields ==> o1.fields[k1].name != o2.fields[k2].name)
      && (forall k :: k in o1.fields ==> o1.fields[k].name != o2.name)
      && (forall k :: k in o2.fields ==> o2.fields[k].name != o1.name)
  {
    var o1, o2 := NumericPropertyFields(c1, p1, prefix), NumericPropertyFields(c2, p2, prefix);
    var b1, b2 := prefix + c1.className + p1.name, prefix + c2.className + p2.name;
    StemsEqual(c1, p1, c2, p2, prefix);
    NumericAggregatorsAreLowerWords();
    assert NamedAfterStem(o1, b1, NumericAggregators);
    assert NamedAfterStem(o2, b2, NumericAggregators);
    DifferentStemsDisjoint(o1, b1, o2, b2, NumericAggregators);
  }

  /** Class `Ab` with property `c` and class `A` with property `bc` get the same numeric object. */
  lemma NumericNamesCollide()
    ensures NumericPropertyFields(ClassDef("Ab"), PropertyDef("c"), "Meta")
         == NumericPropertyFields(ClassDef("A"), PropertyDef("bc"), "Meta")
  {
    assert "Meta" + "Ab" + "c" == "Meta" + "A" + "bc";
  }

  /**
   * The non-numeric `count` field is named after the class alone: two
   * properties of one class get the same `count` field name, while their
   * object names differ exactly when the property names do; within one
   * object the field name is never the object name.
   */
  lemma NonNumericNames(c: ClassDef, p1: PropertyDef, p2: PropertyDef, prefix: string)
    ensures var o1, o2 := NonNumericPropertyFields(c, p1, prefix), NonNumericPropertyFields(c, p2, prefix);
      && o1.fields["count"].name == o2.fields["count"].name
      && (o1.name == o2.name <==> p1 == p2)
      && o1.fields["count"].name != o1.name
  {
    var o1, o2 := NonNumericPropertyFields(c, p1, prefix), NonNumericPropertyFields(c, p2, prefix);
    var x := prefix + c.className;
    assert CamelWord("Obj") && CamelWord("Count");
    if o1.name == o2.name {
      CamelSuffixInjective(x + p1.name, "Obj", x + p2.name, "Obj");
      assert (x + p1.name)[|x|..] == p1.name;
      assert (x + p2.name)[|x|..] == p2.name;
    }
    if o1.fields["count"].name == o1.name {
      CamelSuffixInjective(x, "Count", x + p1.name, "Obj");
    }
  }

  /** Both builders give the same object name for the same property: the caller builds one or the other. */
  lemma PropertyObjectNameIndependentOfKind(c: ClassDef, p: PropertyDef, prefix: string)
    ensures NumericPropertyFields(c, p, prefix).name == NonNumericPropertyFields(c, p, prefix).name
  {
  }

  /** The grouped-by object names of two classes are equal exactly when the class names are. */
  lemma GroupedByNamesUnique(c1: ClassDef, c2: ClassDef)
    ensures GroupedByProperty(c1).name == GroupedByProperty(c2).name <==> c1 == c2
  {
    var n1, n2 := GroupedByProperty(c1).name, GroupedByProperty(c2).name;
    var lead := "LocalAggregate";
    if n1 == n2 {
      assert n1[|lead|..|n1| - |"GroupedByObj"|] == c1.className;
      assert n2[|lead|..|n2| - |"GroupedByObj"|] == c2.className;
    }
  }

  // Names across builders. Every name is a plain concatenation, so the
  // builders can also meet each other.

  /**
   * A numeric field name equals a non-numeric `count` field name exactly
   * when the numeric field is `count` and the numeric object's class name
   * followed by its property name is the other class's name.
   */
  lemma NumericFieldVersusCount(c1: ClassDef, p1: PropertyDef, k: string, c2: ClassDef, p2: PropertyDef, prefix: string)
    requires k in NumericAggregators
    ensures NumericPropertyFields(c1, p1, prefix).fields[k].name == NonNumericPropertyFields(c2, p2, prefix).fields["count"].name
        <==> k == "count" && c1.className + p1.name == c2.className
  {
    var b1, b2 := prefix + c1.className + p1.name, prefix + c2.className;
    assert b1 == prefix + (c1.className + p1.name);
    NumericAggregatorsAreLowerWords();
    assert LowerWord("count") && Capitalize("count") == "Count";
    if b1 + Capitalize(k) == b2 + Capitalize("count") {
      OperationNamesInjective(b1, k, b2, "count");
      assert b1[|prefix|..] == c1.className + p1.name;
      assert b2[|prefix|..] == c2.className;
    }
  }

  /**
   * Non-numeric `count` field names of two classes are equal exactly when
   * the classes are, and such a name is never the name of a property object.
   */
  lemma CountNamesAcrossClasses(c1: ClassDef, p1: PropertyDef, c2: ClassDef, p2: PropertyDef, prefix: string)
    ensures NonNumericPropertyFields(c1, p1, prefix).fields["count"].name == NonNumericPropertyFields(c2, p2, prefix).fields["count"].name
        <==> c1 == c2
    ensures NonNumericPropertyFields(c1, p1, prefix).fields["count"].name != NumericPropertyFields(c2, p2, prefix).name
  {
    var b1, b2 := prefix + c1.className, prefix + c2.className;
    assert CamelWord("Count") && CamelWord("Obj");
    if b1 + "Count" == b2 + "Count" {
      CamelSuffixInjective(b1, "Count", b2, "Count");
      assert b1[|prefix|..] == c1.className;
      assert b2[|prefix|..] == c2.className;
    }
    CamelSuffixDistinct(b1, "Count", prefix + c2.className + p2.name, "Obj");
  }

  /**
   * A property object (numeric or not) has the name of a grouped-by object
   * exactly when prefix, class name and property name spell
   * `LocalAggregate<Class>GroupedBy` for the grouped-by class.
   */
  lemma PropertyObjectVersusGroupedBy(c1: ClassDef, p: PropertyDef, prefix: string, c2: ClassDef)
    ensures NumericPropertyFields(c1, p, prefix).name == GroupedByProperty(c2).name
        <==> prefix + c1.className + p.name == "LocalAggregate" + c2.className + "GroupedBy"
    ensures NonNumericPropertyFields(c1, p, prefix).name == GroupedByProperty(c2).name
        <==> prefix + c1.className + p.name == "LocalAggregate" + c2.className + "GroupedBy"
  {
    var b1, b2 := prefix + c1.className + p.name, "LocalAggregate" + c2.className + "GroupedBy";
    assert GroupedByProperty(c2).name == b2 + "Obj";
    assert CamelWord("Obj");
    if b1 + "Obj" == b2 + "Obj" {
      CamelSuffixInjective(b1, "Obj", b2, "Obj");
    }
  }

  /**
   * No numeric field name and no non-numeric `count` field name is the name
   * of a grouped-by object: they end in an operation word, it ends in `Obj`.
   */
  lemma FieldNamesAreNotGroupedByNames(c1: ClassDef, p1: PropertyDef, k: string, p2: PropertyDef, prefix: string, c2: ClassDef)
    requires k in NumericAggregators
    ensures NumericPropertyFields(c1, p1, prefix).fields[k].name != GroupedByProperty(c2).name
    ensures NonNumericPropertyFields(c1, p2, prefix).fields["count"].name != GroupedByProperty(c2).name
  {
    var g := "LocalAggregate" + c2.className + "GroupedBy";
    assert GroupedByProperty(c2).name == g + "Obj";
    NumericAggregatorsAreLowerWords();
    assert Capitalize("count") == "Count";
    OperationNameIsNotObjectName(prefix + c1.className + p1.name, k, g);
    OperationNameIsNotObjectName(prefix + c1.className, "count", g);
  }

  /**
   * Two collisions across builders: the numeric `count` field of class `A`,
   * property `b` is the non-numeric `count` field of class `Ab`; and a
   * property `GroupedBy` under the prefix `LocalAggregate` names its object
   * like the class's grouped-by object.
   */
  lemma CrossBuilderNamesCollide()
    ensures NumericPropertyFields(ClassDef("A"), PropertyDef("b"), "Meta").fields["count"].name
         == NonNumericPropertyFields(ClassDef("Ab"), PropertyDef("x"), "Meta").fields["count"].name
    ensures GroupedByProperty(ClassDef("A")).name
         == NumericPropertyFields(ClassDef("A"), PropertyDef("GroupedBy"), "LocalAggregate").name
  {
    assert "Meta" + "A" + "b" + "Count" == "Meta" + "Ab" + "Count";
    assert "LocalAggregate" + "A" + "GroupedByObj" == "LocalAggregate" + "A" + "GroupedBy" + "Obj";
  }

  // ---------------------------------------------------------------------
  // Typed and generic sources
  // ---------------------------------------------------------------------

  /** A typed aggregation record after a round trip through a generic map. */
  function PropertyAsMap(nums: map<string, real>): (m: map<string, Value>)
    ensures m.Keys == nums.Keys
    ensures forall k :: k in m ==> m[k] == Number(nums[k])
  {
    map k | k in nums :: Number(nums[k])
  }

  /** A typed grouped-by record after a round trip through a generic map. */
  function GroupedByAsMap(path: seq<string>, value: string): (m: map<string, Value>)
    ensures m.Keys == {KeyName(GroupedByPath), KeyName(GroupedByValue)}
    ensures forall key: GroupedByKey :: KeyName(key) in m
  {
    map["path" := TextList(path), "value" := Text(value)]
  }

  /**
   * Every field of a numeric object resolves the same on a typed record and
   * on that record as a generic map, when the record has the operation; when
   * it does not, the typed record gives 0 and the map gives nil, neither an
   * error. On a source of any other type the field fails naming its own
   * operation.
   */
  lemma NumericFieldsResolveTransparently(c: ClassDef, p: PropertyDef, prefix: string, k: string, nums: map<string, real>, other: string)
    requires k in NumericAggregators
    ensures var f := NumericPropertyFields(c, p, prefix).fields[k];
      && (k in nums ==>
            Resolve(f.resolve, PropertySource(nums)) == Resolve(f.resolve, MapSource(PropertyAsMap(nums)))
              == Success(Number(nums[k])))
      && (k !in nums ==>
            Resolve(f.resolve, PropertySource(nums)) == Success(Number(0.0))
            && Resolve(f.resolve, MapSource(PropertyAsMap(nums))) == Success(Nil))
      && Resolve(f.resolve, OtherSource(other)) == Failure(UnsupportedAggregatorSource(k, other))
  {
  }

  /** The grouped-by fields resolve the same on a typed `GroupedBy` and on it as a generic map. */
  lemma GroupedByFieldsResolveTransparently(c: ClassDef, key: GroupedByKey, path: seq<string>, value: string)
    ensures var f := GroupedByProperty(c).fields[KeyName(key)];
      Resolve(f.resolve, GroupedBySource(path, value)) == Resolve(f.resolve, MapSource(GroupedByAsMap(path, value)))
  {
  }

  /** Concrete resolver cases: typed and generic `sum`, an unsupported source, `path` and `value`. */
  lemma ResolverExamples()
    ensures ResolveFieldAggregator("sum", PropertySource(map["sum" := 4.5])) == Success(Number(4.5))
    ensures ResolveFieldAggregator("sum", MapSource(map["sum" := Number(4.5)])) == Success(Number(4.5))
    ensures ResolveFieldAggregator("sum", OtherSource("int")).Failure?
    ensures ResolveGroupedBy(GroupedByPath, GroupedBySource(["city"], "Berlin")) == Success(TextList(["city"]))
    ensures ResolveGroupedBy(GroupedByValue, GroupedBySource(["city"], "Berlin")) == Success(Text("Berlin"))
    ensures ResolveGroupedBy(GroupedByPath, MapSource(map["path" := TextList(["city"])])) == Success(TextList(["city"]))
    ensures ResolveGroupedBy(GroupedByPath, PropertySource(map[])).Failure?
  {
  }
}

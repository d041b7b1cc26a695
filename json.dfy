/**
 * The untyped records the parsers receive: a value as JavaScript sees it after
 * `JSON.parse`, plus `undefined`, which is what reading a missing key yields.
 * Numbers are integers (the parsers only copy them or test their truthiness).
 */
module Json {
  import opened Wrappers

  datatype Json =
    | JUndefined
    | JNull
    | JBool(b: bool)
    | JNumber(n: int)
    | JString(s: string)
    | JArray(items: seq<Json>)
    | JObject(fields: map<string, Json>)

  /** JavaScript truthiness: `false`, `0`, `''`, `null` and `undefined` are falsy. */
  predicate Truthy(j: Json) {
    match j
    case JUndefined => false
    case JNull => false
    case JBool(b) => b
    case JNumber(n) => n != 0
    case JString(s) => s != ""
    case JArray(_) => true
    case JObject(_) => true
  }

  /** Reading a property of these throws a TypeError. */
  predicate Nullish(j: Json) {
    j.JUndefined? || j.JNull?
  }

  /** Property access `j.key` (for the non-index keys the parsers use). */
  function Get(j: Json, key: string): Json
    requires !Nullish(j)
  {
    if j.JObject? && key in j.fields then j.fields[key] else JUndefined
  }

  /** The `x || d` operator. */
  function Or(x: Json, d: Json): Json {
    if Truthy(x) then x else d
  }

  /** A string list as a JSON array. */
  function Strings(ss: seq<string>): Json {
    JArray(seq(|ss|, i requires 0 <= i < |ss| => JString(ss[i])))
  }

  predicate IsStrings(j: Json) {
    j.JArray? && forall i | 0 <= i < |j.items| :: j.items[i].JString?
  }

  function StringsOf(j: Json): (r: seq<string>)
    requires IsStrings(j)
    ensures Strings(r) == j
  {
    var r := seq(|j.items|, i requires 0 <= i < |j.items| => j.items[i].s);
    assert Strings(r).items == j.items;
    r
  }

  // ---------------------------------------------------------------------------
  // `x || default` where the TypeScript declaration gives x a type: the value is
  // either of that type or falsy, and the typed result is what `||` yields.

  predicate StringOrFalsy(j: Json) { !Truthy(j) || j.JString? }
  predicate NumberOrFalsy(j: Json) { !Truthy(j) || j.JNumber? }
  predicate BoolOrFalsy(j: Json) { !Truthy(j) || j.JBool? }
  predicate StringsOrFalsy(j: Json) { !Truthy(j) || IsStrings(j) }

  /** `x || ''` */
  function OrEmpty(j: Json): (r: string)
    requires StringOrFalsy(j)
    ensures JString(r) == Or(j, JString(""))
  {
    if j.JString? then j.s else ""
  }

  /** `x || 0` */
  function OrZero(j: Json): (r: int)
    requires NumberOrFalsy(j)
    ensures JNumber(r) == Or(j, JNumber(0))
  {
    if j.JNumber? then j.n else 0
  }

  /** `x || false` */
  function OrFalse(j: Json): (r: bool)
    requires BoolOrFalsy(j)
    ensures JBool(r) == Or(j, JBool(false))
  {
    j.JBool? && j.b
  }

  /** `x || []` for a string list */
  function OrNoStrings(j: Json): (r: seq<string>)
    requires StringsOrFalsy(j)
    ensures Strings(r) == Or(j, JArray([]))
  {
    if IsStrings(j) then StringsOf(j) else assert Strings([]).items == []; []
  }

  // ---------------------------------------------------------------------------
  // Optional fields copied verbatim (`field: obj.key`, declared `field?: T`):
  // absent (undefined, or null) or of the declared type.

  predicate OptionalString(j: Json) { Nullish(j) || j.JString? }
  predicate OptionalNumber(j: Json) { Nullish(j) || j.JNumber? }
  predicate OptionalBool(j: Json) { Nullish(j) || j.JBool? }
  predicate OptionalStrings(j: Json) { Nullish(j) || IsStrings(j) }

  /** `o` is the parsed copy of `j`: present exactly when `j` is neither undefined nor null, and then equal to it. */
  predicate CopiesString(o: Option<string>, j: Json) { (o.Some? <==> !Nullish(j)) && (o.Some? ==> JString(o.value) == j) }
  predicate CopiesNumber(o: Option<int>, j: Json) { (o.Some? <==> !Nullish(j)) && (o.Some? ==> JNumber(o.value) == j) }
  predicate CopiesBool(o: Option<bool>, j: Json) { (o.Some? <==> !Nullish(j)) && (o.Some? ==> JBool(o.value) == j) }
  predicate CopiesStrings(o: Option<seq<string>>, j: Json) { (o.Some? <==> !Nullish(j)) && (o.Some? ==> Strings(o.value) == j) }

  function OptString(j: Json): (r: Option<string>)
    requires OptionalString(j)
    ensures CopiesString(r, j)
  {
    if j.JString? then Some(j.s) else None
  }

  function OptNumber(j: Json): (r: Option<int>)
    requires OptionalNumber(j)
    ensures CopiesNumber(r, j)
  {
    if j.JNumber? then Some(j.n) else None
  }

  function OptBool(j: Json): (r: Option<bool>)
    requires OptionalBool(j)
    ensures CopiesBool(r, j)
  {
    if j.JBool? then Some(j.b) else None
  }

  function OptStrings(j: Json): (r: Option<seq<string>>)
    requires OptionalStrings(j)
    ensures CopiesStrings(r, j)
  {
    if IsStrings(j) then Some(StringsOf(j)) else None
  }

  /** Truthiness of an optional string field after parsing. */
  predicate TruthyString(o: Option<string>) {
    o.Some? && o.value != ""
  }

  /** A parsed optional string is truthy exactly when its source value was. */
  lemma TruthyStringAgrees(j: Json)
    requires OptionalString(j)
    ensures TruthyString(OptString(j)) <==> Truthy(j)
  {
  }

  /** The typed encoders used by the round-trip lemmas: an optional field is omitted when absent. */
  function FromOptString(o: Option<string>): Json {
    if o.Some? then JString(o.value) else JUndefined
  }

  function FromOptNumber(o: Option<int>): Json {
    if o.Some? then JNumber(o.value) else JUndefined
  }

  function FromOptBool(o: Option<bool>): Json {
    if o.Some? then JBool(o.value) else JUndefined
  }

  function FromOptStrings(o: Option<seq<string>>): Json {
    if o.Some? then Strings(o.value) else JUndefined
  }

  lemma {:induction false} StringsRoundTrip(ss: seq<string>)
    ensures IsStrings(Strings(ss)) && StringsOf(Strings(ss)) == ss
  {
    var j := Strings(ss);
    assert |StringsOf(j)| == |ss|;
    forall i | 0 <= i < |ss| ensures StringsOf(j)[i] == ss[i] {
      assert j.items[i] == JString(ss[i]);
    }
  }

  /** Every optional field read back by the parsers gives the value that was encoded. */
  lemma OptionalRoundTrips(s: Option<string>, n: Option<int>, b: Option<bool>, ss: Option<seq<string>>)
    ensures OptionalString(FromOptString(s)) && OptString(FromOptString(s)) == s
    ensures OptionalNumber(FromOptNumber(n)) && OptNumber(FromOptNumber(n)) == n
    ensures OptionalBool(FromOptBool(b)) && OptBool(FromOptBool(b)) == b
    ensures OptionalStrings(FromOptStrings(ss)) && OptStrings(FromOptStrings(ss)) == ss
  {
    if ss.Some? { StringsRoundTrip(ss.value); }
  }

  /** `x || default` read back: a value encoded as itself parses to itself, also the default. */
  lemma OrRoundTrips(s: string, n: int, b: bool, ss: seq<string>)
    ensures StringOrFalsy(JString(s)) && OrEmpty(JString(s)) == s
    ensures NumberOrFalsy(JNumber(n)) && OrZero(JNumber(n)) == n
    ensures BoolOrFalsy(JBool(b)) && OrFalse(JBool(b)) == b
    ensures StringsOrFalsy(Strings(ss)) && OrNoStrings(Strings(ss)) == ss
  {
    StringsRoundTrip(ss);
  }
}

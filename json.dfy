/** JSON values as JavaScript sees them after `JSON.parse`, with the few
    JavaScript coercions the client code applies to them. */
module Json {
  import opened Text

  /** A parsed JSON value. `JInt` is a number with an integral value; `JFraction`
      is any other number, carrying the text JavaScript renders it as. Object keys
      are unique (JSON.parse keeps the last duplicate). */
  datatype Value =
    | JNull
    | JBool(b: bool)
    | JInt(i: int)
    | JFraction(text: string)
    | JStr(s: string)
    | JArr(items: seq<Value>)
    | JObj(fields: map<string, Value>)

  /** JavaScript truthiness. A non-integral number is never zero. */
  predicate Truthy(v: Value) {
    match v
    case JNull => false
    case JBool(b) => b
    case JInt(i) => i != 0
    case JFraction(_) => true
    case JStr(s) => s != ""
    case JArr(_) => true
    case JObj(_) => true
  }

  /** `Boolean(v && typeof v === "object" && key in v)`: `v` is a non-null, non-array
      object owning `key`. (Arrays and the object prototype own none of the keys used here.) */
  function HasKey(v: Value, key: string): (has: bool)
    ensures has ==> Truthy(v) && v.JObj? && key in v.fields
    ensures v.JObj? && key in v.fields ==> has
  {
    v.JObj? && key in v.fields
  }

  /** `String(v)`. Arrays join their elements with commas, turning null elements into
      empty strings; plain objects render as "[object Object]". */
  function JsString(v: Value): (s: string)
    ensures v.JNull? ==> s == "null"
    ensures v.JBool? ==> s == (if v.b then "true" else "false")
    ensures v.JInt? ==> s == Decimal(v.i)
    ensures v.JFraction? ==> s == v.text
    ensures v.JStr? ==> s == v.s
    ensures v.JObj? ==> s == "[object Object]"
    ensures v.JArr? && v.items == [] ==> s == ""
    decreases v, 1
  {
    match v
    case JNull => "null"
    case JBool(b) => if b then "true" else "false"
    case JInt(i) => Decimal(i)
    case JFraction(t) => t
    case JStr(s) => s
    case JArr(items) => JoinElements(v, items)
    case JObj(_) => "[object Object]"
  }

  /** A one-element array renders as its element, a null element as nothing; a longer
      one as its first element, a comma, and the rest. */
  lemma ArrayString(items: seq<Value>)
    ensures |items| == 1 ==> JsString(JArr(items)) == (if items[0].JNull? then "" else JsString(items[0]))
    ensures |items| >= 2 ==>
      JsString(JArr(items)) == JsString(JArr(items[..1])) + "," + JsString(JArr(items[1..]))
  {
    if |items| >= 2 {
      var rest := items[1..];
      JoinIgnoresWhole(JArr(items), JArr(rest), rest);
      assert JsString(JArr(items[..1])) == JoinElements(JArr(items[..1]), items[..1]);
    }
  }

  /** The enclosing array only serves termination: the join does not depend on it. */
  lemma {:induction false} JoinIgnoresWhole(w1: Value, w2: Value, items: seq<Value>)
    requires w1.JArr? && forall x :: x in items ==> x in w1.items
    requires w2.JArr? && forall x :: x in items ==> x in w2.items
    ensures JoinElements(w1, items) == JoinElements(w2, items)
    decreases |items|
  {
    if |items| > 1 {
      assert forall x :: x in items[1..] ==> x in items;
      JoinIgnoresWhole(w1, w2, items[1..]);
    }
  }

  /** `items.join(",")` for the elements of the array `whole`. */
  function JoinElements(ghost whole: Value, items: seq<Value>): string
    requires whole.JArr? && forall x :: x in items ==> x in whole.items
    decreases whole, 0, |items|
  {
    if items == [] then ""
    else
      assert items[0] in whole.items;
      var first := if items[0].JNull? then "" else JsString(items[0]);
      if |items| == 1 then first else first + "," + JoinElements(whole, items[1..])
  }
}

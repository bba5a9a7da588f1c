/** The JSON values Python's `json.loads` produces, and the few Python behaviours the backend
    relies on when it walks a decoded value: iterating over it, testing `key in d`, and `d[key]`.
    `json.loads` itself is not modelled: callers take it as a function parameter of type `Loads`. */
module JsonModel {

  /** A decoded JSON value. Objects keep their members in text order, as Python dicts do. */
  datatype Json =
    | JNull
    | JBool(b: bool)
    | JInt(i: int)
    | JFloat(r: real)
    | JStr(s: string)
    | JArr(items: seq<Json>)
    | JObj(fields: seq<(string, Json)>)

  /** What `json.loads(text)` does: return a value or raise `JSONDecodeError` with a message. */
  datatype Decoded = Decoded(value: Json) | DecodeError(message: string)

  /** An arbitrary JSON parser: the model assumes nothing about its grammar. */
  type Loads = string -> Decoded

  /** `key in d` for a decoded object. */
  predicate HasKey(fields: seq<(string, Json)>, key: string) {
    exists k :: 0 <= k < |fields| && fields[k].0 == key
  }

  /** `d[key]`: with duplicate members, `json.loads` keeps the last value. */
  function Lookup(fields: seq<(string, Json)>, key: string): (v: Json)
    requires HasKey(fields, key)
    ensures exists k :: (0 <= k < |fields| && fields[k] == (key, v)
      && forall m :: k < m < |fields| ==> fields[m].0 != key)
    decreases |fields|
  {
    var last := |fields| - 1;
    if fields[last].0 == key then fields[last].1
    else
      assert HasKey(fields[..last], key) by {
        var k :| 0 <= k < |fields| && fields[k].0 == key;
        assert fields[..last][k].0 == key;
      }
      var v := Lookup(fields[..last], key);
      assert exists k :: (0 <= k < |fields| && fields[k] == (key, v)
        && forall m :: k < m < |fields| ==> fields[m].0 != key) by {
        var k :| 0 <= k < last && fields[..last][k] == (key, v)
          && forall m :: k < m < last ==> fields[..last][m].0 != key;
        assert fields[k] == (key, v);
      }
      v
  }

  /** `type(j).__name__` for the Python value `json.loads` builds. */
  function TypeName(j: Json): string {
    match j
    case JNull => "NoneType"
    case JBool(_) => "bool"
    case JInt(_) => "int"
    case JFloat(_) => "float"
    case JStr(_) => "str"
    case JArr(_) => "list"
    case JObj(_) => "dict"
  }

  /** What `for x in j` does: a list yields its items, a dict its keys, a string its characters;
      anything else raises `TypeError: '<type>' object is not iterable`. */
  datatype Iteration = Items(elems: seq<Json>) | NotIterable(typeName: string)

  function Iterate(j: Json): (it: Iteration)
    ensures it.NotIterable? <==> !(j.JArr? || j.JObj? || j.JStr?)
    ensures j.JArr? ==> it == Items(j.items)
    ensures j.JObj? ==> it.Items? && |it.elems| == |j.fields|
    ensures j.JStr? ==> it.Items? && |it.elems| == |j.s|
    ensures j.JObj? ==> forall k :: 0 <= k < |j.fields| ==> it.elems[k] == JStr(j.fields[k].0)
    ensures j.JStr? ==> forall k :: 0 <= k < |j.s| ==> it.elems[k] == JStr([j.s[k]])
    ensures it.NotIterable? ==> it.typeName == TypeName(j)
  {
    match j
    case JArr(items) => Items(items)
    case JObj(fields) => Items(seq(|fields|, k requires 0 <= k < |fields| => JStr(fields[k].0)))
    case JStr(s) => Items(seq(|s|, k requires 0 <= k < |s| => JStr([s[k]])))
    case _ => NotIterable(TypeName(j))
  }

  /** `isinstance(e, dict) and "step_number" in e and "content" in e`. */
  predicate IsStepObject(e: Json) {
    e.JObj? && HasKey(e.fields, "step_number") && HasKey(e.fields, "content")
  }
}

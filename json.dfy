/** The JSON tree (Newtonsoft JToken) that job results carry their delivery
    configuration in. Numbers are integers only. */
module Json {
  import opened Wrappers

  datatype Json =
    | JNull
    | JBool(b: bool)
    | JInt(i: int)
    | JStr(s: string)
    | JArr(items: seq<Json>)
    | JObj(props: seq<Prop>)

  /** A JProperty: a name and the value under it. */
  datatype Prop = Prop(name: string, value: Json)

  /** The value of the first property called `key` of an object. */
  function Lookup(props: seq<Prop>, key: string): (r: Option<Json>)
    ensures r.Some? <==> exists k :: 0 <= k < |props| && props[k].name == key
    ensures r.Some? ==> exists k :: 0 <= k < |props| && props[k].name == key && props[k].value == r.value
  {
    if props == [] then None
    else if props[0].name == key then Some(props[0].value)
    else
      var r := Lookup(props[1..], key);
      assert forall k :: 1 <= k < |props| ==> props[k] == props[1..][k - 1];
      r
  }

  /** The value of `key` when `j` is an object that has it. */
  function Member(j: Json, key: string): Option<Json> {
    if j.JObj? then Lookup(j.props, key) else None
  }
}

/** The JSON values that org.json's JSONObject/JSONArray carry in this program. */
module Json {
  import opened Wrappers

  datatype Value =
    | Str(s: string)
    | Int(i: int)
    | Arr(items: seq<Value>)
    | Obj(fields: map<string, Value>)

  /** A JSONObject: keys to values, no order. */
  type Object = map<string, Value>

  /** JSONObject.getString: defined only for a present key holding a string. */
  function GetString(o: Object, key: string): (r: Option<string>)
    ensures r.Some? <==> key in o && o[key].Str?
    ensures r.Some? ==> o[key] == Str(r.value)
  {
    if key in o && o[key].Str? then Some(o[key].s) else None
  }

  /** JSONObject.getInt: defined only for a present key holding a number. */
  function GetInt(o: Object, key: string): (r: Option<int>)
    ensures r.Some? <==> key in o && o[key].Int?
    ensures r.Some? ==> o[key] == Int(r.value)
  {
    if key in o && o[key].Int? then Some(o[key].i) else None
  }

  /** JSONObject.getJSONArray: defined only for a present key holding an array. */
  function GetArray(o: Object, key: string): (r: Option<seq<Value>>)
    ensures r.Some? <==> key in o && o[key].Arr?
    ensures r.Some? ==> o[key] == Arr(r.value)
  {
    if key in o && o[key].Arr? then Some(o[key].items) else None
  }
}

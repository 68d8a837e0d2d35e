/** JSON values as the request builders use them (org.json's JSONObject and JSONArray),
    and a mutable JSON object for the one object the builders update in place. */
module Json {

  datatype Option<+T> = None | Some(value: T)

  /** A JSON value. Objects are maps: org.json's key order is not part of the model. */
  datatype Json =
    | JNum(n: int)
    | JStr(s: string)
    | JBool(b: bool)
    | JArr(items: seq<Json>)
    | JObj(fields: map<string, Json>)

  /** What `JSONObject.put(key, value)` does to its receiver's entries for a non-null value:
      the key is bound to the new value and every other entry stays as it was. */
  function PutField(fields: map<string, Json>, key: string, value: Json): (r: map<string, Json>)
    ensures r.Keys == fields.Keys + {key}
    ensures key in r && r[key] == value
    ensures forall k :: k in fields && k != key ==> k in r && r[k] == fields[k]
  {
    fields[key := value]
  }

  /** The entry `key` of an object, if `j` is an object that has one (`JSONObject.opt`). */
  function Field(j: Json, key: string): Option<Json>
  {
    if j.JObj? && key in j.fields then Some(j.fields[key]) else None
  }

  /** One more step of a lookup: the entry `key` of the value found so far. */
  function Then(o: Option<Json>, key: string): Option<Json>
  {
    match o
    case Some(j) => Field(j, key)
    case None => None
  }

  /** `JSONArray(list)` for a list of strings. */
  function StrArray(xs: seq<string>): (r: Json)
    ensures r.JArr? && |r.items| == |xs|
    ensures forall i :: 0 <= i < |xs| ==> r.items[i] == JStr(xs[i])
  {
    JArr(seq(|xs|, i requires 0 <= i < |xs| => JStr(xs[i])))
  }

  /** `JSONObject(map)` for a map from strings to strings. */
  function StrObject(m: map<string, string>): (r: Json)
    ensures r.JObj? && r.fields.Keys == m.Keys
    ensures forall k :: k in m ==> r.fields[k] == JStr(m[k])
  {
    JObj(map k | k in m :: JStr(m[k]))
  }

  /** Reads a sequence of JSON values back as strings, if every one is a string. */
  function StringsOf(items: seq<Json>): Option<seq<string>>
  {
    if items == [] then Some([])
    else if !items[0].JStr? then None
    else match StringsOf(items[1..])
      case Some(rest) => Some([items[0].s] + rest)
      case None => None
  }

  /** Reads a JSON array of strings back as the list of its strings. */
  function Strings(j: Json): Option<seq<string>>
  {
    if j.JArr? then StringsOf(j.items) else None
  }

  /** The list of strings a lookup found, if it found an array of strings. */
  function StringsIn(o: Option<Json>): Option<seq<string>>
  {
    match o
    case Some(a) => Strings(a)
    case None => None
  }

  lemma {:induction false} StringsOfStrArray(xs: seq<string>)
    ensures StringsOf(StrArray(xs).items) == Some(xs)
  {
    if xs != [] {
      assert StrArray(xs).items[1..] == StrArray(xs[1..]).items;
      StringsOfStrArray(xs[1..]);
      assert [xs[0]] + xs[1..] == xs;
    }
  }

  /** A list of strings survives `JSONArray(list)` unchanged, elements and order. */
  lemma StrArrayRoundTrip(xs: seq<string>)
    ensures Strings(StrArray(xs)) == Some(xs)
  {
    StringsOfStrArray(xs);
  }

  /** A `JSONObject` whose entries `put` replaces in place. */
  class JsonObject {
    var fields: map<string, Json>

    /** `JSONObject()`: an object with no entries. */
    constructor ()
      ensures fields == map[]
    {
      fields := map[];
    }

    /** A fresh object that already holds `fields`, as a builder function returns it. */
    constructor Of(fields: map<string, Json>)
      ensures this.fields == fields
    {
      this.fields := fields;
    }

    /** The object's current contents as a JSON value. */
    function Value(): (j: Json)
      reads this
      ensures j.JObj? && j.fields == fields
    {
      JObj(fields)
    }

    /** `put(key, value)`: updates this object and returns this same object, so that calls chain. */
    method Put(key: string, value: Json) returns (self: JsonObject)
      modifies this
      ensures self == this
      ensures fields == PutField(old(fields), key, value)
    {
      fields := PutField(fields, key, value);
      self := this;
    }
  }
}

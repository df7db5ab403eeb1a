/** The part of Newtonsoft's token tree the smaller converter walks: objects,
    properties and primitive values, and how `Children<JProperty>()` lists a
    token's children. */
module JsonTokens {

  datatype JToken =
    | JObject(members: seq<JToken>)
    | JProperty(name: string, value: JToken)
    | JValue(text: string)

  /** `Children()`: an object's members, a property's single value, nothing for a primitive. */
  function Children(t: JToken): seq<JToken>
  {
    match t
    case JObject(members) => members
    case JProperty(_, value) => [value]
    case JValue(_) => []
  }

  /** `OfType<JProperty>()`: the properties among `ts`, in order. */
  function Properties(ts: seq<JToken>): (r: seq<JToken>)
    ensures |r| <= |ts|
    ensures forall c :: c in r <==> c in ts && c.JProperty?
    decreases |ts|
  {
    if |ts| == 0 then []
    else if ts[0].JProperty? then [ts[0]] + Properties(ts[1..])
    else Properties(ts[1..])
  }

  /** `Children<JProperty>()`. */
  function ChildProperties(t: JToken): seq<JToken>
  {
    Properties(Children(t))
  }

  /** A sequence made only of properties is kept whole. */
  lemma {:induction false} PropertiesOfProperties(ts: seq<JToken>)
    requires forall i :: 0 <= i < |ts| ==> ts[i].JProperty?
    ensures Properties(ts) == ts
    decreases |ts|
  {
    if |ts| > 0 {
      PropertiesOfProperties(ts[1..]);
    }
  }

  /** A property whose value is an object has no property among its children. */
  lemma PropertyHasNoChildProperties(t: JToken)
    requires t.JProperty? && t.value.JObject?
    ensures ChildProperties(t) == []
  {
    assert Children(t) == [t.value];
  }
}

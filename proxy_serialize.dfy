/** `_serialize_object` of custom_components/switcher_api/api/__init__.py. */
module ProxySerialize {
  import opened PyValues

  const UnparsedResponse := "unparsed_response"

  /** One value: an enum member becomes its name, a set becomes a list of names and plain members. */
  function SerializeValue(v: Value): (r: Value)
    ensures !r.Enum? && !r.Set?
    ensures v.Enum? ==> r == Str(v.name)
    ensures v.Set? ==> r.List? && |r.items| == |v.members|
    ensures v.Set? ==> forall i :: 0 <= i < |v.members| ==>
      r.items[i] == (if v.members[i].Enum? then Str(v.members[i].name) else v.members[i])
    ensures !v.Enum? && !v.Set? ==> r == v
  {
    match v
    case Enum(n) => Str(n)
    case Set(ms) => List(seq(|ms|, i requires 0 <= i < |ms| => if ms[i].Enum? then Str(ms[i].name) else ms[i]))
    case _ => v
  }

  /** What the serialised dict holds: every attribute but the raw response, each value serialised. */
  function Serialized(fields: map<string, Value>): (r: map<string, Value>)
    ensures UnparsedResponse !in r
    ensures r.Keys == fields.Keys - {UnparsedResponse}
    ensures forall k :: k in r ==> r[k] == SerializeValue(fields[k])
  {
    map k | k in fields && k != UnparsedResponse :: SerializeValue(fields[k])
  }

  /** Serialising twice is serialising once: the output holds no enum and no set at the top level. */
  lemma SerializedIdempotent(fields: map<string, Value>)
    ensures Serialized(Serialized(fields)) == Serialized(fields)
  {
    var once := Serialized(fields);
    assert forall k :: k in once ==> SerializeValue(once[k]) == once[k];
  }

  /** `_serialize_object(obj)`, where `fields` is `obj.__dict__`. */
  method SerializeObject(fields: map<string, Value>) returns (serialized: map<string, Value>)
    ensures serialized == Serialized(fields)
  {
    serialized := map[];
    var remaining := fields.Keys;
    while remaining != {}
      invariant remaining <= fields.Keys
      invariant serialized.Keys == (fields.Keys - remaining) - {UnparsedResponse}
      invariant forall k :: k in serialized ==> serialized[k] == SerializeValue(fields[k])
      decreases remaining
    {
      var k :| k in remaining;
      var v := fields[k];
      if k != UnparsedResponse {
        if v.Enum? {
          serialized := serialized[k := Str(v.name)];
        } else if v.Set? {
          var members := [];
          var i := 0;
          while i < |v.members|
            invariant 0 <= i <= |v.members|
            invariant |members| == i
            invariant forall j :: 0 <= j < i ==>
              members[j] == (if v.members[j].Enum? then Str(v.members[j].name) else v.members[j])
          {
            var m := v.members[i];
            members := members + [if m.Enum? then Str(m.name) else m];
            i := i + 1;
          }
          serialized := serialized[k := List(members)];
        } else {
          serialized := serialized[k := v];
        }
      }
      remaining := remaining - {k};
    }
  }
}

/**
 * The part of JSON that the handler relies on: the values a parsed request
 * body can hold, and what `JSON.stringify` makes of the object literals the
 * handler serialises (ECMA-262, section "JSON.stringify", abstract operation
 * SerializeJSONObject: a property whose value is `undefined` is skipped).
 * The exact text of the serialisation is not modelled; a serialised object is
 * the sequence of its members, in order.
 */
module Json {
  import opened Wrappers

  /** A JSON value as far as the handler looks at it; arrays and objects are only "some composite value". */
  datatype Value = Null | Bool(b: bool) | Number(n: int) | String(s: string) | Composite

  /** A property of an object literal handed to `JSON.stringify`; a `None` value is `undefined`. */
  datatype Property = Property(key: string, value: Option<Value>)

  /** A member of a serialised JSON object. */
  datatype Member = Member(key: string, value: Value)

  /**
   * JSON.stringify of an object literal: every property with a defined value
   * becomes a member, in order, and every `undefined` property is left out.
   */
  function Serialize(props: seq<Property>): (members: seq<Member>)
    ensures |members| <= |props|
    ensures forall k, v :: Member(k, v) in members <==> Property(k, Some(v)) in props
  {
    if props == [] then []
    else
      var rest := Serialize(props[1..]);
      assert props == [props[0]] + props[1..];
      match props[0].value
      case None => rest
      case Some(v) => [Member(props[0].key, v)] + rest
  }

  /** When no property is `undefined`, serialisation keeps every property, in order. */
  lemma {:induction false} SerializeDefined(props: seq<Property>)
    requires forall i :: 0 <= i < |props| ==> props[i].value.Some?
    ensures |Serialize(props)| == |props|
    ensures forall i :: 0 <= i < |props| ==> Serialize(props)[i] == Member(props[i].key, props[i].value.value)
  {
    if props != [] {
      SerializeDefined(props[1..]);
    }
  }
}

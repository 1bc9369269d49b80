/** The health report a probed service returns (Health.java), and the decoding
    of a probe body into it, which keeps the `hystrix` flag and ignores every
    other field. */
module HealthModel {
  import opened Exceptions

  /** A JSON field value, as far as decoding a `boolean` field cares. */
  datatype JsonValue = JBool(b: bool) | JOther

  /** A probe body as the JSON decoder sees it: not a JSON object at all, or an
      object with its fields. */
  datatype Body = Unparseable | JsonObject(fields: map<string, JsonValue>)

  const HystrixKey: string := "hystrix"

  /** Health.java: one mutable flag, false until a decoder or caller sets it. */
  class Health {
    var hystrix: bool

    constructor ()
      ensures !hystrix
    {
      hystrix := false;
    }

    function IsHystrix(): bool
      reads this
    {
      hystrix
    }

    method SetHystrix(hystrix: bool)
      modifies this
      ensures IsHystrix() == hystrix
    {
      this.hystrix := hystrix;
    }
  }

  /** What a decoded body says about the flag: `None` when decoding fails. */
  function DecodeHealth(body: Body): (r: Option<bool>)
    ensures r.Some? <==> body.JsonObject? && (HystrixKey in body.fields ==> body.fields[HystrixKey].JBool?)
    ensures r.Some? && body.JsonObject? && HystrixKey in body.fields ==> r == Some(body.fields[HystrixKey].b)
  {
    match body
    case Unparseable => None
    case JsonObject(fields) =>
      if HystrixKey !in fields then Some(false)
      else match fields[HystrixKey]
        case JBool(b) => Some(b)
        case JOther => None
  }

  /** The decoder builds a default Health and sets only the fields it knows.
      (Jackson's readValue into Health.class, with unknown fields ignored.) */
  method ReadHealth(body: Body) returns (health: Option<Health>)
    ensures health.Some? <==> DecodeHealth(body).Some?
    ensures health.Some? ==> fresh(health.value) && health.value.IsHystrix() == DecodeHealth(body).value
  {
    if body.Unparseable? {
      return None;
    }
    var h := new Health();
    if HystrixKey in body.fields {
      match body.fields[HystrixKey]
      case JBool(b) =>
        h.SetHystrix(b);
      case JOther =>
        return None;
    }
    health := Some(h);
  }

  /** Only the `hystrix` key matters: bodies that agree on it decode alike. */
  lemma DecodeIgnoresUnknownFields(f1: map<string, JsonValue>, f2: map<string, JsonValue>)
    requires HystrixKey in f1 <==> HystrixKey in f2
    requires HystrixKey in f1 ==> f1[HystrixKey] == f2[HystrixKey]
    ensures DecodeHealth(JsonObject(f1)) == DecodeHealth(JsonObject(f2))
  {
  }

  /** A body without the flag decodes to the default, false. */
  lemma MissingFlagDecodesFalse(fields: map<string, JsonValue>)
    requires HystrixKey !in fields
    ensures DecodeHealth(JsonObject(fields)) == Some(false)
  {
  }

  /** A boolean flag that is present decodes to its own value. */
  lemma PresentFlagDecodesToValue(fields: map<string, JsonValue>, b: bool)
    requires HystrixKey in fields && fields[HystrixKey] == JBool(b)
    ensures DecodeHealth(JsonObject(fields)) == Some(b)
  {
  }

  /** Adding a field the decoder does not know never changes the outcome. */
  lemma ExtraFieldIgnored(fields: map<string, JsonValue>, key: string, v: JsonValue)
    requires key != HystrixKey
    ensures DecodeHealth(JsonObject(fields[key := v])) == DecodeHealth(JsonObject(fields))
  {
  }
}

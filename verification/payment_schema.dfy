/**
 * The payment body schema, read with the meaning JSON Schema Validation
 * (draft-07) gives its keywords: `type` (section 6.1.1), `enum` (6.1.2),
 * `minimum` (6.2.4), `maxLength`/`minLength` (6.3.1, 6.3.2), `required`
 * (6.5.3), `properties` (6.5.4) and `additionalProperties` (6.5.6).
 * Annotation keywords such as `description` do not affect validation.
 */
module PaymentSchema {
  import opened Wrappers
  import opened Js

  datatype TypeName = ObjectType | NumberType | StringType

  /** The draft-07 keywords the schema uses; an absent keyword imposes nothing. */
  datatype Schema = Schema(
    type_: Option<TypeName>,
    required: seq<string>,
    properties: map<string, Schema>,
    additionalProperties: bool,
    minimum: Option<real>,
    enumeration: Option<seq<Value>>,
    minLength: Option<nat>,
    maxLength: Option<nat>)

  const Any: Schema := Schema(None, [], map[], true, None, None, None, None)

  function HasType(t: TypeName, v: Value): bool {
    match t
    case ObjectType => v.Obj?
    case NumberType => v.Num?
    case StringType => v.Str?
  }

  /** Whether `v` is valid against `s`: every keyword's assertion holds (each applies only to its instance type). */
  predicate Conforms(s: Schema, v: Value)
    decreases s
  {
    && (s.type_.Some? ==> HasType(s.type_.value, v))
    && (s.enumeration.Some? ==> v in s.enumeration.value)
    && (s.minimum.Some? && v.Num? ==> v.n >= s.minimum.value)
    && (s.minLength.Some? && v.Str? ==> |v.s| >= s.minLength.value)
    && (s.maxLength.Some? && v.Str? ==> |v.s| <= s.maxLength.value)
    && (v.Obj? ==>
          && (forall r :: r in s.required ==> r in v.fields)
          && (forall k :: k in v.fields && k in s.properties ==> Conforms(s.properties[k], v.fields[k]))
          && (!s.additionalProperties ==> forall k :: k in v.fields ==> k in s.properties))
  }

  /** `PaymentSchema.body` */
  const Body: Schema := Any.(
    type_ := Some(ObjectType),
    required := ["amount", "currency", "description"],
    properties := map[
      "amount" := Any.(type_ := Some(NumberType), minimum := Some(10.0)),
      "currency" := Any.(type_ := Some(StringType), enumeration := Some([Str("USD"), Str("EUR"), Str("GBP")])),
      "description" := Any.(type_ := Some(StringType), minLength := Some(1), maxLength := Some(255))],
    additionalProperties := false)

  /**
   * A valid payment body, stated directly: an object with exactly the keys
   * `amount`, `currency` and `description`; a number of at least 10; one of
   * three currency codes; a description of 1 to 255 characters.
   */
  predicate ValidPayment(body: Value) {
    && body.Obj?
    && body.fields.Keys == {"amount", "currency", "description"}
    && body.fields["amount"].Num? && body.fields["amount"].n >= 10.0
    && body.fields["currency"] in {Str("USD"), Str("EUR"), Str("GBP")}
    && body.fields["description"].Str? && 1 <= |body.fields["description"].s| <= 255
  }

  /** The declarative schema accepts exactly the bodies the direct predicate describes. */
  lemma SchemaMeansValidPayment(body: Value)
    ensures Conforms(Body, body) <==> ValidPayment(body)
  {
    if Conforms(Body, body) {
      assert body.Obj?;
      assert "amount" in Body.required && "currency" in Body.required && "description" in Body.required;
      assert forall k :: k in body.fields ==> k in Body.properties;
      assert body.fields.Keys == {"amount", "currency", "description"};
      assert Conforms(Body.properties["amount"], body.fields["amount"]);
      assert Conforms(Body.properties["currency"], body.fields["currency"]);
      assert Conforms(Body.properties["description"], body.fields["description"]);
    }
    if ValidPayment(body) {
      forall k | k in body.fields && k in Body.properties
        ensures Conforms(Body.properties[k], body.fields[k])
      {
        assert k == "amount" || k == "currency" || k == "description";
      }
    }
  }

  /**
   * The minimum is 10 and inclusive, although the amount's description speaks
   * of "at least 0.01": 10 passes, 9.99 and 0.01 do not; and an extra key
   * makes an otherwise valid body invalid.
   */
  lemma AmountBoundary(currency: string, description: string)
    requires currency in {"USD", "EUR", "GBP"} && 1 <= |description| <= 255
    ensures ValidPayment(Obj(map["amount" := Num(10.0), "currency" := Str(currency), "description" := Str(description)]))
    ensures !ValidPayment(Obj(map["amount" := Num(9.99), "currency" := Str(currency), "description" := Str(description)]))
    ensures !ValidPayment(Obj(map["amount" := Num(0.01), "currency" := Str(currency), "description" := Str(description)]))
    ensures !ValidPayment(Obj(map["amount" := Num(10.0), "currency" := Str(currency), "description" := Str(description), "note" := Null]))
  {
    var extra := map["amount" := Num(10.0), "currency" := Str(currency), "description" := Str(description), "note" := Null];
    assert "note" in extra.Keys;
  }
}

/**
 * `createService`: the normalised service record built from a request body,
 * with `Date.now()` (read up to twice) as parameters.
 */
module ServiceModel {
  import opened Decimal
  import opened JsValue

  /**
   * `data.key || fallback`: the answer is one of the two operands, it is truthy
   * iff either operand is, and a truthy field always wins over the fallback.
   */
  function OrElse(data: Object, key: string, fallback: Json): (v: Json)
    ensures v == fallback || (key in data && v == data[key])
    ensures Truthy(v) <==> TruthyField(data, key) || Truthy(fallback)
    ensures TruthyField(data, key) ==> v == data[key]
  {
    if TruthyField(data, key) then data[key] else fallback
  }

  function CreateService(data: Object, idNow: nat, createdNow: nat): (s: Object)
    ensures s.Keys == {"id", "name", "hideBackButton", "createdAt"}
    ensures s["id"] == if TruthyField(data, "id") then data["id"] else Str(Dec(idNow))
    ensures s["name"] == if TruthyField(data, "name") then data["name"] else Str("Untitled Service")
    ensures s["hideBackButton"] == if "hideBackButton" in data && data["hideBackButton"].Bool?
                                   then data["hideBackButton"] else Bool(false)
    ensures s["createdAt"] == if TruthyField(data, "createdAt") then data["createdAt"] else Num(createdNow as real)
  {
    map[
      "id" := OrElse(data, "id", Str(Dec(idNow))),
      "name" := OrElse(data, "name", Str("Untitled Service")),
      "hideBackButton" := if "hideBackButton" in data && data["hideBackButton"].Bool?
                          then data["hideBackButton"] else Bool(false),
      "createdAt" := OrElse(data, "createdAt", Num(createdNow as real))]
  }

  /** Every field of a service record is truthy except possibly `hideBackButton` and a zero timestamp. */
  lemma CreatedFieldsTruthy(data: Object, idNow: nat, createdNow: nat)
    ensures Truthy(CreateService(data, idNow, createdNow)["id"])
    ensures Truthy(CreateService(data, idNow, createdNow)["name"])
    ensures CreateService(data, idNow, createdNow)["hideBackButton"].Bool?
    ensures createdNow > 0 ==> Truthy(CreateService(data, idNow, createdNow)["createdAt"])
  {
  }

  /**
   * Normalising a normalised record changes nothing (given a non-zero clock, or
   * a truthy `createdAt` already): its fields are kept, whatever the clock reads.
   */
  lemma CreateServiceIdempotent(data: Object, idNow: nat, createdNow: nat, idNow': nat, createdNow': nat)
    requires createdNow > 0 || TruthyField(data, "createdAt")
    ensures var s := CreateService(data, idNow, createdNow);
      CreateService(s, idNow', createdNow') == s
  {
    var s := CreateService(data, idNow, createdNow);
    var t := CreateService(s, idNow', createdNow');
    CreatedFieldsTruthy(data, idNow, createdNow);
    assert t.Keys == s.Keys;
    forall k | k in s ensures t[k] == s[k] {
    }
  }

  /** A body without its own fields gets the generated id and timestamp, the default name and `false`. */
  lemma EmptyBodyDefaults(idNow: nat, createdNow: nat)
    ensures CreateService(map[], idNow, createdNow)
         == map["id" := Str(Dec(idNow)), "name" := Str("Untitled Service"),
                "hideBackButton" := Bool(false), "createdAt" := Num(createdNow as real)]
  {
  }
}

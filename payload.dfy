/** The body of a silence or clear request (src/sensu/payload.rs). */
module Payload {
  import opened Common
  import opened Json
  import opened Expiry

  /** One silence or clear entry: the subscription it addresses, the check it
      names and, for a silence, how long it lasts. */
  datatype SensuPayload = SensuPayload(res: Option<string>, chk: Option<string>, expire: Option<Expire>)

  /** The creator recorded when the USER environment variable is unavailable. */
  const DefaultCreator: string := "shush"

  const PayloadKeys: set<string> := {"creator", "subscription", "check", "expire", "expire_on_resolve"}

  /** `Into<Map<String, Value>>`: the JSON object sent for `p`. `user` is the value of
      the USER environment variable, `None` when it is unset or not valid Unicode.
      An absent subscription or check means "all"; an expiry of `None` (a clear)
      adds no expiry fields, and `expire_on_resolve` appears only when true. */
  method IntoMap(p: SensuPayload, user: Option<string>) returns (payload: map<string, Json>)
    ensures payload.Keys <= PayloadKeys
    ensures "creator" in payload && payload["creator"] == Str(user.GetOr(DefaultCreator))
    ensures "subscription" in payload <==> p.res.Some?
    ensures p.res.Some? ==> payload["subscription"] == Str(p.res.value)
    ensures "check" in payload <==> p.chk.Some?
    ensures p.chk.Some? ==> payload["check"] == Str(p.chk.value)
    ensures "expire" in payload <==> p.expire.Some? && p.expire.value.Expire?
    ensures "expire" in payload ==> payload["expire"] == Int(p.expire.value.secs)
    ensures "expire_on_resolve" in payload <==> p.expire.Some? && p.expire.value.eor
    ensures "expire_on_resolve" in payload ==> payload["expire_on_resolve"] == Bool(true)
  {
    payload := map[];
    var creator := user.GetOr(DefaultCreator);
    payload := payload["creator" := Str(creator)];
    if p.res.Some? {
      payload := payload["subscription" := Str(p.res.value)];
    }
    if p.chk.Some? {
      payload := payload["check" := Str(p.chk.value)];
    }
    match p.expire {
      case Some(NoExpiration(eor)) =>
        if eor {
          payload := payload["expire_on_resolve" := Bool(true)];
        }
      case Some(Expire(num, eor)) =>
        payload := payload["expire" := Int(num)];
        if eor {
          payload := payload["expire_on_resolve" := Bool(true)];
        }
      case None =>
    }
  }
}

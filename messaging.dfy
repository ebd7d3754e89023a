/**
 * What the registration, pickup and reminder screens share when they notify
 * a resident over the outbound webhook: the phone normalisation, the
 * per-building webhook address with its fallback and the outcome of a POST.
 */
module Messaging {
  import opened Wrappers
  import opened Text
  import opened Seqs
  import opened Entities

  /** The address used when a building has no webhook of its own. */
  const DefaultWebhookUrl: string := "https://webhook.fbzia.com.br/webhook/entregaszapnovo"

  /** A `fetch` to the webhook: it answered (with `response.ok`), or it threw. */
  datatype WebhookOutcome = Responded(ok: bool) | Threw

  predicate Delivered(o: WebhookOutcome)
  {
    o.Responded? && o.ok
  }

  /**
   * `formatPhoneNumber`: the digits of the phone, with Brazil's country code
   * `55` put in front unless they already start with it.
   */
  function FormatPhoneNumber(phone: string): (r: string)
    ensures AllDigits(r) && StartsWith(r, "55")
    ensures StartsWith(DigitsOnly(phone), "55") ==> r == DigitsOnly(phone)
    ensures !StartsWith(DigitsOnly(phone), "55") ==> r == "55" + DigitsOnly(phone)
  {
    var digits := DigitsOnly(phone);
    if StartsWith(digits, "55") then digits
    else
      assert ("55" + digits)[..2] == "55";
      "55" + digits
  }

  /** A number that was already formatted is sent unchanged. */
  lemma FormatPhoneIdempotent(phone: string)
    ensures FormatPhoneNumber(FormatPhoneNumber(phone)) == FormatPhoneNumber(phone)
  {
    var r := FormatPhoneNumber(phone);
    DigitsOnlyIdempotent(r);
  }

  /** The building is called `name`, without regard to case. */
  predicate NamedAs(c: Condo, name: string)
  {
    Lower(c.name) == Lower(name)
  }

  /**
   * `condos.find(c => c.name.toLowerCase() === name.toLowerCase())?.webhookUrl || default`:
   * the webhook of the first building whose name matches without regard to
   * case, or the default address when there is none or it is empty.
   */
  function WebhookUrlFor(condos: seq<Condo>, name: string): (url: string)
    ensures url != ""
    ensures (forall k :: 0 <= k < |condos| ==> !NamedAs(condos[k], name)) ==> url == DefaultWebhookUrl
    ensures forall k :: (0 <= k < |condos| && NamedAs(condos[k], name) && forall j :: 0 <= j < k ==> !NamedAs(condos[j], name))
                        ==> url == NonEmpty(condos[k].webhookUrl).GetOr(DefaultWebhookUrl)
  {
    FindFirstIsFirst(condos, (c: Condo) => NamedAs(c, name));
    match FindFirst(condos, (c: Condo) => NamedAs(c, name))
    case None => DefaultWebhookUrl
    case Some(k) => NonEmpty(condos[k].webhookUrl).GetOr(DefaultWebhookUrl)
  }
}

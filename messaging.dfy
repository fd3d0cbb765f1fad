/**
 * The guard chain of the outbound-message endpoint. The endpoint only
 * reads the store: the delivery call and the message insert that would
 * follow the guards are not implemented, so a successful call answers
 * "ok" and changes nothing.
 */
module Messaging {
  import opened Models
  import opened PyStr

  /** A value of the JSON request body, as far as the endpoint can tell them apart. */
  datatype JsonValue = JString(text: string) | JNonString

  datatype Body = ErrorBody(error: string) | StatusBody(status: string, detail: string)

  /**
   * What the endpoint answers: a JSON response with its status code, or
   * an unhandled exception (calling `.strip()` on a non-string content).
   */
  datatype Response = JsonResponse(statusCode: int, body: Body) | InternalServerError

  const EmptyMessage: Response := JsonResponse(400, ErrorBody("message vide"))
  const UnknownDeal: Response := JsonResponse(404, ErrorBody("affaire inconnue"))
  const UnknownContact: Response := JsonResponse(404, ErrorBody("contact inconnu"))
  const MessageSent: Response := JsonResponse(200, StatusBody("ok", "message envoyé (stub)"))

  /** The body carries a non-string `content`. */
  predicate ContentMalformed(data: map<string, JsonValue>) {
    "content" in data && data["content"].JNonString?
  }

  /** The body carries no `content`, or only whitespace. */
  predicate ContentBlank(data: map<string, JsonValue>) {
    "content" !in data || (data["content"].JString? && AllSpace(data["content"].text))
  }

  /** The body carries a string `content` with at least one non-whitespace character. */
  predicate ContentPresent(data: map<string, JsonValue>) {
    "content" in data && data["content"].JString? && !AllSpace(data["content"].text)
  }

  /**
   * `send_whatsapp_message(deal_id, data)` against a store whose deals and
   * contacts are keyed by id: blank content is refused (400) before any
   * lookup, then an unknown deal (404), then a deal whose contact is
   * unknown (404); only a message with text for a deal with a contact
   * gets "ok".
   */
  function SendWhatsappMessage(dealId: int, data: map<string, JsonValue>,
                               deals: map<int, Deal>, contacts: map<int, Contact>): (r: Response)
    ensures r == InternalServerError <==> ContentMalformed(data)
    ensures r == EmptyMessage <==> ContentBlank(data)
    ensures r == UnknownDeal <==> ContentPresent(data) && dealId !in deals
    ensures r == UnknownContact <==>
      ContentPresent(data) && dealId in deals && deals[dealId].contactId !in contacts
    ensures r == MessageSent <==>
      ContentPresent(data) && dealId in deals && deals[dealId].contactId in contacts
  {
    var raw := if "content" in data then data["content"] else JString("");
    match raw
    case JNonString => InternalServerError
    case JString(text) =>
      var content := Strip(text);
      if content == [] then
        EmptyMessage
      else if dealId !in deals then
        UnknownDeal
      else if deals[dealId].contactId !in contacts then
        UnknownContact
      else
        MessageSent
  }

  /** The emptiness check comes first: with blank content the store is never consulted. */
  lemma BlankContentIgnoresStore(dealId: int, data: map<string, JsonValue>,
                                 deals: map<int, Deal>, contacts: map<int, Contact>,
                                 deals': map<int, Deal>, contacts': map<int, Contact>)
    requires ContentBlank(data)
    ensures SendWhatsappMessage(dealId, data, deals, contacts)
         == SendWhatsappMessage(dealId, data, deals', contacts')
         == EmptyMessage
  {
  }

  /** Surrounding whitespace in the content never changes the answer. */
  lemma ContentStrippedFirst(dealId: int, text: string, data: map<string, JsonValue>,
                             deals: map<int, Deal>, contacts: map<int, Contact>)
    requires "content" in data && data["content"] == JString(text)
    ensures SendWhatsappMessage(dealId, data, deals, contacts)
         == SendWhatsappMessage(dealId, data["content" := JString(Strip(text))], deals, contacts)
  {
    StripIdempotent(text);
  }

  /** The contact lookup uses the deal's `contact_id`, and only matters once the deal is found. */
  lemma UnknownDealIgnoresContacts(dealId: int, data: map<string, JsonValue>,
                                   deals: map<int, Deal>, contacts: map<int, Contact>,
                                   contacts': map<int, Contact>)
    requires dealId !in deals
    ensures SendWhatsappMessage(dealId, data, deals, contacts)
         == SendWhatsappMessage(dealId, data, deals, contacts')
  {
  }
}

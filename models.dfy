/**
 * The records of the CRM and the string constants stored in them.
 * The database columns `status`, `type` and `direction` hold plain
 * strings, so the records keep strings; the constant sets are closed
 * datatypes whose `Value` is the string the application writes.
 */
module Models {
  import opened Wrappers

  /** Timestamps are produced by a clock the model does not see. */
  type Timestamp = int

  /** Pipeline status of a deal. */
  datatype DealStatus = New | Quote | Scheduled | Closed {
    function Value(): (v: string)
      ensures v != []
    {
      match this
      case New => "new"
      case Quote => "quote"
      case Scheduled => "scheduled"
      case Closed => "closed"
    }
  }

  /** Profile of a contact. */
  datatype ContactType = Client | Prospect | Fournisseur | Autre {
    function Value(): (v: string)
      ensures v != []
    {
      match this
      case Client => "client"
      case Prospect => "prospect"
      case Fournisseur => "fournisseur"
      case Autre => "autre"
    }
  }

  /** Direction of a message relative to the business. */
  datatype MessageDirection = Inbound | Outbound {
    function Value(): (v: string)
      ensures v != []
    {
      match this
      case Inbound => "in"
      case Outbound => "out"
    }
  }

  const DealStatuses: seq<DealStatus> := [New, Quote, Scheduled, Closed]
  const ContactTypes: seq<ContactType> := [Client, Prospect, Fournisseur, Autre]
  const MessageDirections: seq<MessageDirection> := [Inbound, Outbound]

  /** Four statuses, every status among them, and distinct statuses store distinct strings. */
  lemma DealStatusValuesDistinct()
    ensures |DealStatuses| == 4 && forall st: DealStatus :: st in DealStatuses
    ensures forall a: DealStatus, b: DealStatus :: a.Value() == b.Value() ==> a == b
  {
    forall st: DealStatus ensures st in DealStatuses {
      match st
      case New => assert DealStatuses[0] == st;
      case Quote => assert DealStatuses[1] == st;
      case Scheduled => assert DealStatuses[2] == st;
      case Closed => assert DealStatuses[3] == st;
    }
  }

  lemma ContactTypeValuesDistinct()
    ensures |ContactTypes| == 4 && forall ct: ContactType :: ct in ContactTypes
    ensures forall a: ContactType, b: ContactType :: a.Value() == b.Value() ==> a == b
  {
    forall ct: ContactType ensures ct in ContactTypes {
      match ct
      case Client => assert ContactTypes[0] == ct;
      case Prospect => assert ContactTypes[1] == ct;
      case Fournisseur => assert ContactTypes[2] == ct;
      case Autre => assert ContactTypes[3] == ct;
    }
  }

  lemma MessageDirectionValuesDistinct()
    ensures |MessageDirections| == 2 && forall d: MessageDirection :: d in MessageDirections
    ensures Inbound.Value() != Outbound.Value()
  {
    forall d: MessageDirection ensures d in MessageDirections {
      match d
      case Inbound => assert MessageDirections[0] == d;
      case Outbound => assert MessageDirections[1] == d;
    }
  }

  /** A contact row; `contactType` is the column `type`. */
  datatype Contact = Contact(
    id: Option<int>,
    contactType: string,
    name: string,
    phone: string,
    email: Option<string>,
    company: Option<string>,
    address: Option<string>,
    tags: Option<string>,
    createdAt: Timestamp)

  /** A deal row, with the cached summary of its latest message. */
  datatype Deal = Deal(
    id: Option<int>,
    title: string,
    contactId: int,
    status: string,
    amountEstimated: Option<int>,
    lastMessagePreview: Option<string>,
    lastMessageChannel: Option<string>,
    lastMessageAt: Option<Timestamp>,
    createdAt: Timestamp)

  /** A message row. */
  datatype Message = Message(
    id: Option<int>,
    dealId: int,
    direction: string,
    channel: string,
    content: string,
    createdAt: Timestamp)

  /** `Contact(name=..., phone=...)`: every other column takes its declared default. */
  function NewContact(name: string, phone: string, now: Timestamp): (c: Contact)
    ensures c.id.None? && c.contactType == Client.Value()
    ensures c.name == name && c.phone == phone && c.createdAt == now
    ensures c.email.None? && c.company.None? && c.address.None? && c.tags.None?
  {
    Contact(None, Client.Value(), name, phone, None, None, None, None, now)
  }

  /** `Deal(title=..., contact_id=...)`: a new deal is in status "new" with no message summary. */
  function NewDeal(title: string, contactId: int, now: Timestamp): (d: Deal)
    ensures d.id.None? && d.status == New.Value()
    ensures d.title == title && d.contactId == contactId && d.createdAt == now
    ensures d.amountEstimated.None?
    ensures d.lastMessagePreview.None? && d.lastMessageChannel.None? && d.lastMessageAt.None?
  {
    Deal(None, title, contactId, New.Value(), None, None, None, None, now)
  }

  /** `Message(deal_id=..., direction=..., content=...)`: the channel defaults to "WhatsApp". */
  function NewMessage(dealId: int, direction: string, content: string, now: Timestamp): (m: Message)
    ensures m.id.None? && m.channel == "WhatsApp"
    ensures m.dealId == dealId && m.direction == direction
    ensures m.content == content && m.createdAt == now
  {
    Message(None, dealId, direction, "WhatsApp", content, now)
  }
}

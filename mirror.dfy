/** The values the notify handler reads from its inputs and writes to the
    timeline service, and the record of what one handled request did. */
module Mirror {
  import opened Wrappers

  type Bytes = seq<bv8>

  // ---------------------------------------------------------------------
  // Errors and outcomes

  /** The exceptions the handler's own code can raise. Any of them ends the
      request: nothing after the raising statement runs. */
  datatype Error =
    | KeyError(key: string)       // `d[key]` on a dictionary without `key`
    | IndexError(index: nat)      // `xs[index]` past the end of a list
    | TypeError(detail: string)   // `None` subscripted or concatenated to a string
    | NameError(name: string)     // a name the module never binds

  /** How handling ended: normally, or by an exception. */
  datatype Status = Done | Failed(error: Error)

  // ---------------------------------------------------------------------
  // The inbound notification (already parsed from JSON)

  /** One entry of `userActions`; each key may be absent. */
  datatype UserAction = UserAction(kind: Option<string>, payload: Option<string>)

  datatype Notification = Notification(
    userToken: Option<string>,
    collection: Option<string>,
    itemId: Option<string>,
    userActions: Option<seq<UserAction>>)

  // ---------------------------------------------------------------------
  // What the timeline service and the content sources return

  /** A location resource; it is echoed unchanged into the summary item. */
  datatype Location = Location(
    id: string,
    latitude: Option<real>,
    longitude: Option<real>,
    accuracy: Option<real>,
    displayName: Option<string>)

  /** One element of the nearby-events reply's `events` list. */
  datatype Event = Event(title: Option<string>)

  /** The nearby-events reply; `events` is absent when the key is missing. */
  datatype EventsReply = EventsReply(events: Option<seq<Event>>)

  datatype AttachmentRef = AttachmentRef(id: string)

  /** A timeline item as the service returns it. */
  datatype TimelineItem = TimelineItem(text: Option<string>, attachments: Option<seq<AttachmentRef>>)

  /** Attachment metadata. */
  datatype Attachment = Attachment(contentType: string, contentUrl: string)

  /** An HTTP response: status code and body. */
  datatype Response = Response(status: int, content: Bytes)

  /** One entry of the social feed's `data` list. */
  datatype FeedEntry = FeedEntry(text: Option<string>, images: Option<map<string, string>>)

  /** The social feed reply; `data` is absent (or null) when missing. */
  datatype SocialReply = SocialReply(data: Option<seq<FeedEntry>>)

  /** Every external call the handler makes, each given by the result it
      returns for its arguments. */
  datatype Service = Service(
    location: string -> Location,                             // locations().get(id)
    item: string -> TimelineItem,                             // timeline().get(id)
    attachment: (string, string) -> Attachment,               // attachments().get(itemId, attachmentId)
    fetch: string -> Response,                                // the authorised HTTP client's request(url)
    eventsNear: (Option<real>, Option<real>) -> EventsReply,  // nearby-events query for (lat, lng)
    socialFeed: SocialReply,                                  // the fixed social feed
    fullUrl: string -> string,                                // resolution of a site-relative URL
    image: (string, nat) -> Bytes)                            // image fetch (url, deadline in seconds)

  // ---------------------------------------------------------------------
  // What the handler writes

  /** A message handed to the item writer: `html` is the string 'on' for an
      HTML body, `imageUrl` may be null. */
  datatype Message = Message(html: string, text: string, imageUrl: Option<string>)

  datatype MenuValue = MenuValue(displayName: string, iconUrl: string)

  datatype MenuItem = MenuItem(action: string, id: Option<string>, values: seq<MenuValue>)

  /** An inserted item's body; `None` stands for a key the body does not have. */
  datatype Body = Body(
    html: Option<string>,
    text: Option<string>,
    location: Option<Location>,
    menuItems: seq<MenuItem>,
    level: string)

  /** A media upload attached to an insert. */
  datatype Media = Media(content: Bytes, mimeType: string, resumable: bool)

  /** One `timeline().insert(body, media_body)` call. */
  datatype Insert = Insert(body: Body, media: Option<Media>)

  /** What handling did: the inserts issued, in order, and how it ended. */
  datatype Run = Run(inserts: seq<Insert>, status: Status)

  const DEFAULT_LEVEL := "DEFAULT"

  /** Exactly one of `html` and `text`, at notification level DEFAULT. */
  predicate WellFormed(body: Body) {
    (body.html.Some? != body.text.Some?) && body.level == DEFAULT_LEVEL
  }

  predicate AllWellFormed(inserts: seq<Insert>) {
    forall i :: 0 <= i < |inserts| ==> WellFormed(inserts[i].body)
  }

  /** `done` issued before `r` ran. */
  function Prepend(done: seq<Insert>, r: Run): Run {
    Run(done + r.inserts, r.status)
  }

  lemma AppendAssoc(a: seq<Insert>, b: seq<Insert>, c: seq<Insert>)
    ensures a + (b + c) == (a + b) + c
  {
  }

  lemma PrependTwice(a: seq<Insert>, b: seq<Insert>, r: Run)
    ensures Prepend(a, Prepend(b, r)) == Prepend(a + b, r)
  {
    assert a + (b + r.inserts) == (a + b) + r.inserts;
  }

  /** `first` followed by `next`, unless `first` raised. */
  function Then(first: Run, next: Run): Run {
    if first.status.Failed? then first else Prepend(first.inserts, next)
  }
}

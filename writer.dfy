/** The item writer (`_generic_insert_item`): one insert per message, with an
    HTML or a text body. As intended (the corrected writer, see `GenericRun`)
    an image is fetched when the message names one; as written
    (`GenericRunAsWritten`) such a message raises NameError instead. */
module Writer {
  import opened Wrappers
  import opened Mirror

  /** The image fetch is given this many seconds. */
  const FETCH_DEADLINE: nat := 20

  const JPEG := "image/jpeg"

  /** `if media_link:` — the message names a non-empty image URL. */
  predicate HasImage(m: Message) {
    m.imageUrl.Some? && m.imageUrl.value != ""
  }

  /** The body written for a message: its text as `html` when the message's
      `html` flag is 'on', as `text` otherwise, never both. */
  function ItemBody(m: Message): (b: Body)
    ensures WellFormed(b)
    ensures b.html.Some? <==> m.html == "on"
    ensures b.html.Some? ==> b.html.value == m.text
    ensures b.text.Some? ==> b.text.value == m.text
    ensures b.location.None? && b.menuItems == []
  {
    var body := Body(None, None, None, [], DEFAULT_LEVEL);
    if m.html == "on" then body.(html := Some(m.text)) else body.(text := Some(m.text))
  }

  /** The URL actually fetched: a site-relative URL is made absolute first. */
  function ImageLink(url: string, svc: Service): (link: string)
    ensures |url| > 0 && url[0] == '/' ==> link == svc.fullUrl(url)
    ensures (|url| == 0 || url[0] != '/') ==> link == url
  {
    if |url| > 0 && url[0] == '/' then svc.fullUrl(url) else url
  }

  /** The media written for a message: present exactly when it names an
      image, holding that image's bytes as a resumable JPEG upload. */
  function ItemMedia(m: Message, svc: Service): (media: Option<Media>)
    ensures media.Some? <==> HasImage(m)
    ensures media.Some? ==>
      media.value == Media(svc.image(ImageLink(m.imageUrl.value, svc), FETCH_DEADLINE), JPEG, true)
  {
    if HasImage(m) then Some(Media(svc.image(ImageLink(m.imageUrl.value, svc), FETCH_DEADLINE), JPEG, true))
    else None
  }

  function ItemInsert(m: Message, svc: Service): Insert {
    Insert(ItemBody(m), ItemMedia(m, svc))
  }

  /** `_generic_insert_item(messages)` with the image fetch it evidently
      intends: exactly one insert per message, in list order, and it never
      raises. */
  function GenericRun(messages: seq<Message>, svc: Service): (r: Run)
    ensures r.status == Done
    ensures |r.inserts| == |messages|
    ensures forall k :: 0 <= k < |messages| ==> r.inserts[k] == ItemInsert(messages[k], svc)
    ensures AllWellFormed(r.inserts)
  {
    if messages == [] then Run([], Done)
    else Prepend([ItemInsert(messages[0], svc)], GenericRun(messages[1..], svc))
  }

  /** `_generic_insert_item(messages)` as written: `urlfetch` is never
      imported, so the first message that names an image raises NameError
      before its insert; the messages before it are inserted. */
  function GenericRunAsWritten(messages: seq<Message>): (r: Run)
    ensures r.status.Failed? <==> exists k :: 0 <= k < |messages| && HasImage(messages[k])
    ensures r.status.Failed? ==> r.status.error == NameError("urlfetch")
    ensures |r.inserts| <= |messages|
    ensures forall k :: 0 <= k < |r.inserts| ==> !HasImage(messages[k]) && r.inserts[k] == Insert(ItemBody(messages[k]), None)
    ensures r.status.Done? ==> |r.inserts| == |messages|
    ensures r.status.Failed? ==> |r.inserts| < |messages| && HasImage(messages[|r.inserts|])
  {
    if messages == [] then Run([], Done)
    else if HasImage(messages[0]) then Run([], Failed(NameError("urlfetch")))
    else Prepend([Insert(ItemBody(messages[0]), None)], GenericRunAsWritten(messages[1..]))
  }

  /** Without image URLs the code as written and the intended code agree; so
      the social stream, whose messages never name an image, is unaffected. */
  lemma {:induction false} AsWrittenAgreesWithoutImages(messages: seq<Message>, svc: Service)
    requires forall k :: 0 <= k < |messages| ==> !HasImage(messages[k])
    ensures GenericRunAsWritten(messages) == GenericRun(messages, svc)
  {
    if messages != [] {
      AsWrittenAgreesWithoutImages(messages[1..], svc);
    }
  }

  /** A single message naming an image: as written nothing is inserted and the
      request fails; as intended it is inserted with the image attached. */
  lemma ImageMessageBreaksAsWritten(svc: Service)
    ensures var m := Message("on", "<p>hi</p>", Some("/static/photo.jpg"));
      && GenericRunAsWritten([m]) == Run([], Failed(NameError("urlfetch")))
      && GenericRun([m], svc).status == Done
      && |GenericRun([m], svc).inserts| == 1
      && GenericRun([m], svc).inserts[0].media.Some?
  {
    var m := Message("on", "<p>hi</p>", Some("/static/photo.jpg"));
    assert HasImage(m);
  }
}

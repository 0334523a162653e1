/** The composition engine: the HTML and item bodies the handler builds from
    what it fetched. Nothing here escapes HTML: titles, image URLs and texts
    are pasted in as they came. */
module Compose {
  import opened Wrappers
  import opened Mirror

  // ---------------------------------------------------------------------
  // String helpers

  predicate StartsWith(s: string, prefix: string) {
    |prefix| <= |s| && s[..|prefix|] == prefix
  }

  predicate EndsWith(s: string, suffix: string) {
    |suffix| <= |s| && s[|s| - |suffix|..] == suffix
  }

  /** Python's `''.join(parts)`. */
  function Join(parts: seq<string>): string {
    if parts == [] then "" else parts[0] + Join(parts[1..])
  }

  /** The index of the first `c` in `s`, or `|s|` when `s` has none. */
  function IndexOf(s: string, c: char): (k: nat)
    ensures k <= |s|
    ensures forall j :: 0 <= j < k ==> s[j] != c
    ensures k < |s| ==> s[k] == c
  {
    if s == [] then 0 else if s[0] == c then 0 else 1 + IndexOf(s[1..], c)
  }

  // ---------------------------------------------------------------------
  // Nearby-events summary (the locations handler)

  /** At most this many events are listed. */
  const MAX_EVENTS: nat := 5

  const NEARBY_OPEN := "<article><section><div class=\"text-normal\"><p style=\"color: #f16924;\">Nearby Events</p><ul class=\"text-x-small\">"
  const NEARBY_CLOSE := "</section></article>"

  function ListItem(title: string): string {
    "<li>" + title + "</li>"
  }

  /** The events the list loop looks at: the first five, or all of them. */
  function FirstEvents(events: seq<Event>): (r: seq<Event>)
    ensures |r| == if |events| < MAX_EVENTS then |events| else MAX_EVENTS
    ensures r == events[..|r|]
  {
    if |events| <= MAX_EVENTS then events else events[..MAX_EVENTS]
  }

  /** One `<li>` per event, in order; a missing `title` raises KeyError. */
  function ListItems(events: seq<Event>): (r: Result<seq<string>, Error>)
    ensures r.Ok? <==> forall k :: 0 <= k < |events| ==> events[k].title.Some?
    ensures r.Ok? ==> |r.value| == |events|
    ensures r.Ok? ==> forall k :: 0 <= k < |events| ==> r.value[k] == ListItem(events[k].title.value)
    ensures r.Err? ==> r.error == KeyError("title")
  {
    if events == [] then Ok([])
    else
      match ListItems(events[..|events| - 1])
      case Err(e) => Err(e)
      case Ok(items) =>
        match events[|events| - 1].title
        case None => Err(KeyError("title"))
        case Some(t) => Ok(items + [ListItem(t)])
  }

  /** The list the locations handler renders: the `<li>` entries of the first
      min(5, |events|) events, in upstream order. Later events are never read,
      so a missing title there does not matter. */
  function EventItems(events: seq<Event>): (r: Result<seq<string>, Error>)
    ensures r.Ok? <==> forall k :: 0 <= k < |events| && k < MAX_EVENTS ==> events[k].title.Some?
    ensures r.Ok? ==> |r.value| == (if |events| < MAX_EVENTS then |events| else MAX_EVENTS)
    ensures r.Ok? ==> forall k :: 0 <= k < |r.value| ==> r.value[k] == ListItem(events[k].title.value)
    ensures r.Err? ==> r.error == KeyError("title")
  {
    ListItems(FirstEvents(events))
  }

  /** The summary HTML: the fixed heading, the joined list, then the closing
      tags. The `<div>` and `<ul>` it opens are never closed. */
  function NearbyHtml(items: seq<string>): (html: string)
    ensures StartsWith(html, NEARBY_OPEN) && EndsWith(html, NEARBY_CLOSE)
    ensures |html| == |NEARBY_OPEN| + |Join(items)| + |NEARBY_CLOSE|
    ensures html[|NEARBY_OPEN|..|html| - |NEARBY_CLOSE|] == Join(items)
  {
    NEARBY_OPEN + Join(items) + NEARBY_CLOSE
  }

  const SOCIAL_STREAM_ICON := "https://fbcdn-profile-a.akamaihd.net/hprofile-ak-ash4/373119_15818120260_657956353_q.jpg"

  /** The summary item's two menu items: the social-stream action, then delete. */
  const LOCATIONS_MENU := [
    MenuItem("CUSTOM", Some("social-stream"), [MenuValue("Social Stream", SOCIAL_STREAM_ICON)]),
    MenuItem("DELETE", None, [])
  ]

  /** The summary item's body. */
  function LocationsBody(location: Location, html: string): (b: Body)
    ensures WellFormed(b)
    ensures b.html == Some(html) && b.location == Some(location)
    ensures |b.menuItems| == 2
    ensures b.menuItems[0].action == "CUSTOM" && b.menuItems[0].id == Some("social-stream")
    ensures |b.menuItems[0].values| == 1 && b.menuItems[0].values[0].displayName == "Social Stream"
    ensures b.menuItems[1].action == "DELETE"
  {
    Body(Some(html), None, Some(location), LOCATIONS_MENU, DEFAULT_LEVEL)
  }

  // Reading the list back, to show what the rendering keeps and loses.

  /** The titles of a run of `<li>…</li>` entries, each title ending at its
      first '<'; `None` when `s` is not such a run. */
  function ParseItems(s: string): Option<seq<string>>
    decreases |s|
  {
    if s == "" then Some([])
    else if !StartsWith(s, "<li>") then None
    else
      var body := s[4..];
      var k := IndexOf(body, '<');
      var rest := body[k..];
      if !StartsWith(rest, "</li>") then None
      else
        match ParseItems(rest[5..])
        case None => None
        case Some(titles) => Some([body[..k]] + titles)
  }

  /** The titles listed in a nearby-events summary. */
  function ParseNearby(html: string): Option<seq<string>> {
    if |NEARBY_OPEN| + |NEARBY_CLOSE| <= |html| && StartsWith(html, NEARBY_OPEN) && EndsWith(html, NEARBY_CLOSE)
    then ParseItems(html[|NEARBY_OPEN|..|html| - |NEARBY_CLOSE|])
    else None
  }

  /** The title of each event, "" where it is missing. */
  function Titles(events: seq<Event>): (r: seq<string>)
    ensures |r| == |events|
    ensures forall k :: 0 <= k < |events| ==> r[k] == events[k].title.GetOr("")
  {
    seq(|events|, k requires 0 <= k < |events| => events[k].title.GetOr(""))
  }

  /** Reading one `<li>` entry whose title holds no '<' off the front. */
  lemma ParseItemsStep(t: string, tail: string)
    requires '<' !in t
    ensures ParseItems(ListItem(t) + tail) ==
      if ParseItems(tail).Some? then Some([t] + ParseItems(tail).value) else None
  {
    var s := ListItem(t) + tail;
    assert s == "<li>" + (t + ("</li>" + tail));
    assert StartsWith(s, "<li>");
    var body := s[4..];
    assert body == t + ("</li>" + tail);
    assert body[|t|] == '<';
    var k := IndexOf(body, '<');
    assert forall j :: 0 <= j < |t| ==> body[j] == t[j];
    assert k == |t|;
    assert body[..k] == t;
    var rest := body[k..];
    assert rest == "</li>" + tail;
    assert StartsWith(rest, "</li>");
    assert rest[5..] == tail;
  }

  lemma {:induction false} ParseJoinedItems(items: seq<string>, titles: seq<string>)
    requires |items| == |titles|
    requires forall k :: 0 <= k < |items| ==> items[k] == ListItem(titles[k])
    requires forall k :: 0 <= k < |titles| ==> '<' !in titles[k]
    ensures ParseItems(Join(items)) == Some(titles)
  {
    if items != [] {
      ParseJoinedItems(items[1..], titles[1..]);
      ParseItemsStep(titles[0], Join(items[1..]));
      assert [titles[0]] + titles[1..] == titles;
    }
  }

  /** The summary can be read back into the listed titles (the first five, in
      order) whenever no title holds a '<'. */
  lemma NearbyRoundTrip(events: seq<Event>)
    requires EventItems(events).Ok?
    requires forall k :: 0 <= k < |events| && k < MAX_EVENTS ==> '<' !in events[k].title.GetOr("")
    ensures ParseNearby(NearbyHtml(EventItems(events).value)) == Some(Titles(FirstEvents(events)))
  {
    var items := EventItems(events).value;
    var titles := Titles(FirstEvents(events));
    ParseJoinedItems(items, titles);
    var html := NearbyHtml(items);
    assert html[|NEARBY_OPEN|..|html| - |NEARBY_CLOSE|] == Join(items);
  }

  /** Titles are not escaped: one event whose title holds markup renders
      exactly like two plain events. */
  lemma MarkupTitleCollides()
    ensures EventItems([Event(Some("a</li><li>b"))]).Ok?
    ensures EventItems([Event(Some("a")), Event(Some("b"))]).Ok?
    ensures NearbyHtml(EventItems([Event(Some("a</li><li>b"))]).value)
         == NearbyHtml(EventItems([Event(Some("a")), Event(Some("b"))]).value)
  {
    var one := EventItems([Event(Some("a</li><li>b"))]).value;
    var two := EventItems([Event(Some("a")), Event(Some("b"))]).value;
    assert one == [ListItem("a</li><li>b")];
    assert two == [ListItem("a"), ListItem("b")];
    assert Join(one) == Join(two);
  }

  // ---------------------------------------------------------------------
  // Social-stream fragment (`_html`)

  const ARTICLE_OPEN := "<article class=\"photo\" style=\"background-color:#00a2a5\">"
  const OVERLAY := "<div class=\"photo-overlay\"/><section>"
  const ARTICLE_CLOSE := "</section></article>"
  const PARAGRAPH_END := "</p>"

  function ImageTag(image: string): string {
    "<img src=\"" + image + "\" height=\"100%\">"
  }

  function Paragraph(text: string): string {
    "<p class=\"text-auto-size\">" + (text + PARAGRAPH_END)
  }

  /** The `<img>` tag, or nothing when the image URL is empty. */
  function ImagePart(image: string): string {
    if image != "" then ImageTag(image) else ""
  }

  /** The text paragraph, or nothing when the text is empty. */
  function TextPart(text: string): string {
    if text != "" then Paragraph(text) else ""
  }

  /** `_html`'s card, the string its step-by-step concatenation builds: the
      opening tag, the image tag when there is an image, the overlay, the
      paragraph when there is text, the closing tags. Its length is the sum
      of those parts, so nothing else is written between them. */
  function Fragment(text: string, image: string): (r: string)
    ensures |r| == |ARTICLE_OPEN| + |ImagePart(image)| + |OVERLAY| + |TextPart(text)| + |ARTICLE_CLOSE|
  {
    ARTICLE_OPEN + (ImagePart(image) + (OVERLAY + (TextPart(text) + ARTICLE_CLOSE)))
  }

  lemma Affixes(a: string, b: string)
    ensures StartsWith(a + b, a) && (a + b)[|a|..] == b && EndsWith(a + b, b)
  {
  }

  lemma SuffixGrows(x: string, y: string, e: string)
    requires EndsWith(y, e)
    ensures EndsWith(x + y, e)
  {
    assert (x + y)[|x + y| - |e|..] == y[|y| - |e|..];
  }

  lemma SuffixExtends(x: string, y: string, z: string)
    requires EndsWith(x, y)
    ensures EndsWith(x + z, y + z)
  {
    assert (x + z)[|x + z| - |y + z|..] == x[|x| - |y|..] + z;
  }

  /** The card always opens and closes the article. */
  lemma FragmentFrame(text: string, image: string)
    ensures StartsWith(Fragment(text, image), ARTICLE_OPEN)
    ensures EndsWith(Fragment(text, image), ARTICLE_CLOSE)
  {
    var body := TextPart(text) + ARTICLE_CLOSE;
    var overlaid := OVERLAY + body;
    var after := ImagePart(image) + overlaid;
    Affixes(ARTICLE_OPEN, after);
    Affixes(TextPart(text), ARTICLE_CLOSE);
    SuffixGrows(OVERLAY, body, ARTICLE_CLOSE);
    SuffixGrows(ImagePart(image), overlaid, ARTICLE_CLOSE);
    SuffixGrows(ARTICLE_OPEN, after, ARTICLE_CLOSE);
  }

  /** What follows the opening tag: an `<img>` exactly when there is an image,
      and the overlay right after it. */
  lemma FragmentImage(text: string, image: string)
    ensures var after := Fragment(text, image)[|ARTICLE_OPEN|..];
      && (image != "" <==> StartsWith(after, "<img"))
      && StartsWith(after, ImagePart(image))
      && StartsWith(after[|ImagePart(image)|..], OVERLAY)
  {
    var overlaid := OVERLAY + (TextPart(text) + ARTICLE_CLOSE);
    var after := ImagePart(image) + overlaid;
    Affixes(ARTICLE_OPEN, after);
    Affixes(ImagePart(image), overlaid);
    Affixes(OVERLAY, TextPart(text) + ARTICLE_CLOSE);
    if image != "" {
      assert ImageTag(image)[..4] == "<img";
      assert after[..4] == ImageTag(image)[..4];
    } else {
      assert after == overlaid;
      assert after[1] == OVERLAY[1] == 'd';
    }
  }

  /** A suffix at most as long as a known suffix `y` of `x` ends `x` exactly
      when it ends `y`. */
  lemma SuffixOfSuffix(x: string, y: string, z: string)
    requires EndsWith(x, y) && |z| <= |y|
    ensures EndsWith(x, z) <==> EndsWith(y, z)
  {
    assert x[|x| - |z|..] == y[|y| - |z|..];
  }

  /** The card ends with the overlay, the text part and the closing tags. */
  lemma FragmentTail(text: string, image: string)
    ensures EndsWith(Fragment(text, image), OVERLAY + (TextPart(text) + ARTICLE_CLOSE))
  {
    var overlaid := OVERLAY + (TextPart(text) + ARTICLE_CLOSE);
    var after := ImagePart(image) + overlaid;
    Affixes(ImagePart(image), overlaid);
    SuffixGrows(ARTICLE_OPEN, after, overlaid);
  }

  /** With text, the paragraph end comes right before the closing tags. */
  lemma TextTailCloses(text: string)
    requires text != ""
    ensures EndsWith(OVERLAY + (Paragraph(text) + ARTICLE_CLOSE), PARAGRAPH_END + ARTICLE_CLOSE)
  {
    var lead := "<p class=\"text-auto-size\">" + text;
    Affixes(lead, PARAGRAPH_END);
    assert Paragraph(text) == lead + PARAGRAPH_END;
    SuffixExtends(Paragraph(text), PARAGRAPH_END, ARTICLE_CLOSE);
    SuffixGrows(OVERLAY, Paragraph(text) + ARTICLE_CLOSE, PARAGRAPH_END + ARTICLE_CLOSE);
  }

  /** Without text, the overlay runs straight into the closing tags. */
  lemma EmptyTailOpen()
    ensures !EndsWith(OVERLAY + ARTICLE_CLOSE, PARAGRAPH_END + ARTICLE_CLOSE)
  {
    var end := PARAGRAPH_END + ARTICLE_CLOSE;
    assert |OVERLAY + ARTICLE_CLOSE| - |end| == |OVERLAY| - 4;
    assert (OVERLAY + ARTICLE_CLOSE)[|OVERLAY| - 4] == OVERLAY[|OVERLAY| - 4] == 'i';
  }

  /** After the overlay, the paragraph end comes right before the closing
      tags exactly when there is text. */
  lemma TailClosing(text: string)
    ensures text != "" <==> EndsWith(OVERLAY + (TextPart(text) + ARTICLE_CLOSE), PARAGRAPH_END + ARTICLE_CLOSE)
  {
    if text != "" {
      TextTailCloses(text);
    } else {
      assert TextPart(text) + ARTICLE_CLOSE == ARTICLE_CLOSE;
      EmptyTailOpen();
    }
  }

  /** A paragraph ends the card, right before the closing tags, exactly when
      there is text; it comes right after the overlay. */
  lemma FragmentClosing(text: string, image: string)
    ensures var r := Fragment(text, image);
      && (text != "" <==> EndsWith(r, PARAGRAPH_END + ARTICLE_CLOSE))
      && EndsWith(r, OVERLAY + (TextPart(text) + ARTICLE_CLOSE))
  {
    var tail := OVERLAY + (TextPart(text) + ARTICLE_CLOSE);
    FragmentTail(text, image);
    TailClosing(text);
    SuffixOfSuffix(Fragment(text, image), tail, PARAGRAPH_END + ARTICLE_CLOSE);
  }

  const LOW_RESOLUTION := "low_resolution"

  /** The entry's image URL: "" unless `images` is a non-empty object. A
      non-empty `images` without `low_resolution` yields null, and the log
      line that concatenates it raises TypeError. */
  function EntryImage(entry: FeedEntry): (r: Result<string, Error>)
    ensures r.Err? <==> entry.images.Some? && entry.images.value != map[] && LOW_RESOLUTION !in entry.images.value
    ensures r.Ok? && r.value != "" ==>
      entry.images.Some? && LOW_RESOLUTION in entry.images.value && r.value == entry.images.value[LOW_RESOLUTION]
    ensures r.Ok? ==>
      r.value == (if entry.images.Some? && LOW_RESOLUTION in entry.images.value
                  then entry.images.value[LOW_RESOLUTION] else "")
  {
    match entry.images
    case Some(images) =>
      if images == map[] then Ok("")
      else if LOW_RESOLUTION in images then Ok(images[LOW_RESOLUTION])
      else Err(TypeError("cannot concatenate str and NoneType"))
    case None => Ok("")
  }

  /** `_html(entry)`. */
  function EntryHtml(entry: FeedEntry): (r: Result<string, Error>)
    ensures r.Ok? <==> EntryImage(entry).Ok?
    ensures r.Ok? ==> r.value == Fragment(entry.text.GetOr(""), EntryImage(entry).value)
  {
    match EntryImage(entry)
    case Err(e) => Err(e)
    case Ok(image) => Ok(Fragment(entry.text.GetOr(""), image))
  }

  // ---------------------------------------------------------------------
  // SHARE echo

  const ECHO_PREFIX := "Echoing your shared item: "

  /** The attachments of an item, none when the key is missing. */
  function Attachments(item: TimelineItem): seq<AttachmentRef> {
    item.attachments.GetOr([])
  }

  /** The echo item's body: text only, the prefix then the shared item's
      text ("" when it has none). */
  function EchoBody(item: TimelineItem): (b: Body)
    ensures WellFormed(b) && b.html.None?
    ensures b.text.Some? && StartsWith(b.text.value, ECHO_PREFIX)
    ensures b.text.value[|ECHO_PREFIX|..] == item.text.GetOr("")
    ensures b.location.None? && b.menuItems == []
  {
    Body(None, Some(ECHO_PREFIX + item.text.GetOr("")), None, [], DEFAULT_LEVEL)
  }

  const HTTP_OK := 200

  /** The echo's media: the first attachment's content with its content type,
      present exactly when the item has an attachment and fetching that
      attachment's content answered 200. No other attachment is looked at. */
  function EchoMedia(itemId: string, item: TimelineItem, svc: Service): (m: Option<Media>)
    ensures m.Some? <==>
      Attachments(item) != [] &&
      svc.fetch(svc.attachment(itemId, Attachments(item)[0].id).contentUrl).status == HTTP_OK
    ensures m.Some? ==>
      var attachment := svc.attachment(itemId, Attachments(item)[0].id);
      m.value == Media(svc.fetch(attachment.contentUrl).content, attachment.contentType, true)
  {
    var attachments := Attachments(item);
    if attachments == [] then None
    else
      var attachment := svc.attachment(itemId, attachments[0].id);
      var response := svc.fetch(attachment.contentUrl);
      if response.status == HTTP_OK then Some(Media(response.content, attachment.contentType, true))
      else None
  }

  /** Only the first attachment is consulted: two items with the same text and
      the same first attachment are echoed identically. */
  lemma EchoReadsFirstAttachmentOnly(itemId: string, a: TimelineItem, b: TimelineItem, svc: Service)
    requires a.text == b.text
    requires Attachments(a) == [] <==> Attachments(b) == []
    requires Attachments(a) != [] ==> Attachments(a)[0] == Attachments(b)[0]
    ensures EchoBody(a) == EchoBody(b)
    ensures EchoMedia(itemId, a, svc) == EchoMedia(itemId, b, svc)
  {
  }
}

# Glass `/notify` handler, modelled in Dafny

This project models the `/notify` request handler of the Glass Mirror API
sample. The handler receives a notification ping, reads `userToken`, and
routes on `collection`:

- A `locations` notification fetches the user's location and asks an events
  service what is nearby. It then inserts one timeline card listing the
  titles of at most five events, with a "Social Stream" and a delete menu
  item.
- A `timeline` notification scans the user actions in order:
  - the first `SHARE` echoes the shared item, with its first attachment's
    content when that content can be fetched, and ends the scan;
  - each `CUSTOM` action with payload `social-stream` republishes feed
    entries 0 to 4 as HTML cards, one insert per entry;
  - any other action is only logged.

The social-stream inserts go through `_generic_insert_item`; the locations
summary and the SHARE echo call the timeline insert directly. The item writer
turns a message into a body that has either `html` or `text`, at
notification level `DEFAULT`. It is meant to attach an image when the message
names one, but as written that path raises (see Findings); the social-stream
messages never name an image, so they are unaffected.

Layout:

- `wrappers.dfy` holds `Option` and `Result`.
- `mirror.dfy` is the data model: notifications, the JSON records the
  handler reads, insert bodies and media. It also defines `Service`, which
  holds what the external calls return. A `Run` records the inserts a piece
  of the handler issues and whether it ends normally or raises (`Status`).
- `compose.dfy` builds the HTML and the bodies: the nearby-events list and
  card, the `_html` social card, and the SHARE echo body and media.
- `writer.dfy` is `_generic_insert_item`, both as written and as intended
  (see Findings).
- `dispatch.dfy` holds the specification functions of each handler path
  (`PostRun`, `LocationsRun`, `TimelineRun`, `ShareRun`, `SocialRun`) and
  the lemmas about the action scan and the social-stream loop.
- `handler.dfy` is the class `NotifyHandler`. Its field `inserts` is the
  log of timeline inserts issued. Its loops follow the source (the item
  writer's loop follows the corrected writer, see Findings), and each
  method is proved to append exactly the inserts of its specification
  function and to end with the same status. Its invariant `Valid` says that
  every logged body has exactly one of `html` and `text`, at level
  `DEFAULT`.

A raised Python exception is modelled as a `Failed(error)` status. Inserts
issued before the raise stay in the log, because they were already sent.

## Model

| member | source | states |
|---|---|---|
| Handler.NotifyHandler.Post | notify/handler.py:36-48 | Appends exactly the inserts of `PostRun` and ends with its status, keeping every logged body well formed |
| Dispatch.PostRun | notify/handler.py:36-48 | A missing `userToken` raises KeyError before anything is inserted; `locations` runs the locations handler, `timeline` the timeline handler; any other or missing collection inserts nothing and ends normally; every insert is well formed |
| Dispatch.RouteOf | notify/handler.py:45-48 | Routes to locations iff the collection is "locations", to timeline iff it is "timeline" |
| Handler.NotifyHandler.CollectEventItems | notify/handler.py:59-65 | The counting loop with its break after the fifth item returns exactly `EventItems` |
| Compose.ListItems | notify/handler.py:61-62 | Succeeds iff every event has a title, giving one `<li>title</li>` per event in order; otherwise KeyError('title') |
| Compose.EventItems | notify/handler.py:59-65 | Succeeds iff each of the first min(5, n) events has a title; the list then has min(5, n) entries, each that event's `<li>`; later events are never read |
| Compose.FirstEvents | notify/handler.py:61-65 | The events the loop reads: the prefix of length min(5, n) |
| Compose.NearbyHtml | notify/handler.py:66 | The summary opens with the fixed heading and list tag, ends with the closing tags, and holds exactly the joined `<li>` list between them, whatever the titles contain |
| Compose.NearbyRoundTrip | notify/handler.py:59-66 | When no title holds '<', reading the summary back yields exactly the titles of the first five events, in order |
| Compose.ParseJoinedItems | notify/handler.py:62-66 | Joined `<li>` entries whose titles hold no '<' read back into those titles |
| Compose.MarkupTitleCollides | notify/handler.py:62-66 | Titles are not escaped: one event titled `a</li><li>b` renders the same summary as the two events `a` and `b` |
| Compose.LocationsBody | notify/handler.py:68-73 | The summary body has the HTML, the fetched location, a CUSTOM `social-stream` item with the single value "Social Stream" followed by a DELETE item, and level DEFAULT |
| Dispatch.LocationsRun | notify/handler.py:50-74 | Issues at most one insert, and exactly one iff it ends normally; every insert is well formed |
| Dispatch.LocationsOutcome | notify/handler.py:50-74 | Succeeds iff the item id is present, the events reply has `events`, and each of its first five events has a title; it then inserts the summary of those events with the location and no media; on failure nothing is inserted |
| Handler.NotifyHandler.HandleLocations | notify/handler.py:50-74 | Appends exactly the inserts of `LocationsRun` and ends with its status |
| Dispatch.Classify | notify/handler.py:79-105 | An action is SHARE iff its type is 'SHARE', and social-stream iff its type is 'CUSTOM' and its payload 'social-stream' |
| Dispatch.ShareRun | notify/handler.py:80-104 | Without an item id, raises KeyError('itemId') and inserts nothing; otherwise exactly one insert, the echo body with the echo media (`EchoBody`, `EchoMedia`): text only, the prefix and the item's text, with media iff the item has an attachment whose content fetch answered 200 |
| Compose.EchoBody | notify/handler.py:97-100 | The echo body is text only, the prefix followed by the shared item's text ("" when missing), at level DEFAULT |
| Compose.EchoMedia | notify/handler.py:82-96 | Media is present iff there are attachments and the first one's content fetch answered 200; it is then that content with the attachment's content type, resumable |
| Compose.EchoReadsFirstAttachmentOnly | notify/handler.py:82-96 | Two items with the same text and the same first attachment are echoed identically |
| Handler.NotifyHandler.EchoShare | notify/handler.py:80-102 | Appends exactly the inserts of `ShareRun` and ends with its status |
| Dispatch.Scan | notify/handler.py:78-109 | If the echo and the social stream insert only well-formed bodies, so does the whole scan |
| Dispatch.ScanShare | notify/handler.py:79-104 | The scan at a SHARE action is the echo and nothing after it |
| Dispatch.ScanSocial | notify/handler.py:105-106 | The scan at a social-stream action runs the social stream, then goes on unless it raised |
| Dispatch.ScanUnhandled | notify/handler.py:107-109 | The scan at any other action is the scan of the rest |
| Dispatch.TimelineRun | notify/handler.py:76-109 | A missing `userActions` inserts nothing and ends normally; every insert is well formed |
| Dispatch.ShareEndsScan | notify/handler.py:103-104 | No action after a SHARE changes the outcome |
| Dispatch.UnhandledIgnored | notify/handler.py:107-109 | Removing an unhandled action changes nothing |
| Dispatch.ScanUpToFirstShare | notify/handler.py:78-109 | With a social stream that ends normally, the scan inserts one social-stream run per social-stream action before the first SHARE, then the echo, and ends as the echo ends |
| Dispatch.ScanWithoutShare | notify/handler.py:78-109 | With no SHARE and a social stream that ends normally, the scan inserts one social-stream run per social-stream action and ends normally |
| Dispatch.SocialFailureEndsScan | notify/handler.py:105-106 | A social stream that raises ends the scan at the first social-stream action, with its partial inserts |
| Handler.NotifyHandler.HandleTimeline | notify/handler.py:76-109 | The loop with its break after the first SHARE appends exactly the inserts of `TimelineRun` and ends with its status |
| Dispatch.SocialRun | notify/handler.py:111-124 | A feed without `data` raises TypeError before inserting anything; every insert is well formed |
| Dispatch.SocialFrom | notify/handler.py:116-124 | Every insert of the loop from any entry on is well formed |
| Dispatch.SocialStop | notify/handler.py:116-124 | Where the loop stops: no earlier than its start, at entry 5 at the latest, after entries that all exist and render, and before an entry that does not render |
| Dispatch.SocialFromOutcome | notify/handler.py:116-124 | The loop inserts one HTML card per entry up to where it stops, in index order; it ends normally only at entry 5, raises IndexError past the end of the feed, and raises the card's error on a card that fails |
| Dispatch.SocialStopAtEnd | notify/handler.py:116-118 | When every entry the loop reaches renders, it stops at min(5, n) |
| Dispatch.SocialStreamReadsFive | notify/handler.py:111-124 | When every card renders, the stream inserts entries 0 to min(5, n)-1 in order; a feed with fewer than five entries then raises IndexError(n), otherwise it ends normally |
| Dispatch.SocialMessage | notify/handler.py:122 | An entry's message names no image, and the item writer makes its card the `html` of a body without `text` |
| Dispatch.SocialMessageRun | notify/handler.py:122-124 | An entry's message goes through the item writer as one HTML item without media |
| Dispatch.SocialFromStep | notify/handler.py:116-124 | One turn of the loop at an entry that renders inserts its card, then continues from the next entry |
| Handler.NotifyHandler.InsertSocialStream | notify/handler.py:111-124 | The `range(0,5)` loop appends exactly the inserts of `SocialRun` and ends with its status |
| Compose.EntryImage | notify/handler.py:129-131 | Raises TypeError iff `images` is a non-empty object without `low_resolution`; otherwise the image is the entry's `low_resolution` URL when `images` holds one, and "" when `images` is missing or empty |
| Compose.Fragment | notify/handler.py:133-139 | The card's length is exactly that of the opening tag, the image part, the overlay, the text part and the closing tags, so nothing else is written between them (with `FragmentFrame`, `FragmentImage` and `FragmentClosing` fixing their order) |
| Compose.EntryHtml | notify/handler.py:126-142 | Succeeds iff the image lookup does, and is then the card for the entry's text ("" when missing) and image |
| Compose.FragmentFrame | notify/handler.py:133-139 | The card opens with the photo article tag and ends with the closing tags |
| Compose.FragmentImage | notify/handler.py:133-136 | After the opening tag comes an `<img>` iff the image is non-empty, followed by the overlay |
| Compose.FragmentClosing | notify/handler.py:136-139 | The card ends with a paragraph right before the closing tags iff the text is non-empty, and the overlay precedes that text part |
| Compose.TailClosing | notify/handler.py:137-139 | After the overlay, `</p>` directly precedes the closing tags iff the text is non-empty |
| Writer.ItemBody | notify/handler.py:161-167 | The body has exactly one of `html` and `text`, at level DEFAULT: `html` iff the message's flag is 'on', holding the message text |
| Writer.ImageLink | notify/handler.py:172-173 | A URL starting with '/' is made absolute through the site's full-URL resolution; any other URL is fetched unchanged |
| Writer.ItemMedia | notify/handler.py:169-178 | As intended (the corrected writer, see Findings; as written line 174 raises): media is present iff the message names a non-empty image URL; it is then that image (site-relative URLs made absolute), fetched with deadline 20, as a resumable image/jpeg |
| Writer.GenericRun | notify/handler.py:145-180 | As intended (the corrected writer, see Findings; as written a message naming an image raises): one insert per message, in order, each the message's body and media; it never raises; every insert is well formed |
| Writer.GenericRunAsWritten | notify/handler.py:160-180 | Raises NameError('urlfetch') iff some message names an image; the inserts before it are those of the messages before the first such message, without media |
| Writer.AsWrittenAgreesWithoutImages | notify/handler.py:169-178 | Without image URLs, the code as written and as intended issue the same inserts |
| Writer.ImageMessageBreaksAsWritten | notify/handler.py:174 | A single message naming an image inserts nothing and raises as written, and is inserted with media as intended |
| Handler.NotifyHandler.GenericInsertItem | notify/handler.py:145-180 | Follows the corrected writer (the image fetch at line 174 made to work): the loop appends exactly the inserts of `GenericRun` and ends normally; on the image-free messages the social stream passes, this is also what the code as written does (`Writer.AsWrittenAgreesWithoutImages`) |
| Handler.NotifyHandler.InsertItem | notify/handler.py:180 | One insert call appends its body and media to the log and keeps every logged body well formed |

## Left out

- Reading the request body and JSON parsing: the model starts from a parsed notification. A JSON value of an unexpected type (a non-string title, a non-object `images`, a null `low_resolution`) is not modelled.
- A JSON null is read as an absent key for `userToken`, `itemId`, `userActions`, `events` and a shared item's `text`, where Python's `d.get(key, default)` and `d[key]` return `None` instead. The model then differs from the source in these cases: a null `userToken` or `itemId` raises KeyError in the model, while the source goes on with `None`; a null `userActions` or `events` ends normally or raises KeyError in the model, while iterating over `None` raises TypeError in the source; a null shared-item `text` is echoed as the bare prefix in the model, while the source echoes the prefix followed by "None".
- Credentials, `StorageByKeyName` and `util.create_service` are not modelled. Reading `userToken` and its KeyError are.
- The external calls (the locations, timeline and attachment fetches, the events service, the social feed, the attachment content request and the image fetch) become fields of `Service`. Their own failures (network errors, HTTP errors raised by `execute()`) are not modelled; each call returns the service's value.
- The social feed is one value per request: every `_insert_social_stream` call in one request reads the same feed.
- `util.get_full_url` is the `fullUrl` field of `Service`.
- Wrapping bytes in `io.BytesIO` and `MediaIoBaseUpload` is modelled as a `Media` value holding the content, the MIME type and the resumable flag.
- Logging is left out. The one log line that raises (the image URL concatenation in `_html`) is modelled as the TypeError of `EntryImage`.
- The events query URL is built from the latitude and longitude with `%s` formatting. The model passes the two optional coordinates to the events service instead of formatting the URL.
- Missing keys inside fetched records (an attachment without `id`, `contentUrl` or `contentType`) are not modelled; these fields are always present in the model.

## Findings

| source | as written | input that shows it | evidently intended | confidence | as-written member | corrected member |
|---|---|---|---|---|---|---|
| notify/handler.py:174 | `urlfetch.fetch` is called, but `urlfetch` is never imported, so any message with a non-empty `imageUrl` raises NameError before its insert | one message `{'html': 'on', 'text': '<p>hi</p>', 'imageUrl': '/static/photo.jpg'}` | fetch the image with a 20-second deadline and insert it as a resumable image/jpeg | not executed | Writer.GenericRunAsWritten (shown by Writer.ImageMessageBreaksAsWritten) | Writer.GenericRun |

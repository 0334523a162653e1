/** What handling one notification does, as functions of the notification and
    of what the external calls return: the collection routing, the locations
    handler, the timeline action scan with its SHARE and social-stream
    branches. */
module Dispatch {
  import opened Wrappers
  import opened Mirror
  import opened Compose
  import opened Writer

  // ---------------------------------------------------------------------
  // Collection routing

  datatype Route = ToLocations | ToTimeline | Ignored

  /** Where `post` sends a notification: by its `collection` alone. */
  function RouteOf(collection: Option<string>): (r: Route)
    ensures r == ToLocations <==> collection == Some("locations")
    ensures r == ToTimeline <==> collection == Some("timeline")
  {
    if collection == Some("locations") then ToLocations
    else if collection == Some("timeline") then ToTimeline
    else Ignored
  }

  // ---------------------------------------------------------------------
  // Locations handler

  /** The locations handler: fetch the location, query nearby events at its
      coordinates (even missing ones), and insert one summary item. */
  function LocationsRun(itemId: Option<string>, svc: Service): (r: Run)
    ensures AllWellFormed(r.inserts)
    ensures |r.inserts| <= 1
    ensures r.status.Done? <==> |r.inserts| == 1
  {
    match itemId
    case None => Run([], Failed(KeyError("itemId")))
    case Some(id) =>
      var location := svc.location(id);
      var reply := svc.eventsNear(location.latitude, location.longitude);
      match reply.events
      case None => Run([], Failed(KeyError("events")))
      case Some(events) =>
        match EventItems(events)
        case Err(e) => Run([], Failed(e))
        case Ok(items) => Run([Insert(LocationsBody(location, NearbyHtml(items)), None)], Done)
  }

  /** The locations handler succeeds exactly when the notification names an
      item, the nearby-events reply has `events` and each of its first five
      events has a title; missing coordinates play no part. It then issues
      one insert: the summary HTML of those (at most five) events as `html`,
      the fetched location unchanged, the social-stream and delete menu items,
      level DEFAULT and no media. */
  lemma LocationsOutcome(itemId: Option<string>, svc: Service)
    ensures var r := LocationsRun(itemId, svc);
      r.status.Done? <==>
        && itemId.Some?
        && var location := svc.location(itemId.value);
           var reply := svc.eventsNear(location.latitude, location.longitude);
           && reply.events.Some?
           && forall k :: 0 <= k < |reply.events.value| && k < MAX_EVENTS ==> reply.events.value[k].title.Some?
    ensures var r := LocationsRun(itemId, svc);
      r.status.Done? ==>
        var location := svc.location(itemId.value);
        var events := svc.eventsNear(location.latitude, location.longitude).events.value;
        && r.inserts[0].media.None?
        && r.inserts[0].body == LocationsBody(location, NearbyHtml(EventItems(events).value))
        && |EventItems(events).value| == (if |events| < MAX_EVENTS then |events| else MAX_EVENTS)
    ensures var r := LocationsRun(itemId, svc);
      r.status.Failed? ==> r.inserts == []
  {
  }

  // ---------------------------------------------------------------------
  // Timeline handler: classifying a user action

  datatype ActionKind = Share | SocialStream | Unhandled

  const SOCIAL_STREAM := "social-stream"

  /** A SHARE action, a CUSTOM action whose payload is 'social-stream', or
      anything else. */
  function Classify(action: UserAction): (k: ActionKind)
    ensures k == Share <==> action.kind == Some("SHARE")
    ensures k == SocialStream <==> action.kind == Some("CUSTOM") && action.payload == Some(SOCIAL_STREAM)
  {
    if action.kind == Some("SHARE") then Share
    else if action.kind == Some("CUSTOM") && action.payload == Some(SOCIAL_STREAM) then SocialStream
    else Unhandled
  }

  // ---------------------------------------------------------------------
  // SHARE: echo the shared item

  /** The SHARE branch: fetch the item and insert one text echo of it, with
      its first attachment's content as media when that content could be
      fetched. A failed fetch only drops the media. */
  function ShareRun(itemId: Option<string>, svc: Service): (r: Run)
    ensures AllWellFormed(r.inserts)
    ensures itemId.None? ==> r == Run([], Failed(KeyError("itemId")))
    ensures itemId.Some? ==>
      var item := svc.item(itemId.value);
      && r.status == Done
      && |r.inserts| == 1
      && r.inserts[0].body.html.None?
      && r.inserts[0].body.text == Some(ECHO_PREFIX + item.text.GetOr(""))
      && (r.inserts[0].media.Some? <==>
            Attachments(item) != [] &&
            svc.fetch(svc.attachment(itemId.value, Attachments(item)[0].id).contentUrl).status == HTTP_OK)
    ensures itemId.Some? ==>
      r.inserts[0] == Insert(EchoBody(svc.item(itemId.value)), EchoMedia(itemId.value, svc.item(itemId.value), svc))
  {
    match itemId
    case None => Run([], Failed(KeyError("itemId")))
    case Some(id) =>
      var item := svc.item(id);
      Run([Insert(EchoBody(item), EchoMedia(id, item, svc))], Done)
  }

  // ---------------------------------------------------------------------
  // CUSTOM 'social-stream': republish five feed entries

  /** Entries 0 to 4 are read, unconditionally. */
  const SOCIAL_ENTRIES: nat := 5

  /** The message built for one entry: its card as HTML, no image. */
  function SocialMessage(html: string): (m: Message)
    ensures !HasImage(m)
    ensures ItemBody(m).html == Some(html) && ItemBody(m).text.None?
  {
    Message("on", html, None)
  }

  /** The item inserted for an entry whose card is `html`. */
  function SocialItem(html: string): Insert {
    Insert(Body(Some(html), None, None, [], DEFAULT_LEVEL), None)
  }

  /** A feed entry's card, as `_html` renders it. */
  type Card = FeedEntry -> Result<string, Error>

  /** The social-stream loop from entry `count` on: each entry is inserted on
      its own, before the next one is read. The loop and its lemmas are stated
      for any `card`; the handler uses `EntryHtml`. */
  function SocialFrom(entries: seq<FeedEntry>, count: nat, card: Card, svc: Service): (r: Run)
    ensures AllWellFormed(r.inserts)
    decreases SOCIAL_ENTRIES - count
  {
    if count >= SOCIAL_ENTRIES then Run([], Done)
    else if count >= |entries| then Run([], Failed(IndexError(count)))
    else
      match card(entries[count])
      case Err(e) => Run([], Failed(e))
      case Ok(html) => Then(GenericRun([SocialMessage(html)], svc), SocialFrom(entries, count + 1, card, svc))
  }

  /** One entry's message goes through the item writer as one item. */
  lemma SocialMessageRun(html: string, svc: Service)
    ensures GenericRun([SocialMessage(html)], svc) == Run([SocialItem(html)], Done)
  {
    assert [SocialMessage(html)][1..] == [];
  }

  /** One turn of the social-stream loop, at an entry whose card renders. */
  lemma SocialFromStep(entries: seq<FeedEntry>, count: nat, card: Card, svc: Service)
    requires count < SOCIAL_ENTRIES && count < |entries| && card(entries[count]).Ok?
    ensures SocialFrom(entries, count, card, svc)
      == Prepend([SocialItem(card(entries[count]).value)], SocialFrom(entries, count + 1, card, svc))
  {
    SocialMessageRun(card(entries[count]).value, svc);
  }

  /** `_insert_social_stream`: a feed without `data` raises at once. */
  function SocialRun(svc: Service): (r: Run)
    ensures AllWellFormed(r.inserts)
    ensures svc.socialFeed.data.None? ==> r.inserts == [] && r.status.Failed? && r.status.error.TypeError?
  {
    match svc.socialFeed.data
    case None => Run([], Failed(TypeError("'NoneType' object is not subscriptable")))
    case Some(entries) => SocialFrom(entries, 0, EntryHtml, svc)
  }

  /** Where the social-stream loop started at `count` stops: at entry 5, at
      the end of the feed, or at an entry whose card raises. */
  function SocialStop(entries: seq<FeedEntry>, count: nat, card: Card): (n: nat)
    ensures count <= n
    ensures n == count || n <= SOCIAL_ENTRIES
    ensures forall k :: count <= k < n ==> k < |entries| && !card(entries[k]).Err?
    ensures n < SOCIAL_ENTRIES && n < |entries| ==> card(entries[n]).Err?
    decreases SOCIAL_ENTRIES - count
  {
    if count >= SOCIAL_ENTRIES || count >= |entries| || card(entries[count]).Err? then count
    else SocialStop(entries, count + 1, card)
  }

  /** The loop from `count` inserts one card item per entry from `count` up to
      where it stops, in index order, and then ends normally only if it got
      to entry 5; past the end of the feed it raises IndexError, on a card
      that raises it raises that card's error. */
  lemma {:induction false} SocialFromOutcome(entries: seq<FeedEntry>, count: nat, card: Card, svc: Service)
    ensures var n := SocialStop(entries, count, card);
      var r := SocialFrom(entries, count, card, svc);
      && |r.inserts| == n - count
      && (forall k :: count <= k < n ==> k < |entries| && card(entries[k]).Ok? && r.inserts[k - count] == SocialItem(card(entries[k]).value))
      && r.status == (if n >= SOCIAL_ENTRIES then Done
                      else if n >= |entries| then Failed(IndexError(n))
                      else Failed(card(entries[n]).error))
    decreases SOCIAL_ENTRIES - count
  {
    var n := SocialStop(entries, count, card);
    var r := SocialFrom(entries, count, card, svc);
    if count >= SOCIAL_ENTRIES || count >= |entries| {
      assert n == count && r.inserts == [];
    } else if card(entries[count]).Err? {
      assert n == count && r == Run([], Failed(card(entries[count]).error));
    } else {
      var html := card(entries[count]).value;
      var rest := SocialFrom(entries, count + 1, card, svc);
      SocialFromOutcome(entries, count + 1, card, svc);
      assert n == SocialStop(entries, count + 1, card);
      SocialFromStep(entries, count, card, svc);
      forall k | count <= k < n
        ensures k < |entries| && card(entries[k]).Ok? && r.inserts[k - count] == SocialItem(card(entries[k]).value)
      {
        if k > count {
          assert r.inserts[k - count] == rest.inserts[k - (count + 1)];
        }
      }
    }
  }

  /** Where the loop stops when every entry it reaches has a card. */
  lemma {:induction false} SocialStopAtEnd(entries: seq<FeedEntry>, count: nat, card: Card)
    requires count <= SOCIAL_ENTRIES
    requires forall k :: count <= k < |entries| && k < SOCIAL_ENTRIES ==> card(entries[k]).Ok?
    ensures SocialStop(entries, count, card) == if |entries| < SOCIAL_ENTRIES then (if count < |entries| then |entries| else count) else SOCIAL_ENTRIES
    decreases SOCIAL_ENTRIES - count
  {
    if count < SOCIAL_ENTRIES && count < |entries| {
      SocialStopAtEnd(entries, count + 1, card);
    }
  }

  /** With every card well formed, the social stream inserts exactly entries
      0 to 4, each on its own and in index order; a feed with fewer than five
      entries inserts them all and then raises IndexError. */
  lemma SocialStreamReadsFive(entries: seq<FeedEntry>, svc: Service)
    requires svc.socialFeed.data == Some(entries)
    requires forall k :: 0 <= k < |entries| && k < SOCIAL_ENTRIES ==> EntryHtml(entries[k]).Ok?
    ensures var r := SocialRun(svc);
      && |r.inserts| == (if |entries| < SOCIAL_ENTRIES then |entries| else SOCIAL_ENTRIES)
      && (forall k :: 0 <= k < |r.inserts| ==> r.inserts[k] == SocialItem(EntryHtml(entries[k]).value))
      && (r.status == if |entries| < SOCIAL_ENTRIES then Failed(IndexError(|entries|)) else Done)
  {
    SocialFromOutcome(entries, 0, EntryHtml, svc);
    SocialStopAtEnd(entries, 0, EntryHtml);
  }

  // ---------------------------------------------------------------------
  // Timeline handler: the action scan

  /** The scan over the user actions, where `echo` is what the SHARE branch
      does and `social` what one social-stream run does: the first SHARE is
      echoed and ends the scan; each social-stream action runs the social
      stream and the scan goes on unless it raised; other actions are
      skipped. */
  function Scan(actions: seq<UserAction>, echo: Run, social: Run): (r: Run)
    ensures AllWellFormed(echo.inserts) && AllWellFormed(social.inserts) ==> AllWellFormed(r.inserts)
    decreases |actions|
  {
    if actions == [] then Run([], Done)
    else
      match Classify(actions[0])
      case Share => echo
      case SocialStream => Then(social, Scan(actions[1..], echo, social))
      case Unhandled => Scan(actions[1..], echo, social)
  }

  /** One step of the scan, at a SHARE action: the scan ends with the echo. */
  lemma ScanShare(actions: seq<UserAction>, i: nat, echo: Run, social: Run)
    requires i < |actions| && Classify(actions[i]) == Share
    ensures Scan(actions[i..], echo, social) == echo
  {
    assert actions[i..][0] == actions[i];
  }

  /** One step of the scan, at a social-stream action. */
  lemma ScanSocial(actions: seq<UserAction>, i: nat, echo: Run, social: Run)
    requires i < |actions| && Classify(actions[i]) == SocialStream
    ensures Scan(actions[i..], echo, social) == Then(social, Scan(actions[i + 1..], echo, social))
  {
    assert actions[i..][0] == actions[i] && actions[i..][1..] == actions[i + 1..];
  }

  /** One step of the scan, at any other action. */
  lemma ScanUnhandled(actions: seq<UserAction>, i: nat, echo: Run, social: Run)
    requires i < |actions| && Classify(actions[i]) == Unhandled
    ensures Scan(actions[i..], echo, social) == Scan(actions[i + 1..], echo, social)
  {
    assert actions[i..][0] == actions[i] && actions[i..][1..] == actions[i + 1..];
  }

  /** `_handle_timeline_notification`: a missing `userActions` is an empty list. */
  function TimelineRun(data: Notification, svc: Service): (r: Run)
    ensures AllWellFormed(r.inserts)
    ensures data.userActions.None? ==> r == Run([], Done)
  {
    Scan(data.userActions.GetOr([]), ShareRun(data.itemId, svc), SocialRun(svc))
  }

  /** The number of social-stream actions in `actions`. */
  function SocialCount(actions: seq<UserAction>): nat {
    if actions == [] then 0
    else (if Classify(actions[0]) == SocialStream then 1 else 0) + SocialCount(actions[1..])
  }

  /** `s` repeated `n` times. */
  function Repeat<T>(s: seq<T>, n: nat): seq<T> {
    if n == 0 then [] else s + Repeat(s, n - 1)
  }

  /** No action after a SHARE is ever examined. */
  lemma {:induction false} ShareEndsScan(before: seq<UserAction>, share: UserAction, after: seq<UserAction>, echo: Run, social: Run)
    requires Classify(share) == Share
    ensures Scan(before + [share] + after, echo, social) == Scan(before + [share], echo, social)
  {
    if before != [] {
      ShareEndsScan(before[1..], share, after, echo, social);
      assert (before + [share] + after)[1..] == before[1..] + [share] + after;
      assert (before + [share])[1..] == before[1..] + [share];
    } else {
      assert (before + [share] + after)[0] == share == (before + [share])[0];
    }
  }

  /** An action that is neither SHARE nor social-stream changes nothing. */
  lemma {:induction false} UnhandledIgnored(before: seq<UserAction>, other: UserAction, after: seq<UserAction>, echo: Run, social: Run)
    requires Classify(other) == Unhandled
    ensures Scan(before + [other] + after, echo, social) == Scan(before + after, echo, social)
  {
    if before == [] {
      var actions := before + [other] + after;
      assert actions == [other] + after && actions[0] == other;
      assert actions[1..] == after == before + after;
    } else {
      UnhandledIgnored(before[1..], other, after, echo, social);
      assert (before + [other] + after)[1..] == before[1..] + [other] + after;
      assert (before + after)[1..] == before[1..] + after;
    }
  }

  /** With a social stream that ends normally, a scan whose first SHARE is
      `share` runs the social stream once per social-stream action before it,
      in order, then echoes the shared item, and stops there. */
  lemma {:induction false} ScanUpToFirstShare(before: seq<UserAction>, share: UserAction, after: seq<UserAction>, echo: Run, social: Run)
    requires forall k :: 0 <= k < |before| ==> Classify(before[k]) != Share
    requires Classify(share) == Share
    requires social.status == Done
    ensures Scan(before + [share] + after, echo, social) == Prepend(Repeat(social.inserts, SocialCount(before)), echo)
  {
    var actions := before + [share] + after;
    if before == [] {
      assert actions == [share] + after;
      assert actions[0] == share;
    } else {
      var tail := before[1..] + [share] + after;
      assert actions[0] == before[0] && actions[1..] == tail;
      ScanUpToFirstShare(before[1..], share, after, echo, social);
      var count := SocialCount(before[1..]);
      if Classify(before[0]) == SocialStream {
        assert Repeat(social.inserts, count + 1) == social.inserts + Repeat(social.inserts, count);
      }
    }
  }

  /** With a social stream that ends normally and no SHARE, the scan runs the
      social stream once per social-stream action and ends normally. */
  lemma {:induction false} ScanWithoutShare(actions: seq<UserAction>, echo: Run, social: Run)
    requires forall k :: 0 <= k < |actions| ==> Classify(actions[k]) != Share
    requires social.status == Done
    ensures Scan(actions, echo, social) == Run(Repeat(social.inserts, SocialCount(actions)), Done)
  {
    if actions != [] {
      ScanWithoutShare(actions[1..], echo, social);
    }
  }

  /** A social stream that raises ends the scan at the first social-stream
      action, with its partial inserts, if nothing but unhandled actions come
      before it. */
  lemma {:induction false} SocialFailureEndsScan(before: seq<UserAction>, action: UserAction, after: seq<UserAction>, echo: Run, social: Run)
    requires forall k :: 0 <= k < |before| ==> Classify(before[k]) == Unhandled
    requires Classify(action) == SocialStream
    requires social.status.Failed?
    ensures Scan(before + [action] + after, echo, social) == social
  {
    var actions := before + [action] + after;
    if before == [] {
      assert actions == [action] + after && actions[0] == action;
    } else {
      SocialFailureEndsScan(before[1..], action, after, echo, social);
      assert actions[0] == before[0] && actions[1..] == before[1..] + [action] + after;
    }
  }

  // ---------------------------------------------------------------------
  // The whole request

  /** `post`: read `userToken` (a missing one raises KeyError before
      anything else), then route by collection. An unknown or missing
      collection inserts nothing and ends normally. Every insert on every
      path has exactly one of `html` and `text`, at level DEFAULT. */
  function PostRun(data: Notification, svc: Service): (r: Run)
    ensures AllWellFormed(r.inserts)
    ensures data.userToken.None? ==> r == Run([], Failed(KeyError("userToken")))
    ensures data.userToken.Some? && data.collection == Some("locations") ==> r == LocationsRun(data.itemId, svc)
    ensures data.userToken.Some? && data.collection == Some("timeline") ==> r == TimelineRun(data, svc)
    ensures data.userToken.Some? && data.collection != Some("locations") && data.collection != Some("timeline")
      ==> r == Run([], Done)
  {
    if data.userToken.None? then Run([], Failed(KeyError("userToken")))
    else
      match RouteOf(data.collection)
      case ToLocations => LocationsRun(data.itemId, svc)
      case ToTimeline => TimelineRun(data, svc)
      case Ignored => Run([], Done)
  }
}

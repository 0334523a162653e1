/** The `/notify` request handler. Each handler method issues its timeline
    inserts by appending them to `inserts`, and is proved to issue exactly
    the inserts, and end exactly as, the function in `Dispatch` (or
    `Writer`) that specifies it. */
module Handler {
  import opened Wrappers
  import opened Mirror
  import opened Compose
  import opened Writer
  import opened Dispatch

  class NotifyHandler {
    /** Every `timeline().insert(...)` issued so far, oldest first. */
    var inserts: seq<Insert>

    /** Every item inserted has exactly one of `html` and `text`, at level
        DEFAULT. */
    ghost predicate Valid()
      reads this
    {
      AllWellFormed(inserts)
    }

    constructor ()
      ensures Valid() && inserts == []
    {
      inserts := [];
    }

    /** One insert call. */
    method InsertItem(body: Body, media: Option<Media>)
      requires Valid() && WellFormed(body)
      modifies this
      ensures Valid()
      ensures inserts == old(inserts) + [Insert(body, media)]
    {
      inserts := inserts + [Insert(body, media)];
    }

    /** `post`: handle one parsed notification. */
    method Post(data: Notification, svc: Service) returns (status: Status)
      requires Valid()
      modifies this
      ensures Valid()
      ensures inserts == old(inserts) + PostRun(data, svc).inserts
      ensures status == PostRun(data, svc).status
    {
      if data.userToken.None? {
        return Failed(KeyError("userToken"));
      }
      status := Done;
      if data.collection == Some("locations") {
        status := HandleLocations(data, svc);
      } else if data.collection == Some("timeline") {
        status := HandleTimeline(data, svc);
      }
    }

    /** The list loop of the locations handler: one `<li>` per event, stopping
        after the fifth. */
    method CollectEventItems(events: seq<Event>) returns (r: Result<seq<string>, Error>)
      ensures r == EventItems(events)
    {
      var eventList: seq<string> := [];
      var cnt := 0;
      var i := 0;
      while i < |events|
        invariant cnt == i
        invariant i < MAX_EVENTS
        invariant i <= |events|
        invariant |eventList| == cnt
        invariant forall k :: 0 <= k < cnt ==> events[k].title.Some? && eventList[k] == ListItem(events[k].title.value)
      {
        var title := events[i].title;
        if title.None? {
          return Err(KeyError("title"));
        }
        eventList := eventList + [ListItem(title.value)];
        cnt := cnt + 1;
        if cnt > 4 {
          break;
        }
        i := i + 1;
      }
      r := Ok(eventList);
      assert r.value == EventItems(events).value;
    }

    /** `_handle_locations_notification`. */
    method HandleLocations(data: Notification, svc: Service) returns (status: Status)
      requires Valid()
      modifies this
      ensures Valid()
      ensures inserts == old(inserts) + LocationsRun(data.itemId, svc).inserts
      ensures status == LocationsRun(data.itemId, svc).status
    {
      if data.itemId.None? {
        return Failed(KeyError("itemId"));
      }
      var location := svc.location(data.itemId.value);
      var reply := svc.eventsNear(location.latitude, location.longitude);
      if reply.events.None? {
        return Failed(KeyError("events"));
      }
      var eventList := CollectEventItems(reply.events.value);
      if eventList.Err? {
        return Failed(eventList.error);
      }
      var html := NearbyHtml(eventList.value);
      InsertItem(LocationsBody(location, html), None);
      status := Done;
    }

    /** `_handle_timeline_notification`: scan the actions in order. */
    method HandleTimeline(data: Notification, svc: Service) returns (status: Status)
      requires Valid()
      modifies this
      ensures Valid()
      ensures inserts == old(inserts) + TimelineRun(data, svc).inserts
      ensures status == TimelineRun(data, svc).status
    {
      var actions := data.userActions.GetOr([]);
      ghost var echo := ShareRun(data.itemId, svc);
      ghost var social := SocialRun(svc);
      ghost var done: seq<Insert> := [];
      assert TimelineRun(data, svc) == Scan(actions, echo, social);
      status := Done;
      var i := 0;
      while i < |actions|
        invariant Valid()
        invariant 0 <= i <= |actions|
        invariant status == Done
        invariant inserts == old(inserts) + done
        invariant Scan(actions, echo, social) == Prepend(done, Scan(actions[i..], echo, social))
      {
        ghost var rest := Scan(actions[i + 1..], echo, social);
        var action := actions[i];
        if action.kind == Some("SHARE") {
          ScanShare(actions, i, echo, social);
          status := EchoShare(data.itemId, svc);
          AppendAssoc(old(inserts), done, echo.inserts);
          assert Scan(actions, echo, social) == Run(done + echo.inserts, echo.status);
          return;
        } else if action.kind == Some("CUSTOM") && action.payload == Some(SOCIAL_STREAM) {
          ScanSocial(actions, i, echo, social);
          status := InsertSocialStream(svc);
          AppendAssoc(old(inserts), done, social.inserts);
          if status.Failed? {
            assert Scan(actions, echo, social) == Run(done + social.inserts, social.status);
            return;
          }
          PrependTwice(done, social.inserts, rest);
          done := done + social.inserts;
        } else {
          ScanUnhandled(actions, i, echo, social);
        }
        i := i + 1;
      }
      assert actions[i..] == [];
    }

    /** The SHARE branch of `_handle_timeline_notification`: echo the shared
        item, with its first attachment's content when it can be fetched. */
    method EchoShare(itemIdOpt: Option<string>, svc: Service) returns (status: Status)
      requires Valid()
      modifies this
      ensures Valid()
      ensures inserts == old(inserts) + ShareRun(itemIdOpt, svc).inserts
      ensures status == ShareRun(itemIdOpt, svc).status
    {
      if itemIdOpt.None? {
        return Failed(KeyError("itemId"));
      }
      var itemId := itemIdOpt.value;
      var item := svc.item(itemId);
      var attachments := item.attachments.GetOr([]);
      var media: Option<Media> := None;
      if attachments != [] {
        var attachment := svc.attachment(itemId, attachments[0].id);
        var response := svc.fetch(attachment.contentUrl);
        if response.status == HTTP_OK {
          media := Some(Media(response.content, attachment.contentType, true));
        }
      }
      InsertItem(EchoBody(item), media);
      status := Done;
    }

    /** `_insert_social_stream`: entries 0 to 4 of the feed, each inserted on
        its own through the item writer. */
    method InsertSocialStream(svc: Service) returns (status: Status)
      requires Valid()
      modifies this
      ensures Valid()
      ensures inserts == old(inserts) + SocialRun(svc).inserts
      ensures status == SocialRun(svc).status
    {
      var data := svc.socialFeed.data;
      if data.None? {
        return Failed(TypeError("'NoneType' object is not subscriptable"));
      }
      var entries := data.value;
      ghost var done: seq<Insert> := [];
      for count := 0 to SOCIAL_ENTRIES
        invariant Valid()
        invariant inserts == old(inserts) + done
        invariant SocialRun(svc) == Prepend(done, SocialFrom(entries, count, EntryHtml, svc))
      {
        if count >= |entries| {
          return Failed(IndexError(count));
        }
        var html := EntryHtml(entries[count]);
        if html.Err? {
          return Failed(html.error);
        }
        var message := SocialMessage(html.value);
        SocialFromStep(entries, count, EntryHtml, svc);
        SocialMessageRun(html.value, svc);
        var _ := GenericInsertItem([message], svc);
        AppendAssoc(old(inserts), done, [SocialItem(html.value)]);
        PrependTwice(done, [SocialItem(html.value)], SocialFrom(entries, count + 1, EntryHtml, svc));
        done := done + [SocialItem(html.value)];
      }
      status := Done;
    }

    /** `_generic_insert_item`, with the image fetch it intends. */
    method GenericInsertItem(messages: seq<Message>, svc: Service) returns (status: Status)
      requires Valid()
      modifies this
      ensures Valid()
      ensures inserts == old(inserts) + GenericRun(messages, svc).inserts
      ensures status == GenericRun(messages, svc).status
    {
      for i := 0 to |messages|
        invariant Valid()
        invariant |inserts| == |old(inserts)| + i
        invariant inserts[..|old(inserts)|] == old(inserts)
        invariant forall k :: 0 <= k < i ==> inserts[|old(inserts)| + k] == ItemInsert(messages[k], svc)
      {
        var message := messages[i];
        var body := Body(None, None, None, [], DEFAULT_LEVEL);
        if message.html == "on" {
          body := body.(html := Some(message.text));
        } else {
          body := body.(text := Some(message.text));
        }
        var media: Option<Media> := None;
        var mediaLink := message.imageUrl;
        if mediaLink.Some? && mediaLink.value != "" {
          var link := mediaLink.value;
          if link[0] == '/' {
            link := svc.fullUrl(link);
          }
          media := Some(Media(svc.image(link, FETCH_DEADLINE), JPEG, true));
        }
        InsertItem(body, media);
      }
      status := Done;
      assert inserts == old(inserts) + GenericRun(messages, svc).inserts;
    }
  }
}

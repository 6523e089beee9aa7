/** The messaging webhook: one flat record per Messenger event of a page
    payload, classified as a message, a postback, a delivery or a read. */
module MessagingWebhook {
  import opened PyJson
  import opened EventLists
  import opened WebhookPayload

  /** The four kinds of messaging event, under the key that carries each. */
  datatype Kind = Message | Postback | Delivery | Read {
    function Key(): string {
      match this
      case Message => "message"
      case Postback => "postback"
      case Delivery => "delivery"
      case Read => "read"
    }
  }

  /** The kind of a messaging event: the first of `message`, `postback`,
      `delivery` and `read` that it carries. */
  function EventType(m: Dict): (k: Option<Kind>)
    ensures k.Some? ==> k.value.Key() in m
    ensures k.None? <==> "message" !in m && "postback" !in m && "delivery" !in m && "read" !in m
  {
    if "message" in m then Some(Message)
    else if "postback" in m then Some(Postback)
    else if "delivery" in m then Some(Delivery)
    else if "read" in m then Some(Read)
    else None
  }

  const BaseKeys: set<string> := {"page_id", "timestamp", "sender_id", "recipient_id"}

  /** The keys each kind adds to the base record. */
  function DetailKeys(kind: Kind): set<string> {
    match kind
    case Message => {"event_type", "message_id", "message_text", "attachments", "quick_reply"}
    case Postback => {"event_type", "postback_payload", "postback_title"}
    case Delivery => {"event_type", "delivered_messages", "watermark"}
    case Read => {"event_type", "watermark"}
  }

  /** The fields the kind's sub-object contributes. */
  function Details(kind: Kind, x: Dict): (d: Dict)
    ensures d.Keys == DetailKeys(kind) && d.Keys !! BaseKeys
    ensures "event_type" in d && d["event_type"] == JStr(kind.Key())
  {
    match kind
    case Message =>
      map["event_type" := JStr("message"), "message_id" := GetOpt(x, "mid"),
          "message_text" := GetOpt(x, "text"), "attachments" := Get(x, "attachments", JArr([])),
          "quick_reply" := GetOpt(x, "quick_reply")]
    case Postback =>
      map["event_type" := JStr("postback"), "postback_payload" := GetOpt(x, "payload"),
          "postback_title" := GetOpt(x, "title")]
    case Delivery =>
      map["event_type" := JStr("delivery"), "delivered_messages" := Get(x, "mids", JArr([])),
          "watermark" := GetOpt(x, "watermark")]
    case Read =>
      map["event_type" := JStr("read"), "watermark" := GetOpt(x, "watermark")]
  }

  function Base(pageId: Json, m: Dict, senderId: Json, recipientId: Json): (d: Dict)
    ensures d.Keys == BaseKeys
  {
    map["page_id" := pageId, "timestamp" := GetOpt(m, "timestamp"),
        "sender_id" := senderId, "recipient_id" := recipientId]
  }

  function SenderOf(m: Dict): Py<Json> {
    GetAt(Get(m, "sender", JObj(map[])), "id", JNull)
  }

  function RecipientOf(m: Dict): Py<Json> {
    GetAt(Get(m, "recipient", JObj(map[])), "id", JNull)
  }

  /** The record `process_messaging_webhook` builds for one messaging event of
      the page `pageId`. */
  function MessagingRecord(pageId: Json, me: Json): Py<Dict> {
    match me
    case JObj(m) =>
      var senderId :- SenderOf(m);
      var recipientId :- RecipientOf(m);
      var base := Base(pageId, m, senderId, recipientId);
      if EventType(m).None? then Ok(base)
      else WithDetails(base, EventType(m).value, m[EventType(m).value.Key()])
    case _ => Raise(NoAttribute(me, "get"))
  }

  /** `event_info.update(...)` with the fields of the kind's sub-object. */
  function WithDetails(base: Dict, kind: Kind, sub: Json): Py<Dict> {
    match sub
    case JObj(x) => Ok(base + Details(kind, x))
    case _ => Raise(NoAttribute(sub, "get"))
  }

  function RecordStep(pageId: Json): Json -> Py<seq<Dict>> {
    me => (var rec :- MessagingRecord(pageId, me); Ok([rec]))
  }

  function MessagingOf(e: Dict): Py<seq<Json>> {
    Elements(Get(e, "messaging", JArr([])))
  }

  function EntryRecords(entry: Json): Py<seq<Dict>> {
    match entry
    case JObj(e) =>
      var events :- MessagingOf(e);
      Collect(events, RecordStep(GetOpt(e, "id")))
    case _ => Raise(NoAttribute(entry, "get"))
  }

  const EntryStep: Json -> Py<seq<Dict>> := e => EntryRecords(e)

  /** The records `process_messaging_webhook` returns for a decoded payload. */
  function MessagingEvents(payload: Json): (r: Py<seq<Dict>>)
    ensures r.Ok? ==> payload.JObj? && "object" in payload.fields && payload.fields["object"] == JStr("page")
    ensures payload.JObj? && !("object" in payload.fields && payload.fields["object"] == JStr("page")) ==>
      r == Raise(NotForPage)
  {
    var p :- PageCheck(payload);
    var entries :- PageEntries(p);
    Collect(entries, EntryStep)
  }

  /** The inner loop of `process_messaging_webhook`: one entry's records. */
  method ProcessMessagingEntry(entry: Json) returns (r: Py<seq<Dict>>)
    ensures r == EntryRecords(entry)
  {
    if !entry.JObj? {
      return Raise(NoAttribute(entry, "get"));
    }
    var pageId := GetOpt(entry.fields, "id");
    var eventsOf := MessagingOf(entry.fields);
    if eventsOf.Raise? {
      return Raise(eventsOf.error);
    }
    var events := eventsOf.value;
    var processed: seq<Dict> := [];
    var j := 0;
    while j < |events|
      invariant 0 <= j <= |events|
      invariant Collect(events[..j], RecordStep(pageId)) == Ok(processed)
    {
      CollectStep(events, j, RecordStep(pageId));
      var eventInfo := MessagingRecord(pageId, events[j]);
      if eventInfo.Raise? {
        CollectPrefixRaise(events, j + 1, RecordStep(pageId));
        return Raise(eventInfo.error);
      }
      processed := processed + [eventInfo.value];
      j := j + 1;
    }
    assert events[..|events|] == events;
    return Ok(processed);
  }

  /** `process_messaging_webhook`: the loop over the entries of a payload. */
  method ProcessMessagingWebhook(payload: Json) returns (r: Py<seq<Dict>>)
    ensures r == MessagingEvents(payload)
  {
    var pageCheck := PageCheck(payload);
    if pageCheck.Raise? {
      return Raise(pageCheck.error);
    }
    var entriesOf := PageEntries(pageCheck.value);
    if entriesOf.Raise? {
      return Raise(entriesOf.error);
    }
    var entries := entriesOf.value;
    var processed: seq<Dict> := [];
    var i := 0;
    while i < |entries|
      invariant 0 <= i <= |entries|
      invariant Collect(entries[..i], EntryStep) == Ok(processed)
    {
      CollectStep(entries, i, EntryStep);
      var fromEntry := ProcessMessagingEntry(entries[i]);
      if fromEntry.Raise? {
        CollectPrefixRaise(entries, i + 1, EntryStep);
        return Raise(fromEntry.error);
      }
      processed := processed + fromEntry.value;
      i := i + 1;
    }
    assert entries[..|entries|] == entries;
    return Ok(processed);
  }

  /** A record is the base fields, merged with the fields of its kind when
      it has one. */
  lemma MessagingRecordParts(pageId: Json, me: Json, rec: Dict)
    requires MessagingRecord(pageId, me) == Ok(rec)
    ensures me.JObj? && SenderOf(me.fields).Ok? && RecipientOf(me.fields).Ok?
    ensures var base := Base(pageId, me.fields, SenderOf(me.fields).value, RecipientOf(me.fields).value);
      match EventType(me.fields)
      case None => rec == base
      case Some(kind) => me.fields[kind.Key()].JObj? && rec == base + Details(kind, me.fields[kind.Key()].fields)
  {
    assert me.JObj?;
  }

  /** A record carries the page, the sender and the recipient. */
  lemma MessagingRecordIds(pageId: Json, me: Json, rec: Dict)
    requires MessagingRecord(pageId, me) == Ok(rec)
    ensures me.JObj? && SenderOf(me.fields).Ok? && RecipientOf(me.fields).Ok?
    ensures "page_id" in rec && rec["page_id"] == pageId
    ensures "sender_id" in rec && rec["sender_id"] == SenderOf(me.fields).value
    ensures "recipient_id" in rec && rec["recipient_id"] == RecipientOf(me.fields).value
  {
    MessagingRecordParts(pageId, me, rec);
    var m := me.fields;
    var base := Base(pageId, m, SenderOf(m).value, RecipientOf(m).value);
    match EventType(m)
    case None =>
    case Some(kind) =>
      var d := Details(kind, m[kind.Key()].fields);
      assert rec == base + d;
      assert "page_id" in BaseKeys && "sender_id" in BaseKeys && "recipient_id" in BaseKeys;
  }

  /** A record has an `event_type` exactly when the event has one of the four
      kinds, and then holds that kind's fields besides the base ones and no
      others. */
  lemma MessagingRecordKind(pageId: Json, me: Json, rec: Dict)
    requires MessagingRecord(pageId, me) == Ok(rec)
    ensures me.JObj?
    ensures "event_type" in rec <==> EventType(me.fields).Some?
    ensures EventType(me.fields).None? ==> rec.Keys == BaseKeys
    ensures EventType(me.fields).Some? ==>
      && rec["event_type"] == JStr(EventType(me.fields).value.Key())
      && rec.Keys == BaseKeys + DetailKeys(EventType(me.fields).value)
  {
    MessagingRecordParts(pageId, me, rec);
    var m := me.fields;
    var base := Base(pageId, m, SenderOf(m).value, RecipientOf(m).value);
    match EventType(m)
    case None =>
    case Some(kind) =>
      var d := Details(kind, m[kind.Key()].fields);
      assert rec == base + d && "event_type" !in base;
      assert rec.Keys == base.Keys + d.Keys;
  }

  /** A message wins over any other kind the same event carries, and a
      postback over a delivery or a read. */
  lemma MessageTakesPrecedence(pageId: Json, m: Dict, rec: Dict)
    requires MessagingRecord(pageId, JObj(m)) == Ok(rec)
    ensures "message" in m ==> rec["event_type"] == JStr("message")
    ensures "message" !in m && "postback" in m ==> rec["event_type"] == JStr("postback")
    ensures "message" !in m && "postback" !in m && "delivery" in m ==> rec["event_type"] == JStr("delivery")
  {
    MessagingRecordKind(pageId, JObj(m), rec);
  }

  /** A message record keeps the message id and text, and defaults its
      attachments to an empty list. */
  lemma MessageRecordFields(pageId: Json, m: Dict, x: Dict, rec: Dict)
    requires "message" in m && m["message"] == JObj(x)
    requires MessagingRecord(pageId, JObj(m)) == Ok(rec)
    ensures rec["message_id"] == GetOpt(x, "mid") && rec["message_text"] == GetOpt(x, "text")
    ensures "attachments" !in x ==> rec["attachments"] == JArr([])
  {
    MessagingRecordKind(pageId, JObj(m), rec);
    assert rec == Base(pageId, m, SenderOf(m).value, RecipientOf(m).value) + Details(Message, x);
  }

  /** The number of messaging events an entry lists. */
  function MessagingCount(entry: Json): nat {
    if entry.JObj? && MessagingOf(entry.fields).Ok? then |MessagingOf(entry.fields).value| else 0
  }

  /** Exactly one record per messaging event, whatever its kind. */
  lemma OneRecordPerMessagingEvent(payload: Json, entries: seq<Json>)
    requires payload.JObj? && PageEntries(payload.fields) == Ok(entries)
    ensures MessagingEvents(payload).Ok? ==> |MessagingEvents(payload).value| == Sum(entries, MessagingCount)
  {
    forall i | 0 <= i < |entries| && EntryStep(entries[i]).Ok?
      ensures |EntryStep(entries[i]).value| == MessagingCount(entries[i])
    {
      var e := entries[i];
      var events := MessagingOf(e.fields).value;
      var g := RecordStep(GetOpt(e.fields, "id"));
      CollectExact(events, g, x => 1);
      SumOfOnes(events, x => 1);
    }
    CollectExact(entries, EntryStep, MessagingCount);
  }
}

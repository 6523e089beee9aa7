/** The feed webhook: turning the `changes` of a page payload into one event
    record per new comment written by someone other than the page, each
    enriched with the comment's thread, the page's data and the post. */
module FeedWebhook {
  import opened PyJson
  import opened GraphApi
  import opened EventLists
  import opened WebhookPayload

  /** `is_own_comment`: the commenter is the page itself. */
  predicate IsOwnComment(commenterId: Json, pageId: Json) {
    commenterId == pageId
  }

  function Hierarchy(isTop: bool): string {
    if isTop then "top_level" else "reply"
  }

  function PostRequest(postId: Json, token: Json): Request {
    Request(GET, Graph("v18.0", postId, ""),
      map["fields" := JStr("message,created_time"), "access_token" := token], map[])
  }

  const ParentFields: string := "message,created_time,from,comments{message,created_time,from}"

  const NearbyFields: string := "message,created_time,from,comments.limit(5){message,created_time,from}"

  function ParentRequest(parentId: Json, token: Json): Request {
    Request(GET, Graph("v18.0", parentId, ""),
      map["fields" := JStr(ParentFields), "access_token" := token], map[])
  }

  function NearbyCommentsRequest(postId: Json, token: Json): Request {
    Request(GET, Graph("v18.0", postId, "comments"),
      map["fields" := JStr(NearbyFields), "access_token" := token, "limit" := JNum(5)], map[])
  }

  /** `get_page_data`, whose reply is not guarded. */
  function PageDataRequest(pageId: Json, token: Json): Request {
    Request(GET, Graph("v18.0", pageId, ""),
      map["fields" := JStr("id,name,category,about.limit(10000),bio,description"),
          "access_token" := token], map[])
  }

  function InitialContext(isTop: bool): Dict {
    map["post_content" := JNull, "comment_thread" := JArr([]), "hierarchy" := JStr(Hierarchy(isTop))]
  }

  /** The one entry of a reply's thread: the parent comment and its replies. */
  function ParentEntry(parentId: Json, td: Dict): Py<Json> {
    var replies :- GetAt(Get(td, "comments", JObj(map[])), "data", JArr([]));
    Ok(JObj(map["id" := parentId, "message" := GetOpt(td, "message"),
                "created_time" := GetOpt(td, "created_time"), "from" := GetOpt(td, "from"),
                "replies" := replies]))
  }

  /** `_get_comment_thread_context` (its unused comment id is not a parameter
      here). A request exception during either fetch returns the context
      as filled so far; any other exception propagates. */
  function ThreadContext(postId: Json, parentId: Json, isTop: bool, token: Json, net: Net): (r: Py<Dict>)
    ensures r.Ok? ==> r.value.Keys == {"post_content", "comment_thread", "hierarchy"}
    ensures r.Ok? ==> r.value["hierarchy"] == JStr(Hierarchy(isTop))
  {
    var initial := InitialContext(isTop);
    match JsonOf(net(PostRequest(postId, token)))
    case Raise(e) => if e.RequestError? then Ok(initial) else Raise(e)
    case Ok(pd) =>
      var withPost := initial["post_content" := Get(pd, "message", JStr(""))];
      if !isTop then
        match JsonOf(net(ParentRequest(parentId, token)))
        case Raise(e) => if e.RequestError? then Ok(withPost) else Raise(e)
        case Ok(td) =>
          var entry :- ParentEntry(parentId, td);
          Ok(withPost["comment_thread" := JArr([entry])])
      else
        match JsonOf(net(NearbyCommentsRequest(postId, token)))
        case Raise(e) => if e.RequestError? then Ok(withPost) else Raise(e)
        case Ok(cd) => Ok(withPost["comment_thread" := Get(cd, "data", JArr([]))])
  }

  /** The `post_data` summary of the post a comment belongs to. */
  function PostSummary(post: Json): Py<Dict> {
    match post
    case JObj(p) =>
      Ok(map["id" := GetOpt(p, "id"), "status_type" := GetOpt(p, "status_type"),
             "is_published" := GetOpt(p, "is_published"), "updated_time" := GetOpt(p, "updated_time"),
             "permalink_url" := GetOpt(p, "permalink_url")])
    case _ => Raise(NoAttribute(post, "get"))
  }

  predicate IsNewComment(v: Dict) {
    GetOpt(v, "item") == JStr("comment") && GetOpt(v, "verb") == JStr("add")
  }

  function CommenterOf(v: Dict): Py<Json> {
    GetAt(Get(v, "from", JObj(map[])), "id", JNull)
  }

  predicate IsTopLevel(v: Dict) {
    GetOpt(v, "parent_id") == GetOpt(v, "post_id")
  }

  const EventKeys: set<string> :=
    {"item", "verb", "page_access_token", "comment_data", "thread_context",
     "comment_level", "owner_info", "post_data"}

  /** The record of a new comment, as `_process_feed_event` assembles it. */
  function FeedRecord(token: Json, commentData: Dict, context: Dict, isTop: bool, owner: Dict, postData: Dict): (ev: Dict)
    ensures ev.Keys == EventKeys
    ensures ev["item"] == JStr("comment") && ev["verb"] == JStr("add")
    ensures ev["page_access_token"] == token && ev["comment_data"] == JObj(commentData)
    ensures ev["thread_context"] == JObj(context) && ev["comment_level"] == JStr(Hierarchy(isTop))
  {
    map["item" := JStr("comment"), "verb" := JStr("add"), "page_access_token" := token,
        "comment_data" := JObj(commentData), "thread_context" := JObj(context),
        "comment_level" := JStr(Hierarchy(isTop)), "owner_info" := JObj(owner),
        "post_data" := JObj(postData)]
  }

  /** The `comment_data` part: the webhook's own fields and the commenter. */
  function CommentData(v: Dict, commenterId: Json, name: Json): (d: Dict)
    ensures "from" in d && d["from"] == JObj(map["id" := commenterId, "name" := name])
  {
    map["comment_id" := GetOpt(v, "comment_id"), "post_id" := GetOpt(v, "post_id"),
        "parent_id" := GetOpt(v, "parent_id"), "message" := GetOpt(v, "message"),
        "created_time" := GetOpt(v, "created_time"),
        "from" := JObj(map["id" := commenterId, "name" := name])]
  }

  /** The enrichment of a new comment by someone else: the stored token, the
      thread around the comment, the page's data and the post summary, in
      the order the service fetches them. */
  function CommentEvent(v: Dict, commenterId: Json, pageId: Json, net: Net, store: Json -> Json): (r: Py<Dict>)
    ensures r.Ok? ==> r.value.Keys == EventKeys
    ensures r.Ok? ==> r.value["item"] == JStr("comment") && r.value["verb"] == JStr("add")
    ensures r.Ok? ==> r.value["page_access_token"] == store(pageId)
    ensures r.Ok? ==> r.value["comment_level"] == JStr(Hierarchy(IsTopLevel(v)))
    ensures r.Ok? ==>
      && r.value["thread_context"].JObj? && "hierarchy" in r.value["thread_context"].fields
      && r.value["thread_context"].fields["hierarchy"] == JStr(Hierarchy(IsTopLevel(v)))
    ensures r.Ok? ==>
      && r.value["comment_data"].JObj? && "from" in r.value["comment_data"].fields
      && r.value["comment_data"].fields["from"].JObj? && "id" in r.value["comment_data"].fields["from"].fields
      && r.value["comment_data"].fields["from"].fields["id"] == commenterId
  {
    var token := store(pageId);
    var name :- GetAt(Get(v, "from", JObj(map[])), "name", JNull);
    var isTop := IsTopLevel(v);
    var context :- ThreadContext(GetOpt(v, "post_id"), GetOpt(v, "parent_id"), isTop, token, net);
    var owner :- JsonOf(net(PageDataRequest(pageId, token)));
    var postData :- PostSummary(Get(v, "post", JObj(map[])));
    Ok(FeedRecord(token, CommentData(v, commenterId, name), context, isTop, owner, postData))
  }

  /** `_process_feed_event(value, page_id)`: `None` for anything but a new
      comment and for the page's own comments, the event record otherwise.
      `store` is the stored page token lookup, which yields `None` on any
      failure. */
  function ProcessFeedEvent(value: Json, pageId: Json, net: Net, store: Json -> Json): Py<Option<Dict>> {
    match value
    case JObj(v) =>
      if !IsNewComment(v) then Ok(None)
      else
        var commenterId :- CommenterOf(v);
        if IsOwnComment(commenterId, pageId) then Ok(None)
        else
          var ev :- CommentEvent(v, commenterId, pageId, net, store);
          Ok(Some(ev))
    case _ => Raise(NoAttribute(value, "get"))
  }

  /** What one change contributes: its event when there is one. */
  function ChangeEvents(change: Json, pageId: Json, net: Net, store: Json -> Json): Py<seq<Dict>> {
    match change
    case JObj(c) =>
      var ev :- ProcessFeedEvent(Get(c, "value", JObj(map[])), pageId, net, store);
      Ok(match ev case Some(e) => [e] case None => [])
    case _ => Raise(NoAttribute(change, "get"))
  }

  function ChangeStep(pageId: Json, net: Net, store: Json -> Json): Json -> Py<seq<Dict>> {
    c => ChangeEvents(c, pageId, net, store)
  }

  function ChangesOf(e: Dict): Py<seq<Json>> {
    Elements(Get(e, "changes", JArr([])))
  }

  /** What one entry contributes: the events of its changes in order. */
  function EntryEvents(entry: Json, net: Net, store: Json -> Json): Py<seq<Dict>> {
    match entry
    case JObj(e) =>
      var changes :- ChangesOf(e);
      Collect(changes, ChangeStep(GetOpt(e, "id"), net, store))
    case _ => Raise(NoAttribute(entry, "get"))
  }

  function EntryStep(net: Net, store: Json -> Json): Json -> Py<seq<Dict>> {
    e => EntryEvents(e, net, store)
  }

  /** The events `process_webhook_event` returns for a decoded payload. */
  function FeedEvents(payload: Json, net: Net, store: Json -> Json): (r: Py<seq<Dict>>)
    ensures r.Ok? ==> payload.JObj? && "object" in payload.fields && payload.fields["object"] == JStr("page")
    ensures payload.JObj? && !("object" in payload.fields && payload.fields["object"] == JStr("page")) ==>
      r == Raise(NotForPage)
  {
    var p :- PageCheck(payload);
    var entries :- PageEntries(p);
    Collect(entries, EntryStep(net, store))
  }

  /** The inner loop of `process_webhook_event`: the records of one entry's
      changes. */
  method ProcessEntry(entry: Json, net: Net, store: Json -> Json) returns (r: Py<seq<Dict>>)
    ensures r == EntryEvents(entry, net, store)
  {
    if !entry.JObj? {
      return Raise(NoAttribute(entry, "get"));
    }
    var pageId := GetOpt(entry.fields, "id");
    var changesOf := ChangesOf(entry.fields);
    if changesOf.Raise? {
      return Raise(changesOf.error);
    }
    var changes := changesOf.value;
    var processed: seq<Dict> := [];
    var j := 0;
    while j < |changes|
      invariant 0 <= j <= |changes|
      invariant Collect(changes[..j], ChangeStep(pageId, net, store)) == Ok(processed)
    {
      CollectStep(changes, j, ChangeStep(pageId, net, store));
      var change := changes[j];
      if !change.JObj? {
        CollectPrefixRaise(changes, j + 1, ChangeStep(pageId, net, store));
        return Raise(NoAttribute(change, "get"));
      }
      var value := Get(change.fields, "value", JObj(map[]));
      var eventInfo := ProcessFeedEvent(value, pageId, net, store);
      if eventInfo.Raise? {
        CollectPrefixRaise(changes, j + 1, ChangeStep(pageId, net, store));
        return Raise(eventInfo.error);
      }
      if eventInfo.value.Some? {
        processed := processed + [eventInfo.value.value];
      } else {
        assert processed + [] == processed;
      }
      j := j + 1;
    }
    assert changes[..|changes|] == changes;
    return Ok(processed);
  }

  /** `process_webhook_event`: the loop over the entries of a page payload. */
  method ProcessWebhookEvent(payload: Json, net: Net, store: Json -> Json) returns (r: Py<seq<Dict>>)
    ensures r == FeedEvents(payload, net, store)
  {
    var pageCheck := PageCheck(payload);
    if pageCheck.Raise? {
      return Raise(pageCheck.error);
    }
    var entriesOf := PageEntries(pageCheck.value);
    if entriesOf.Raise? {
      return Raise(entriesOf.error);
    }
    var entries := entriesOf.value;
    var processed: seq<Dict> := [];
    var i := 0;
    while i < |entries|
      invariant 0 <= i <= |entries|
      invariant Collect(entries[..i], EntryStep(net, store)) == Ok(processed)
    {
      CollectStep(entries, i, EntryStep(net, store));
      var fromEntry := ProcessEntry(entries[i], net, store);
      if fromEntry.Raise? {
        CollectPrefixRaise(entries, i + 1, EntryStep(net, store));
        return Raise(fromEntry.error);
      }
      processed := processed + fromEntry.value;
      i := i + 1;
    }
    assert entries[..|entries|] == entries;
    return Ok(processed);
  }

  /** A record is published only for a new comment that the page did not
      write itself, and both kinds of skipped change yield no record. */
  lemma FeedEventFilter(value: Json, pageId: Json, net: Net, store: Json -> Json)
    ensures var r := ProcessFeedEvent(value, pageId, net, store);
      r.Ok? && r.value.Some? ==>
        && value.JObj? && IsNewComment(value.fields)
        && CommenterOf(value.fields).Ok? && !IsOwnComment(CommenterOf(value.fields).value, pageId)
    ensures value.JObj? && !IsNewComment(value.fields) ==>
      ProcessFeedEvent(value, pageId, net, store) == Ok(None)
    ensures value.JObj? && IsNewComment(value.fields) && CommenterOf(value.fields) == Ok(pageId) ==>
      ProcessFeedEvent(value, pageId, net, store) == Ok(None)
  {
  }

  /** Conversely, a new comment written by someone other than the page yields
      its enriched record, or the exception raised while enriching it. */
  lemma QualifyingCommentEmitted(v: Dict, commenterId: Json, pageId: Json, net: Net, store: Json -> Json)
    requires IsNewComment(v) && CommenterOf(v) == Ok(commenterId) && !IsOwnComment(commenterId, pageId)
    ensures var ev := CommentEvent(v, commenterId, pageId, net, store);
      && (ev.Ok? ==> ProcessFeedEvent(JObj(v), pageId, net, store) == Ok(Some(ev.value)))
      && (ev.Raise? ==> ProcessFeedEvent(JObj(v), pageId, net, store) == Raise(ev.error))
  {
  }

  /** A change that `_process_feed_event` turns into a record: a new comment
      whose commenter can be read and is not the page. */
  predicate QualifyingChange(change: Json, pageId: Json) {
    && change.JObj?
    && var v := Get(change.fields, "value", JObj(map[]));
       && v.JObj? && IsNewComment(v.fields)
       && CommenterOf(v.fields).Ok? && !IsOwnComment(CommenterOf(v.fields).value, pageId)
  }

  function QualifyingWeight(pageId: Json): Json -> nat {
    c => if QualifyingChange(c, pageId) then 1 else 0
  }

  /** The number of qualifying changes an entry lists. */
  function QualifyingCount(entry: Json): nat {
    if entry.JObj? && ChangesOf(entry.fields).Ok? then
      Sum(ChangesOf(entry.fields).value, QualifyingWeight(GetOpt(entry.fields, "id")))
    else 0
  }

  /** A change contributes one record exactly when it qualifies. */
  lemma ChangeEventsCount(change: Json, pageId: Json, net: Net, store: Json -> Json)
    ensures ChangeEvents(change, pageId, net, store).Ok? ==>
      |ChangeEvents(change, pageId, net, store).value| == QualifyingWeight(pageId)(change)
  {
    if change.JObj? {
      var value := Get(change.fields, "value", JObj(map[]));
      if value.JObj? && IsNewComment(value.fields) && CommenterOf(value.fields).Ok?
         && !IsOwnComment(CommenterOf(value.fields).value, pageId) {
        QualifyingCommentEmitted(value.fields, CommenterOf(value.fields).value, pageId, net, store);
      }
    }
  }

  /** Exactly one record per qualifying change of a page payload. */
  lemma OneEventPerQualifyingChange(payload: Json, net: Net, store: Json -> Json, entries: seq<Json>)
    requires payload.JObj? && PageEntries(payload.fields) == Ok(entries)
    ensures FeedEvents(payload, net, store).Ok? ==>
      |FeedEvents(payload, net, store).value| == Sum(entries, QualifyingCount)
  {
    var f := EntryStep(net, store);
    forall i | 0 <= i < |entries| && f(entries[i]).Ok?
      ensures |f(entries[i]).value| == QualifyingCount(entries[i])
    {
      var e := entries[i];
      var changes := ChangesOf(e.fields).value;
      var pageId := GetOpt(e.fields, "id");
      var g := ChangeStep(pageId, net, store);
      forall j | 0 <= j < |changes| && g(changes[j]).Ok?
        ensures |g(changes[j]).value| == QualifyingWeight(pageId)(changes[j])
      {
        ChangeEventsCount(changes[j], pageId, net, store);
      }
      CollectExact(changes, g, QualifyingWeight(pageId));
    }
    CollectExact(entries, f, QualifyingCount);
  }

  /** Skipping a change needs neither the Graph API nor the token store. */
  lemma SkippedChangeMakesNoCall(value: Json, pageId: Json, net1: Net, net2: Net,
                                 store1: Json -> Json, store2: Json -> Json)
    requires value.JObj?
    requires !IsNewComment(value.fields) || CommenterOf(value.fields) == Ok(pageId)
    ensures ProcessFeedEvent(value, pageId, net1, store1) == ProcessFeedEvent(value, pageId, net2, store2)
  {
  }

  /** The shape of a published record: the eight fields, the stored token of
      the receiving page, the commenter, and a comment level that is
      `top_level` exactly when the parent is the post and agrees with the
      thread context's `hierarchy`. */
  lemma FeedEventShape(value: Json, pageId: Json, net: Net, store: Json -> Json, ev: Dict)
    requires ProcessFeedEvent(value, pageId, net, store) == Ok(Some(ev))
    ensures value.JObj? && ev.Keys == EventKeys
    ensures ev["item"] == JStr("comment") && ev["verb"] == JStr("add")
    ensures ev["page_access_token"] == store(pageId)
    ensures ev["comment_level"] == JStr("top_level") <==> IsTopLevel(value.fields)
    ensures ev["comment_level"] == JStr("reply") <==> !IsTopLevel(value.fields)
    ensures ev["thread_context"].JObj? && "hierarchy" in ev["thread_context"].fields
    ensures ev["thread_context"].fields["hierarchy"] == ev["comment_level"]
    ensures ev["comment_data"].JObj? && "from" in ev["comment_data"].fields
    ensures ev["comment_data"].fields["from"].JObj? && "id" in ev["comment_data"].fields["from"].fields
    ensures ev["comment_data"].fields["from"].fields["id"] == CommenterOf(value.fields).value
    ensures ev["comment_data"].fields["from"].fields["id"] != pageId
  {
    var v := value.fields;
    assert CommentEvent(v, CommenterOf(v).value, pageId, net, store) == Ok(ev);
  }

  /** The thread of a reply is its parent comment with the parent's replies,
      after the post's text. */
  lemma ReplyThreadContext(postId: Json, parentId: Json, token: Json, net: Net, pd: Dict, td: Dict)
    requires JsonOf(net(PostRequest(postId, token))) == Ok(pd)
    requires JsonOf(net(ParentRequest(parentId, token))) == Ok(td)
    requires Get(td, "comments", JObj(map[])).JObj?
    ensures var r := ThreadContext(postId, parentId, false, token, net);
      && r.Ok? && r.value["post_content"] == Get(pd, "message", JStr(""))
      && r.value["comment_thread"].JArr? && |r.value["comment_thread"].items| == 1
      && r.value["comment_thread"].items[0].JObj?
      && r.value["comment_thread"].items[0].fields.Keys == {"id", "message", "created_time", "from", "replies"}
      && r.value["comment_thread"].items[0].fields["id"] == parentId
      && r.value["comment_thread"].items[0].fields["replies"]
         == Get(Get(td, "comments", JObj(map[])).fields, "data", JArr([]))
  {
    var entry := ParentEntry(parentId, td);
    assert entry.Ok?;
    var withPost := InitialContext(false)["post_content" := Get(pd, "message", JStr(""))];
    assert ThreadContext(postId, parentId, false, token, net) == Ok(withPost["comment_thread" := JArr([entry.value])]);
  }

  /** The thread of a top-level comment is the post's first comments. */
  lemma TopLevelThreadContext(postId: Json, parentId: Json, token: Json, net: Net, pd: Dict, cd: Dict)
    requires JsonOf(net(PostRequest(postId, token))) == Ok(pd)
    requires JsonOf(net(NearbyCommentsRequest(postId, token))) == Ok(cd)
    ensures var r := ThreadContext(postId, parentId, true, token, net);
      && r.Ok? && r.value["post_content"] == Get(pd, "message", JStr(""))
      && r.value["comment_thread"] == Get(cd, "data", JArr([]))
  {
    var withPost := InitialContext(true)["post_content" := Get(pd, "message", JStr(""))];
    assert ThreadContext(postId, parentId, true, token, net) == Ok(withPost["comment_thread" := Get(cd, "data", JArr([]))]);
  }

  /** A request exception keeps what was gathered before it; any other
      exception of the first fetch escapes. */
  lemma ThreadContextFallback(postId: Json, parentId: Json, isTop: bool, token: Json, net: Net)
    ensures var first := JsonOf(net(PostRequest(postId, token)));
      first.Raise? && first.error.RequestError? ==>
        ThreadContext(postId, parentId, isTop, token, net) == Ok(InitialContext(isTop))
    ensures var first := JsonOf(net(PostRequest(postId, token)));
      first.Raise? && !first.error.RequestError? ==>
        ThreadContext(postId, parentId, isTop, token, net) == Raise(first.error)
    ensures var first := JsonOf(net(PostRequest(postId, token)));
      var second := JsonOf(net(if isTop then NearbyCommentsRequest(postId, token) else ParentRequest(parentId, token)));
      first.Ok? && second.Raise? && second.error.RequestError? ==>
        ThreadContext(postId, parentId, isTop, token, net)
        == Ok(InitialContext(isTop)["post_content" := Get(first.value, "message", JStr(""))])
  {
  }

  /** What every published feed record satisfies. */
  predicate IsCommentEvent(ev: Dict) {
    && ev.Keys == EventKeys
    && ev["item"] == JStr("comment") && ev["verb"] == JStr("add")
    && (ev["comment_level"] == JStr("top_level") || ev["comment_level"] == JStr("reply"))
  }

  lemma EntryEventsAreCommentEvents(entry: Json, net: Net, store: Json -> Json)
    ensures var r := EntryEvents(entry, net, store);
      r.Ok? ==> forall k :: 0 <= k < |r.value| ==> IsCommentEvent(r.value[k])
  {
    if entry.JObj? && ChangesOf(entry.fields).Ok? {
      var changes := ChangesOf(entry.fields).value;
      var pageId := GetOpt(entry.fields, "id");
      var f := ChangeStep(pageId, net, store);
      forall i, j | 0 <= i < |changes| && f(changes[i]).Ok? && 0 <= j < |f(changes[i]).value|
        ensures IsCommentEvent(f(changes[i]).value[j])
      {
        var c := changes[i];
        var value := Get(c.fields, "value", JObj(map[]));
        var ev := ProcessFeedEvent(value, pageId, net, store);
        assert ev.Ok? && ev.value.Some?;
        FeedEventShape(value, pageId, net, store, ev.value.value);
      }
      CollectAll(changes, f, IsCommentEvent);
    }
  }

  /** Every record `process_webhook_event` returns is a new comment event. */
  lemma FeedEventsAreCommentEvents(payload: Json, net: Net, store: Json -> Json)
    ensures var r := FeedEvents(payload, net, store);
      r.Ok? ==> forall k :: 0 <= k < |r.value| ==> IsCommentEvent(r.value[k])
  {
    if PageCheck(payload).Ok? && PageEntries(payload.fields).Ok? {
      var entries := PageEntries(payload.fields).value;
      var f := EntryStep(net, store);
      forall i, j | 0 <= i < |entries| && f(entries[i]).Ok? && 0 <= j < |f(entries[i]).value|
        ensures IsCommentEvent(f(entries[i]).value[j])
      {
        EntryEventsAreCommentEvents(entries[i], net, store);
      }
      CollectAll(entries, f, IsCommentEvent);
    }
  }

  /** The number of changes an entry lists (nothing when it has none to give). */
  function ChangeCount(entry: Json): nat {
    if entry.JObj? && ChangesOf(entry.fields).Ok? then |ChangesOf(entry.fields).value| else 0
  }

  function OnePerChange(c: Json): nat { 1 }

  /** At most one record per change. */
  lemma AtMostOneEventPerChange(payload: Json, net: Net, store: Json -> Json, entries: seq<Json>)
    requires payload.JObj? && PageEntries(payload.fields) == Ok(entries)
    ensures FeedEvents(payload, net, store).Ok? ==>
      |FeedEvents(payload, net, store).value| <= Sum(entries, ChangeCount)
  {
    var f := EntryStep(net, store);
    forall i | 0 <= i < |entries| && f(entries[i]).Ok?
      ensures |f(entries[i]).value| <= ChangeCount(entries[i])
    {
      var e := entries[i];
      var changes := ChangesOf(e.fields).value;
      var g := ChangeStep(GetOpt(e.fields, "id"), net, store);
      CollectBound(changes, g, OnePerChange);
      SumOfOnes(changes, OnePerChange);
    }
    CollectBound(entries, f, ChangeCount);
  }
}

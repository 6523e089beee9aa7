/** Two page operations whose logic lies between the request and the reply:
    replying to a comment (mention formatting and token masking) and removing
    fields from the app's page subscription (list filtering and the choice
    between updating and deleting the subscription). */
module PageActions {
  import opened PyJson
  import opened GraphApi

  // ---------------------------------------------------------------------------
  // reply_to_comment

  /** The text posted as the reply: prefixed with an `@[id]` mention tag when a
      commenter id is given, otherwise the reply text itself. */
  function ReplyMessage(replyText: Json, commenterId: Json): Json {
    if Truthy(commenterId) then JStr(MentionTag(commenterId) + Show(replyText)) else replyText
  }

  function MentionTag(commenterId: Json): string {
    "@[" + Show(commenterId) + "] "
  }

  /** The 15-character head of the token, "...", and its 5-character tail. */
  function MaskString(t: string): (m: string)
    ensures |m| == (if |t| < 15 then |t| else 15) + 3 + (if |t| < 5 then |t| else 5)
  {
    var head := if |t| < 15 then t else t[..15];
    var tail := if |t| < 5 then t else t[|t| - 5..];
    head + "..." + tail
  }

  /** `token[:15] + "..." + token[-5:]`: only a string token can be masked. A
      dict fails at the first slice (`KeyError(slice(None, 15, None))`), a
      list slices but cannot be added to a string, and any other value is not
      subscriptable. */
  function TokenMask(token: Json): (r: Py<Json>)
    ensures r.Ok? <==> token.JStr?
    ensures token.JStr? ==> r.value == JStr(MaskString(token.s))
    ensures token.JObj? ==> r == Raise(SliceKeyError(None, Some(15)))
    ensures token.JArr? ==> r == Raise(TypeError("can only concatenate list (not \"str\") to list"))
    ensures !token.JStr? && !token.JArr? && !token.JObj? ==>
      r == Raise(TypeError("'" + TypeName(token) + "' object is not subscriptable"))
  {
    match SliceFailure(token, None, Some(15))
    case Some(e) => Raise(e)
    case None =>
      if token.JStr? then Ok(JStr(MaskString(token.s)))
      else Raise(TypeError("can only concatenate list (not \"str\") to list"))
  }

  function ReplyRequest(commentId: Json, token: Json, replyText: Json, commenterId: Json): Request {
    Request(POST, Graph("v18.0", commentId, "comments"),
            map["message" := ReplyMessage(replyText, commenterId), "access_token" := token], map[])
  }

  /** `reply_to_comment(original_comment_id, page_access_token, reply_text, commenter_id)`.
      The reply is posted first; every record built afterwards, the exception
      record included, masks the token, so a token that cannot be masked makes
      the whole call raise after the comment was posted. */
  function ReplyToComment(commentId: Json, token: Json, replyText: Json, commenterId: Json, net: Net): (r: Py<Dict>)
    ensures r.Ok? <==> token.JStr?
    ensures r.Raise? ==> r.error == TokenMask(token).error
  {
    var reply := JsonOf(net(ReplyRequest(commentId, token, replyText, commenterId)));
    var masked :- TokenMask(token);
    var common := map["page_access_token" := masked, "reply_text" := replyText,
                      "mentioned_user" := (if Truthy(commenterId) then commenterId else JNull),
                      "original_comment_id" := commentId];
    match reply
    case Raise(e) => Ok(common["status" := JStr("error")]["error_details" := JStr(Describe(e))])
    case Ok(d) =>
      if "id" in d then Ok(common["status" := JStr("success")]["reply_id" := GetOpt(d, "id")])
      else Ok(common["status" := JStr("error")]["error_details" := Get(d, "error", JObj(map[]))])
  }

  /** A token that cannot be masked raises the masking error whatever the
      Graph API answered: the handler of a failed call masks the token too. */
  lemma UnmaskableTokenRaises(commentId: Json, token: Json, replyText: Json, commenterId: Json, net: Net)
    requires !token.JStr?
    ensures ReplyToComment(commentId, token, replyText, commenterId, net) == Raise(TokenMask(token).error)
    ensures token.JObj? ==>
      ReplyToComment(commentId, token, replyText, commenterId, net) == Raise(SliceKeyError(None, Some(15)))
    ensures token.JObj? ==> Describe(SliceKeyError(None, Some(15))) == "slice(None, 15, None)"
  {
  }

  /** The mention tag and the reply text make up the posted message: dropping
      the tag gives the reply text back. */
  lemma MentionIsPrefix(replyText: string, commenterId: Json)
    requires Truthy(commenterId)
    ensures var m := ReplyMessage(JStr(replyText), commenterId);
      m.JStr? && StartsWith(m.s, "@[" + Show(commenterId) + "]") && m.s[|MentionTag(commenterId)|..] == replyText
  {
    var tag := MentionTag(commenterId);
    var m := tag + replyText;
    assert m[..|tag|] == tag;
    assert ("@[" + Show(commenterId) + "]") + " " == tag;
    assert m[..|tag| - 1] == "@[" + Show(commenterId) + "]";
  }

  /** A token of 20 characters or more shows its first 15 and last 5 characters
      around "..."; a token of at most 15 characters appears in full at the
      start of its mask. */
  lemma MaskShape(t: string)
    ensures |t| >= 20 ==>
      var m := MaskString(t);
      |m| == 23 && m[..15] == t[..15] && m[15..18] == "..." && m[18..] == t[|t| - 5..]
    ensures |t| <= 15 ==> StartsWith(MaskString(t), t)
  {
    var m := MaskString(t);
    if |t| >= 20 {
      assert m == t[..15] + "..." + t[|t| - 5..];
      assert m[..15] == t[..15];
    }
    if |t| <= 15 {
      assert m == t + "..." + (if |t| < 5 then t else t[|t| - 5..]);
      assert m[..|t|] == t;
    }
  }

  /** With a string token the reply is a success exactly when the Graph API
      answered with an `id`, which is reported as `reply_id`; every outcome
      echoes the comment id and the commenter as `mentioned_user`. */
  lemma ReplyOutcome(commentId: Json, t: string, replyText: Json, commenterId: Json, net: Net)
    ensures var r := ReplyToComment(commentId, JStr(t), replyText, commenterId, net);
      var reply := JsonOf(net(ReplyRequest(commentId, JStr(t), replyText, commenterId)));
      && r.Ok?
      && r.value["original_comment_id"] == commentId
      && r.value["mentioned_user"] == (if Truthy(commenterId) then commenterId else JNull)
      && r.value["page_access_token"] == JStr(MaskString(t))
      && (r.value["status"] == JStr("success") <==> reply.Ok? && "id" in reply.value)
      && (reply.Ok? && "id" in reply.value ==> r.value["reply_id"] == reply.value["id"])
  {
  }

  // ---------------------------------------------------------------------------
  // unsubscribe_app_from_page_fields

  /** A single field name stands for a one-element list. The result is never
      a bare string, so the later `field not in fields_to_remove` is a
      membership test: a single name removes exactly that field, and not the
      fields that happen to be substrings of it. */
  function Removal(fieldsToRemove: Json): (r: Json)
    ensures !r.JStr?
    ensures fieldsToRemove.JStr? ==> forall x :: Contains(x, r) == Ok(x == fieldsToRemove)
  {
    if fieldsToRemove.JStr? then JArr([fieldsToRemove]) else fieldsToRemove
  }

  /** `x in coll` for a decoded collection. */
  function Contains(x: Json, coll: Json): Py<bool> {
    match coll
    case JArr(a) => Ok(x in a)
    case JObj(m) =>
      if x.JArr? || x.JObj? then Raise(TypeError("unhashable type: '" + TypeName(x) + "'"))
      else Ok(x.JStr? && x.s in m)
    case JStr(s) =>
      if x.JStr? then Ok(ContainsStr(s, x.s))
      else Raise(TypeError("'in <string>' requires string as left operand, not " + TypeName(x)))
    case _ => Raise(TypeError("argument of type '" + TypeName(coll) + "' is not iterable"))
  }

  /** `[f for f in current if f not in removal]`, evaluated from the front. */
  function FilterFields(current: seq<Json>, removal: Json): (r: Py<seq<Json>>)
    ensures r.Ok? ==> |r.value| <= |current|
  {
    if current == [] then Ok([])
    else
      var present :- Contains(current[0], removal);
      var rest :- FilterFields(current[1..], removal);
      Ok((if present then [] else [current[0]]) + rest)
  }

  /** The fields of `xs` that are not in `remove`, in their order. */
  function Without(xs: seq<Json>, remove: seq<Json>): seq<Json> {
    if xs == [] then [] else (if xs[0] in remove then [] else [xs[0]]) + Without(xs[1..], remove)
  }

  /** Filtering against a list is `Without`: it cannot raise. */
  lemma {:induction false} FilterAgainstList(current: seq<Json>, remove: seq<Json>)
    ensures FilterFields(current, JArr(remove)) == Ok(Without(current, remove))
  {
    if current != [] {
      FilterAgainstList(current[1..], remove);
    }
  }

  /** A field remains exactly when it was subscribed and is not being removed. */
  lemma {:induction false} WithoutMembership(xs: seq<Json>, remove: seq<Json>, x: Json)
    ensures x in Without(xs, remove) <==> x in xs && x !in remove
  {
    if xs != [] {
      WithoutMembership(xs[1..], remove, x);
      assert xs == [xs[0]] + xs[1..];
    }
  }

  /** Removing the same fields twice changes nothing more. */
  lemma {:induction false} WithoutIdempotent(xs: seq<Json>, remove: seq<Json>)
    ensures Without(Without(xs, remove), remove) == Without(xs, remove)
  {
    if xs != [] {
      WithoutIdempotent(xs[1..], remove);
      var w := Without(xs, remove);
      var rest := Without(xs[1..], remove);
      if xs[0] in remove {
        assert w == rest;
      } else {
        assert w == [xs[0]] + rest;
        assert w[0] == xs[0] && w[1..] == rest;
        assert Without(w, remove) == [xs[0]] + Without(rest, remove);
      }
    }
  }

  /** The remaining fields keep their subscription order: they are the
      subscribed fields with some left out. */
  predicate IsSubsequence(ys: seq<Json>, xs: seq<Json>)
    decreases |xs|
  {
    if ys == [] then true
    else if xs == [] then false
    else if ys[0] == xs[0] then IsSubsequence(ys[1..], xs[1..])
    else IsSubsequence(ys, xs[1..])
  }

  lemma {:induction false} WithoutKeepsOrder(xs: seq<Json>, remove: seq<Json>)
    ensures IsSubsequence(Without(xs, remove), xs)
  {
    if xs != [] {
      WithoutKeepsOrder(xs[1..], remove);
      var rest := Without(xs[1..], remove);
      if xs[0] in remove {
        assert Without(xs, remove) == rest;
        SubsequenceOfTail(rest, xs);
      } else {
        var w := [xs[0]] + rest;
        assert Without(xs, remove) == w;
        assert w[0] == xs[0] && w[1..] == rest;
        assert IsSubsequence(w[1..], xs[1..]);
      }
    }
  }

  lemma {:induction false} SubsequenceOfTail(ys: seq<Json>, xs: seq<Json>)
    requires xs != [] && IsSubsequence(ys, xs[1..])
    ensures IsSubsequence(ys, xs)
    decreases |xs|, |ys|
  {
    if ys != [] && ys[0] == xs[0] {
      SubsequenceDropHead(ys, xs[1..]);
    }
  }

  lemma {:induction false} SubsequenceDropHead(ys: seq<Json>, xs: seq<Json>)
    requires ys != [] && IsSubsequence(ys, xs)
    ensures IsSubsequence(ys[1..], xs)
    decreases |xs|, |ys|
  {
    if xs != [] {
      if ys[0] == xs[0] {
        if ys[1..] != [] {
          SubsequenceOfTail(ys[1..], xs);
        }
      } else {
        SubsequenceDropHead(ys, xs[1..]);
        if ys[1..] != [] {
          SubsequenceOfTail(ys[1..], xs);
        }
      }
    }
  }

  /** The values a `for field in current_fields` loop visits (a list's items or
      a string's characters). */
  function FieldItems(current: Json): Py<seq<Json>> {
    match current
    case JArr(a) => Ok(a)
    case JStr(s) => Ok(seq(|s|, i requires 0 <= i < |s| => JStr([s[i]])))
    case JObj(m) => if m == map[] then Ok([]) else Raise(TypeError("iteration over a dict's keys is not modelled"))
    case _ => Raise(TypeError("'" + TypeName(current) + "' object is not iterable"))
  }

  /** `','.join(fields)`: every item must be a string. */
  function JoinComma(fields: seq<Json>): (r: Py<string>)
    ensures r.Ok? <==> forall i :: 0 <= i < |fields| ==> fields[i].JStr?
  {
    JoinFrom(fields, 0)
  }

  /** The join of the items from position `k` of the original list on; an
      error names the position of the offending item in that list. */
  function JoinFrom(fields: seq<Json>, k: nat): (r: Py<string>)
    ensures r.Ok? <==> forall i :: 0 <= i < |fields| ==> fields[i].JStr?
    decreases |fields|
  {
    if fields == [] then Ok("")
    else if !fields[0].JStr? then Raise(ItemError(k, fields[0]))
    else
      match JoinFrom(fields[1..], k + 1)
      case Raise(e) => Raise(e)
      case Ok(rest) => Ok(if fields[1..] == [] then fields[0].s else fields[0].s + "," + rest)
  }

  /** The `TypeError` `str.join` raises for a non-string item at `index`. */
  function ItemError(index: nat, item: Json): PyError {
    TypeError("sequence item " + IntToString(index) + ": expected str instance, " + TypeName(item) + " found")
  }

  /** The join fails on the first item that is not a string, and names it. */
  lemma JoinCommaNamesFirstNonString(fields: seq<Json>, i: nat)
    requires i < |fields| && !fields[i].JStr?
    requires forall j :: 0 <= j < i ==> fields[j].JStr?
    ensures JoinComma(fields) == Raise(ItemError(i, fields[i]))
  {
    JoinFromNamesFirstNonString(fields, 0, i);
  }

  lemma {:induction false} JoinFromNamesFirstNonString(fields: seq<Json>, k: nat, i: nat)
    requires i < |fields| && !fields[i].JStr?
    requires forall j :: 0 <= j < i ==> fields[j].JStr?
    ensures JoinFrom(fields, k) == Raise(ItemError(k + i, fields[i]))
    decreases i
  {
    if i > 0 {
      JoinFromNamesFirstNonString(fields[1..], k + 1, i - 1);
    }
  }

  /** `s.split(',')`. */
  function SplitComma(s: string): (r: seq<string>)
    ensures |r| >= 1
  {
    if s == [] then [""]
    else if s[0] == ',' then [""] + SplitComma(s[1..])
    else
      var t := SplitComma(s[1..]);
      [[s[0]] + t[0]] + t[1..]
  }

  /** Splitting a field with no comma in it gives that field back, followed by
      the pieces of what comes after the next comma. */
  lemma {:induction false} SplitCommaHead(a: string, rest: seq<string>, tail: string)
    requires ',' !in a
    requires SplitComma(tail) == rest
    ensures SplitComma(a) == [a]
    ensures SplitComma(a + "," + tail) == [a] + rest
    decreases |a|
  {
    if a != [] {
      SplitCommaHead(a[1..], rest, tail);
      assert a[0] != ',' && [a[0]] + a[1..] == a;
      assert (a + "," + tail)[1..] == a[1..] + "," + tail;
    } else {
      assert a + "," + tail == [','] + tail;
    }
  }

  /** The names of a list of string fields. */
  function FieldNames(fields: seq<Json>): seq<string>
    requires forall i :: 0 <= i < |fields| ==> fields[i].JStr?
  {
    seq(|fields|, i requires 0 <= i < |fields| => fields[i].s)
  }

  /** The comma join is inverted by a comma split, whenever there is at least
      one field and no field name holds a comma: the posted
      `subscribed_fields` lists exactly the remaining fields, in order. */
  lemma {:induction false} JoinCommaSplits(fields: seq<Json>)
    requires fields != []
    requires forall i :: 0 <= i < |fields| ==> fields[i].JStr? && ',' !in fields[i].s
    ensures SplitComma(JoinComma(fields).value) == FieldNames(fields)
  {
    JoinFromSplits(fields, 0);
  }

  lemma {:induction false} JoinFromSplits(fields: seq<Json>, k: nat)
    requires fields != []
    requires forall i :: 0 <= i < |fields| ==> fields[i].JStr? && ',' !in fields[i].s
    ensures SplitComma(JoinFrom(fields, k).value) == FieldNames(fields)
    decreases |fields|
  {
    if fields[1..] == [] {
      SplitCommaHead(fields[0].s, [""], "");
      assert FieldNames(fields) == [fields[0].s];
    } else {
      var rest := JoinFrom(fields[1..], k + 1).value;
      JoinFromSplits(fields[1..], k + 1);
      SplitCommaHead(fields[0].s, FieldNames(fields[1..]), rest);
      assert FieldNames(fields) == [fields[0].s] + FieldNames(fields[1..]);
    }
  }

  function SubscribedApps(pageId: Json): Endpoint { Graph("v18.0", pageId, "subscribed_apps") }

  /** `d[key]` on a dict. */
  function Index(d: Dict, key: string): (r: Py<Json>)
    ensures r.Ok? <==> key in d
  {
    if key in d then Ok(d[key]) else Raise(KeyError(JStr(key)))
  }

  /** The subscribed fields of the first app listed in the subscriptions
      record, or none when no app is listed. */
  function CurrentFields(subs: Dict): Py<Json> {
    var apps :- Index(subs, "subscriptions");
    if !Truthy(apps) then Ok(JArr([]))
    else
      var first :- First(apps);
      GetAt(first, "subscribed_fields", JArr([]))
  }

  /** The subscription update: POST the remaining fields, or DELETE the
      subscription when none remain. */
  function UpdateRequest(pageId: Json, token: Json, remaining: seq<Json>): Py<Request> {
    if remaining != [] then
      var joined :- JoinComma(remaining);
      Ok(Request(POST, SubscribedApps(pageId), map["access_token" := token, "subscribed_fields" := JStr(joined)], map[]))
    else Ok(Request(DELETE, SubscribedApps(pageId), map["access_token" := token], map[]))
  }

  /** The body of the `try`: either the subscriptions record itself (when it
      reports an error) or the outcome record. */
  function UnsubscribeAttempt(pageId: Json, token: Json, removal: Json, subs: Dict, net: Net): Py<Dict> {
    var status :- Index(subs, "status");
    if status == JStr("error") then Ok(subs)
    else
      var current :- CurrentFields(subs);
      var items :- FieldItems(current);
      var remaining :- FilterFields(items, removal);
      var req :- UpdateRequest(pageId, token, remaining);
      var result :- JsonOf(net(req));
      Ok(map["status" := JStr(if Truthy(GetOpt(result, "success")) then "success" else "error"),
             "page_id" := pageId, "removed_fields" := removal, "remaining_fields" := JArr(remaining),
             "response" := JObj(result)])
  }

  /** `unsubscribe_app_from_page_fields(page_id, page_access_token, fields_to_remove)`
      given the record `get_page_subscriptions` returned for the page. */
  function UnsubscribeFields(pageId: Json, token: Json, fieldsToRemove: Json, subs: Dict, net: Net): (r: Dict)
    ensures "status" in subs && subs["status"] == JStr("error") ==> r == subs
  {
    match UnsubscribeAttempt(pageId, token, Removal(fieldsToRemove), subs, net)
    case Ok(d) => d
    case Raise(e) => map["status" := JStr("error"), "page_id" := pageId, "error_details" := JStr(Describe(e))]
  }

  /** The update request: the subscription is deleted exactly when no field
      remains, and otherwise the remaining fields are posted back as one
      comma-separated list. */
  lemma UpdateRequestShape(pageId: Json, token: Json, remaining: seq<Json>)
    ensures remaining == [] ==> UpdateRequest(pageId, token, remaining) == Ok(Request(DELETE, SubscribedApps(pageId), map["access_token" := token], map[]))
    ensures remaining != [] && UpdateRequest(pageId, token, remaining).Ok? ==>
      var req := UpdateRequest(pageId, token, remaining).value;
      req.verb == POST && req.params["subscribed_fields"] == JStr(JoinComma(remaining).value)
  {
  }

  /** When the first app's fields are a list and the fields to remove are a
      list (or a single name), the record reports as remaining the subscribed
      fields that are not being removed, in subscription order, and is a
      success exactly when the Graph API's reply says so. */
  lemma UnsubscribeOutcome(pageId: Json, token: Json, fieldsToRemove: Json, subs: Dict, net: Net,
                           current: seq<Json>, remove: seq<Json>)
    requires "status" in subs && subs["status"] != JStr("error")
    requires CurrentFields(subs) == Ok(JArr(current))
    requires Removal(fieldsToRemove) == JArr(remove)
    requires UpdateRequest(pageId, token, Without(current, remove)).Ok?
    requires JsonOf(net(UpdateRequest(pageId, token, Without(current, remove)).value)).Ok?
    ensures var r := UnsubscribeFields(pageId, token, fieldsToRemove, subs, net);
      var result := JsonOf(net(UpdateRequest(pageId, token, Without(current, remove)).value)).value;
      && "remaining_fields" in r && r["remaining_fields"] == JArr(Without(current, remove))
      && "removed_fields" in r && r["removed_fields"] == JArr(remove)
      && "status" in r && (r["status"] == JStr("success") <==> Truthy(GetOpt(result, "success")))
  {
    var remaining := Without(current, remove);
    FilterAgainstList(current, remove);
    assert FieldItems(JArr(current)) == Ok(current);
    var req := UpdateRequest(pageId, token, remaining).value;
    var result := JsonOf(net(req)).value;
    assert UnsubscribeAttempt(pageId, token, JArr(remove), subs, net)
        == Ok(map["status" := JStr(if Truthy(GetOpt(result, "success")) then "success" else "error"),
                  "page_id" := pageId, "removed_fields" := JArr(remove), "remaining_fields" := JArr(remaining),
                  "response" := JObj(result)]);
  }

  /** A single field name is handled exactly as the one-element list holding it. */
  lemma SingleFieldIsList(pageId: Json, token: Json, field: string, subs: Dict, net: Net)
    ensures UnsubscribeFields(pageId, token, JStr(field), subs, net)
         == UnsubscribeFields(pageId, token, JArr([JStr(field)]), subs, net)
  {
  }
}

/** Live video creation: splitting the ingest URL that the Graph API returns
    into the server URL and stream key that broadcasting software expects,
    and assembling the result of `create_live_stream`. */
module LiveStream {
  import opened PyJson
  import opened GraphApi

  const RtmpPrefix: string := "/rtmp/"

  const MissingRtmpPrefix: PyError :=
    ValueError("Invalid stream URL format: missing /rtmp/ path prefix")

  /** `extract_stream_details` on an already parsed URL: the server URL is
      `scheme://netloc/rtmp` and the stream key is what follows `/rtmp/` in the
      path, with `?query` appended when the query is not empty. */
  function ExtractStreamDetails(u: ParsedUrl): (r: Py<(string, string)>)
    ensures r.Raise? <==> !StartsWith(u.path, RtmpPrefix)
    ensures r.Raise? ==> r.error == MissingRtmpPrefix
  {
    if !StartsWith(u.path, RtmpPrefix) then Raise(MissingRtmpPrefix)
    else
      var streamId := u.path[|RtmpPrefix|..];
      var streamKey := if u.query != "" then streamId + "?" + u.query else streamId;
      Ok((u.scheme + "://" + u.netloc + "/rtmp", streamKey))
  }

  /** The URL that the four parsed components spell (no params, no fragment). */
  function Unparse(u: ParsedUrl): string {
    u.scheme + "://" + u.netloc + u.path + (if u.query != "" then "?" + u.query else "")
  }

  /** The server URL and the stream key, joined by a slash, rebuild the URL. */
  lemma StreamDetailsRebuildUrl(u: ParsedUrl)
    requires StartsWith(u.path, RtmpPrefix)
    ensures ExtractStreamDetails(u).Ok?
    ensures ExtractStreamDetails(u).value.0 + "/" + ExtractStreamDetails(u).value.1 == Unparse(u)
  {
    var id := u.path[|RtmpPrefix|..];
    assert u.path == "/rtmp" + "/" + id by {
      assert u.path == u.path[..|RtmpPrefix|] + id;
    }
    var tail := if u.query != "" then "?" + u.query else "";
    var key := if u.query != "" then id + "?" + u.query else id;
    assert key == id + tail;
    calc {
      (u.scheme + "://" + u.netloc + "/rtmp") + "/" + key;
      u.scheme + "://" + u.netloc + ("/rtmp" + "/" + id) + tail;
      Unparse(u);
    }
  }

  /** Every URL whose path is `/rtmp/{id}` decomposes into `scheme://netloc/rtmp`
      and `{id}`, or `{id}?{query}` when a query is present. */
  lemma StreamDetailsOfRtmpPath(scheme: string, netloc: string, id: string, query: string)
    ensures ExtractStreamDetails(ParsedUrl(scheme, netloc, RtmpPrefix + id, query))
      == Ok((scheme + "://" + netloc + "/rtmp", if query != "" then id + "?" + query else id))
  {
    var path := RtmpPrefix + id;
    assert path[..|RtmpPrefix|] == RtmpPrefix;
    assert path[|RtmpPrefix|..] == id;
  }

  /** `extract_stream_details(s)` on a decoded value. `urlparse` decodes any
      value that is not a string as bytes: a truthy one has no `decode`; a
      falsy one parses as empty bytes, whose `startswith('/rtmp/')` refuses a
      `str` prefix. */
  function StreamDetailsOf(j: Json, parse: UrlParser): (r: Py<(string, string)>)
    ensures j.JStr? ==> r == ExtractStreamDetails(parse(j.s))
    ensures !j.JStr? ==> r.Raise?
    ensures !j.JStr? && !Truthy(j) ==> r == Raise(BytesPathError)
  {
    match j
    case JStr(s) => ExtractStreamDetails(parse(s))
    case _ => if Truthy(j) then Raise(NoAttribute(j, "decode")) else Raise(BytesPathError)
  }

  const BytesPathError: PyError := TypeError("startswith first arg must be bytes or a tuple of bytes, not str")

  /** The backup stream key: the stream key of the first secondary URL, or
      `None` when there is no non-empty `stream_secondary_urls`. */
  function BackupStreamKey(data: Dict, parse: UrlParser): Py<Json> {
    if "stream_secondary_urls" !in data then Ok(JNull)
    else
      var urls := data["stream_secondary_urls"];
      var n :- PyLen(urls);
      if n == 0 then Ok(JNull)
      else
        var first :- First(urls);
        var details :- StreamDetailsOf(first, parse);
        Ok(JStr(details.1))
  }

  /** The form parameters of the live video creation call; the title and the
      description are sent only when they are truthy. */
  function LiveVideoParams(token: Json, title: Json, description: Json): (p: Dict)
    ensures "title" in p <==> Truthy(title)
    ensures "description" in p <==> Truthy(description)
    ensures "status" in p && p["status"] == JStr("LIVE_NOW")
    ensures "access_token" in p && p["access_token"] == token
  {
    var base := map["access_token" := token, "status" := JStr("LIVE_NOW"),
                     "enable_backup_ingest" := JBool(true)];
    var withTitle := if Truthy(title) then base["title" := title] else base;
    if Truthy(description) then withTitle["description" := description] else withTitle
  }

  function LiveVideoRequest(pageId: Json, token: Json, title: Json, description: Json): Request {
    Request(POST, Graph("v18.0", pageId, "live_videos"), LiveVideoParams(token, title, description), map[])
  }

  function ErrorRecord(e: PyError): Dict {
    map["error" := JStr(Describe(e))]
  }

  /** The result of `create_live_stream` for the reply `reply` to its one call:
      every failure, including an ingest URL without `/rtmp/`, is turned into
      an `{"error": ...}` record. */
  function LiveStreamResult(reply: HttpReply, parse: UrlParser): Dict {
    match reply
    case Failed(e) => ErrorRecord(e)
    case Answered(ok, text, body) =>
      if !ok then map["error" := JStr(text)]
      else match body
        case Raise(e) => ErrorRecord(e)
        case Ok(data) =>
          if "id" in data && "stream_url" in data then
            match StreamDetailsOf(data["stream_url"], parse)
            case Raise(e) => ErrorRecord(e)
            case Ok(details) =>
              match BackupStreamKey(data, parse)
              case Raise(e) => ErrorRecord(e)
              case Ok(backup) =>
                map["live_video_id" := data["id"], "server_url" := JStr(details.0),
                    "stream_key" := JStr(details.1), "backup_stream_key" := backup]
          else map["error" := Get(data, "error", JStr("Unknown error"))]
  }

  /** `create_live_stream(page_id, page_access_token, title, description)`. */
  function CreateLiveStream(pageId: Json, token: Json, title: Json, description: Json,
                            net: Net, parse: UrlParser): Dict {
    LiveStreamResult(net(LiveVideoRequest(pageId, token, title, description)), parse)
  }

  /** The result is either a lone error field or the four stream fields; it has
      the stream fields exactly when the call succeeded with an `id` and a
      `stream_url` that (with any backup URL) has the `/rtmp/` prefix, and then
      the server URL and the stream key rebuild the primary ingest URL. */
  lemma LiveStreamResultShape(reply: HttpReply, parse: UrlParser)
    ensures var r := LiveStreamResult(reply, parse);
      || r.Keys == {"error"}
      || r.Keys == {"live_video_id", "server_url", "stream_key", "backup_stream_key"}
    ensures var r := LiveStreamResult(reply, parse);
      "live_video_id" in r <==>
        && reply.Answered? && reply.ok && reply.body.Ok?
        && "id" in reply.body.value && "stream_url" in reply.body.value
        && StreamDetailsOf(reply.body.value["stream_url"], parse).Ok?
        && BackupStreamKey(reply.body.value, parse).Ok?
    ensures var r := LiveStreamResult(reply, parse);
      "live_video_id" in r ==>
        && r["live_video_id"] == reply.body.value["id"]
        && reply.body.value["stream_url"].JStr?
        && r["server_url"].JStr? && r["stream_key"].JStr?
        && r["server_url"].s + "/" + r["stream_key"].s == Unparse(parse(reply.body.value["stream_url"].s))
  {
    var r := LiveStreamResult(reply, parse);
    if "live_video_id" in r {
      var data := reply.body.value;
      StreamDetailsRebuildUrl(parse(data["stream_url"].s));
    }
  }

  /** A backup key is present exactly when there is a non-empty list of
      secondary URLs, and it is the stream key of the first one. */
  lemma BackupKeyFromFirstSecondaryUrl(data: Dict, parse: UrlParser, urls: seq<Json>)
    requires "stream_secondary_urls" in data && data["stream_secondary_urls"] == JArr(urls)
    ensures urls == [] ==> BackupStreamKey(data, parse) == Ok(JNull)
    ensures urls != [] && StreamDetailsOf(urls[0], parse).Ok? ==>
      BackupStreamKey(data, parse) == Ok(JStr(StreamDetailsOf(urls[0], parse).value.1))
  {
  }
}

/** The four phases of reel publishing (initialise, upload, poll status,
    publish) for a Facebook page or an Instagram business account. Each phase
    makes at most one Graph API call, classifies the one reply it gets into a
    tagged result record, and carries the identifiers forward for the next
    phase. Exceptions never escape: each phase turns them into an error record
    tagged with its own phase name. */
module ReelPhases {
  import opened PyJson
  import opened GraphApi

  /** The `status` a phase reports. */
  datatype Status = Pending | Success | Ready | Processing | Error | Unknown {
    function Word(): string {
      match this
      case Pending => "pending"
      case Success => "success"
      case Ready => "ready"
      case Processing => "processing"
      case Error => "error"
      case Unknown => "unknown"
    }
  }

  /** A phase's result record: its status, the platform it was asked about,
      its phase tag, and the remaining fields (the timestamp and traceback
      every record also carries are not modelled). */
  datatype PhaseResult = PhaseResult(status: Status, platform: Json, phase: string, fields: Dict)

  /** The dict the service returns for a result record. */
  function AsDict(r: PhaseResult): (d: Dict)
    ensures "status" in d && d["status"] == JStr(r.status.Word())
    ensures "platform" in d && d["platform"] == r.platform
    ensures "phase" in d && d["phase"] == JStr(r.phase)
    ensures forall k :: k in r.fields && k !in ReservedKeys ==> k in d && d[k] == r.fields[k]
  {
    r.fields + map["status" := JStr(r.status.Word()), "platform" := r.platform, "phase" := JStr(r.phase)]
  }

  const ReservedKeys: set<string> := {"status", "platform", "phase"}

  predicate Tagged(r: PhaseResult, status: Status, phase: string) {
    r.status == status && r.phase == phase
  }

  /** The record of the catch-all `except Exception` handler of a phase. */
  function Crashed(platform: Json, e: PyError, phase: string): PhaseResult {
    PhaseResult(Error, platform, phase, map["error_details" := JStr(Describe(e))])
  }

  /** `platform.lower() == "instagram"`: only a string has `lower`, so a missing
      platform (`None`) raises inside the phase's `try`. */
  function IsInstagram(platform: Json): (r: Py<bool>)
    ensures r.Raise? <==> !platform.JStr?
  {
    match platform
    case JStr(s) => Ok(Lower(s) == "instagram")
    case _ => Raise(NoAttribute(platform, "lower"))
  }

  // ---------------------------------------------------------------------------
  // Phase 1: init_reel_upload

  const InitPhase: string := "initialization"

  const MediaCreationPhase: string := "media_creation"

  function InstagramContainerRequest(igId: Json, token: Json, description: Json, videoUrl: Json): Request {
    Request(POST, Graph("v22.0", igId, "media"),
            map["media_type" := JStr("REELS"), "video_url" := videoUrl, "caption" := description,
                "access_token" := token, "share_to_feed" := JStr("true")],
            map[])
  }

  function FacebookStartRequest(pageId: Json, token: Json, videoUrl: Json): Request {
    Request(POST, Graph("v22.0", pageId, "video_reels"),
            map["upload_phase" := JStr("start"), "access_token" := token, "video_url" := videoUrl],
            map[])
  }

  /** The one call `init_reel_upload` makes, if it gets that far. */
  function InitRequest(pageId: Json, token: Json, description: Json, videoUrl: Json, platform: Json): Option<Request> {
    match IsInstagram(platform)
    case Raise(_) => None
    case Ok(true) =>
      if !Truthy(pageId) then None else Some(InstagramContainerRequest(pageId, token, description, videoUrl))
    case Ok(false) => Some(FacebookStartRequest(pageId, token, videoUrl))
  }

  /** Classifies the container-creation reply: the container id becomes both
      `creation_id` and `video_id`. */
  function InstagramContainerResult(igId: Json, description: Json, platform: Json, reply: Py<Dict>): PhaseResult {
    match reply
    case Raise(e) => Crashed(platform, e, InitPhase)
    case Ok(d) =>
      if "id" !in d then
        PhaseResult(Error, platform, MediaCreationPhase, map["instagram_id" := igId, "error_details" := JObj(d)])
      else
        PhaseResult(Pending, platform, "initialized",
                    map["instagram_id" := igId, "creation_id" := d["id"], "video_id" := d["id"],
                        "description" := description])
  }

  /** Classifies the upload-start reply: an `error` key wins, then a missing or
      falsy `video_id` is an error too. */
  function FacebookStartResult(pageId: Json, description: Json, platform: Json, reply: Py<Dict>): PhaseResult {
    match reply
    case Raise(e) => Crashed(platform, e, InitPhase)
    case Ok(d) =>
      if "error" in d then
        PhaseResult(Error, platform, "start", map["page_id" := pageId, "error_details" := d["error"]])
      else if !Truthy(GetOpt(d, "video_id")) then
        PhaseResult(Error, platform, "start",
                    map["page_id" := pageId, "error_details" := JStr("Missing video_id in start response")])
      else
        PhaseResult(Pending, platform, "initialized",
                    map["page_id" := pageId, "video_id" := d["video_id"], "description" := description])
  }

  /** `init_reel_upload(page_id, page_access_token, description, video_url, platform)`
      (its `instagram_id` parameter is overwritten by `page_id` and so plays no part). */
  function InitReelUpload(pageId: Json, token: Json, description: Json, videoUrl: Json,
                          platform: Json, net: Net): (r: PhaseResult)
    ensures r.status == Pending || r.status == Error
    ensures r.status == Pending ==> r.phase == "initialized" && "video_id" in r.fields
  {
    match IsInstagram(platform)
    case Raise(e) => Crashed(platform, e, InitPhase)
    case Ok(true) =>
      if !Truthy(pageId) then
        PhaseResult(Error, platform, InitPhase,
                    map["error_details" := JStr("instagram_id is required for Instagram platform")])
      else
        InstagramContainerResult(pageId, description, platform,
                                 JsonOf(net(InstagramContainerRequest(pageId, token, description, videoUrl))))
    case Ok(false) =>
      FacebookStartResult(pageId, description, platform, JsonOf(net(FacebookStartRequest(pageId, token, videoUrl))))
  }

  /** A pending Instagram result carries the container id of the reply it
      classified as both `creation_id` and `video_id`. */
  lemma InstagramInitCarriesContainerId(pageId: Json, token: Json, description: Json, videoUrl: Json,
                                        platform: Json, net: Net)
    requires IsInstagram(platform) == Ok(true)
    requires InitReelUpload(pageId, token, description, videoUrl, platform, net).status == Pending
    ensures InitRequest(pageId, token, description, videoUrl, platform)
      == Some(InstagramContainerRequest(pageId, token, description, videoUrl))
    ensures var f := InitReelUpload(pageId, token, description, videoUrl, platform, net).fields;
      var reply := JsonOf(net(InstagramContainerRequest(pageId, token, description, videoUrl)));
      && reply.Ok? && "id" in reply.value && "creation_id" in f && "video_id" in f && "instagram_id" in f
      && f["creation_id"] == reply.value["id"] && f["video_id"] == reply.value["id"]
      && f["instagram_id"] == pageId
  {
    var reply := JsonOf(net(InstagramContainerRequest(pageId, token, description, videoUrl)));
    assert Truthy(pageId);
    assert InitReelUpload(pageId, token, description, videoUrl, platform, net)
      == InstagramContainerResult(pageId, description, platform, reply);
  }

  /** A pending Facebook result carries the truthy `video_id` of the
      upload-start reply, which had no `error`. */
  lemma FacebookInitCarriesVideoId(pageId: Json, token: Json, description: Json, videoUrl: Json,
                                   platform: Json, net: Net)
    requires IsInstagram(platform) == Ok(false)
    requires InitReelUpload(pageId, token, description, videoUrl, platform, net).status == Pending
    ensures InitRequest(pageId, token, description, videoUrl, platform)
      == Some(FacebookStartRequest(pageId, token, videoUrl))
    ensures var f := InitReelUpload(pageId, token, description, videoUrl, platform, net).fields;
      var reply := JsonOf(net(FacebookStartRequest(pageId, token, videoUrl)));
      && reply.Ok? && "error" !in reply.value && "video_id" in reply.value && "video_id" in f && "page_id" in f
      && f["video_id"] == reply.value["video_id"] && Truthy(f["video_id"])
      && f["page_id"] == pageId
  {
    var reply := JsonOf(net(FacebookStartRequest(pageId, token, videoUrl)));
    assert InitReelUpload(pageId, token, description, videoUrl, platform, net)
      == FacebookStartResult(pageId, description, platform, reply);
  }

  /** Facebook: an `error` key, or a missing or empty `video_id`, gives an error
      in phase `start`; a reply that raised gives an error in phase
      `initialization` carrying the exception's text; so does a missing
      platform. */
  lemma InitErrorPhases(pageId: Json, token: Json, description: Json, videoUrl: Json,
                        platform: Json, net: Net)
    ensures var r := InitReelUpload(pageId, token, description, videoUrl, platform, net);
      var reply := JsonOf(net(FacebookStartRequest(pageId, token, videoUrl)));
      && (IsInstagram(platform) == Ok(false) && reply.Ok? ==>
            (("error" in reply.value || !Truthy(GetOpt(reply.value, "video_id"))) <==> Tagged(r, Error, "start")))
      && (IsInstagram(platform) == Ok(false) && reply.Raise? ==>
            r == Crashed(platform, reply.error, InitPhase))
      && (!platform.JStr? ==> Tagged(r, Error, InitPhase))
      && (IsInstagram(platform) == Ok(true) && !Truthy(pageId) ==>
            Tagged(r, Error, InitPhase)
            && InitRequest(pageId, token, description, videoUrl, platform).None?)
      && (IsInstagram(platform) == Ok(true) && Truthy(pageId) ==>
            var container := JsonOf(net(InstagramContainerRequest(pageId, token, description, videoUrl)));
            && (container.Raise? ==> r == Crashed(platform, container.error, InitPhase))
            && (container.Ok? ==> ("id" !in container.value <==> Tagged(r, Error, MediaCreationPhase))))
  {
  }

  // ---------------------------------------------------------------------------
  // Phase 2: upload_hosted_file

  const UploadPhase: string := "upload_hosted_file"

  const HttpsRequired: string := "File URL must use HTTPS protocol"

  const MetaCdnRejected: string := "Files hosted on Meta CDN (fbcdn) are not supported. Use crossposting instead."

  const InstagramUploadSkipped: string := "Instagram processes video directly from URL in init step"

  /** The file URL is acceptable for a hosted upload: HTTPS, and not served
      from Meta's own CDN (checked on the lower-cased host). */
  predicate HostedUrlAccepted(fileUrl: string, parse: UrlParser) {
    StartsWith(fileUrl, "https://") && !ContainsStr(Lower(parse(fileUrl).netloc), "fbcdn.net")
  }

  function HostedUploadRequest(token: Json, videoId: Json, fileUrl: Json): Request {
    Request(POST, Rupload(videoId), map[],
            map["Authorization" := JStr("OAuth " + Show(token)), "file_url" := fileUrl])
  }

  /** The one call `upload_hosted_file` makes, if it gets that far. */
  function UploadRequest(token: Json, videoId: Json, fileUrl: Json, platform: Json, parse: UrlParser): Option<Request> {
    match IsInstagram(platform)
    case Raise(_) => None
    case Ok(true) => None
    case Ok(false) =>
      if fileUrl.JStr? && HostedUrlAccepted(fileUrl.s, parse) then Some(HostedUploadRequest(token, videoId, fileUrl))
      else None
  }

  /** A Facebook upload record: the page and video ids echoed with an error in
      phase `upload_hosted_file`, or with success in phase `file_uploaded`. */
  function UploadRecord(succeeded: bool, platform: Json, pageId: Json, videoId: Json, details: Json): PhaseResult {
    if succeeded then
      PhaseResult(Success, platform, "file_uploaded", map["page_id" := pageId, "video_id" := videoId])
    else
      PhaseResult(Error, platform, UploadPhase,
                  map["page_id" := pageId, "video_id" := videoId, "error_details" := details])
  }

  /** Classifies the upload reply: success only when `success` is `True`. */
  function HostedUploadResult(pageId: Json, videoId: Json, platform: Json, reply: Py<Dict>): PhaseResult {
    match reply
    case Raise(e) => Crashed(platform, e, UploadPhase)
    case Ok(d) =>
      if GetOpt(d, "success") == JBool(true) then UploadRecord(true, platform, pageId, videoId, JNull)
      else UploadRecord(false, platform, pageId, videoId, Get(d, "error", JStr("Unknown error")))
  }

  /** `upload_hosted_file(page_id, page_access_token, video_id, file_url, platform)`. */
  function UploadHostedFile(pageId: Json, token: Json, videoId: Json, fileUrl: Json, platform: Json,
                            parse: UrlParser, net: Net): (r: PhaseResult)
    ensures r.status == Success || Tagged(r, Error, UploadPhase)
  {
    match IsInstagram(platform)
    case Raise(e) => Crashed(platform, e, UploadPhase)
    case Ok(true) =>
      PhaseResult(Success, platform, "upload_skipped_for_instagram", map["message" := JStr(InstagramUploadSkipped)])
    case Ok(false) =>
      match fileUrl
      case JStr(url) =>
        if !StartsWith(url, "https://") then
          UploadRecord(false, platform, pageId, videoId, JStr(HttpsRequired))
        else if ContainsStr(Lower(parse(url).netloc), "fbcdn.net") then
          UploadRecord(false, platform, pageId, videoId, JStr(MetaCdnRejected))
        else
          HostedUploadResult(pageId, videoId, platform, JsonOf(net(HostedUploadRequest(token, videoId, fileUrl))))
      case _ => Crashed(platform, NoAttribute(fileUrl, "startswith"), UploadPhase)
  }

  /** Instagram skips the upload whatever the other inputs are. */
  lemma UploadSkippedForInstagram(pageId: Json, token: Json, videoId: Json, fileUrl: Json, s: string,
                                  parse: UrlParser, net: Net)
    requires Lower(s) == "instagram"
    ensures Tagged(UploadHostedFile(pageId, token, videoId, fileUrl, JStr(s), parse, net),
                   Success, "upload_skipped_for_instagram")
    ensures UploadRequest(token, videoId, fileUrl, JStr(s), parse) == None
  {
  }

  /** Facebook: the upload succeeds exactly when the URL passes both checks and
      the reply says `success: True`. */
  lemma UploadSucceedsIff(pageId: Json, token: Json, videoId: Json, url: string, s: string,
                          parse: UrlParser, net: Net)
    requires IsInstagram(JStr(s)) == Ok(false)
    ensures var r := UploadHostedFile(pageId, token, videoId, JStr(url), JStr(s), parse, net);
      var reply := JsonOf(net(HostedUploadRequest(token, videoId, JStr(url))));
      r.status == Success <==>
        HostedUrlAccepted(url, parse) && reply.Ok? && GetOpt(reply.value, "success") == JBool(true)
  {
    var r := UploadHostedFile(pageId, token, videoId, JStr(url), JStr(s), parse, net);
    var reply := JsonOf(net(HostedUploadRequest(token, videoId, JStr(url))));
    if HostedUrlAccepted(url, parse) {
      assert r == HostedUploadResult(pageId, videoId, JStr(s), reply);
    } else {
      assert r.status == Error;
    }
  }

  /** Facebook: a URL that fails a check is rejected, with both ids echoed,
      before any call is made. */
  lemma RejectedUrlMakesNoCall(pageId: Json, token: Json, videoId: Json, url: string, s: string,
                               parse: UrlParser, net: Net)
    requires IsInstagram(JStr(s)) == Ok(false)
    requires !HostedUrlAccepted(url, parse)
    ensures UploadRequest(token, videoId, JStr(url), JStr(s), parse) == None
    ensures var r := UploadHostedFile(pageId, token, videoId, JStr(url), JStr(s), parse, net);
      && Tagged(r, Error, UploadPhase)
      && "page_id" in r.fields && r.fields["page_id"] == pageId
      && "video_id" in r.fields && r.fields["video_id"] == videoId
  {
    var r := UploadHostedFile(pageId, token, videoId, JStr(url), JStr(s), parse, net);
    if !StartsWith(url, "https://") {
      assert r == UploadRecord(false, JStr(s), pageId, videoId, JStr(HttpsRequired));
    } else {
      assert r == UploadRecord(false, JStr(s), pageId, videoId, JStr(MetaCdnRejected));
    }
  }

  // ---------------------------------------------------------------------------
  // Phase 3: check_reel_upload_status

  const CheckPhase: string := "check_status"

  function StatusCheckRequest(token: Json, node: Json, fields: string): Request {
    Request(GET, Graph("v22.0", node, ""), map["fields" := JStr(fields), "access_token" := token], map[])
  }

  /** The one call `check_reel_upload_status` makes, if it gets that far. */
  function CheckRequest(token: Json, videoId: Json, platform: Json): Option<Request> {
    match IsInstagram(platform)
    case Raise(_) => None
    case Ok(true) => if !Truthy(videoId) then None else Some(StatusCheckRequest(token, videoId, "status_code"))
    case Ok(false) => Some(StatusCheckRequest(token, videoId, "status"))
  }

  /** Classifies an Instagram container status: `error` first, then
      `status_code` FINISHED / ERROR / anything else, then unknown. */
  function InstagramStatusResult(igId: Json, creationId: Json, platform: Json, d: Dict): (r: PhaseResult)
    ensures "instagram_id" in r.fields && r.fields["instagram_id"] == igId
    ensures "creation_id" in r.fields && r.fields["creation_id"] == creationId
  {
    var ids := map["instagram_id" := igId, "creation_id" := creationId];
    if "error" in d then
      PhaseResult(Error, platform, CheckPhase, ids["error_details" := d["error"]])
    else if "status_code" in d then
      var code := d["status_code"];
      if code == JStr("FINISHED") then PhaseResult(Ready, platform, "video_ready", ids)
      else if code == JStr("ERROR") then
        PhaseResult(Error, platform, "processing", ids["error_details" := JStr("Video processing failed")])
      else PhaseResult(Processing, platform, "awaiting_ready", ids["status_code" := code])
    else PhaseResult(Unknown, platform, CheckPhase, ids["raw_response" := JObj(d)])
  }

  /** Classifies a Facebook video status: `error` first, then
      `status.video_status` ready / error / anything else, then unknown. A
      `status` that is not an object makes the lookup raise. */
  function FacebookStatusResult(pageId: Json, videoId: Json, platform: Json, d: Dict): (r: PhaseResult)
    ensures "error" !in d && "status" in d && !d["status"].JObj? ==> r == Crashed(platform, NoAttribute(d["status"], "get"), CheckPhase)
    ensures "error" in d || "status" !in d || d["status"].JObj? ==>
      && "page_id" in r.fields && r.fields["page_id"] == pageId
      && "video_id" in r.fields && r.fields["video_id"] == videoId
  {
    var ids := map["page_id" := pageId, "video_id" := videoId];
    if "error" in d then
      PhaseResult(Error, platform, CheckPhase, ids["error_details" := d["error"]])
    else if "status" in d then
      (match GetAt(d["status"], "video_status", JNull)
       case Raise(e) => Crashed(platform, e, CheckPhase)
       case Ok(vs) =>
         var st := d["status"].fields;
         if vs == JStr("ready") then PhaseResult(Ready, platform, "video_ready", ids)
         else if vs == JStr("error") then
           PhaseResult(Error, platform, "upload",
                       ids["error_details" := JStr("Video processing failed")]["facebook_error" := GetOpt(st, "error")])
         else
           PhaseResult(Processing, platform, "awaiting_ready",
                       ids["video_status" := vs]["raw_status" := d["status"]]))
    else PhaseResult(Unknown, platform, CheckPhase, ids["raw_response" := JObj(d)])
  }

  /** `check_reel_upload_status(page_id, page_access_token, video_id, platform)`;
      for Instagram, `page_id` is the account id and `video_id` the container
      id (the `instagram_id` and `creation_id` parameters are overwritten). */
  function CheckReelUploadStatus(pageId: Json, token: Json, videoId: Json, platform: Json, net: Net): (r: PhaseResult)
    ensures r.status in {Ready, Processing, Error, Unknown}
    ensures r.status == Ready ==> r.phase == "video_ready"
  {
    match IsInstagram(platform)
    case Raise(e) => Crashed(platform, e, CheckPhase)
    case Ok(true) =>
      if !Truthy(videoId) then
        PhaseResult(Error, platform, CheckPhase,
                    map["instagram_id" := pageId,
                        "error_details" := JStr("creation_id is required for Instagram status check")])
      else
        (match JsonOf(net(StatusCheckRequest(token, videoId, "status_code")))
         case Raise(e) => Crashed(platform, e, CheckPhase)
         case Ok(d) => InstagramStatusResult(pageId, videoId, platform, d))
    case Ok(false) =>
      match JsonOf(net(StatusCheckRequest(token, videoId, "status")))
      case Raise(e) => Crashed(platform, e, CheckPhase)
      case Ok(d) => FacebookStatusResult(pageId, videoId, platform, d)
  }

  /** Instagram: an `error` key gives `error` before the status is looked at;
      otherwise FINISHED gives ready, ERROR gives a processing error, any other
      code is still processing and is echoed, and no `status_code` is unknown. */
  lemma InstagramStatusClassification(igId: Json, creationId: Json, platform: Json, d: Dict)
    ensures var r := InstagramStatusResult(igId, creationId, platform, d);
      && ("error" in d ==> Tagged(r, Error, CheckPhase) && r.fields["error_details"] == d["error"])
      && ("error" !in d && "status_code" in d ==>
            var code := d["status_code"];
            && (code == JStr("FINISHED") ==> Tagged(r, Ready, "video_ready"))
            && (code == JStr("ERROR") ==> Tagged(r, Error, "processing"))
            && (code != JStr("FINISHED") && code != JStr("ERROR") ==>
                  Tagged(r, Processing, "awaiting_ready") && r.fields["status_code"] == code))
      && ("error" !in d && "status_code" !in d ==> Tagged(r, Unknown, CheckPhase))
  {
  }

  /** Facebook: the same precedence over `status.video_status` with the words
      ready and error (an error is an `upload` failure carrying Facebook's own
      `status.error`); any other or missing `video_status` is still processing. */
  lemma FacebookStatusClassification(pageId: Json, videoId: Json, platform: Json, d: Dict)
    ensures var r := FacebookStatusResult(pageId, videoId, platform, d);
      && ("error" in d ==> Tagged(r, Error, CheckPhase) && r.fields["error_details"] == d["error"])
      && ("error" !in d && "status" in d && d["status"].JObj? ==>
            var vs := GetOpt(d["status"].fields, "video_status");
            && (vs == JStr("ready") ==> Tagged(r, Ready, "video_ready"))
            && (vs == JStr("error") ==>
                  Tagged(r, Error, "upload") && r.fields["facebook_error"] == GetOpt(d["status"].fields, "error"))
            && (vs != JStr("ready") && vs != JStr("error") ==>
                  Tagged(r, Processing, "awaiting_ready") && r.fields["video_status"] == vs))
      && ("error" !in d && "status" !in d ==> Tagged(r, Unknown, CheckPhase))
  {
  }

  /** Every record built from a decoded reply echoes the ids that were passed in. */
  lemma CheckStatusEchoesId(pageId: Json, token: Json, videoId: Json, platform: Json, net: Net)
    requires CheckRequest(token, videoId, platform).Some?
    requires JsonOf(net(CheckRequest(token, videoId, platform).value)).Ok?
    ensures var f := CheckReelUploadStatus(pageId, token, videoId, platform, net).fields;
      var d := JsonOf(net(CheckRequest(token, videoId, platform).value)).value;
      && (IsInstagram(platform) == Ok(true) ==>
            "creation_id" in f && f["creation_id"] == videoId && "instagram_id" in f && f["instagram_id"] == pageId)
      && (IsInstagram(platform) == Ok(false) && ("error" in d || "status" !in d || d["status"].JObj?) ==>
            "video_id" in f && f["video_id"] == videoId && "page_id" in f && f["page_id"] == pageId)
  {
  }

  // ---------------------------------------------------------------------------
  // Phase 4: publish_reel

  const PublishPhase: string := "publish"

  /** The form parameters of the Facebook finish call. The optional audio name
      and thumbnail URL are read from the extra keyword arguments only. */
  function FinishParams(videoId: Json, description: Json, shareToFeed: Json, token: Json, kwargs: Dict): Dict {
    var base := map["upload_phase" := JStr("finish"), "video_id" := videoId, "description" := description,
                    "share_to_feed" := JStr(if Truthy(shareToFeed) then "true" else "false"),
                    "access_token" := token, "video_state" := JStr("PUBLISHED")];
    var withAudio := if Truthy(GetOpt(kwargs, "audio_name")) then base["audio_name" := kwargs["audio_name"]] else base;
    if Truthy(GetOpt(kwargs, "thumbnail_url")) then withAudio["thumbnail_url" := kwargs["thumbnail_url"]] else withAudio
  }

  function InstagramPublishRequest(igId: Json, creationId: Json, token: Json): Request {
    Request(POST, Graph("v22.0", igId, "media_publish"),
            map["creation_id" := creationId, "access_token" := token], map[])
  }

  function FacebookFinishRequest(pageId: Json, videoId: Json, description: Json, shareToFeed: Json,
                                 token: Json, kwargs: Dict): Request {
    Request(POST, Graph("v22.0", pageId, "video_reels"),
            FinishParams(videoId, description, shareToFeed, token, kwargs), map[])
  }

  /** The one call `publish_reel` makes, if it gets that far. */
  function PublishRequest(pageId: Json, token: Json, videoId: Json, description: Json, platform: Json,
                          shareToFeed: Json, kwargs: Dict): Option<Request> {
    match IsInstagram(platform)
    case Raise(_) => None
    case Ok(true) =>
      if !Truthy(pageId) || !Truthy(videoId) then None else Some(InstagramPublishRequest(pageId, videoId, token))
    case Ok(false) => Some(FacebookFinishRequest(pageId, videoId, description, shareToFeed, token, kwargs))
  }

  /** Classifies the Instagram publish reply: any `id` is the new media id. */
  function InstagramPublishResult(igId: Json, creationId: Json, platform: Json, d: Dict): PhaseResult {
    var ids := map["instagram_id" := igId, "creation_id" := creationId];
    if "id" in d then PhaseResult(Success, platform, "published", ids["media_id" := d["id"]])
    else PhaseResult(Error, platform, PublishPhase, ids["error_details" := JObj(d)])
  }

  /** Classifies the Facebook finish reply: `success` is `True` first (the reel
      id is `post_id`), then any `id`, else an error. */
  function FacebookPublishResult(pageId: Json, videoId: Json, shareToFeed: Json, platform: Json, d: Dict): PhaseResult {
    var ids := map["page_id" := pageId, "video_id" := videoId];
    if "success" in d && d["success"] == JBool(true) then
      PhaseResult(Success, platform, "published",
                  ids["reel_id" := GetOpt(d, "post_id")]["message" := GetOpt(d, "message")]["share_to_feed" := shareToFeed])
    else if "id" in d then
      PhaseResult(Success, platform, "published",
                  ids["reel_id" := d["id"]]["permalink_url" := GetOpt(d, "permalink_url")]["share_to_feed" := shareToFeed])
    else PhaseResult(Error, platform, PublishPhase, ids["error_details" := Get(d, "error", JObj(map[]))])
  }

  /** `publish_reel(page_id, page_access_token, video_id, description, platform,
      share_to_feed, audio_name, thumbnail_url, **kwargs)`. The named
      `audio_name` and `thumbnail_url` parameters are never read. */
  function PublishReel(pageId: Json, token: Json, videoId: Json, description: Json, platform: Json,
                       shareToFeed: Json, audioName: Json, thumbnailUrl: Json, kwargs: Dict, net: Net): (r: PhaseResult)
    ensures Tagged(r, Success, "published") || Tagged(r, Error, PublishPhase)
  {
    match IsInstagram(platform)
    case Raise(e) => Crashed(platform, e, PublishPhase)
    case Ok(true) =>
      if !Truthy(pageId) || !Truthy(videoId) then
        PhaseResult(Error, platform, PublishPhase,
                    map["error_details" := JStr("instagram_id and creation_id are required for Instagram publishing")])
      else
        (match JsonOf(net(InstagramPublishRequest(pageId, videoId, token)))
         case Raise(e) => Crashed(platform, e, PublishPhase)
         case Ok(d) => InstagramPublishResult(pageId, videoId, platform, d))
    case Ok(false) =>
      match JsonOf(net(FacebookFinishRequest(pageId, videoId, description, shareToFeed, token, kwargs)))
      case Raise(e) => Crashed(platform, e, PublishPhase)
      case Ok(d) => FacebookPublishResult(pageId, videoId, shareToFeed, platform, d)
  }

  /** Instagram: succeeds exactly when both ids are truthy and the reply has an
      `id`, which becomes the media id; a missing id fails before any call. */
  lemma InstagramPublishSucceedsIff(pageId: Json, token: Json, videoId: Json, description: Json, s: string,
                                    shareToFeed: Json, kwargs: Dict, net: Net)
    requires Lower(s) == "instagram"
    ensures var r := PublishReel(pageId, token, videoId, description, JStr(s), shareToFeed, JNull, JNull, kwargs, net);
      var reply := JsonOf(net(InstagramPublishRequest(pageId, videoId, token)));
      && (!Truthy(pageId) || !Truthy(videoId) ==>
            Tagged(r, Error, PublishPhase)
            && PublishRequest(pageId, token, videoId, description, JStr(s), shareToFeed, kwargs) == None)
      && (r.status == Success <==> Truthy(pageId) && Truthy(videoId) && reply.Ok? && "id" in reply.value)
      && (r.status == Success ==>
            && "media_id" in r.fields && r.fields["media_id"] == reply.value["id"]
            && "creation_id" in r.fields && r.fields["creation_id"] == videoId
            && "instagram_id" in r.fields && r.fields["instagram_id"] == pageId)
  {
  }

  /** The Instagram publish accepts an `id` equal to the container id: nothing
      checks that a new media id was issued. */
  lemma InstagramPublishAcceptsCreationIdAsMediaId(igId: Json, creationId: Json, platform: Json)
    ensures var r := InstagramPublishResult(igId, creationId, platform, map["id" := creationId]);
      Tagged(r, Success, "published") && r.fields["media_id"] == r.fields["creation_id"]
  {
  }

  /** Facebook: success when `success` is `True` (the reel id is `post_id`),
      else when an `id` is present (the reel id is that id), else an error. */
  lemma FacebookPublishClassification(pageId: Json, videoId: Json, shareToFeed: Json, platform: Json, d: Dict)
    ensures var r := FacebookPublishResult(pageId, videoId, shareToFeed, platform, d);
      var succeeded := "success" in d && d["success"] == JBool(true);
      && (r.status == Success <==> succeeded || "id" in d)
      && (succeeded ==> r.fields["reel_id"] == GetOpt(d, "post_id"))
      && (!succeeded && "id" in d ==> r.fields["reel_id"] == d["id"])
      && (r.status == Error ==> r.fields["error_details"] == Get(d, "error", JObj(map[])))
  {
  }

  /** A reply with both `success: true` and an `error` counts as a success. */
  lemma FacebookSuccessBeatsError(pageId: Json, videoId: Json, shareToFeed: Json, platform: Json, err: Json)
    ensures Tagged(FacebookPublishResult(pageId, videoId, shareToFeed, platform,
                                         map["success" := JBool(true), "error" := err]), Success, "published")
  {
  }

  /** Without extra keyword arguments the finish call never carries an audio
      name or a thumbnail URL. */
  lemma FinishParamsWithoutExtras(videoId: Json, description: Json, shareToFeed: Json, token: Json)
    ensures FinishParams(videoId, description, shareToFeed, token, map[]).Keys
      == {"upload_phase", "video_id", "description", "share_to_feed", "access_token", "video_state"}
  {
  }

  // ---------------------------------------------------------------------------
  // The phases and the network

  lemma InitGuardPrecedesCall(pageId: Json, token: Json, description: Json, videoUrl: Json, platform: Json,
                              net1: Net, net2: Net)
    requires InitRequest(pageId, token, description, videoUrl, platform).None?
    ensures InitReelUpload(pageId, token, description, videoUrl, platform, net1)
         == InitReelUpload(pageId, token, description, videoUrl, platform, net2)
  {
  }

  lemma UploadGuardPrecedesCall(pageId: Json, token: Json, videoId: Json, fileUrl: Json, platform: Json,
                                parse: UrlParser, net1: Net, net2: Net)
    requires UploadRequest(token, videoId, fileUrl, platform, parse).None?
    ensures UploadHostedFile(pageId, token, videoId, fileUrl, platform, parse, net1)
         == UploadHostedFile(pageId, token, videoId, fileUrl, platform, parse, net2)
  {
  }

  lemma CheckGuardPrecedesCall(pageId: Json, token: Json, videoId: Json, platform: Json, net1: Net, net2: Net)
    requires CheckRequest(token, videoId, platform).None?
    ensures CheckReelUploadStatus(pageId, token, videoId, platform, net1)
         == CheckReelUploadStatus(pageId, token, videoId, platform, net2)
  {
  }

  lemma PublishGuardPrecedesCall(pageId: Json, token: Json, videoId: Json, description: Json, platform: Json,
                                 shareToFeed: Json, kwargs: Dict, net1: Net, net2: Net)
    requires PublishRequest(pageId, token, videoId, description, platform, shareToFeed, kwargs).None?
    ensures PublishReel(pageId, token, videoId, description, platform, shareToFeed, JNull, JNull, kwargs, net1)
         == PublishReel(pageId, token, videoId, description, platform, shareToFeed, JNull, JNull, kwargs, net2)
  {
  }

  /** Without a platform string every phase fails inside its own `try`, with its
      own phase name, and makes no call. */
  lemma MissingPlatformFailsEveryPhase(pageId: Json, token: Json, videoId: Json, description: Json,
                                       fileUrl: Json, platform: Json, shareToFeed: Json, kwargs: Dict,
                                       parse: UrlParser, net: Net)
    requires !platform.JStr?
    ensures Tagged(InitReelUpload(pageId, token, description, fileUrl, platform, net), Error, InitPhase)
    ensures Tagged(UploadHostedFile(pageId, token, videoId, fileUrl, platform, parse, net), Error, UploadPhase)
    ensures Tagged(CheckReelUploadStatus(pageId, token, videoId, platform, net), Error, CheckPhase)
    ensures Tagged(PublishReel(pageId, token, videoId, description, platform, shareToFeed, JNull, JNull, kwargs, net),
                   Error, PublishPhase)
    ensures InitRequest(pageId, token, description, fileUrl, platform).None?
    ensures UploadRequest(token, videoId, fileUrl, platform, parse).None?
    ensures CheckRequest(token, videoId, platform).None?
    ensures PublishRequest(pageId, token, videoId, description, platform, shareToFeed, kwargs).None?
  {
  }

  // ---------------------------------------------------------------------------
  // post_reel

  const PostReelNotice: string :=
    "Reel upload initiated. Please use the state machine approach (init_reel_upload, check_reel_upload_status, publish_reel) to handle the multi-step process."

  /** `post_reel`: only the Facebook initialisation, with a notice added to its
      record; the share, audio and thumbnail arguments are never used. */
  function PostReel(pageId: Json, token: Json, description: Json, videoUrl: Json, net: Net): (r: PhaseResult)
    ensures var init := InitReelUpload(pageId, token, description, videoUrl, JStr("facebook"), net);
      && r.status == init.status && r.phase == init.phase
      && "message" in r.fields && r.fields["message"] == JStr(PostReelNotice)
      && r.fields - {"message"} == init.fields - {"message"}
  {
    var init := InitReelUpload(pageId, token, description, videoUrl, JStr("facebook"), net);
    init.(fields := init.fields["message" := JStr(PostReelNotice)])
  }
}

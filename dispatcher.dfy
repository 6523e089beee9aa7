/** The Step Functions entry point of the Lambda: one action per state of the
    posting, reel and Instagram state machines, each reading its parameters
    from the event, refusing when required ones are missing, calling one
    service operation and echoing what the next state needs. */
module Dispatcher {
  import opened PyJson
  import opened GraphApi
  import ReelPhases
  import LiveStream
  import PageActions

  /** The branches of `handle_step_function_request`, in the order they are
      tested. Two branches test for `post_to_page`. */
  datatype Action =
    | GetPages | GetPageInfo | PostToPage | PostToPageRedirect
    | CreateInstagramMedia | CheckInstagramMediaStatus | PublishInstagramMedia
    | PostReel | InitReelUpload | UploadHostedFile | CheckReelUploadStatus | PublishReel
    | CreateLiveStream | ExtendToken | GetAccessToken | GetPageFeed | ReplyToComment
    | SendMessage | SendMessageAttachment | GetUserProfile | GetInstagramProfile
  {
    /** The `action` value the branch tests for. */
    function Name(): string {
      match this
      case GetPages => "get_pages"
      case GetPageInfo => "get_page_info"
      case PostToPage => "post_to_page"
      case PostToPageRedirect => "post_to_page"
      case CreateInstagramMedia => "create_instagram_media"
      case CheckInstagramMediaStatus => "check_instagram_media_status"
      case PublishInstagramMedia => "publish_instagram_media"
      case PostReel => "post_reel"
      case InitReelUpload => "init_reel_upload"
      case UploadHostedFile => "upload_hosted_file"
      case CheckReelUploadStatus => "check_reel_upload_status"
      case PublishReel => "publish_reel"
      case CreateLiveStream => "create_live_stream"
      case ExtendToken => "extend_token"
      case GetAccessToken => "get_access_token"
      case GetPageFeed => "get_page_feed"
      case ReplyToComment => "reply_to_comment"
      case SendMessage => "send_message"
      case SendMessageAttachment => "send_message_attachment"
      case GetUserProfile => "get_user_profile"
      case GetInstagramProfile => "get_instagram_profile"
    }
  }

  /** The `if`/`elif` chain on `event.get('action')`: the first branch whose
      name equals the action is taken. Each test compares with the literal
      that `Name()` gives for its branch. */
  function Route(action: Json): Option<Action> {
    match action
    case JStr(s) => RouteName(s)
    case _ => None
  }

  function RouteName(s: string): Option<Action> {
    if s == GetPages.Name() then Some(GetPages)
    else if s == GetPageInfo.Name() then Some(GetPageInfo)
    else if s == PostToPage.Name() then Some(PostToPage)
    else if s == PostToPageRedirect.Name() then Some(PostToPageRedirect)
    else if s == CreateInstagramMedia.Name() then Some(CreateInstagramMedia)
    else if s == CheckInstagramMediaStatus.Name() then Some(CheckInstagramMediaStatus)
    else if s == PublishInstagramMedia.Name() then Some(PublishInstagramMedia)
    else if s == PostReel.Name() then Some(PostReel)
    else if s == InitReelUpload.Name() then Some(InitReelUpload)
    else if s == UploadHostedFile.Name() then Some(UploadHostedFile)
    else if s == CheckReelUploadStatus.Name() then Some(CheckReelUploadStatus)
    else if s == PublishReel.Name() then Some(PublishReel)
    else if s == CreateLiveStream.Name() then Some(CreateLiveStream)
    else if s == ExtendToken.Name() then Some(ExtendToken)
    else if s == GetAccessToken.Name() then Some(GetAccessToken)
    else if s == GetPageFeed.Name() then Some(GetPageFeed)
    else if s == ReplyToComment.Name() then Some(ReplyToComment)
    else if s == SendMessage.Name() then Some(SendMessage)
    else if s == SendMessageAttachment.Name() then Some(SendMessageAttachment)
    else if s == GetUserProfile.Name() then Some(GetUserProfile)
    else if s == GetInstagramProfile.Name() then Some(GetInstagramProfile)
    else None
  }

  /** A call of a `FacebookService` method, with its positional arguments. */
  datatype Call = Call(service: string, args: seq<Json>)

  /** What the dispatcher cannot see: the Graph API, the URL parser, `json.loads`
      and the service methods this model does not define, which answer a call
      with a value or an exception. */
  datatype Env = Env(net: Net, parse: UrlParser, loads: string -> Py<Json>, service: Call -> Py<Json>)

  /** The service calls a branch made, in order, and what it returned or raised. */
  datatype Dispatched = Dispatched(calls: seq<Call>, result: Py<Json>)

  function ErrorObj(msg: string): Json {
    JObj(map["error" := JStr(msg)])
  }

  /** A branch that answers without calling the service. */
  function Refused(msg: string): Dispatched {
    Dispatched([], Ok(ErrorObj(msg)))
  }

  /** A branch that returns what a service method it does not inspect returns. */
  function Opaque(env: Env, c: Call): Dispatched {
    Dispatched([c], env.service(c))
  }

  /** Python's `a or b`. */
  function Or(a: Json, b: Json): (r: Json)
    ensures Truthy(r) <==> Truthy(a) || Truthy(b)
  {
    if Truthy(a) then a else b
  }

  // ---------------------------------------------------------------------------
  // The branches

  function GetPagesBranch(event: Dict, env: Env): Dispatched {
    Opaque(env, Call("get_facebook_pages", [GetOpt(event, "userToken")]))
  }

  function GetPageInfoBranch(event: Dict, env: Env): Dispatched {
    var c := Call("get_facebook_pages", [GetOpt(event, "userToken")]);
    match env.service(c)
    case Raise(e) => Dispatched([c], Raise(e))
    case Ok(pages) =>
      if !pages.JArr? then Dispatched([c], Ok(ErrorObj("Failed to retrieve pages data")))
      else
        var info := Call("extract_page_info", [pages, GetOpt(event, "pageId")]);
        Dispatched([c, info], env.service(info))
  }

  function PostToPageBranch(event: Dict, env: Env): Dispatched {
    var pageId := GetOpt(event, "page_id");
    var token := GetOpt(event, "page_access_token");
    var message := GetOpt(event, "message");
    var mediaType := Get(event, "mediaType", JBool(false));
    var mmUrl := GetOpt(event, "mm_url");
    if !Truthy(pageId) || !Truthy(token) || !Truthy(message) then Refused("Missing required parameters")
    else if Get(event, "social_media", JStr("Facebook")) == JStr("Instagram") then
      // `instagram_id = page_id`, already known to be truthy
      Opaque(env, Call("post_to_instagram", [pageId, token, message, mediaType, mmUrl]))
    else Opaque(env, Call("post_to_facebook_page", [pageId, token, message, mediaType, mmUrl]))
  }

  const RedirectNotice: string :=
    "Instagram posts must use state machine workflow. Use 'create_instagram_media' action instead."

  /** The second `post_to_page` branch, which sends Instagram posts to the
      state machine instead of posting them. */
  function PostToPageRedirectBranch(event: Dict, env: Env): Dispatched {
    var pageId := GetOpt(event, "page_id");
    var token := GetOpt(event, "page_access_token");
    var message := GetOpt(event, "message");
    var mediaType := Get(event, "mediaType", JBool(false));
    var mmUrl := GetOpt(event, "mm_url");
    if !Truthy(pageId) || !Truthy(token) || !Truthy(message) then Refused("Missing required parameters")
    else if Get(event, "social_media", JStr("Facebook")) == JStr("Instagram") then
      Dispatched([], Ok(JObj(map["redirect_to_state_machine" := JBool(true), "message" := JStr(RedirectNotice)])))
    else Opaque(env, Call("post_to_facebook_page", [pageId, token, message, mediaType, mmUrl]))
  }

  function CreateMediaCall(event: Dict): Call {
    Call("create_instagram_media",
         [Or(GetOpt(event, "instagram_id"), GetOpt(event, "page_id")), GetOpt(event, "page_access_token"),
          Or(GetOpt(event, "caption"), GetOpt(event, "message")), GetOpt(event, "mediaType"), GetOpt(event, "mm_url")])
  }

  /** `if result.get('status') == 'created':` add the ids the next state needs. */
  function EnrichCreated(r: Py<Json>, igId: Json, token: Json): Py<Json> {
    var result :- r;
    match result
    case JObj(d) =>
      if GetOpt(d, "status") == JStr("created") then
        Ok(JObj(d["instagram_id" := igId]["page_access_token" := token]))
      else Ok(result)
    case _ => Raise(NoAttribute(result, "get"))
  }

  function CreateInstagramMediaBranch(event: Dict, env: Env): Dispatched {
    var igId := Or(GetOpt(event, "instagram_id"), GetOpt(event, "page_id"));
    var token := GetOpt(event, "page_access_token");
    var caption := Or(GetOpt(event, "caption"), GetOpt(event, "message"));
    if !Truthy(igId) || !Truthy(token) || !Truthy(caption) then
      Refused("Missing required parameters: instagram_id, page_access_token, caption")
    else
      var c := CreateMediaCall(event);
      Dispatched([c], EnrichCreated(env.service(c), igId, token))
  }

  function MediaStatusCall(event: Dict): Call {
    Call("check_instagram_media_status", [GetOpt(event, "creation_id"), GetOpt(event, "page_access_token")])
  }

  /** The five item assignments on the status result; `attempt` is
      `event.get('attempt', 0) + 1`. Only a dict takes string subscripts. */
  function EchoStatus(r: Py<Json>, event: Dict): Py<Json> {
    var result :- r;
    match result
    case JObj(d) =>
      var attempt :- PlusOne(Get(event, "attempt", JNum(0)));
      Ok(JObj(d["creation_id" := GetOpt(event, "creation_id")]
               ["instagram_id" := GetOpt(event, "instagram_id")]
               ["page_access_token" := GetOpt(event, "page_access_token")]
               ["media_type" := GetOpt(event, "media_type")]
               ["attempt" := attempt]))
    case JArr(_) => Raise(TypeError("list indices must be integers or slices, not str"))
    case _ => Raise(TypeError("'" + TypeName(result) + "' object does not support item assignment"))
  }

  function CheckInstagramMediaStatusBranch(event: Dict, env: Env): Dispatched {
    if !Truthy(GetOpt(event, "creation_id")) || !Truthy(GetOpt(event, "page_access_token")) then
      Refused("Missing required parameters: creation_id, page_access_token")
    else
      var c := MediaStatusCall(event);
      Dispatched([c], EchoStatus(env.service(c), event))
  }

  function PublishMediaCall(event: Dict): Call {
    Call("publish_instagram_media",
         [GetOpt(event, "instagram_id"), GetOpt(event, "creation_id"), GetOpt(event, "page_access_token")])
  }

  /** `if result.get('status') == 'not_ready':` echo the ids for the retry and
      count the attempt. */
  function EchoNotReady(r: Py<Json>, event: Dict): Py<Json> {
    var result :- r;
    match result
    case JObj(d) =>
      if GetOpt(d, "status") == JStr("not_ready") then
        var attempt :- PlusOne(Get(event, "publish_attempt", JNum(0)));
        Ok(JObj(d["creation_id" := GetOpt(event, "creation_id")]
                 ["instagram_id" := GetOpt(event, "instagram_id")]
                 ["page_access_token" := GetOpt(event, "page_access_token")]
                 ["media_type" := GetOpt(event, "media_type")]
                 ["publish_attempt" := attempt]))
      else Ok(result)
    case _ => Raise(NoAttribute(result, "get"))
  }

  function PublishInstagramMediaBranch(event: Dict, env: Env): Dispatched {
    if !Truthy(GetOpt(event, "instagram_id")) || !Truthy(GetOpt(event, "creation_id"))
       || !Truthy(GetOpt(event, "page_access_token")) then
      Refused("Missing required parameters: instagram_id, creation_id, page_access_token")
    else
      var c := PublishMediaCall(event);
      Dispatched([c], EchoNotReady(env.service(c), event))
  }

  /** A reel phase answered by the service model, returned as its dict. */
  function Phase(c: Call, r: ReelPhases.PhaseResult): Dispatched {
    Dispatched([c], Ok(JObj(ReelPhases.AsDict(r))))
  }

  const MissingReelUpload: string :=
    "Missing required parameters: page_id, page_access_token, description, or video_url"

  function PostReelBranch(event: Dict, env: Env): Dispatched {
    var pageId := GetOpt(event, "page_id");
    var token := GetOpt(event, "page_access_token");
    var description := GetOpt(event, "message");
    var videoUrl := GetOpt(event, "mm_url");
    if !Truthy(pageId) || !Truthy(token) || !Truthy(description) || !Truthy(videoUrl) then
      Refused(MissingReelUpload)
    else
      Phase(Call("post_reel", [pageId, token, description, videoUrl]),
            ReelPhases.PostReel(pageId, token, description, videoUrl, env.net))
  }

  function InitReelUploadBranch(event: Dict, env: Env): Dispatched {
    var pageId := GetOpt(event, "page_id");
    var token := GetOpt(event, "page_access_token");
    var description := GetOpt(event, "message");
    var videoUrl := GetOpt(event, "mm_url");
    var platform := GetOpt(event, "platform");
    if !Truthy(pageId) || !Truthy(token) || !Truthy(description) || !Truthy(videoUrl) then
      Refused(MissingReelUpload)
    else
      Phase(Call("init_reel_upload", [pageId, token, description, videoUrl, platform]),
            ReelPhases.InitReelUpload(pageId, token, description, videoUrl, platform, env.net))
  }

  function UploadHostedFileBranch(event: Dict, env: Env): Dispatched {
    var pageId := GetOpt(event, "page_id");
    var token := GetOpt(event, "page_access_token");
    var videoId := GetOpt(event, "video_id");
    var fileUrl := GetOpt(event, "mm_url");
    var platform := GetOpt(event, "platform");
    if !Truthy(pageId) || !Truthy(token) || !Truthy(videoId) || !Truthy(fileUrl) then
      Refused("Missing required parameters: page_id, page_access_token, video_id, or file_url")
    else
      Phase(Call("upload_hosted_file", [pageId, token, videoId, fileUrl, platform]),
            ReelPhases.UploadHostedFile(pageId, token, videoId, fileUrl, platform, env.parse, env.net))
  }

  function CheckReelUploadStatusBranch(event: Dict, env: Env): Dispatched {
    var pageId := GetOpt(event, "page_id");
    var token := GetOpt(event, "page_access_token");
    var videoId := GetOpt(event, "video_id");
    var platform := GetOpt(event, "platform");
    if !Truthy(pageId) || !Truthy(token) || !Truthy(videoId) then
      Refused("Missing required parameters: page_id, page_access_token, or video_id")
    else
      Phase(Call("check_reel_upload_status", [pageId, token, videoId, platform]),
            ReelPhases.CheckReelUploadStatus(pageId, token, videoId, platform, env.net))
  }

  function PublishReelBranch(event: Dict, env: Env): Dispatched {
    var pageId := GetOpt(event, "page_id");
    var token := GetOpt(event, "page_access_token");
    var videoId := GetOpt(event, "video_id");
    var description := GetOpt(event, "message");
    var shareToFeed := Get(event, "share_to_feed", JBool(true));
    var audioName := GetOpt(event, "audio_name");
    var thumbnailUrl := GetOpt(event, "thumbnail_url");
    var platform := GetOpt(event, "platform");
    if !Truthy(pageId) || !Truthy(token) || !Truthy(videoId) || !Truthy(description) then
      Refused("Missing required parameters: page_id, page_access_token, video_id, or description")
    else
      Phase(Call("publish_reel", [pageId, token, videoId, description, platform, shareToFeed, audioName, thumbnailUrl]),
            ReelPhases.PublishReel(pageId, token, videoId, description, platform, shareToFeed,
                                   audioName, thumbnailUrl, map[], env.net))
  }

  /** `page_access_token[:5]` in the debug output once the token is truthy:
      strings and lists slice; a dict, a number or `True` raises. */
  function SliceError(token: Json): Option<PyError> {
    if !Truthy(token) then None else SliceFailure(token, None, Some(5))
  }

  /** The title of a dict that `json.loads` decodes from a string; anything the
      inner `try` catches leaves the title `None`. */
  function LoadedTitle(s: string, loads: string -> Py<Json>): Json {
    match loads(s)
    case Ok(JObj(m)) => GetOpt(m, "title")
    case _ => JNull
  }

  /** The `title` of `live_stream_data`, which is a dict, a JSON string or
      missing; a falsy value reads as `{}` and a truthy non-string one makes
      `json.loads` raise a caught `TypeError`. */
  function LiveTitle(data: Json, loads: string -> Py<Json>): Json {
    match data
    case JObj(m) => GetOpt(m, "title")
    case JStr(s) => if s == "" then JNull else LoadedTitle(s, loads)
    case _ => JNull
  }

  function LiveStreamCall(event: Dict, env: Env): Call {
    var title := LiveTitle(GetOpt(event, "live_stream_data"), env.loads);
    Call("create_live_stream", [Get(event, "page_id", JStr("")), GetOpt(event, "page_access_token"),
                                title, Get(event, "stream_description", title)])
  }

  /** The `create_live_stream` branch, all inside a `try` that turns any
      exception into an error dict; the service operation itself never raises. */
  function CreateLiveStreamBranch(event: Dict, env: Env): (d: Dispatched)
    ensures d.result.Ok?
  {
    var pageId := Get(event, "page_id", JStr(""));
    var token := GetOpt(event, "page_access_token");
    match SliceError(token)
    case Some(e) => Dispatched([], Ok(ErrorObj("Unexpected error: " + Describe(e))))
    case None =>
      var title := LiveTitle(GetOpt(event, "live_stream_data"), env.loads);
      if !Truthy(pageId) then Refused("Missing required parameter: page_id")
      else if !Truthy(token) then Refused("Missing required parameter: page_access_token")
      else if !Truthy(title) then Refused("Missing required parameter: title")
      else
        var description := Get(event, "stream_description", title);
        Dispatched([LiveStreamCall(event, env)],
                   Ok(JObj(LiveStream.CreateLiveStream(pageId, token, title, description, env.net, env.parse))))
  }

  function ExtendTokenBranch(event: Dict, env: Env): Dispatched {
    Opaque(env, Call("extend_user_access_token", [GetOpt(event, "token")]))
  }

  function GetAccessTokenBranch(event: Dict, env: Env): Dispatched {
    Opaque(env, Call("get_user_access_token", [GetOpt(event, "authCode"), GetOpt(event, "redirectUri")]))
  }

  function GetPageFeedBranch(event: Dict, env: Env): Dispatched {
    var pageId := GetOpt(event, "page_id");
    var token := GetOpt(event, "page_access_token");
    if !Truthy(pageId) || !Truthy(token) then
      Refused("Missing required parameters: page_id and page_access_token")
    else
      Opaque(env, Call("get_page_feed", [pageId, token, Get(event, "limit", JNum(25)), GetOpt(event, "fields")]))
  }

  /** The refusal of `reply_to_comment`, which has the shape of the service's
      own error records (its timestamp is left out). */
  const ReplyRefusal: Json :=
    JObj(map["status" := JStr("error"), "error_details" := JStr("Missing required parameters")])

  function ReplyToCommentBranch(event: Dict, env: Env): Dispatched {
    var commentId := GetOpt(event, "original_comment_id");
    var token := GetOpt(event, "page_access_token");
    var replyText := GetOpt(event, "reply_text");
    var commenterId := GetOpt(event, "commenter_id");
    if !Truthy(commentId) || !Truthy(token) || !Truthy(replyText) then Dispatched([], Ok(ReplyRefusal))
    else
      var c := Call("reply_to_comment", [commentId, token, replyText, commenterId]);
      match PageActions.ReplyToComment(commentId, token, replyText, commenterId, env.net)
      case Raise(e) => Dispatched([c], Raise(e))
      case Ok(d) => Dispatched([c], Ok(JObj(d)))
  }

  function SendMessageBranch(event: Dict, env: Env): Dispatched {
    var recipient := GetOpt(event, "recipient_id");
    var text := GetOpt(event, "message_text");
    var token := GetOpt(event, "page_access_token");
    if !Truthy(recipient) || !Truthy(text) || !Truthy(token) then Refused("Missing required parameters")
    else Opaque(env, Call("send_message", [recipient, text, token]))
  }

  function SendMessageAttachmentBranch(event: Dict, env: Env): Dispatched {
    var recipient := GetOpt(event, "recipient_id");
    var kind := GetOpt(event, "attachment_type");
    var url := GetOpt(event, "attachment_url");
    var token := GetOpt(event, "page_access_token");
    if !(Truthy(recipient) && Truthy(kind) && Truthy(url) && Truthy(token)) then Refused("Missing required parameters")
    else Opaque(env, Call("send_message_with_attachment", [recipient, kind, url, token]))
  }

  function GetUserProfileBranch(event: Dict, env: Env): Dispatched {
    var userId := GetOpt(event, "user_id");
    var token := GetOpt(event, "page_access_token");
    if !Truthy(userId) || !Truthy(token) then Refused("Missing required parameters")
    else Opaque(env, Call("get_user_profile", [userId, token, GetOpt(event, "fields")]))
  }

  function GetInstagramProfileBranch(event: Dict, env: Env): Dispatched {
    var igId := GetOpt(event, "instagram_id");
    var token := GetOpt(event, "page_access_token");
    if !Truthy(igId) || !Truthy(token) then
      Refused("Missing required parameters: instagram_id and page_access_token")
    else Opaque(env, Call("get_instagram_profile_details", [igId, token]))
  }

  function Handle(a: Action, event: Dict, env: Env): Dispatched {
    match a
    case GetPages => GetPagesBranch(event, env)
    case GetPageInfo => GetPageInfoBranch(event, env)
    case PostToPage => PostToPageBranch(event, env)
    case PostToPageRedirect => PostToPageRedirectBranch(event, env)
    case CreateInstagramMedia => CreateInstagramMediaBranch(event, env)
    case CheckInstagramMediaStatus => CheckInstagramMediaStatusBranch(event, env)
    case PublishInstagramMedia => PublishInstagramMediaBranch(event, env)
    case PostReel => PostReelBranch(event, env)
    case InitReelUpload => InitReelUploadBranch(event, env)
    case UploadHostedFile => UploadHostedFileBranch(event, env)
    case CheckReelUploadStatus => CheckReelUploadStatusBranch(event, env)
    case PublishReel => PublishReelBranch(event, env)
    case CreateLiveStream => CreateLiveStreamBranch(event, env)
    case ExtendToken => ExtendTokenBranch(event, env)
    case GetAccessToken => GetAccessTokenBranch(event, env)
    case GetPageFeed => GetPageFeedBranch(event, env)
    case ReplyToComment => ReplyToCommentBranch(event, env)
    case SendMessage => SendMessageBranch(event, env)
    case SendMessageAttachment => SendMessageAttachmentBranch(event, env)
    case GetUserProfile => GetUserProfileBranch(event, env)
    case GetInstagramProfile => GetInstagramProfileBranch(event, env)
  }

  /** `handle_step_function_request(event, fb_service)`. */
  function HandleStepFunction(event: Dict, env: Env): Dispatched {
    var action := GetOpt(event, "action");
    match Route(action)
    case None => Dispatched([], Raise(InvalidAction(action)))
    case Some(a) => Handle(a, event, env)
  }

  // ---------------------------------------------------------------------------
  // Routing

  /** The lengths of the branch names, which tell most of them apart. */
  lemma NameLengths()
    ensures |"get_pages"| == 9
    ensures |"get_page_info"| == 13
    ensures |"post_to_page"| == 12
    ensures |"create_instagram_media"| == 22
    ensures |"check_instagram_media_status"| == 28
    ensures |"publish_instagram_media"| == 23
    ensures |"post_reel"| == 9
    ensures |"init_reel_upload"| == 16
    ensures |"upload_hosted_file"| == 18
    ensures |"check_reel_upload_status"| == 24
    ensures |"publish_reel"| == 12
    ensures |"create_live_stream"| == 18
    ensures |"extend_token"| == 12
    ensures |"get_access_token"| == 16
    ensures |"get_page_feed"| == 13
    ensures |"reply_to_comment"| == 16
    ensures |"send_message"| == 12
    ensures |"send_message_attachment"| == 23
    ensures |"get_user_profile"| == 16
    ensures |"get_instagram_profile"| == 21
  {
  }

  /** A taken branch is one whose name is the action. */
  lemma RouteMatchesName(action: Json)
    ensures Route(action).Some? ==> action == JStr(Route(action).value.Name())
  {
    NameLengths();
  }

  /** Every branch but the dead redirect is reached by its own name: together
      with `RouteMatchesName`, an action routes to a branch exactly when it is
      one of the branch names, and then to that branch. */
  lemma RouteComplete(a: Action)
    requires a != PostToPageRedirect
    ensures Route(JStr(a.Name())) == Some(a)
  {
    match a
    case GetPages => RouteFindsGetPages();
    case GetPageInfo => RouteFindsGetPageInfo();
    case PostToPage => RouteFindsPostToPage();
    case CreateInstagramMedia => RouteFindsCreateInstagramMedia();
    case CheckInstagramMediaStatus => RouteFindsCheckInstagramMediaStatus();
    case PublishInstagramMedia => RouteFindsPublishInstagramMedia();
    case PostReel => RouteFindsPostReel();
    case InitReelUpload => RouteFindsInitReelUpload();
    case UploadHostedFile => RouteFindsUploadHostedFile();
    case CheckReelUploadStatus => RouteFindsCheckReelUploadStatus();
    case PublishReel => RouteFindsPublishReel();
    case CreateLiveStream => RouteFindsCreateLiveStream();
    case ExtendToken => RouteFindsExtendToken();
    case GetAccessToken => RouteFindsGetAccessToken();
    case GetPageFeed => RouteFindsGetPageFeed();
    case ReplyToComment => RouteFindsReplyToComment();
    case SendMessage => RouteFindsSendMessage();
    case SendMessageAttachment => RouteFindsSendMessageAttachment();
    case GetUserProfile => RouteFindsGetUserProfile();
    case GetInstagramProfile => RouteFindsGetInstagramProfile();
    case PostToPageRedirect => assert false;
  }

  /** `handle_step_function_request` runs the branch an action names. */
  lemma HandleRunsNamedBranch(event: Dict, env: Env, a: Action)
    requires a != PostToPageRedirect && GetOpt(event, "action") == JStr(a.Name())
    ensures HandleStepFunction(event, env) == Handle(a, event, env)
  {
    RouteComplete(a);
  }

  // One lemma per branch name keeps each chain of literal comparisons small.

  lemma RouteFindsGetPages()
    ensures RouteName(GetPages.Name()) == Some(GetPages)
  {
    NameLengths();
  }

  lemma RouteFindsGetPageInfo()
    ensures RouteName(GetPageInfo.Name()) == Some(GetPageInfo)
  {
    NameLengths();
  }

  lemma RouteFindsPostToPage()
    ensures RouteName(PostToPage.Name()) == Some(PostToPage)
  {
    NameLengths();
  }

  lemma RouteFindsCreateInstagramMedia()
    ensures RouteName(CreateInstagramMedia.Name()) == Some(CreateInstagramMedia)
  {
    NameLengths();
  }

  lemma RouteFindsCheckInstagramMediaStatus()
    ensures RouteName(CheckInstagramMediaStatus.Name()) == Some(CheckInstagramMediaStatus)
  {
    NameLengths();
  }

  lemma RouteFindsPublishInstagramMedia()
    ensures RouteName(PublishInstagramMedia.Name()) == Some(PublishInstagramMedia)
  {
    NameLengths();
  }

  lemma RouteFindsPostReel()
    ensures RouteName(PostReel.Name()) == Some(PostReel)
  {
    NameLengths();
    assert PostReel.Name()[0] != GetPages.Name()[0];
  }

  lemma RouteFindsInitReelUpload()
    ensures RouteName(InitReelUpload.Name()) == Some(InitReelUpload)
  {
    NameLengths();
  }

  lemma RouteFindsUploadHostedFile()
    ensures RouteName(UploadHostedFile.Name()) == Some(UploadHostedFile)
  {
    NameLengths();
  }

  lemma RouteFindsCheckReelUploadStatus()
    ensures RouteName(CheckReelUploadStatus.Name()) == Some(CheckReelUploadStatus)
  {
    NameLengths();
  }

  lemma RouteFindsPublishReel()
    ensures RouteName(PublishReel.Name()) == Some(PublishReel)
  {
    NameLengths();
    assert PublishReel.Name()[1] != PostToPage.Name()[1];
    assert PublishReel.Name()[1] != PostToPageRedirect.Name()[1];
  }

  lemma RouteFindsCreateLiveStream()
    ensures RouteName(CreateLiveStream.Name()) == Some(CreateLiveStream)
  {
    NameLengths();
    assert CreateLiveStream.Name()[0] != UploadHostedFile.Name()[0];
  }

  lemma RouteFindsExtendToken()
    ensures RouteName(ExtendToken.Name()) == Some(ExtendToken)
  {
    NameLengths();
    assert ExtendToken.Name()[0] != PostToPage.Name()[0];
    assert ExtendToken.Name()[0] != PostToPageRedirect.Name()[0];
    assert ExtendToken.Name()[0] != PublishReel.Name()[0];
  }

  lemma RouteFindsGetAccessToken()
    ensures RouteName(GetAccessToken.Name()) == Some(GetAccessToken)
  {
    NameLengths();
    assert GetAccessToken.Name()[0] != InitReelUpload.Name()[0];
  }

  lemma RouteFindsGetPageFeed()
    ensures RouteName(GetPageFeed.Name()) == Some(GetPageFeed)
  {
    NameLengths();
    assert GetPageFeed.Name()[9] != GetPageInfo.Name()[9];
  }

  lemma RouteFindsReplyToComment()
    ensures RouteName(ReplyToComment.Name()) == Some(ReplyToComment)
  {
    NameLengths();
    assert ReplyToComment.Name()[0] != InitReelUpload.Name()[0];
    assert ReplyToComment.Name()[0] != GetAccessToken.Name()[0];
  }

  lemma RouteFindsSendMessage()
    ensures RouteName(SendMessage.Name()) == Some(SendMessage)
  {
    NameLengths();
    assert SendMessage.Name()[0] != PostToPage.Name()[0];
    assert SendMessage.Name()[0] != PostToPageRedirect.Name()[0];
    assert SendMessage.Name()[0] != PublishReel.Name()[0];
    assert SendMessage.Name()[0] != ExtendToken.Name()[0];
  }

  lemma RouteFindsSendMessageAttachment()
    ensures RouteName(SendMessageAttachment.Name()) == Some(SendMessageAttachment)
  {
    NameLengths();
    assert SendMessageAttachment.Name()[0] != PublishInstagramMedia.Name()[0];
  }

  lemma RouteFindsGetUserProfile()
    ensures RouteName(GetUserProfile.Name()) == Some(GetUserProfile)
  {
    NameLengths();
    assert GetUserProfile.Name()[0] != InitReelUpload.Name()[0];
    assert GetUserProfile.Name()[4] != GetAccessToken.Name()[4];
    assert GetUserProfile.Name()[0] != ReplyToComment.Name()[0];
  }

  lemma RouteFindsGetInstagramProfile()
    ensures RouteName(GetInstagramProfile.Name()) == Some(GetInstagramProfile)
  {
    NameLengths();
  }

  /** The second `post_to_page` branch is dead: the first one always wins. */
  lemma RedirectUnreachable(action: Json)
    ensures Route(action) != Some(PostToPageRedirect)
    ensures action == JStr("post_to_page") ==> Route(action) == Some(PostToPage)
  {
    NameLengths();
  }

  /** An action that no branch names raises `Invalid action` before any call. */
  lemma UnknownActionRaises(event: Dict, env: Env)
    requires forall a: Action :: GetOpt(event, "action") != JStr(a.Name())
    ensures HandleStepFunction(event, env) == Dispatched([], Raise(InvalidAction(GetOpt(event, "action"))))
  {
    RouteMatchesName(GetOpt(event, "action"));
  }

  // ---------------------------------------------------------------------------
  // Required parameters

  /** A required parameter: one key, or two keys joined by `or`. */
  datatype Need = Key(key: string) | Either(first: string, second: string)

  predicate Supplied(event: Dict, n: Need) {
    match n
    case Key(k) => Truthy(GetOpt(event, k))
    case Either(k1, k2) => Truthy(GetOpt(event, k1)) || Truthy(GetOpt(event, k2))
  }

  predicate Meets(event: Dict, needs: seq<Need>) {
    forall i :: 0 <= i < |needs| ==> Supplied(event, needs[i])
  }

  /** What a branch requires and how it refuses. */
  datatype Guard = Guard(needs: seq<Need>, refusal: Json)

  const PostToPageGuard: Guard :=
    Guard([Key("page_id"), Key("page_access_token"), Key("message")], ErrorObj("Missing required parameters"))
  const CreateMediaGuard: Guard :=
    Guard([Either("instagram_id", "page_id"), Key("page_access_token"), Either("caption", "message")],
          ErrorObj("Missing required parameters: instagram_id, page_access_token, caption"))
  const MediaStatusGuard: Guard :=
    Guard([Key("creation_id"), Key("page_access_token")],
          ErrorObj("Missing required parameters: creation_id, page_access_token"))
  const PublishMediaGuard: Guard :=
    Guard([Key("instagram_id"), Key("creation_id"), Key("page_access_token")],
          ErrorObj("Missing required parameters: instagram_id, creation_id, page_access_token"))
  const ReelUploadGuard: Guard :=
    Guard([Key("page_id"), Key("page_access_token"), Key("message"), Key("mm_url")], ErrorObj(MissingReelUpload))
  const HostedFileGuard: Guard :=
    Guard([Key("page_id"), Key("page_access_token"), Key("video_id"), Key("mm_url")],
          ErrorObj("Missing required parameters: page_id, page_access_token, video_id, or file_url"))
  const ReelStatusGuard: Guard :=
    Guard([Key("page_id"), Key("page_access_token"), Key("video_id")],
          ErrorObj("Missing required parameters: page_id, page_access_token, or video_id"))
  const PublishReelGuard: Guard :=
    Guard([Key("page_id"), Key("page_access_token"), Key("video_id"), Key("message")],
          ErrorObj("Missing required parameters: page_id, page_access_token, video_id, or description"))
  const PageFeedGuard: Guard :=
    Guard([Key("page_id"), Key("page_access_token")],
          ErrorObj("Missing required parameters: page_id and page_access_token"))
  const ReplyGuard: Guard :=
    Guard([Key("original_comment_id"), Key("page_access_token"), Key("reply_text")], ReplyRefusal)
  const SendMessageGuard: Guard :=
    Guard([Key("recipient_id"), Key("message_text"), Key("page_access_token")], ErrorObj("Missing required parameters"))
  const AttachmentGuard: Guard :=
    Guard([Key("recipient_id"), Key("attachment_type"), Key("attachment_url"), Key("page_access_token")],
          ErrorObj("Missing required parameters"))
  const UserProfileGuard: Guard :=
    Guard([Key("user_id"), Key("page_access_token")], ErrorObj("Missing required parameters"))
  const InstagramProfileGuard: Guard :=
    Guard([Key("instagram_id"), Key("page_access_token")],
          ErrorObj("Missing required parameters: instagram_id and page_access_token"))

  /** The guard of each branch that checks its parameters with one test.
      `create_live_stream` checks its parameters one by one (see
      `LiveStreamGuards`); the other unlisted branches check nothing. */
  function GuardOf(a: Action): Option<Guard> {
    match a
    case PostToPage => Some(PostToPageGuard)
    case PostToPageRedirect => Some(PostToPageGuard)
    case CreateInstagramMedia => Some(CreateMediaGuard)
    case CheckInstagramMediaStatus => Some(MediaStatusGuard)
    case PublishInstagramMedia => Some(PublishMediaGuard)
    case PostReel => Some(ReelUploadGuard)
    case InitReelUpload => Some(ReelUploadGuard)
    case UploadHostedFile => Some(HostedFileGuard)
    case CheckReelUploadStatus => Some(ReelStatusGuard)
    case PublishReel => Some(PublishReelGuard)
    case GetPageFeed => Some(PageFeedGuard)
    case ReplyToComment => Some(ReplyGuard)
    case SendMessage => Some(SendMessageGuard)
    case SendMessageAttachment => Some(AttachmentGuard)
    case GetUserProfile => Some(UserProfileGuard)
    case GetInstagramProfile => Some(InstagramProfileGuard)
    case _ => None
  }

  /** The required parameters one by one. */
  lemma MeetsEach(event: Dict, needs: seq<Need>)
    ensures Meets(event, needs) <==>
      (|needs| > 0 ==> Supplied(event, needs[0])) && (|needs| > 1 ==> Supplied(event, needs[1]))
      && (|needs| > 2 ==> Supplied(event, needs[2])) && (|needs| > 3 ==> Supplied(event, needs[3]))
      && forall i :: 4 <= i < |needs| ==> Supplied(event, needs[i])
  {
  }

  /** A guard decides a branch: a missing parameter gives the refusal and no
      call, and otherwise the branch makes exactly one service call. */
  predicate Decides(g: Guard, event: Dict, d: Dispatched) {
    && (!Meets(event, g.needs) ==> d == Dispatched([], Ok(g.refusal)))
    && (Meets(event, g.needs) ==> |d.calls| == 1)
  }

  /** The posting and Instagram guards. The dead redirect branch refuses like
      the first `post_to_page` branch but answers Instagram posts itself. */
  lemma PostingGuardsDecide(event: Dict, env: Env)
    ensures Decides(PostToPageGuard, event, PostToPageBranch(event, env))
    ensures !Meets(event, PostToPageGuard.needs) ==>
      PostToPageRedirectBranch(event, env) == Dispatched([], Ok(PostToPageGuard.refusal))
    ensures Decides(CreateMediaGuard, event, CreateInstagramMediaBranch(event, env))
    ensures Decides(MediaStatusGuard, event, CheckInstagramMediaStatusBranch(event, env))
    ensures Decides(PublishMediaGuard, event, PublishInstagramMediaBranch(event, env))
  {
    MeetsEach(event, PostToPageGuard.needs);
    MeetsEach(event, CreateMediaGuard.needs);
    MeetsEach(event, MediaStatusGuard.needs);
    MeetsEach(event, PublishMediaGuard.needs);
  }

  /** The reel guards. */
  lemma ReelGuardsDecide(event: Dict, env: Env)
    ensures Decides(ReelUploadGuard, event, PostReelBranch(event, env))
    ensures Decides(ReelUploadGuard, event, InitReelUploadBranch(event, env))
    ensures Decides(HostedFileGuard, event, UploadHostedFileBranch(event, env))
    ensures Decides(ReelStatusGuard, event, CheckReelUploadStatusBranch(event, env))
    ensures Decides(PublishReelGuard, event, PublishReelBranch(event, env))
  {
    MeetsEach(event, ReelUploadGuard.needs);
    MeetsEach(event, HostedFileGuard.needs);
    MeetsEach(event, ReelStatusGuard.needs);
    MeetsEach(event, PublishReelGuard.needs);
  }

  /** The feed, comment, messaging and profile guards. */
  lemma OtherGuardsDecide(event: Dict, env: Env)
    ensures Decides(PageFeedGuard, event, GetPageFeedBranch(event, env))
    ensures Decides(ReplyGuard, event, ReplyToCommentBranch(event, env))
    ensures Decides(SendMessageGuard, event, SendMessageBranch(event, env))
    ensures Decides(AttachmentGuard, event, SendMessageAttachmentBranch(event, env))
    ensures Decides(UserProfileGuard, event, GetUserProfileBranch(event, env))
    ensures Decides(InstagramProfileGuard, event, GetInstagramProfileBranch(event, env))
  {
    MeetsEach(event, PageFeedGuard.needs);
    MeetsEach(event, ReplyGuard.needs);
    MeetsEach(event, SendMessageGuard.needs);
    MeetsEach(event, AttachmentGuard.needs);
    MeetsEach(event, UserProfileGuard.needs);
    MeetsEach(event, InstagramProfileGuard.needs);
  }

  /** A branch with a guard answers its refusal, without calling the service,
      exactly when a required parameter is missing or falsy; once the guard
      passes it makes exactly one service call, except that the dead redirect
      branch answers Instagram posts itself. */
  lemma GuardDecides(a: Action, event: Dict, env: Env)
    requires GuardOf(a).Some?
    ensures !Meets(event, GuardOf(a).value.needs) ==>
      Handle(a, event, env) == Dispatched([], Ok(GuardOf(a).value.refusal))
    ensures Meets(event, GuardOf(a).value.needs) && a != PostToPageRedirect ==>
      |Handle(a, event, env).calls| == 1
  {
    PostingGuardsDecide(event, env);
    ReelGuardsDecide(event, env);
    OtherGuardsDecide(event, env);
  }

  /** The three unguarded branches (`get_pages`, `extend_token`,
      `get_access_token`) make exactly one service call with the event's
      parameters, whatever they are, and return its answer unchanged. */
  lemma UnguardedBranchesPassThrough(event: Dict, env: Env)
    ensures var d := GetPagesBranch(event, env);
      |d.calls| == 1 && d.calls[0].args == [GetOpt(event, "userToken")] && d.result == env.service(d.calls[0])
    ensures var d := ExtendTokenBranch(event, env);
      |d.calls| == 1 && d.calls[0].args == [GetOpt(event, "token")] && d.result == env.service(d.calls[0])
    ensures var d := GetAccessTokenBranch(event, env);
      && |d.calls| == 1 && d.calls[0].args == [GetOpt(event, "authCode"), GetOpt(event, "redirectUri")]
      && d.result == env.service(d.calls[0])
  {
  }

  // ---------------------------------------------------------------------------
  // What the branches pass on

  /** `post_to_page` posts to Instagram through `post_to_instagram` and to
      every other platform (Facebook by default) through
      `post_to_facebook_page`, with `mediaType` defaulting to `False`; the
      inner `instagram_id` test never refuses. */
  lemma PostToPageTargets(event: Dict, env: Env)
    requires Meets(event, PostToPageGuard.needs)
    ensures var d := PostToPageBranch(event, env);
      && |d.calls| == 1
      && d.calls[0].service ==
           (if Get(event, "social_media", JStr("Facebook")) == JStr("Instagram") then "post_to_instagram"
            else "post_to_facebook_page")
      && d.calls[0].args == [GetOpt(event, "page_id"), GetOpt(event, "page_access_token"), GetOpt(event, "message"),
                             Get(event, "mediaType", JBool(false)), GetOpt(event, "mm_url")]
      && d.result == env.service(d.calls[0])
    ensures "social_media" !in event ==> PostToPageBranch(event, env).calls[0].service == "post_to_facebook_page"
  {
    MeetsEach(event, PostToPageGuard.needs);
  }

  /** `get_page_info` looks a page up only in a list of pages; any other
      answer of `get_facebook_pages` gives an error record and no lookup. */
  lemma PageInfoNeedsList(event: Dict, env: Env, pages: Json)
    requires env.service(Call("get_facebook_pages", [GetOpt(event, "userToken")])) == Ok(pages)
    ensures !pages.JArr? ==>
      GetPageInfoBranch(event, env).result == Ok(ErrorObj("Failed to retrieve pages data"))
      && |GetPageInfoBranch(event, env).calls| == 1
    ensures pages.JArr? ==>
      && |GetPageInfoBranch(event, env).calls| == 2
      && GetPageInfoBranch(event, env).calls[1] == Call("extract_page_info", [pages, GetOpt(event, "pageId")])
  {
  }

  /** A created container is enriched with the Instagram id (`instagram_id`,
      else `page_id`) and the token; every other dict is returned as it came,
      and an answer that is not a dict makes `.get` raise. */
  lemma CreateMediaEnrichment(event: Dict, env: Env, v: Json)
    requires Meets(event, CreateMediaGuard.needs)
    requires env.service(CreateMediaCall(event)) == Ok(v)
    ensures var r := CreateInstagramMediaBranch(event, env);
      && r.calls == [CreateMediaCall(event)]
      && (!v.JObj? ==> r.result == Raise(NoAttribute(v, "get")))
      && (v.JObj? && GetOpt(v.fields, "status") != JStr("created") ==> r.result == Ok(v))
    ensures var r := CreateInstagramMediaBranch(event, env);
      v.JObj? && GetOpt(v.fields, "status") == JStr("created") ==>
        && r.result.Ok? && r.result.value.JObj?
        && r.result.value.fields.Keys == v.fields.Keys + {"instagram_id", "page_access_token"}
        && r.result.value.fields["instagram_id"] == Or(GetOpt(event, "instagram_id"), GetOpt(event, "page_id"))
        && Truthy(r.result.value.fields["instagram_id"])
        && r.result.value.fields["page_access_token"] == GetOpt(event, "page_access_token")
        && forall k :: k in v.fields && k !in {"instagram_id", "page_access_token"} ==>
             r.result.value.fields[k] == v.fields[k]
  {
    MeetsEach(event, CreateMediaGuard.needs);
  }

  /** The status check always echoes the creation id, the Instagram id, the
      token and the media type, and counts the attempt: the incoming
      `attempt` (0 when absent) plus one. It raises only when that count
      cannot be incremented. */
  lemma MediaStatusEchoes(event: Dict, env: Env, d: Dict)
    requires Meets(event, MediaStatusGuard.needs)
    requires env.service(MediaStatusCall(event)) == Ok(JObj(d))
    ensures var r := CheckInstagramMediaStatusBranch(event, env).result;
      r.Ok? <==> PlusOne(Get(event, "attempt", JNum(0))).Ok?
    ensures var r := CheckInstagramMediaStatusBranch(event, env).result;
      r.Ok? ==>
        && r.value.JObj?
        && r.value.fields.Keys == d.Keys + {"creation_id", "instagram_id", "page_access_token", "media_type", "attempt"}
        && r.value.fields["creation_id"] == GetOpt(event, "creation_id")
        && r.value.fields["instagram_id"] == GetOpt(event, "instagram_id")
        && r.value.fields["page_access_token"] == GetOpt(event, "page_access_token")
        && r.value.fields["media_type"] == GetOpt(event, "media_type")
        && r.value.fields["attempt"] == PlusOne(Get(event, "attempt", JNum(0))).value
        && forall k :: k in d && k !in {"creation_id", "instagram_id", "page_access_token", "media_type", "attempt"} ==>
             r.value.fields[k] == d[k]
  {
    MeetsEach(event, MediaStatusGuard.needs);
  }

  /** Each status check counts one more attempt than the state before it. */
  lemma MediaStatusCountsAttempts(event: Dict, env: Env, d: Dict)
    requires Meets(event, MediaStatusGuard.needs)
    requires env.service(MediaStatusCall(event)) == Ok(JObj(d))
    ensures "attempt" !in event ==>
      CheckInstagramMediaStatusBranch(event, env).result == Ok(JObj(EchoedStatus(d, event, JNum(1))))
    ensures forall n :: "attempt" in event && event["attempt"] == JNum(n) ==>
      CheckInstagramMediaStatusBranch(event, env).result == Ok(JObj(EchoedStatus(d, event, JNum(n + 1))))
  {
    MeetsEach(event, MediaStatusGuard.needs);
  }

  /** The status dict with the echoed fields and the given attempt count. */
  function EchoedStatus(d: Dict, event: Dict, attempt: Json): Dict {
    d["creation_id" := GetOpt(event, "creation_id")]["instagram_id" := GetOpt(event, "instagram_id")]
     ["page_access_token" := GetOpt(event, "page_access_token")]["media_type" := GetOpt(event, "media_type")]
     ["attempt" := attempt]
  }

  /** A status answer that is not a dict cannot take the echoed fields. */
  lemma MediaStatusNeedsDict(event: Dict, env: Env, v: Json)
    requires Meets(event, MediaStatusGuard.needs)
    requires env.service(MediaStatusCall(event)) == Ok(v) && !v.JObj?
    ensures CheckInstagramMediaStatusBranch(event, env).result.Raise?
    ensures CheckInstagramMediaStatusBranch(event, env).result.error.TypeError?
  {
    MeetsEach(event, MediaStatusGuard.needs);
  }

  /** Publishing echoes the ids and counts `publish_attempt` (0 when absent,
      plus one) only for a `not_ready` answer; every other dict is returned
      unchanged. */
  lemma NotReadyEchoes(event: Dict, env: Env, d: Dict)
    requires Meets(event, PublishMediaGuard.needs)
    requires env.service(PublishMediaCall(event)) == Ok(JObj(d))
    ensures GetOpt(d, "status") != JStr("not_ready") ==>
      PublishInstagramMediaBranch(event, env).result == Ok(JObj(d))
    ensures var r := PublishInstagramMediaBranch(event, env).result;
      GetOpt(d, "status") == JStr("not_ready") ==>
        && (r.Ok? <==> PlusOne(Get(event, "publish_attempt", JNum(0))).Ok?)
        && (r.Ok? ==>
             && r.value.JObj?
             && r.value.fields.Keys == d.Keys + {"creation_id", "instagram_id", "page_access_token", "media_type", "publish_attempt"}
             && r.value.fields["status"] == JStr("not_ready")
             && r.value.fields["creation_id"] == GetOpt(event, "creation_id")
             && r.value.fields["instagram_id"] == GetOpt(event, "instagram_id")
             && r.value.fields["page_access_token"] == GetOpt(event, "page_access_token")
             && r.value.fields["media_type"] == GetOpt(event, "media_type")
             && r.value.fields["publish_attempt"] == PlusOne(Get(event, "publish_attempt", JNum(0))).value)
    ensures GetOpt(d, "status") == JStr("not_ready") && "publish_attempt" !in event ==>
      PublishInstagramMediaBranch(event, env).result.Ok?
      && PublishInstagramMediaBranch(event, env).result.value.fields["publish_attempt"] == JNum(1)
  {
    MeetsEach(event, PublishMediaGuard.needs);
  }

  /** The dict of a failed reel phase, as it reaches the state machine. */
  predicate PhaseFailed(d: Dispatched, phase: string) {
    && d.result.Ok? && d.result.value.JObj?
    && "status" in d.result.value.fields && d.result.value.fields["status"] == JStr("error")
    && "phase" in d.result.value.fields && d.result.value.fields["phase"] == JStr(phase)
    && "platform" in d.result.value.fields && d.result.value.fields["platform"] == JNull
  }

  /** The reel branches forward `event.get('platform')` unchanged, so without
      a platform every phase gets `None` and fails with its own phase tag
      instead of taking the `"facebook"` default. */
  lemma ReelBranchesWithoutPlatform(event: Dict, env: Env)
    requires "platform" !in event
    ensures Meets(event, ReelUploadGuard.needs) ==> PhaseFailed(InitReelUploadBranch(event, env), ReelPhases.InitPhase)
    ensures Meets(event, HostedFileGuard.needs) ==> PhaseFailed(UploadHostedFileBranch(event, env), ReelPhases.UploadPhase)
    ensures Meets(event, ReelStatusGuard.needs) ==> PhaseFailed(CheckReelUploadStatusBranch(event, env), ReelPhases.CheckPhase)
    ensures Meets(event, PublishReelGuard.needs) ==> PhaseFailed(PublishReelBranch(event, env), ReelPhases.PublishPhase)
  {
    MeetsEach(event, ReelUploadGuard.needs);
    MeetsEach(event, HostedFileGuard.needs);
    MeetsEach(event, ReelStatusGuard.needs);
    MeetsEach(event, PublishReelGuard.needs);
    ReelPhases.MissingPlatformFailsEveryPhase(GetOpt(event, "page_id"), GetOpt(event, "page_access_token"),
                                              GetOpt(event, "video_id"), GetOpt(event, "message"), GetOpt(event, "mm_url"),
                                              JNull, Get(event, "share_to_feed", JBool(true)), map[], env.parse, env.net);
  }

  /** `live_stream_data` gives its title as a dict or as a JSON string of a
      dict; anything else leaves no title. */
  lemma LiveTitleSources(data: Json, loads: string -> Py<Json>)
    ensures data.JObj? ==> LiveTitle(data, loads) == GetOpt(data.fields, "title")
    ensures data.JStr? && data.s != "" && loads(data.s).Ok? && loads(data.s).value.JObj? ==>
      LiveTitle(data, loads) == GetOpt(loads(data.s).value.fields, "title")
    ensures data.JStr? && (loads(data.s).Raise? || !loads(data.s).value.JObj?) ==> LiveTitle(data, loads) == JNull
    ensures !data.JObj? && !data.JStr? ==> LiveTitle(data, loads) == JNull
  {
  }

  /** `create_live_stream` checks the page id (default `''`), the token and
      the title in that order and refuses at the first one missing; with all
      three it makes one call, whose description defaults to the title. A
      token that cannot be sliced for the debug output ends the branch in its
      outer `except` before any check. */
  lemma LiveStreamGuards(event: Dict, env: Env)
    ensures var pageId := Get(event, "page_id", JStr(""));
      var token := GetOpt(event, "page_access_token");
      var title := LiveTitle(GetOpt(event, "live_stream_data"), env.loads);
      var d := CreateLiveStreamBranch(event, env);
      && (SliceError(token).Some? ==>
            d == Dispatched([], Ok(ErrorObj("Unexpected error: " + Describe(SliceError(token).value)))))
      && (SliceError(token).None? ==>
            && (!Truthy(pageId) ==> d == Refused("Missing required parameter: page_id"))
            && (Truthy(pageId) && !Truthy(token) ==> d == Refused("Missing required parameter: page_access_token"))
            && (Truthy(pageId) && Truthy(token) && !Truthy(title) ==> d == Refused("Missing required parameter: title"))
            && (Truthy(pageId) && Truthy(token) && Truthy(title) ==>
                  && d.calls == [Call("create_live_stream", [pageId, token, title, Get(event, "stream_description", title)])]
                  && d.result == Ok(JObj(LiveStream.CreateLiveStream(pageId, token, title,
                                                                     Get(event, "stream_description", title),
                                                                     env.net, env.parse)))))
    ensures "stream_description" !in event && CreateLiveStreamBranch(event, env).calls != [] ==>
      CreateLiveStreamBranch(event, env).calls[0].args[3] == CreateLiveStreamBranch(event, env).calls[0].args[2]
  {
  }

  /** Only a truthy dict, number or bool breaks the debug slice: a dict misses
      with `KeyError(slice(None, 5, None))`, a number or `True` is not
      subscriptable; a string or a list never does. */
  lemma StringTokensSlice(token: Json)
    ensures token.JStr? || token.JArr? || !Truthy(token) ==> SliceError(token).None?
    ensures token.JObj? && Truthy(token) ==> SliceError(token) == Some(SliceKeyError(None, Some(5)))
    ensures (token.JNum? || token.JBool?) && Truthy(token) ==>
      SliceError(token) == Some(TypeError("'" + TypeName(token) + "' object is not subscriptable"))
    ensures SliceError(token).Some? ==> Truthy(token) && (token.JObj? || token.JNum? || token.JBool?)
  {
  }

  /** A dict token such as `{"a": 1}` ends `create_live_stream` with the text of
      the missed slice lookup, before any parameter is checked. */
  lemma DictTokenEndsLiveStream(event: Dict, env: Env)
    requires GetOpt(event, "page_access_token").JObj? && Truthy(GetOpt(event, "page_access_token"))
    ensures CreateLiveStreamBranch(event, env)
      == Dispatched([], Ok(ErrorObj("Unexpected error: " + Describe(SliceKeyError(None, Some(5))))))
    ensures Describe(SliceKeyError(None, Some(5))) == "slice(None, 5, None)"
  {
  }

  /** Once its guard passes, `reply_to_comment` raises exactly when the token
      is not a string (the service masks it in every record), and otherwise
      returns the service's record. */
  lemma ReplyBranchOutcome(event: Dict, env: Env)
    requires Meets(event, ReplyGuard.needs)
    ensures var d := ReplyToCommentBranch(event, env);
      && (d.result.Ok? <==> GetOpt(event, "page_access_token").JStr?)
      && (d.result.Ok? ==> d.result.value.JObj? && "status" in d.result.value.fields)
  {
    MeetsEach(event, ReplyGuard.needs);
  }
}

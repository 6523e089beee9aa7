# FacebookAPI core, modelled in Dafny

This project models the core of a Lambda back end for Facebook pages and
Instagram accounts. It has two parts.

The service class (`facebook_layer/facebook_service.py`) talks to the Graph API. The modelled parts are:
- the live-stream creation and the splitting of its RTMP ingest URL;
- the webhook verify token and the check for the page's own comments;
- the four phases of a reel upload (init, hosted-file upload, status check, publish) and `post_reel`;
- the normalisation of feed and messaging webhook payloads into event records, including the comment-thread context;
- the reply to a comment with the masked token in its record;
- the removal of fields from a page subscription.

The Lambda entry point (`app.py`) is modelled in two places:
- the two `/webhook` routes: Meta's GET handshake, and the POST that tags each comment event and publishes it to the event bus;
- the Step Functions dispatcher, with each action's parameter guard, the state it echoes for the next iteration, and its attempt counters.

Python values are modelled as one `Json` datatype, and dicts as maps from
strings. Exceptions are modelled as a `Py<T>` result that either holds a value or carries the error.
The Python semantics are those of Python 3.12 and later, which the service's
nested f-string quotes (`facebook_layer/facebook_service.py:1403`) require; in
particular a dict indexed with a slice raises `KeyError(slice(...))`.

The outside world comes in as parameters:
- every HTTP call is a function from a request to a reply (`Net`);
- `urlparse` is a function `UrlParser`;
- `json.loads` is a function;
- the page-token table in DynamoDB is a function, `store`;
- EventBridge's `put_events` is a function, `bus`;
- the service methods outside this model are one function, `service`, and the dispatcher records each call to it.

The loops of `process_webhook_event`, `process_messaging_webhook` and the
webhook POST route are methods with loop invariants. Each is proved equal to a
function over the payload. That function's properties are then proved as lemmas.

Modules, one file each:
- `PyJson` (`py_json.dfy`): values and the Python operations on them;
- `GraphApi`: requests, replies and credentials;
- `LiveStream`;
- `ReelPhases`;
- `PageActions`: reply to a comment, and unsubscribe fields;
- `EventLists`: the shared "collect in order, stop at the first exception" shape;
- `WebhookPayload`;
- `FeedWebhook`;
- `MessagingWebhook`;
- `WebhookRoutes`;
- `Dispatcher`.

## Model

| member | source | states |
|---|---|---|
| LiveStream.ExtractStreamDetails | facebook_layer/facebook_service.py:27-58 | raises exactly when the parsed path does not start with `/rtmp/`, and then with the service's message |
| LiveStream.StreamDetailsRebuildUrl | facebook_layer/facebook_service.py:27-58 | the server URL and the stream key, joined by a slash, spell the original URL again |
| LiveStream.StreamDetailsOfRtmpPath | facebook_layer/facebook_service.py:27-58 | a path `/rtmp/{id}` splits into `scheme://netloc/rtmp` and `{id}`, with `?query` added when there is a query |
| LiveStream.StreamDetailsOf | facebook_layer/facebook_service.py:27-58 | a string is parsed and split by `ExtractStreamDetails`; any other value raises: a truthy one has no `decode`, a falsy one fails the bytes `startswith` |
| LiveStream.LiveVideoParams | facebook_layer/facebook_service.py:70-79 | the token and `LIVE_NOW` are always sent; title and description are sent exactly when they are truthy |
| LiveStream.LiveStreamResultShape | facebook_layer/facebook_service.py:81-105 | the result is a lone `error` field or the four stream fields; it has the stream fields exactly when the reply is ok with `id` and an RTMP `stream_url`; the URL is then rebuilt from the fields |
| LiveStream.LiveStreamResult | facebook_layer/facebook_service.py:81-105 | classifies the reply to the live-video call into the error record or the stream record; its shape is stated by `LiveStreamResultShape` |
| LiveStream.CreateLiveStream | facebook_layer/facebook_service.py:60-105 | one call with `LiveVideoParams`, whose reply `LiveStreamResult` classifies; the request is stated by `LiveVideoParams`, the result by `LiveStreamResultShape` |
| LiveStream.BackupKeyFromFirstSecondaryUrl | facebook_layer/facebook_service.py:87-92 | the backup key is present exactly when `stream_secondary_urls` is a non-empty list, and it is that list's first key |
| WebhookRoutes.WebhookHandshake | app.py:161-181 | the GET route echoes `hub.challenge` with 200 exactly when the mode is `subscribe` and the verify token equals the configured, non-empty token (`verify_webhook`); otherwise 403 |
| WebhookRoutes.WebhookGet | app.py:161-181 | the GET route; its responses are stated by `WebhookHandshake` |
| WebhookRoutes.EmptySecretNeverVerifies | facebook_layer/facebook_service.py:107-114 | an empty configured verify token never verifies |
| WebhookRoutes.Tag | app.py:195 | a tagged record has `action` = `generate_comment_reply` and keeps every other field |
| WebhookRoutes.PublishRunTagsInOrder | app.py:194-196 | each published record is the tagged event at the same position; with no failure, all are published; a failure is the bus's answer for the last one |
| WebhookRoutes.PublishStep | app.py:194-196 | one more event extends the publishing run of a prefix |
| WebhookRoutes.PublishStopsAtFailure | app.py:194-196 | nothing is published after the first failed publication |
| WebhookRoutes.PublishRun | app.py:194-196 | the records published before the first failure, and that failure; stated by `PublishRunTagsInOrder`, `PublishStep` and `PublishStopsAtFailure` |
| WebhookRoutes.WebhookPostOutcome | app.py:183-207 | the POST route as a function of the body, the network, the token store and the bus; stated by `WebhookPostSuccess` and `NonPagePayloadPublishesNothing`, and met by the loop of `WebhookPost` |
| WebhookRoutes.WebhookPost | app.py:183-207 | the route's response and published records equal `WebhookPostOutcome` |
| WebhookRoutes.WebhookPostSuccess | app.py:183-207 | a 200 means the body decoded and every event was tagged and published in order; the body gives their count |
| WebhookRoutes.NonPagePayloadPublishesNothing | app.py:183-207 | a payload whose `object` is not `page` gets a 500 with the service's message and publishes nothing |
| WebhookPayload.PageCheck | facebook_layer/facebook_service.py:124-125 | passes exactly for a dict whose `object` is `page`; a dict that fails raises the "not for a page" error |
| FeedWebhook.ThreadContext | facebook_layer/facebook_service.py:1353-1421 | the context has exactly `post_content`, `comment_thread` and `hierarchy`, and `hierarchy` names the comment level |
| FeedWebhook.ReplyThreadContext | facebook_layer/facebook_service.py:1353-1421 | a reply's thread is its parent comment with the parent's replies, after the post text |
| FeedWebhook.TopLevelThreadContext | facebook_layer/facebook_service.py:1353-1421 | a top-level comment's thread is the post's first comments |
| FeedWebhook.ThreadContextFallback | facebook_layer/facebook_service.py:1353-1421 | a request exception keeps what was gathered before it; any other exception in the first fetch propagates |
| FeedWebhook.FeedRecord | facebook_layer/facebook_service.py:1292-1346 | the record has exactly the eight event keys, item `comment`, verb `add`, the token, the comment data, the thread context and the level |
| FeedWebhook.CommentData | facebook_layer/facebook_service.py:1309-1319 | `comment_data.from` holds the commenter id and name |
| FeedWebhook.CommentEvent | facebook_layer/facebook_service.py:1284-1351 | an enriched record has the eight event keys, item `comment`, verb `add`, the stored token of the page, the commenter, and a `comment_level` equal to the thread context's `hierarchy` |
| FeedWebhook.FeedEventFilter | facebook_layer/facebook_service.py:1297-1304 | a record is made only for a new comment that the page did not write (`is_own_comment`); skipped changes make no record |
| FeedWebhook.QualifyingCommentEmitted | facebook_layer/facebook_service.py:1297-1351 | conversely, a new comment by someone other than the page yields its enriched record, or raises the enrichment's exception |
| FeedWebhook.ProcessFeedEvent | facebook_layer/facebook_service.py:1284-1351 | `_process_feed_event`: nothing for a skipped change, else the enriched record; stated by `FeedEventFilter`, `QualifyingCommentEmitted`, `CommentEvent` and `SkippedChangeMakesNoCall` |
| FeedWebhook.ChangeEvents | facebook_layer/facebook_service.py:134-140 | one change of an entry gives the record of `_process_feed_event` or nothing; counted by `ChangeEventsCount` |
| FeedWebhook.ChangeEventsCount | facebook_layer/facebook_service.py:134-140 | a change contributes one record exactly when it is a qualifying new comment, and none otherwise |
| FeedWebhook.EntryEvents | facebook_layer/facebook_service.py:130-140 | the records of an entry's changes in order; computed by the loop of `ProcessEntry` |
| FeedWebhook.SkippedChangeMakesNoCall | facebook_layer/facebook_service.py:1284-1351 | a skipped change uses neither the Graph API nor the token store |
| FeedWebhook.FeedEventShape | facebook_layer/facebook_service.py:1284-1351 | a published record's fields, token, commenter and level; the level is `top_level` exactly when the parent is the post |
| FeedWebhook.FeedEvents | facebook_layer/facebook_service.py:116-142 | a successful result came from a page payload; a dict that is not a page payload raises the "not for a page" error |
| FeedWebhook.ProcessEntry | facebook_layer/facebook_service.py:134-140 | the inner loop returns the events of the entry's changes in order |
| FeedWebhook.ProcessWebhookEvent | facebook_layer/facebook_service.py:116-142 | the loop over the entries returns `FeedEvents` of the payload |
| FeedWebhook.EntryEventsAreCommentEvents | facebook_layer/facebook_service.py:134-140 | every record of an entry is a new-comment event |
| FeedWebhook.FeedEventsAreCommentEvents | facebook_layer/facebook_service.py:116-142 | every record returned is a new-comment event |
| FeedWebhook.AtMostOneEventPerChange | facebook_layer/facebook_service.py:116-142 | no more records than changes |
| FeedWebhook.OneEventPerQualifyingChange | facebook_layer/facebook_service.py:116-142 | the number of records is exactly the number of changes that are new comments not written by the page |
| EventLists.CollectStep | facebook_layer/facebook_service.py:130-140 | one more item extends the records of a prefix, or raises |
| EventLists.CollectAppend | facebook_layer/facebook_service.py:130-140 | the records of a concatenation are those of the parts in order |
| EventLists.CollectPrefixRaise | facebook_layer/facebook_service.py:130-140 | once a prefix raises, the whole loop raises the same exception |
| EventLists.CollectBound | facebook_layer/facebook_service.py:130-140 | a successful loop had every item succeed, and the per-item bounds add up |
| EventLists.CollectExact | facebook_layer/facebook_service.py:1236-1281 | with exact per-item counts, the record count is their sum |
| EventLists.CollectAll | facebook_layer/facebook_service.py:130-140 | a property of every item's records holds for all records |
| EventLists.CollectFirstRaise | facebook_layer/facebook_service.py:130-140 | the first item that raises decides the exception |
| EventLists.CollectPrefixOk | facebook_layer/facebook_service.py:130-140 | when every item succeeds, the loop succeeds |
| EventLists.SumOfOnes | facebook_layer/facebook_service.py:1236-1281 | a weight of one per item sums to the length |
| MessagingWebhook.EventType | facebook_layer/facebook_service.py:1249-1277 | no kind exactly when none of `message`, `postback`, `delivery` and `read` is present; a kind found is a key of the event |
| MessagingWebhook.Details | facebook_layer/facebook_service.py:1249-1277 | a kind contributes exactly its detail keys, none of them a base key, with `event_type` naming the kind |
| MessagingWebhook.Base | facebook_layer/facebook_service.py:1241-1246 | the base record has exactly the base keys |
| MessagingWebhook.MessagingEvents | facebook_layer/facebook_service.py:1224-1281 | a successful result came from a page payload; a dict that is not a page payload raises the "not for a page" error |
| MessagingWebhook.ProcessMessagingEntry | facebook_layer/facebook_service.py:1240-1279 | the inner loop returns the entry's records in order |
| MessagingWebhook.ProcessMessagingWebhook | facebook_layer/facebook_service.py:1224-1281 | the loop over the entries returns `MessagingEvents` of the payload |
| MessagingWebhook.MessagingRecordParts | facebook_layer/facebook_service.py:1241-1277 | a record is the base fields, merged with its kind's fields |
| MessagingWebhook.MessagingRecord | facebook_layer/facebook_service.py:1241-1277 | the record of one messaging event; stated by `MessagingRecordParts`, `MessagingRecordIds`, `MessagingRecordKind` and `MessageTakesPrecedence` |
| MessagingWebhook.MessagingRecordIds | facebook_layer/facebook_service.py:1241-1246 | a record carries the page, sender and recipient |
| MessagingWebhook.MessagingRecordKind | facebook_layer/facebook_service.py:1249-1277 | a record has `event_type` exactly when the event has one of the four kinds, and then exactly that kind's keys besides the base ones |
| MessagingWebhook.MessageTakesPrecedence | facebook_layer/facebook_service.py:1249-1277 | a message wins over every other kind; a postback wins over delivery and read |
| MessagingWebhook.MessageRecordFields | facebook_layer/facebook_service.py:1249-1257 | a message record keeps the id and text; attachments default to an empty list |
| MessagingWebhook.OneRecordPerMessagingEvent | facebook_layer/facebook_service.py:1224-1281 | exactly one record per messaging event |
| PageActions.MaskString | facebook_layer/facebook_service.py:867 | the mask is at most 15 head characters, `...` and at most 5 tail characters, so its length is min(n,15)+3+min(n,5) |
| PageActions.TokenMask | facebook_layer/facebook_service.py:867 | masking succeeds exactly for a string token; a dict raises `KeyError(slice(None, 15, None))`, a list the concatenation `TypeError`, and any other value is not subscriptable |
| PageActions.ReplyToComment | facebook_layer/facebook_service.py:835-896 | the call returns a record exactly when the token is a string; otherwise it raises the masking error |
| PageActions.UnmaskableTokenRaises | facebook_layer/facebook_service.py:835-896 | a token that cannot be masked makes the call raise whatever the reply, since every record masks it; a dict gives `slice(None, 15, None)` |
| PageActions.ReplyMessage | facebook_layer/facebook_service.py:849-855 | the posted message: the mention tag before the reply text when a commenter id is given; stated by `MentionIsPrefix` |
| PageActions.MentionTag | facebook_layer/facebook_service.py:853-854 | the `@[id] ` tag; stated by `MentionIsPrefix` |
| PageActions.MentionIsPrefix | facebook_layer/facebook_service.py:849-855 | removing the `@[id] ` mention tag from the message leaves the reply text |
| PageActions.MaskShape | facebook_layer/facebook_service.py:867 | a token of 20 characters or more shows its first 15 and last 5 characters; one of 15 or fewer appears in full |
| PageActions.ReplyOutcome | facebook_layer/facebook_service.py:835-896 | with a string token, success exactly when the reply has an `id`, reported as `reply_id`; every outcome echoes the comment id and `mentioned_user` |
| PageActions.Removal | facebook_layer/facebook_service.py:1588-1589 | the normalised removal is never a bare string, so a single name removes exactly that field by membership, not by substring; the whole call is stated by `SingleFieldIsList` |
| PageActions.FilterFields | facebook_layer/facebook_service.py:1604 | a successful filter keeps no more fields than were subscribed |
| PageActions.FilterAgainstList | facebook_layer/facebook_service.py:1604 | filtering against a list never raises, and equals `Without` |
| PageActions.Without | facebook_layer/facebook_service.py:1604 | the list comprehension over a list of fields to remove; stated by `WithoutMembership`, `WithoutIdempotent` and `WithoutKeepsOrder` |
| PageActions.WithoutMembership | facebook_layer/facebook_service.py:1604 | a field remains exactly when it was subscribed and is not being removed |
| PageActions.WithoutIdempotent | facebook_layer/facebook_service.py:1604 | removing the same fields twice changes nothing more |
| PageActions.WithoutKeepsOrder | facebook_layer/facebook_service.py:1604 | the remaining fields are a subsequence of the subscribed fields |
| PageActions.JoinComma | facebook_layer/facebook_service.py:1610 | the join succeeds exactly when every item is a string |
| PageActions.JoinCommaNamesFirstNonString | facebook_layer/facebook_service.py:1610 | the join raises on the first non-string item, naming its index and type |
| PageActions.JoinCommaSplits | facebook_layer/facebook_service.py:1610 | splitting the join at commas gives back exactly the field names in order, for a non-empty list of names without commas |
| PageActions.Index | facebook_layer/facebook_service.py:1576-1637 | `d[key]` raises `KeyError` exactly when the key is missing |
| PageActions.UnsubscribeFields | facebook_layer/facebook_service.py:1576-1637 | a subscriptions record that reports an error is returned as it is |
| PageActions.CurrentFields | facebook_layer/facebook_service.py:1598-1601 | the `subscribed_fields` of the first listed app, or none; used by `UnsubscribeOutcome` |
| PageActions.UnsubscribeAttempt | facebook_layer/facebook_service.py:1590-1626 | the body of the `try`; stated by `UnsubscribeFields` and `UnsubscribeOutcome` |
| PageActions.UpdateRequestShape | facebook_layer/facebook_service.py:1606-1616 | the subscription is deleted exactly when no field remains; otherwise the remaining fields are posted as one comma list |
| PageActions.UnsubscribeOutcome | facebook_layer/facebook_service.py:1576-1637 | with list fields, the record reports the remaining fields in subscription order and succeeds exactly when the Graph API says so |
| PageActions.SingleFieldIsList | facebook_layer/facebook_service.py:1588-1589 | one field name is handled exactly like the one-element list holding it |
| ReelPhases.AsDict | facebook_layer/facebook_service.py:290-791 | the dict holds the status word, the platform and the phase, and keeps every other field of the record |
| ReelPhases.IsInstagram | facebook_layer/facebook_service.py:290-791 | the test raises exactly when the platform is not a string |
| ReelPhases.InitReelUpload | facebook_layer/facebook_service.py:290-398 | the status is pending or error; a pending record is in phase `initialized` and carries a `video_id` |
| ReelPhases.InstagramInitCarriesContainerId | facebook_layer/facebook_service.py:290-398 | a pending Instagram result carries the container id as both `creation_id` and `video_id` |
| ReelPhases.FacebookInitCarriesVideoId | facebook_layer/facebook_service.py:290-398 | a pending Facebook result carries the truthy `video_id` of a reply without `error` |
| ReelPhases.InitErrorPhases | facebook_layer/facebook_service.py:290-398 | the error phases of init. Facebook: `start` exactly for a Graph error or missing id, `initialization` for an exception. Instagram: `initialization` without a call for a falsy page id, `initialization` for an exception, `media_creation` exactly for a reply without `id`. Any platform that is not a string: `initialization` |
| ReelPhases.UploadHostedFile | facebook_layer/facebook_service.py:400-489 | the upload either succeeds or fails in phase `upload_hosted_file` |
| ReelPhases.UploadSkippedForInstagram | facebook_layer/facebook_service.py:400-489 | Instagram skips the upload whatever the other inputs are |
| ReelPhases.UploadSucceedsIff | facebook_layer/facebook_service.py:400-489 | Facebook upload succeeds exactly when the URL is HTTPS, not on Meta's CDN, and the reply says `success: True` |
| ReelPhases.RejectedUrlMakesNoCall | facebook_layer/facebook_service.py:400-489 | a rejected URL gives an error with both ids, before any call |
| ReelPhases.InstagramStatusResult | facebook_layer/facebook_service.py:491-656 | the Instagram status record echoes the Instagram id and the creation id |
| ReelPhases.FacebookStatusResult | facebook_layer/facebook_service.py:491-656 | a `status` that is not an object crashes the phase; otherwise the record echoes the page and video ids |
| ReelPhases.CheckReelUploadStatus | facebook_layer/facebook_service.py:491-656 | the status is ready, processing, error or unknown; ready is in phase `video_ready` |
| ReelPhases.InstagramStatusClassification | facebook_layer/facebook_service.py:524-579 | `error` first; then FINISHED is ready in `video_ready`, ERROR is an error in `processing`, any other code is processing in `awaiting_ready` and echoed; no code is unknown |
| ReelPhases.FacebookStatusClassification | facebook_layer/facebook_service.py:581-645 | `error` first; then `status.video_status` ready is ready in `video_ready`, error is an error in `upload` carrying `status.error`, any other or missing value is processing in `awaiting_ready` and echoed; no `status` is unknown |
| ReelPhases.CheckStatusEchoesId | facebook_layer/facebook_service.py:491-656 | every record from a decoded reply echoes the ids passed in |
| ReelPhases.PublishReel | facebook_layer/facebook_service.py:658-791 | either a success in phase `published` or an error in phase `publish` |
| ReelPhases.InstagramPublishSucceedsIff | facebook_layer/facebook_service.py:658-791 | Instagram succeeds exactly when both ids are truthy and the reply has an `id`, which becomes the media id |
| ReelPhases.InstagramPublishAcceptsCreationIdAsMediaId | facebook_layer/facebook_service.py:658-791 | an `id` equal to the container id is accepted as the media id |
| ReelPhases.FacebookPublishClassification | facebook_layer/facebook_service.py:658-791 | `success: True` first (reel id from `post_id`), then any `id`, else an error |
| ReelPhases.FacebookSuccessBeatsError | facebook_layer/facebook_service.py:658-791 | a reply with both `success: true` and `error` is a success |
| ReelPhases.FinishParamsWithoutExtras | facebook_layer/facebook_service.py:658-791 | without extra keyword arguments the finish call carries no audio name and no thumbnail |
| ReelPhases.InitGuardPrecedesCall | facebook_layer/facebook_service.py:290-398 | when init makes no call, its result does not depend on the network |
| ReelPhases.UploadGuardPrecedesCall | facebook_layer/facebook_service.py:400-489 | when the upload makes no call, its result does not depend on the network |
| ReelPhases.CheckGuardPrecedesCall | facebook_layer/facebook_service.py:491-656 | when the status check makes no call, its result does not depend on the network |
| ReelPhases.PublishGuardPrecedesCall | facebook_layer/facebook_service.py:658-791 | when publishing makes no call, its result does not depend on the network |
| ReelPhases.MissingPlatformFailsEveryPhase | facebook_layer/facebook_service.py:290-791 | with no platform string, each phase fails in its own phase and makes no call |
| ReelPhases.PostReel | facebook_layer/facebook_service.py:793-809 | the Facebook init record with the notice message added; status, phase and the other fields are unchanged |
| Dispatcher.HandleStepFunction | app.py:343-710 | `handle_step_function_request`: the routed branch, or `Invalid action` without a call; stated by `HandleRunsNamedBranch`, `UnknownActionRaises` and `GuardDecides` |
| Dispatcher.HandleRunsNamedBranch | app.py:343-710 | an event whose action is a branch name runs that branch |
| Dispatcher.Route | app.py:345-710 | the `if`/`elif` chain on a string action; stated by `RouteComplete`, `RouteMatchesName` and `RedirectUnreachable` |
| Dispatcher.RouteName | app.py:347-710 | the first branch whose name equals the action; stated by `RouteComplete` and `RouteMatchesName` |
| Dispatcher.Handle | app.py:347-707 | runs the branch of a routed action; stated by `GuardDecides` |
| Dispatcher.UnguardedBranchesPassThrough | app.py:347-350 | `get_pages`, `extend_token` (624-627) and `get_access_token` (629-633) each make one call with the event's parameters and return its answer |
| Dispatcher.GetPagesBranch | app.py:347-350 | the `get_pages` branch: one call with `userToken`, its answer returned; stated by `UnguardedBranchesPassThrough` |
| Dispatcher.GetPageInfoBranch | app.py:352-364 | the `get_page_info` branch; stated by `PageInfoNeedsList` |
| Dispatcher.PostToPageBranch | app.py:366-386 | the first `post_to_page` branch; stated by `PostingGuardsDecide` and `PostToPageTargets` |
| Dispatcher.PostToPageRedirectBranch | app.py:390-411 | the dead second `post_to_page` branch; `RedirectUnreachable` shows it is never taken |
| Dispatcher.CreateInstagramMediaBranch | app.py:415-434 | the `create_instagram_media` branch; stated by `PostingGuardsDecide` and `CreateMediaEnrichment` |
| Dispatcher.CheckInstagramMediaStatusBranch | app.py:436-452 | the `check_instagram_media_status` branch; stated by `PostingGuardsDecide`, `MediaStatusEchoes`, `MediaStatusCountsAttempts` and `MediaStatusNeedsDict` |
| Dispatcher.PublishInstagramMediaBranch | app.py:454-472 | the `publish_instagram_media` branch; stated by `PostingGuardsDecide` and `NotReadyEchoes` |
| Dispatcher.PostReelBranch | app.py:474-484 | the `post_reel` branch; stated by `ReelGuardsDecide` |
| Dispatcher.InitReelUploadBranch | app.py:486-497 | the `init_reel_upload` branch; stated by `ReelGuardsDecide` and `ReelBranchesWithoutPlatform` |
| Dispatcher.UploadHostedFileBranch | app.py:499-510 | the `upload_hosted_file` branch; stated by `ReelGuardsDecide` and `ReelBranchesWithoutPlatform` |
| Dispatcher.CheckReelUploadStatusBranch | app.py:512-522 | the `check_reel_upload_status` branch; stated by `ReelGuardsDecide` and `ReelBranchesWithoutPlatform` |
| Dispatcher.PublishReelBranch | app.py:524-548 | the `publish_reel` branch; stated by `ReelGuardsDecide` and `ReelBranchesWithoutPlatform` |
| Dispatcher.ExtendTokenBranch | app.py:624-627 | the `extend_token` branch: one call with `token`, its answer returned; stated by `UnguardedBranchesPassThrough` |
| Dispatcher.GetAccessTokenBranch | app.py:629-633 | the `get_access_token` branch: one call with `authCode` and `redirectUri`, its answer returned; stated by `UnguardedBranchesPassThrough` |
| Dispatcher.GetPageFeedBranch | app.py:635-645 | the `get_page_feed` branch; stated by `OtherGuardsDecide` |
| Dispatcher.ReplyToCommentBranch | app.py:647-663 | the `reply_to_comment` branch; stated by `OtherGuardsDecide` and `ReplyBranchOutcome` |
| Dispatcher.SendMessageBranch | app.py:665-674 | the `send_message` branch; stated by `OtherGuardsDecide` |
| Dispatcher.SendMessageAttachmentBranch | app.py:676-686 | the `send_message_attachment` branch; stated by `OtherGuardsDecide` |
| Dispatcher.GetUserProfileBranch | app.py:688-697 | the `get_user_profile` branch; stated by `OtherGuardsDecide` |
| Dispatcher.GetInstagramProfileBranch | app.py:699-707 | the `get_instagram_profile` branch; stated by `OtherGuardsDecide` |
| Dispatcher.Or | app.py:416-418 | Python `or`: truthy exactly when one operand is |
| Dispatcher.RouteMatchesName | app.py:343-710 | a routed action's branch is the one whose action name equals the input |
| Dispatcher.RouteComplete | app.py:347-710 | conversely, every branch name but the dead redirect's routes to its own branch |
| Dispatcher.RedirectUnreachable | app.py:366-411 | `post_to_page` always takes the first branch; the second one is dead |
| Dispatcher.UnknownActionRaises | app.py:709-710 | an action matching no branch raises "Invalid action" and makes no call |
| Dispatcher.MeetsEach | app.py:343-710 | the guard holds exactly when each required parameter is truthy |
| Dispatcher.PostingGuardsDecide | app.py:366-472 | posting and Instagram media branches: with a missing parameter, the refusal and no call; with all present, exactly one call |
| Dispatcher.ReelGuardsDecide | app.py:474-548 | reel branches: with a missing parameter, the refusal and no call; with all present, exactly one reel phase |
| Dispatcher.OtherGuardsDecide | app.py:635-707 | feed, reply, message and profile branches: with a missing parameter, the refusal and no call; with all present, exactly one call |
| Dispatcher.GuardDecides | app.py:343-710 | for every guarded action, the branch refuses without a call exactly when a required parameter is missing; otherwise it makes one call |
| Dispatcher.PostToPageTargets | app.py:366-386 | posts to Instagram when `social_media` is Instagram, otherwise to the Facebook page; `mediaType` defaults to false |
| Dispatcher.PageInfoNeedsList | app.py:352-364 | page lookup only in a list of pages; otherwise an error record after one call |
| Dispatcher.CreateMediaEnrichment | app.py:415-434 | a `created` container gains the Instagram id (else the page id) and the token; other dicts pass through; a non-dict raises |
| Dispatcher.MediaStatusEchoes | app.py:436-452 | the status dict echoes the creation id, Instagram id, token and media type, keeps the other keys, and holds `attempt` plus one |
| Dispatcher.MediaStatusCountsAttempts | app.py:436-452 | `attempt` becomes 1 when absent and n+1 after n |
| Dispatcher.MediaStatusNeedsDict | app.py:436-452 | a status answer that is not a dict raises a `TypeError` |
| Dispatcher.NotReadyEchoes | app.py:454-472 | `not_ready` echoes the ids and counts `publish_attempt` from 1; any other status passes through unchanged |
| Dispatcher.ReelBranchesWithoutPlatform | app.py:486-548 | without `platform`, each reel phase fails in its own phase and the `facebook` default is not used |
| Dispatcher.LiveTitleSources | app.py:567-587 | the title comes from a dict, from a JSON string holding a dict, or is absent |
| Dispatcher.LiveStreamGuards | app.py:550-622 | page id, token and title are checked in that order, refusing at the first missing one; with all three present, one call whose description defaults to the title; an unsliceable token ends in the outer `except` |
| Dispatcher.StringTokensSlice | app.py:560-564 | only a truthy dict, number or bool token breaks the debug slice: a dict with `KeyError(slice(None, 5, None))`, a number or bool as not subscriptable |
| Dispatcher.DictTokenEndsLiveStream | app.py:550-622 | a truthy dict token makes the branch answer `Unexpected error: slice(None, 5, None)` without a call |
| Dispatcher.CreateLiveStreamBranch | app.py:550-622 | the branch never raises; its guards and call are stated by `LiveStreamGuards`, the title by `LiveTitleSources` |
| Dispatcher.ReplyBranchOutcome | app.py:647-663 | once the guard passes, the result is a record exactly when the token is a string |

## Left out

- HTTP, boto3, Secrets Manager, DynamoDB and EventBridge are not modelled. They are function parameters: `Net`, `store`, `bus`, and the credentials as a value.
- The Graph reply for a given request is taken to be the same each time within one invocation (`Net` is a function).
- `post_to_instagram`, `post_to_facebook_page`, `get_facebook_pages`, `extract_page_info` and the other pass-through service methods are not modelled. The dispatcher records each call and takes its result from `service`.
- `create_instagram_media`, `check_instagram_media_status` and `publish_instagram_media` are reached through `service`, so only the dispatcher's handling of their results is modelled.
- `lambda_handler` and the other API Gateway routes of `handle_api_gateway_request` are not modelled; only `/webhook` is.
- `print` output, tracebacks and timestamps are not modelled, including the reply refusal's `timestamp` field, which the constant refusal omits.
- `lower()` is modelled for ASCII letters only.
- Floats are not modelled. Numbers are integers, and `True + 1` is modelled, but Python's `1 == True` is not: the model's equality separates `True` from `1` and `False` from `0` wherever values are compared, in dict keys, in `in` on a list (`Contains`), in `is_own_comment` (`IsOwnComment`), in the top-level test (`IsTopLevel`) and in the status comparisons.
- `str()` of a dict or list is its type name in angle brackets (`<dict>`), because the model does not keep the key order.
- The response helper's JSON body is not modelled. `ErrorReply` keeps its message and status.
- Dict key iteration order is not modelled where the source loops over a dict.
- FeedWebhook.ThreadContext: the unused `comment_id` parameter is dropped.
- FeedWebhook.FeedEvents: for a non-dict entry or change, the exact message of the raised `AttributeError` is simplified.
- In-place updates of the result dicts in `app.py` are modelled as map updates of values.
- Dispatcher.PostToPageBranch: the Instagram branch's inner test for `instagram_id` is omitted, because the outer guard already demands a truthy `page_id`.
- ReelPhases.PublishReel: the documented `audio_name` and `thumbnail_url` parameters are never sent. The code reads them from keyword arguments only, and the model follows the code.
- ReelPhases.InstagramPublishSucceedsIff: the Instagram publish accepts any reply `id` as the new media id, even the container id. The model follows the code.
- PageActions.MaskShape: the comment calls the mask a truncation, but the 15-character head and the 5-character tail together show every character of a token of 20 characters or fewer. The model follows the code.
- PageActions.FieldItems: a non-empty dict of subscribed fields, which Python would iterate key by key, raises a `TypeError` of the model's own instead, because the model keeps no key order.
- PageActions.ReplyToComment: the reply is posted before a token that cannot be masked raises, but the model records no requests, so that the comment was posted is not visible in the result.
- PageActions.CurrentFields: like the source, only the first listed app's `subscribed_fields` are read; the subscriptions of other apps on the page play no part.
- GraphApi.HttpReply: a decoded reply body is a dict or an exception; a JSON list or scalar body cannot be expressed, so `'id' in data` and `data.get` on such a body are not modelled.

/**
 * The user side: `/start` and a plain text message, as steps on a `World`. Both register
 * the sender; a message carrying nothing but a product link is queued unless a video
 * already exists for the product.
 */
module Admission {
  import opened Wrappers
  import opened Links
  import opened Model

  datatype StartReply = AdminMenu | UserMenu

  /** `/start`: clear the sender's session, register the sender, show the matching menu. */
  function Start(w: World, caller: UserId, admins: set<UserId>): (r: (World, StartReply))
    ensures r.0.linkQueue == w.linkQueue && r.0.videoDb == w.videoDb
    ensures r.0.session == EmptySession
    ensures caller in r.0.userIds && forall u :: u != caller ==> (u in r.0.userIds <==> u in w.userIds)
    ensures r.1 == AdminMenu <==> caller in admins
    ensures WorldValid(w) ==> WorldValid(r.0)
  {
    (w.(userIds := w.userIds + {caller}, session := EmptySession),
     if caller in admins then AdminMenu else UserMenu)
  }

  datatype MessageReply =
    | ForwardedToSupport
    | ForwardedWithLink(link: string)
    | VideoLinkRejected
    | NotAProduct
    | AlreadyHasVideo(video: string)
    | Queued(alertAdmins: bool)

  /**
   * A text message from a user: register the sender; with no link, or a link among other
   * text, it goes to support; otherwise the link is resolved and, if it is a product link
   * without a video, queued under its key.
   */
  function Submit(w: World, caller: UserId, text: string, resolve: string -> string): (r: (World, MessageReply))
    ensures caller in r.0.userIds && forall u :: u != caller ==> (u in r.0.userIds <==> u in w.userIds)
    ensures r.0.videoDb == w.videoDb && r.0.session == w.session
    ensures r.1 == ForwardedToSupport <==> FindShopeeLink(text).None?
    ensures r.1.ForwardedWithLink? <==> RouteMessage(text).SupportWithLink?
    ensures r.1.ForwardedWithLink? ==> FindShopeeLink(text) == Some(r.1.link)
    ensures r.1 == VideoLinkRejected <==>
      RouteMessage(text).ProductSubmission? && Classify(resolve(RouteMessage(text).link)) == VideoLink
    ensures r.1 == NotAProduct <==>
      RouteMessage(text).ProductSubmission? && Classify(resolve(RouteMessage(text).link)) == UnrecognisedLink
    ensures r.1.AlreadyHasVideo? <==>
      && RouteMessage(text).ProductSubmission?
      && Classify(resolve(RouteMessage(text).link)) == ProductLink
      && Normalize(resolve(RouteMessage(text).link)) in w.videoDb
    ensures !r.1.Queued? ==> r.0.linkQueue == w.linkQueue
    ensures r.1.Queued? <==>
      && RouteMessage(text).ProductSubmission?
      && Classify(resolve(RouteMessage(text).link)) == ProductLink
      && Normalize(resolve(RouteMessage(text).link)) !in w.videoDb
    ensures r.1.Queued? ==>
      var resolved := resolve(RouteMessage(text).link);
      && r.0.linkQueue == w.linkQueue + [Submission(caller, resolved, Normalize(resolved))]
      && (r.1.alertAdmins <==> |r.0.linkQueue| % ALERT_EVERY == 0)
    ensures r.1.AlreadyHasVideo? ==>
      var resolved := resolve(RouteMessage(text).link);
      && RouteMessage(text).ProductSubmission?
      && Classify(resolved) == ProductLink
      && Normalize(resolved) in w.videoDb
      && r.1.video == w.videoDb[Normalize(resolved)]
    ensures WorldValid(w) ==> WorldValid(r.0)
  {
    var registered := w.(userIds := w.userIds + {caller});
    match RouteMessage(text)
    case SupportRequest => (registered, ForwardedToSupport)
    case SupportWithLink(link) => (registered, ForwardedWithLink(link))
    case ProductSubmission(link) =>
      var resolved := resolve(link);
      match Classify(resolved)
      case VideoLink => (registered, VideoLinkRejected)
      case UnrecognisedLink => (registered, NotAProduct)
      case ProductLink =>
        var key := Normalize(resolved);
        if key in w.videoDb then (registered, AlreadyHasVideo(w.videoDb[key]))
        else
          var queue := w.linkQueue + [Submission(caller, resolved, key)];
          (registered.(linkQueue := queue), Queued(|queue| > 0 && |queue| % ALERT_EVERY == 0))
  }
}

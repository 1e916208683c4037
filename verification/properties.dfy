/**
 * What sequences of commands do to the submissions, the batches and the video store:
 * cut and cancel undo each other, submissions are conserved between the queue and the
 * batch, and where the command set loses a batch, the loss is stated exactly.
 */
module Properties {
  import opened Wrappers
  import opened Text
  import opened Links
  import opened Model
  import opened Lifecycle
  import opened Admission

  // ---------------------------------------------------------------------------
  // Cut and cancel

  /** A registered `/addN` that finds a queue takes between one and N submissions, N at most six. */
  lemma CutTakesNamedCount(w: World, caller: UserId, admins: set<UserId>, text: string, convert: string -> string)
    requires IsCutCommand(text)
    requires Cut(w, caller, admins, text, convert).1.CutDone?
    ensures var batch := CutBatch(Cut(w, caller, admins, text, convert).0.session);
      && 1 <= |batch| <= 6
      && |batch| == Min(DigitValue(text[4]), |w.linkQueue|)
  {
    CutArgumentIsCommandDigit(text);
  }

  /** `/add6` on a queue of eight: the batch is the first six in order and the last two stay queued. */
  lemma CutSixOfEight(w: World, caller: UserId, admins: set<UserId>, convert: string -> string)
    requires caller in admins && |w.linkQueue| == 8
    ensures var r := Cut(w, caller, admins, "/add6", convert);
      && r.1.CutDone?
      && CutBatch(r.0.session) == w.linkQueue[..6]
      && r.0.linkQueue == w.linkQueue[6..]
  {
    BareCutCommandParses("/add6");
    var r := Cut(w, caller, admins, "/add6", convert);
    assert |CutBatch(r.0.session)| == 6;
    assert CutBatch(r.0.session) + r.0.linkQueue == w.linkQueue;
    assert CutBatch(r.0.session) == (CutBatch(r.0.session) + r.0.linkQueue)[..6];
  }

  /** What the cut does to the queue and the session does not depend on how the conversions went. */
  lemma CutStateIgnoresConversions(w: World, caller: UserId, admins: set<UserId>, text: string,
                                   convert1: string -> string, convert2: string -> string)
    ensures Cut(w, caller, admins, text, convert1).0 == Cut(w, caller, admins, text, convert2).0
  {
  }

  /** Outside manual mode, `/cancelar` right after a cut puts the queue back as it was. */
  lemma CutThenCancelRestoresQueue(w: World, caller: UserId, admins: set<UserId>, text: string, convert: string -> string)
    requires w.session.state != Some(AWAITING_MANUAL_LINKS)
    requires Cut(w, caller, admins, text, convert).1.CutDone?
    ensures var c := Cancel(Cut(w, caller, admins, text, convert).0, caller, admins);
      c.1.BatchRestored? && c.0.linkQueue == w.linkQueue
  {
  }

  /** With no batch open before it, a cut followed by `/cancelar` leaves no trace at all. */
  lemma CutThenCancelIsIdentity(w: World, caller: UserId, admins: set<UserId>, text: string, convert: string -> string)
    requires w.session.state != Some(AWAITING_MANUAL_LINKS)
    requires w.session.lastProcessedItems.None? && w.session.lastProcessedUserIds.None?
    requires Cut(w, caller, admins, text, convert).1.CutDone?
    ensures Cancel(Cut(w, caller, admins, text, convert).0, caller, admins).0 == w
  {
  }

  /** A cut with no batch open moves submissions from the queue into the batch and loses none. */
  lemma CutConservesHeld(w: World, caller: UserId, admins: set<UserId>, text: string, convert: string -> string)
    requires CutBatch(w.session) == []
    ensures Held(Cut(w, caller, admins, text, convert).0) == Held(w)
  {
    var r := Cut(w, caller, admins, text, convert);
    if r.1.CutDone? {
      assert w.linkQueue == CutBatch(r.0.session) + r.0.linkQueue;
    }
  }

  /**
   * A cut while another cut batch is still open overwrites it: the earlier batch is in
   * neither the queue nor the session afterwards.
   */
  lemma CutOverOpenBatchLosesIt(w: World, caller: UserId, admins: set<UserId>, text: string, convert: string -> string)
    requires Cut(w, caller, admins, text, convert).1.CutDone?
    ensures Held(Cut(w, caller, admins, text, convert).0) + multiset(CutBatch(w.session)) == Held(w)
  {
    var r := Cut(w, caller, admins, text, convert);
    assert w.linkQueue == CutBatch(r.0.session) + r.0.linkQueue;
  }

  /** `/cancelar` outside manual mode returns the batch to the queue and loses nothing. */
  lemma CancelConservesHeld(w: World, caller: UserId, admins: set<UserId>)
    requires w.session.state != Some(AWAITING_MANUAL_LINKS)
    ensures Held(Cancel(w, caller, admins).0) == Held(w)
  {
  }

  /**
   * `/addmanual` keeps an open cut batch, but the `/cancelar` that leaves manual mode clears
   * the whole session: the cut batch is then neither queued nor pending.
   */
  lemma ManualCancelDropsCutBatch(w: World, caller: UserId, admins: set<UserId>)
    requires caller in admins
    ensures var w2 := Cancel(OpenManual(w, caller, admins).0, caller, admins).0;
      && w2.linkQueue == w.linkQueue
      && CutBatch(w2.session) == []
      && Held(w2) + multiset(CutBatch(w.session)) == Held(w)
  {
  }

  /**
   * `/addmanual` while a manual batch is being built starts it again: an accepted link is
   * gone from both manual lists, while the cut batch and the queue stay as they were.
   */
  lemma ReopenManualDropsLinks(w: World, caller: UserId, admins: set<UserId>, args: seq<string>,
                               resolve: string -> string, convert: string -> string)
    requires AddLink(w, caller, admins, args, resolve, convert).1.AddAccepted?
    ensures var w1 := AddLink(w, caller, admins, args, resolve, convert).0;
      var w2 := OpenManual(w1, caller, admins).0;
      && resolve(args[0]) in w1.session.manualLinksOriginal.value
      && w2.session.manualLinksOriginal == Some([])
      && w2.session.manualLinksConverted == Some([])
      && CutBatch(w2.session) == CutBatch(w.session)
      && w2.linkQueue == w.linkQueue
  {
    var w1 := AddLink(w, caller, admins, args, resolve, convert).0;
    assert w1.session.manualLinksOriginal.value[|w1.session.manualLinksOriginal.value| - 1] == resolve(args[0]);
    assert CutBatch(w1.session) == CutBatch(w.session);
  }

  /**
   * A cut taken while manual mode is on, then `/cancelar`: the cancel leaves manual mode and
   * the cut submissions are gone from the queue for good.
   */
  lemma CutDuringManualThenCancelLosesItems(w: World, caller: UserId, admins: set<UserId>, text: string, convert: string -> string)
    requires w.session.state == Some(AWAITING_MANUAL_LINKS)
    requires IsCutCommand(text)
    requires Cut(w, caller, admins, text, convert).1.CutDone?
    ensures var w2 := Cancel(Cut(w, caller, admins, text, convert).0, caller, admins).0;
      && w2.session == EmptySession
      && CutBatch(Cut(w, caller, admins, text, convert).0.session) + w2.linkQueue == w.linkQueue
      && |w2.linkQueue| < |w.linkQueue|
  {
    CutTakesNamedCount(w, caller, admins, text, convert);
  }

  // ---------------------------------------------------------------------------
  // Finalising

  /**
   * Finalising a manual batch clears the session, and with it any cut batch that was also
   * open: those submissions are dropped without a video and without a notice.
   */
  lemma ManualFinalizeDropsCutBatch(w: World, caller: UserId, admins: set<UserId>, args: seq<string>,
                                    convert: string -> string, delivered: UserId -> bool)
    requires w.session.manualLinksOriginal.Some?
    requires var r := Finalize(w, caller, admins, args, convert, delivered); r.1.VideoSent? || r.1.VideoNobodyToNotify?
    ensures var r := Finalize(w, caller, admins, args, convert, delivered);
      && PendingKeys(PendingBatch(w.session)) == ManualKeys(w.session.manualLinksOriginal.value)
      && PendingTargets(PendingBatch(w.session), caller) == [caller]
      && Held(r.0) + multiset(CutBatch(w.session)) == Held(w)
  {
  }

  /** Finalising a cut batch reaches each distinct submitter of the batch once. */
  lemma CutFinalizeTallyCoversSubmitters(w: World, caller: UserId, admins: set<UserId>, args: seq<string>,
                                         convert: string -> string, delivered: UserId -> bool)
    requires WorldValid(w)
    requires PendingBatch(w.session).CutPending?
    requires Finalize(w, caller, admins, args, convert, delivered).1.VideoSent?
    ensures var r := Finalize(w, caller, admins, args, convert, delivered);
      var targets := Targets(CutBatch(w.session));
      && r.1.sucesso + r.1.falha == |targets|
      && r.1.sucesso == CountDelivered(targets, delivered)
      && NoDuplicates(targets)
      && forall u :: u in targets <==> exists i :: 0 <= i < |CutBatch(w.session)| && CutBatch(w.session)[i].userId == u
  {
  }

  /**
   * After a batch is finalised, submitting any of its products again is answered with the
   * new video and queues nothing.
   */
  lemma FinalizedProductShortCircuits(w: World, caller: UserId, admins: set<UserId>, args: seq<string>,
                                      convert: string -> string, delivered: UserId -> bool,
                                      user: UserId, text: string, resolve: string -> string)
    requires var r := Finalize(w, caller, admins, args, convert, delivered); r.1.VideoSent? || r.1.VideoNobodyToNotify?
    requires RouteMessage(text).ProductSubmission?
    requires Classify(resolve(RouteMessage(text).link)) == ProductLink
    requires Normalize(resolve(RouteMessage(text).link)) in PendingKeys(PendingBatch(w.session))
    ensures var r := Finalize(w, caller, admins, args, convert, delivered);
      var s := Submit(r.0, user, text, resolve);
      s.1 == AlreadyHasVideo(convert(args[0])) && s.0.linkQueue == w.linkQueue
  {
  }

  /** The submitter of a finalised cut item that is submitted again gets the video, not a queue place. */
  lemma FinalizedCutItemShortCircuits(w: World, caller: UserId, admins: set<UserId>, args: seq<string>,
                                      convert: string -> string, delivered: UserId -> bool, i: nat,
                                      text: string, resolve: string -> string)
    requires WorldValid(w)
    requires PendingBatch(w.session).CutPending?
    requires i < |CutBatch(w.session)|
    requires var r := Finalize(w, caller, admins, args, convert, delivered); r.1.VideoSent? || r.1.VideoNobodyToNotify?
    requires RouteMessage(text).ProductSubmission?
    requires resolve(RouteMessage(text).link) == CutBatch(w.session)[i].originalLink
    requires Classify(CutBatch(w.session)[i].originalLink) == ProductLink
    ensures var r := Finalize(w, caller, admins, args, convert, delivered);
      Submit(r.0, CutBatch(w.session)[i].userId, text, resolve).1 == AlreadyHasVideo(convert(args[0]))
  {
    var items := CutBatch(w.session);
    assert items[i] in items;
    assert ItemKeys(items)[i] == items[i].normalizedLink;
    FinalizedProductShortCircuits(w, caller, admins, args, convert, delivered, items[i].userId, text, resolve);
  }

  // ---------------------------------------------------------------------------
  // Deleting a video

  /** Once a video is deleted, a product that was linked to it is queued again when submitted. */
  lemma DeletedVideoRequeues(w: World, caller: UserId, admins: set<UserId>, args: seq<string>,
                             user: UserId, text: string, resolve: string -> string)
    requires DeleteVideo(w, caller, admins, args).1.VideoDeleted?
    requires RouteMessage(text).ProductSubmission?
    requires Classify(resolve(RouteMessage(text).link)) == ProductLink
    requires var key := Normalize(resolve(RouteMessage(text).link)); key in w.videoDb && w.videoDb[key] == args[0]
    ensures var s := Submit(DeleteVideo(w, caller, admins, args).0, user, text, resolve);
      && s.1.Queued?
      && |s.0.linkQueue| == |w.linkQueue| + 1
  {
    var key := Normalize(resolve(RouteMessage(text).link));
    assert key in KeysFor(w.videoDb, args[0]);
  }

  // ---------------------------------------------------------------------------
  // Problem products

  /** Dropping a problem product takes exactly that one submission out of circulation. */
  lemma MarkedProblemLeavesCirculation(w: World, caller: UserId, admins: set<UserId>, args: seq<string>,
                                       kind: ProblemKind, delivered: UserId -> bool)
    requires MarkProblem(w, caller, admins, args, kind, delivered).1.ProblemMarked?
    ensures var items := CutBatch(w.session);
      var i := IndexOfKey(items, Normalize(args[0])).value;
      Held(MarkProblem(w, caller, admins, args, kind, delivered).0) + multiset{items[i]} == Held(w)
  {
  }

  // ---------------------------------------------------------------------------
  // Submissions and registration

  /** Once a product has a video, submitting it again changes nothing and gives the same answer. */
  lemma SubmitIsIdempotentOnceVideoExists(w: World, caller: UserId, text: string, resolve: string -> string)
    requires RouteMessage(text).ProductSubmission?
    requires Normalize(resolve(RouteMessage(text).link)) in w.videoDb
    ensures var s := Submit(w, caller, text, resolve);
      && s.0.linkQueue == w.linkQueue
      && Submit(s.0, caller, text, resolve) == s
  {
  }

  /** Only a resolved link that is not a video link and has a product shape is ever queued. */
  lemma QueuedOnlyProducts(w: World, caller: UserId, text: string, resolve: string -> string)
    requires Submit(w, caller, text, resolve).1.Queued?
    ensures var resolved := resolve(RouteMessage(text).link);
      && FindShopeeLink(text) == Some(RouteMessage(text).link)
      && IsBlank(RemoveAll(text, RouteMessage(text).link))
      && !IsVideoLink(resolved)
      && LooksLikeProduct(resolved)
  {
  }

  /** Without a video, the same product submitted twice is queued twice under one key. */
  lemma SubmitTwiceQueuesTwice(w: World, caller: UserId, text: string, resolve: string -> string)
    requires Submit(w, caller, text, resolve).1.Queued?
    ensures var s1 := Submit(w, caller, text, resolve);
      var s2 := Submit(s1.0, caller, text, resolve);
      && s2.1.Queued?
      && |s2.0.linkQueue| == |w.linkQueue| + 2
      && s2.0.linkQueue[|w.linkQueue|] == s2.0.linkQueue[|w.linkQueue| + 1]
  {
  }

  /** A queued submission is stored under the key of its own link, so queues stay well formed. */
  lemma QueuedSubmissionIsWellFormed(w: World, caller: UserId, text: string, resolve: string -> string)
    requires Submit(w, caller, text, resolve).1.Queued?
    ensures var q := Submit(w, caller, text, resolve).0.linkQueue;
      q[|q| - 1].userId == caller && WellFormed(q[|q| - 1])
  {
  }

  /** Registering is idempotent: a second `/start` or message from the same user adds nobody. */
  lemma RegistrationIsIdempotent(w: World, caller: UserId, admins: set<UserId>, text: string, resolve: string -> string)
    ensures Start(Start(w, caller, admins).0, caller, admins) == Start(w, caller, admins)
    ensures caller in w.userIds ==> Submit(w, caller, text, resolve).0.userIds == w.userIds
  {
  }

  /** `/start` from an admin in the middle of a batch drops the batch, like a cancelled manual mode. */
  lemma StartDropsCutBatch(w: World, caller: UserId, admins: set<UserId>)
    ensures var w2 := Start(w, caller, admins).0;
      && w2.linkQueue == w.linkQueue
      && Held(w2) + multiset(CutBatch(w.session)) == Held(w)
  {
  }
}

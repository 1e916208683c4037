/**
 * The admin commands as steps on a `World`: cutting a batch from the queue (`/add1`…`/add6`),
 * the manual batch (`/addmanual`, `/add`), finalising with a video (`/video`), undoing
 * (`/cancelar`), removing a video (`/deletarvideo`), dropping a problem product
 * (`/esgotado`, `/bugado`) and the two read-only commands (`/pendentes`, `/enviar`).
 * Each step returns the new world and what the admin is told.
 */
module Lifecycle {
  import opened Wrappers
  import opened Text
  import opened Links
  import opened Model

  function Min(a: int, b: int): int { if a <= b then a else b }

  // ---------------------------------------------------------------------------
  // /add1 … /add6

  /**
   * The batch size named by a cut command: its text with every `/add` removed, as `int()` reads
   * it. A routed `/addN` either fails to parse or names N, and the bare `/addN` always parses.
   */
  function CutArgument(text: string): (n: Option<int>)
    ensures IsCutCommand(text) && n.Some? ==> n.value == DigitValue(text[4])
    ensures IsCutCommand(text) && |text| == 5 ==> n == Some(DigitValue(text[4]))
  {
    assert IsCutCommand(text) ==> (ParseInt(RemoveAll(text, "/add")).Some? ==> ParseInt(RemoveAll(text, "/add")).value == DigitValue(text[4])) by {
      if IsCutCommand(text) {
        CutArgumentIsCommandDigit(text);
      }
    }
    assert IsCutCommand(text) && |text| == 5 ==> ParseInt(RemoveAll(text, "/add")) == Some(DigitValue(text[4])) by {
      if IsCutCommand(text) && |text| == 5 {
        BareCutCommandParses(text);
      }
    }
    ParseInt(RemoveAll(text, "/add"))
  }

  /**
   * The cut commands as the admin types them: `/add1` … `/add6` in lower case, followed by
   * the end of the text, by whitespace before its arguments, or by `@` and the bot's name.
   * Telegram also routes upper-case variants such as `/ADD3` to the cut handler; those never
   * parse, since `/add` is removed case-sensitively, and end as an invalid command.
   */
  predicate IsCutCommand(text: string) {
    && |text| >= 5 && text[..4] == "/add" && '1' <= text[4] <= '6'
    && (|text| == 5 || IsSpace(text[5]) || text[5] == '@')
  }

  /** Removing `/add` from a routed cut command leaves its digit first, then a non-digit. */
  lemma CutCommandRemoved(text: string)
    requires IsCutCommand(text)
    ensures var s := RemoveAll(text, "/add");
      && s != [] && s[0] == text[4]
      && (|s| > 1 ==> IsSpace(s[1]) || s[1] == '@')
  {
    var d, rest := text[4], text[5..];
    assert text == "/add" + ([d] + rest);
    RemoveAllDropsLeading("/add", [d] + rest);
    RemoveAllKeepsHead(d, rest, "/add");
    if rest != [] {
      assert rest == [rest[0]] + rest[1..];
      RemoveAllKeepsHead(rest[0], rest[1..], "/add");
    }
  }

  /** `int()` of a text that starts with a digit followed by anything but a digit or `_` is that digit, if anything. */
  lemma ParseLeadingDigit(s: string)
    requires s != [] && IsDigit(s[0])
    requires |s| > 1 ==> !IsDigit(s[1]) && s[1] != '_'
    ensures ParseInt(s).Some? ==> ParseInt(s).value == DigitValue(s[0])
  {
    var t := Strip(s);
    var lo: nat :| IsBlankOutside(s, lo, t);
    assert !IsSpace(s[0]);
    assert lo == 0;
    assert t != [] && t[0] == s[0];
    if |t| >= 2 {
      assert t[1] == s[1];
      NotDigitStringAt(t, 1);
    } else {
      assert t == [s[0]] && t[..0] == [];
      assert DigitsValue(t) == 10 * DigitsValue([]) + DigitValue(s[0]);
    }
  }

  /** One character that is neither a digit nor `_` spoils a digit string. */
  lemma NotDigitStringAt(b: string, i: nat)
    requires i < |b| && !IsDigit(b[i]) && b[i] != '_'
    ensures !IsDigitString(b)
  {
    assert !DigitOrJoinAt(b, i);
  }

  /** A routed cut command either fails to parse or asks for exactly the number in its name. */
  lemma CutArgumentIsCommandDigit(text: string)
    requires IsCutCommand(text)
    ensures var n := ParseInt(RemoveAll(text, "/add")); n.Some? ==> n.value == DigitValue(text[4])
  {
    CutCommandRemoved(text);
    ParseLeadingDigit(RemoveAll(text, "/add"));
  }

  /** The bare command `/addN` parses to N. */
  lemma BareCutCommandParses(text: string)
    requires IsCutCommand(text) && |text| == 5
    ensures ParseInt(RemoveAll(text, "/add")) == Some(DigitValue(text[4]))
  {
    CutCommandRemoved(text);
    var s := RemoveAll(text, "/add");
    assert |s| <= 1 by {
      assert text == "/add" + [text[4]];
      RemoveAllDropsLeading("/add", [text[4]]);
    }
    assert s == [text[4]];
    var t := Strip(s);
    var lo: nat :| IsBlankOutside(s, lo, t);
    assert !IsSpace(s[0]);
    assert t == s;
    assert DigitOrJoinAt(t, 0);
    ParseLeadingDigit(s);
  }

  datatype CutReply =
    | CutIgnored
    | CutInvalidCommand
    | CutQueueEmpty
    | CutDone(processed: int, converted: seq<string>, remaining: nat)

  /**
   * `/addN`: the first N queued submissions become the session's cut batch, their submitters
   * its targets, and the rest stays queued. The converted links only go into the reply.
   */
  function Cut(w: World, caller: UserId, admins: set<UserId>, text: string, convert: string -> string): (r: (World, CutReply))
    ensures r.0.videoDb == w.videoDb && r.0.userIds == w.userIds
    ensures r.0.session.state == w.session.state
    ensures r.0.session.manualLinksOriginal == w.session.manualLinksOriginal
    ensures r.0.session.manualLinksConverted == w.session.manualLinksConverted
    ensures r.1.CutDone? <==> caller in admins && CutArgument(text).Some? && w.linkQueue != []
    ensures r.1 == CutIgnored <==> caller !in admins
    ensures r.1 == CutInvalidCommand <==> caller in admins && CutArgument(text).None?
    ensures r.1 == CutQueueEmpty <==> caller in admins && CutArgument(text).Some? && w.linkQueue == []
    ensures !r.1.CutDone? ==> r.0 == w
    ensures r.1.CutDone? ==>
      && r.0.session.lastProcessedItems.Some?
      && r.0.session.lastProcessedItems.value + r.0.linkQueue == w.linkQueue
      && r.0.session.lastProcessedUserIds == Some(Targets(r.0.session.lastProcessedItems.value))
      && r.1.processed == Min(CutArgument(text).value, |w.linkQueue|)
      && (r.1.processed >= 0 ==> |r.0.session.lastProcessedItems.value| == r.1.processed)
      && r.1.converted == ConvertAll(convert, OriginalLinks(r.0.session.lastProcessedItems.value))
      && r.1.remaining == |r.0.linkQueue|
    ensures WorldValid(w) ==> WorldValid(r.0)
  {
    if caller !in admins then (w, CutIgnored)
    else match CutArgument(text)
      case None => (w, CutInvalidCommand)
      case Some(n) =>
        if w.linkQueue == [] then (w, CutQueueEmpty)
        else
          var k := Min(n, |w.linkQueue|);
          var e := SliceIndex(|w.linkQueue|, k);
          var batch := w.linkQueue[..e];
          assert batch + w.linkQueue[e..] == w.linkQueue;
          var s := w.session.(lastProcessedItems := Some(batch), lastProcessedUserIds := Some(Targets(batch)));
          (w.(linkQueue := w.linkQueue[e..], session := s),
           CutDone(k, ConvertAll(convert, OriginalLinks(batch)), |w.linkQueue| - e))
  }

  // ---------------------------------------------------------------------------
  // /addmanual and /add

  datatype ManualReply = ManualIgnored | ManualStarted

  /** `/addmanual`: enter manual mode with an empty batch. A cut batch already open stays open. */
  function OpenManual(w: World, caller: UserId, admins: set<UserId>): (r: (World, ManualReply))
    ensures caller !in admins ==> r == (w, ManualIgnored)
    ensures caller in admins ==> r.1 == ManualStarted
    ensures r.0.linkQueue == w.linkQueue && r.0.videoDb == w.videoDb && r.0.userIds == w.userIds
    ensures r.0.session.lastProcessedItems == w.session.lastProcessedItems
    ensures r.0.session.lastProcessedUserIds == w.session.lastProcessedUserIds
    ensures caller in admins ==>
      && r.0.session.state == Some(AWAITING_MANUAL_LINKS)
      && r.0.session.manualLinksOriginal == Some([])
      && r.0.session.manualLinksConverted == Some([])
    ensures WorldValid(w) ==> WorldValid(r.0)
  {
    if caller !in admins then (w, ManualIgnored)
    else
      assert CutBatch(w.session.(state := Some(AWAITING_MANUAL_LINKS))) == CutBatch(w.session);
      (w.(session := w.session.(state := Some(AWAITING_MANUAL_LINKS),
                                manualLinksOriginal := Some([]),
                                manualLinksConverted := Some([]))),
       ManualStarted)
  }

  datatype AddReply =
    | AddIgnored
    | AddNeedsLink
    | AddLimitReached
    | AddConversionFailed(message: string)
    | AddAccepted(batch: seq<string>)
    | AddConvertedOnce(link: string)
    | AddUsage

  /**
   * `/add <link>`: in manual mode, resolve and convert the link and append both forms to the
   * batch, unless the batch already holds six or the conversion failed; outside manual mode,
   * convert one link for the admin and keep nothing.
   */
  function AddLink(w: World, caller: UserId, admins: set<UserId>, args: seq<string>,
                   resolve: string -> string, convert: string -> string): (r: (World, AddReply))
    ensures r.0.linkQueue == w.linkQueue && r.0.videoDb == w.videoDb && r.0.userIds == w.userIds
    ensures !r.1.AddAccepted? ==> r.0 == w
    ensures r.1.AddAccepted? <==>
      && caller in admins
      && w.session.state == Some(AWAITING_MANUAL_LINKS)
      && args != []
      && |w.session.manualLinksOriginal.GetOr([])| < MANUAL_BATCH_LIMIT
      && !IsConversionError(convert(resolve(args[0])))
    ensures r.1 == AddLimitReached <==>
      && caller in admins
      && w.session.state == Some(AWAITING_MANUAL_LINKS)
      && args != []
      && |w.session.manualLinksOriginal.GetOr([])| >= MANUAL_BATCH_LIMIT
    ensures r.1.AddAccepted? ==>
      && r.0.session == w.session.(
           manualLinksOriginal := Some(w.session.manualLinksOriginal.GetOr([]) + [resolve(args[0])]),
           manualLinksConverted := Some(w.session.manualLinksConverted.GetOr([]) + [convert(resolve(args[0]))]))
      && r.1.batch == r.0.session.manualLinksConverted.value
    ensures r.1 == AddIgnored <==> caller !in admins
    ensures r.1 == AddNeedsLink <==> caller in admins && w.session.state == Some(AWAITING_MANUAL_LINKS) && args == []
    ensures r.1.AddConversionFailed? <==>
      && caller in admins
      && w.session.state == Some(AWAITING_MANUAL_LINKS)
      && args != []
      && |w.session.manualLinksOriginal.GetOr([])| < MANUAL_BATCH_LIMIT
      && IsConversionError(convert(resolve(args[0])))
    ensures r.1.AddConversionFailed? ==> r.1.message == convert(resolve(args[0]))
    ensures r.1.AddConvertedOnce? <==> caller in admins && w.session.state != Some(AWAITING_MANUAL_LINKS) && args != []
    ensures r.1 == AddUsage <==> caller in admins && w.session.state != Some(AWAITING_MANUAL_LINKS) && args == []
    ensures r.1.AddConvertedOnce? ==>
      caller in admins && w.session.state != Some(AWAITING_MANUAL_LINKS) && args != [] && r.1.link == convert(resolve(args[0]))
    ensures WorldValid(w) ==> WorldValid(r.0)
  {
    if caller !in admins then (w, AddIgnored)
    else if w.session.state == Some(AWAITING_MANUAL_LINKS) then
      if args == [] then (w, AddNeedsLink)
      else if |w.session.manualLinksOriginal.GetOr([])| >= MANUAL_BATCH_LIMIT then (w, AddLimitReached)
      else
        var resolved := resolve(args[0]);
        var converted := convert(resolved);
        if IsConversionError(converted) then (w, AddConversionFailed(converted))
        else
          var s := w.session.(
            manualLinksOriginal := Some(w.session.manualLinksOriginal.GetOr([]) + [resolved]),
            manualLinksConverted := Some(w.session.manualLinksConverted.GetOr([]) + [converted]));
          assert CutBatch(s) == CutBatch(w.session);
          assert forall c :: c in s.manualLinksConverted.value ==> c == converted || c in w.session.manualLinksConverted.GetOr([]);
          (w.(session := s), AddAccepted(s.manualLinksConverted.value))
    else if args != [] then (w, AddConvertedOnce(convert(resolve(args[0]))))
    else (w, AddUsage)
  }

  // ---------------------------------------------------------------------------
  // /video

  /** The batch `/video` would finalise. */
  datatype Pending =
    | ManualPending(links: seq<string>)
    | CutPending(items: seq<Submission>, targets: seq<UserId>)
    | NonePending

  /** Manual mode, or any trace of a manual batch, takes precedence over a cut batch. */
  function PendingBatch(s: Session): (p: Pending)
    ensures p.ManualPending? <==> s.state == Some(AWAITING_MANUAL_LINKS) || s.manualLinksOriginal.Some?
    ensures p.ManualPending? ==> p.links == s.manualLinksOriginal.GetOr([])
    ensures p.CutPending? <==> !p.ManualPending? && s.lastProcessedItems.Some?
    ensures p.CutPending? ==> s.lastProcessedItems == Some(p.items) && p.targets == s.lastProcessedUserIds.GetOr([])
    ensures p.NonePending? ==> s.lastProcessedItems.None?
  {
    if s.state == Some(AWAITING_MANUAL_LINKS) || s.manualLinksOriginal.Some? then
      ManualPending(s.manualLinksOriginal.GetOr([]))
    else if s.lastProcessedItems.Some? then
      CutPending(s.lastProcessedItems.value, s.lastProcessedUserIds.GetOr([]))
    else NonePending
  }

  /** The video keys a finalised batch is stored under. */
  function PendingKeys(p: Pending): seq<string> {
    match p
    case ManualPending(links) => ManualKeys(links)
    case CutPending(items, _) => ItemKeys(items)
    case NonePending => []
  }

  /** Who hears about the video: the submitters of a cut batch, the admin alone for a manual one. */
  function PendingTargets(p: Pending, caller: UserId): seq<UserId> {
    match p
    case ManualPending(_) => [caller]
    case CutPending(_, targets) => targets
    case NonePending => []
  }

  datatype VideoReply =
    | VideoIgnored
    | VideoUsage
    | VideoNoManualLinks
    | VideoNoBatch
    | VideoConversionFailed(message: string)
    | VideoNobodyToNotify(link: string)
    | VideoSent(link: string, sucesso: nat, falha: nat)

  /**
   * `/video <link>`: convert the video link, store it under every key of the pending batch,
   * notify the batch's targets and clear the session.
   */
  function Finalize(w: World, caller: UserId, admins: set<UserId>, args: seq<string>,
                    convert: string -> string, delivered: UserId -> bool): (r: (World, VideoReply))
    ensures r.0.linkQueue == w.linkQueue && r.0.userIds == w.userIds
    ensures !(r.1.VideoSent? || r.1.VideoNobodyToNotify?) ==> r.0 == w
    ensures r.1.VideoSent? || r.1.VideoNobodyToNotify? ==>
      && caller in admins && args != []
      && PendingKeys(PendingBatch(w.session)) != []
      && r.1.link == convert(args[0]) && !IsConversionError(r.1.link)
      && r.0.session == EmptySession
      && (forall k :: k in PendingKeys(PendingBatch(w.session)) ==> k in r.0.videoDb && r.0.videoDb[k] == r.1.link)
      && (forall k :: k !in PendingKeys(PendingBatch(w.session)) ==>
            (k in r.0.videoDb <==> k in w.videoDb) && (k in w.videoDb ==> r.0.videoDb[k] == w.videoDb[k]))
    ensures r.1.VideoNobodyToNotify? ==> PendingTargets(PendingBatch(w.session), caller) == []
    ensures r.1.VideoSent? ==>
      && r.1.sucesso == CountDelivered(PendingTargets(PendingBatch(w.session), caller), delivered)
      && r.1.sucesso + r.1.falha == |PendingTargets(PendingBatch(w.session), caller)| > 0
    ensures r.1 == VideoIgnored <==> caller !in admins
    ensures r.1 == VideoUsage <==> caller in admins && args == []
    ensures r.1.VideoSent? || r.1.VideoNobodyToNotify? <==>
      && caller in admins && args != []
      && PendingKeys(PendingBatch(w.session)) != []
      && !IsConversionError(convert(args[0]))
    ensures r.1.VideoNobodyToNotify? <==>
      && caller in admins && args != []
      && PendingKeys(PendingBatch(w.session)) != []
      && !IsConversionError(convert(args[0]))
      && PendingTargets(PendingBatch(w.session), caller) == []
    ensures r.1 == VideoNoBatch <==>
      caller in admins && args != [] && PendingBatch(w.session) != ManualPending([]) && PendingKeys(PendingBatch(w.session)) == []
    ensures r.1.VideoConversionFailed? ==> r.1.message == convert(args[0])
    ensures r.1 == VideoNoManualLinks <==>
      caller in admins && args != [] && PendingBatch(w.session) == ManualPending([])
    ensures caller in admins && args != [] && PendingKeys(PendingBatch(w.session)) != [] ==>
      (IsConversionError(convert(args[0])) <==> r.1.VideoConversionFailed?)
    ensures WorldValid(w) ==> WorldValid(r.0)
  {
    if caller !in admins then (w, VideoIgnored)
    else if args == [] then (w, VideoUsage)
    else
      var p := PendingBatch(w.session);
      if p == ManualPending([]) then (w, VideoNoManualLinks)
      else if PendingKeys(p) == [] then (w, VideoNoBatch)
      else
        var link := convert(args[0]);
        if IsConversionError(link) then (w, VideoConversionFailed(link))
        else
          var w' := w.(videoDb := Associate(w.videoDb, PendingKeys(p), link), session := EmptySession);
          var targets := PendingTargets(p, caller);
          if targets == [] then (w', VideoNobodyToNotify(link))
          else
            var ok := CountDelivered(targets, delivered);
            (w', VideoSent(link, ok, |targets| - ok))
  }

  // ---------------------------------------------------------------------------
  // /cancelar

  datatype CancelReply = CancelIgnored | ManualCancelled | BatchRestored(count: nat) | NothingToCancel

  /**
   * `/cancelar`: leave manual mode (clearing the whole session), or else put the cut batch
   * back at the head of the queue.
   */
  function Cancel(w: World, caller: UserId, admins: set<UserId>): (r: (World, CancelReply))
    ensures caller !in admins ==> r == (w, CancelIgnored)
    ensures r.1 == CancelIgnored <==> caller !in admins
    ensures r.1 == NothingToCancel <==>
      caller in admins && w.session.state != Some(AWAITING_MANUAL_LINKS) && w.session.lastProcessedItems.None?
    ensures r.0.videoDb == w.videoDb && r.0.userIds == w.userIds
    ensures caller in admins ==>
      && (r.1 == ManualCancelled <==> w.session.state == Some(AWAITING_MANUAL_LINKS))
      && (r.1.BatchRestored? <==> w.session.state != Some(AWAITING_MANUAL_LINKS) && w.session.lastProcessedItems.Some?)
    ensures r.1 == ManualCancelled ==> r.0 == w.(session := EmptySession)
    ensures r.1.BatchRestored? ==>
      && r.0.linkQueue == w.session.lastProcessedItems.value + w.linkQueue
      && r.1.count == |w.session.lastProcessedItems.value|
      && r.0.session == w.session.(lastProcessedItems := None, lastProcessedUserIds := None)
    ensures r.1 == NothingToCancel ==> r.0 == w
    ensures WorldValid(w) ==> WorldValid(r.0)
  {
    if caller !in admins then (w, CancelIgnored)
    else if w.session.state == Some(AWAITING_MANUAL_LINKS) then (w.(session := EmptySession), ManualCancelled)
    else if w.session.lastProcessedItems.Some? then
      var items := w.session.lastProcessedItems.value;
      (w.(linkQueue := items + w.linkQueue,
          session := w.session.(lastProcessedItems := None, lastProcessedUserIds := None)),
       BatchRestored(|items|))
    else (w, NothingToCancel)
  }

  // ---------------------------------------------------------------------------
  // /deletarvideo

  datatype DeleteReply = DeleteIgnored | DeleteUsage | DeleteNotFound | VideoDeleted(count: nat)

  /** `/deletarvideo <video>`: unlink every product stored with that video. */
  function DeleteVideo(w: World, caller: UserId, admins: set<UserId>, args: seq<string>): (r: (World, DeleteReply))
    ensures r.0.linkQueue == w.linkQueue && r.0.userIds == w.userIds && r.0.session == w.session
    ensures !r.1.VideoDeleted? ==> r.0 == w
    ensures r.1 == DeleteIgnored <==> caller !in admins
    ensures r.1 == DeleteUsage <==> caller in admins && args == []
    ensures r.1 == DeleteNotFound <==> caller in admins && args != [] && KeysFor(w.videoDb, args[0]) == {}
    ensures r.1.VideoDeleted? <==> caller in admins && args != [] && KeysFor(w.videoDb, args[0]) != {}
    ensures r.1.VideoDeleted? ==>
      && caller in admins && args != []
      && r.1.count == |KeysFor(w.videoDb, args[0])| > 0
      && r.0.videoDb.Keys == w.videoDb.Keys - KeysFor(w.videoDb, args[0])
      && (forall k :: k in r.0.videoDb ==> r.0.videoDb[k] == w.videoDb[k] && r.0.videoDb[k] != args[0])
    ensures WorldValid(w) ==> WorldValid(r.0)
  {
    if caller !in admins then (w, DeleteIgnored)
    else if args == [] then (w, DeleteUsage)
    else
      var keys := KeysFor(w.videoDb, args[0]);
      if keys == {} then (w, DeleteNotFound)
      else (w.(videoDb := WithoutVideo(w.videoDb, args[0])), VideoDeleted(|keys|))
  }

  // ---------------------------------------------------------------------------
  // /esgotado and /bugado

  datatype ProblemKind = SoldOut | Rejected

  datatype ProblemReply =
    | ProblemIgnored
    | ProblemUsage
    | ProblemNoBatch
    | ProblemNotFound
    | ProblemMarked(kind: ProblemKind, user: UserId)
    | ProblemNoticeFailed(user: UserId)

  /**
   * `/esgotado <link>`, `/bugado <link>`: find the first item of the cut batch stored under
   * the link's key, tell its submitter, and only if that message goes through take the item
   * out of the batch and recompute the targets.
   */
  function MarkProblem(w: World, caller: UserId, admins: set<UserId>, args: seq<string>,
                       kind: ProblemKind, delivered: UserId -> bool): (r: (World, ProblemReply))
    ensures r.0.linkQueue == w.linkQueue && r.0.videoDb == w.videoDb && r.0.userIds == w.userIds
    ensures !r.1.ProblemMarked? ==> r.0 == w
    ensures r.1 == ProblemIgnored <==> caller !in admins
    ensures r.1 == ProblemUsage <==> caller in admins && args == []
    ensures r.1.ProblemMarked? || r.1.ProblemNoticeFailed? <==>
      && caller in admins && args != [] && w.session.lastProcessedItems.Some?
      && IndexOfKey(w.session.lastProcessedItems.value, Normalize(args[0])).Some?
    ensures r.1 == ProblemNoBatch <==> caller in admins && args != [] && w.session.lastProcessedItems.None?
    ensures r.1 == ProblemNotFound <==>
      && caller in admins && args != [] && w.session.lastProcessedItems.Some?
      && IndexOfKey(w.session.lastProcessedItems.value, Normalize(args[0])).None?
    ensures r.1.ProblemMarked? ==>
      && caller in admins && args != [] && w.session.lastProcessedItems.Some?
      && var items := w.session.lastProcessedItems.value;
         && IndexOfKey(items, Normalize(args[0])).Some?
         && var i := IndexOfKey(items, Normalize(args[0])).value;
            && r.1 == ProblemMarked(kind, items[i].userId)
            && delivered(items[i].userId)
            && r.0.session == w.session.(lastProcessedItems := Some(WithoutItem(items, i)),
                                         lastProcessedUserIds := Some(Targets(WithoutItem(items, i))))
    ensures r.1.ProblemNoticeFailed? ==>
      var items := w.session.lastProcessedItems.value;
      r.1.user == items[IndexOfKey(items, Normalize(args[0])).value].userId && !delivered(r.1.user)
    ensures WorldValid(w) ==> WorldValid(r.0)
  {
    if caller !in admins then (w, ProblemIgnored)
    else if args == [] then (w, ProblemUsage)
    else if w.session.lastProcessedItems.None? then (w, ProblemNoBatch)
    else
      var items := w.session.lastProcessedItems.value;
      match IndexOfKey(items, Normalize(args[0]))
      case None => (w, ProblemNotFound)
      case Some(i) =>
        var found := items[i];
        if !delivered(found.userId) then (w, ProblemNoticeFailed(found.userId))
        else
          var rest := RemoveFirst(items, found);
          assert rest == WithoutItem(items, i) by {
            RemoveFirstAt(items, i);
          }
          (w.(session := w.session.(lastProcessedItems := Some(rest), lastProcessedUserIds := Some(Targets(rest)))),
           ProblemMarked(kind, found.userId))
  }

  // ---------------------------------------------------------------------------
  // /enviar

  /** The registered users a send reaches. */
  function Reached(users: set<UserId>, delivered: UserId -> bool): set<UserId> {
    set u | u in users && delivered(u)
  }

  function Missed(users: set<UserId>, delivered: UserId -> bool): set<UserId> {
    set u | u in users && !delivered(u)
  }

  datatype BroadcastReply = BroadcastIgnored | BroadcastUsage | NobodyRegistered | BroadcastDone(sucesso: nat, falha: nat)

  /**
   * `/enviar`: a text or a photo with a caption goes to every registered user; the admin is
   * told how many sends went through and how many failed.
   */
  function BroadcastOutcome(users: set<UserId>, caller: UserId, admins: set<UserId>, message: string,
                            hasPhoto: bool, delivered: UserId -> bool): (r: BroadcastReply)
    ensures r == BroadcastIgnored <==> caller !in admins
    ensures r == BroadcastUsage <==> caller in admins && message == [] && !hasPhoto
    ensures r == NobodyRegistered <==> caller in admins && (message != [] || hasPhoto) && users == {}
    ensures r.BroadcastDone? <==> caller in admins && (message != [] || hasPhoto) && users != {}
    ensures r.BroadcastDone? ==>
      && r.sucesso == |Reached(users, delivered)|
      && r.sucesso + r.falha == |users|
  {
    if caller !in admins then BroadcastIgnored
    else if message == [] && !hasPhoto then BroadcastUsage
    else if users == {} then NobodyRegistered
    else
      assert Reached(users, delivered) + Missed(users, delivered) == users;
      BroadcastDone(|Reached(users, delivered)|, |Missed(users, delivered)|)
  }
}

/**
 * The admin command handlers over the mutable `bot_data` and `user_data`. Each handler is
 * proved to take the snapshot it finds to exactly the world and reply of its step function
 * in `Lifecycle`.
 */
module AdminHandlers {
  import opened Wrappers
  import opened Links
  import opened Model
  import opened Lifecycle
  import opened Store

  /** Send one message to each target in turn and tally the sends that went through and failed. */
  method NotifyAll(targets: seq<UserId>, delivered: UserId -> bool) returns (sucesso: nat, falha: nat)
    ensures sucesso == CountDelivered(targets, delivered)
    ensures sucesso + falha == |targets|
  {
    sucesso, falha := 0, 0;
    var i := 0;
    while i < |targets|
      invariant 0 <= i <= |targets|
      invariant sucesso == CountDelivered(targets[..i], delivered)
      invariant sucesso + falha == i
    {
      assert targets[..i + 1][..i] == targets[..i];
      if delivered(targets[i]) {
        sucesso := sucesso + 1;
      } else {
        falha := falha + 1;
      }
      i := i + 1;
    }
    assert targets[..i] == targets;
  }

  /** `/add1` … `/add6`. */
  method AddLinks(bot: BotData, ud: UserData, caller: UserId, admins: set<UserId>, text: string,
                  convert: string -> string) returns (reply: CutReply)
    modifies bot, ud
    ensures (Snapshot(bot, ud), reply) == Cut(old(Snapshot(bot, ud)), caller, admins, text, convert)
  {
    if caller !in admins {
      return CutIgnored;
    }
    var n := CutArgument(text);
    if n.None? {
      return CutInvalidCommand;
    }
    var fila := bot.linkQueue;
    if fila == [] {
      return CutQueueEmpty;
    }
    var numToProcess := Min(n.value, |fila|);
    var cut := SliceIndex(|fila|, numToProcess);
    var items := fila[..cut];
    ud.lastProcessedItems := Some(items);
    ud.lastProcessedUserIds := Some(Targets(items));
    var converted := ConvertAll(convert, OriginalLinks(items));
    bot.linkQueue := fila[cut..];
    reply := CutDone(numToProcess, converted, |bot.linkQueue|);
  }

  /** `/pendentes`: how many submissions wait in the queue. */
  method Pendentes(bot: BotData, caller: UserId, admins: set<UserId>) returns (quantidade: Option<nat>)
    ensures quantidade.Some? <==> caller in admins
    ensures quantidade.Some? ==> quantidade.value == |bot.linkQueue|
  {
    if caller !in admins {
      return None;
    }
    quantidade := Some(|bot.linkQueue|);
  }

  /** `/addmanual`. */
  method AddManual(bot: BotData, ud: UserData, caller: UserId, admins: set<UserId>) returns (reply: ManualReply)
    modifies ud
    ensures (Snapshot(bot, ud), reply) == OpenManual(old(Snapshot(bot, ud)), caller, admins)
  {
    if caller !in admins {
      return ManualIgnored;
    }
    ud.state := Some(AWAITING_MANUAL_LINKS);
    ud.manualLinksOriginal := Some([]);
    ud.manualLinksConverted := Some([]);
    reply := ManualStarted;
  }

  /** `/add <link>`. */
  method Add(bot: BotData, ud: UserData, caller: UserId, admins: set<UserId>, args: seq<string>,
             resolve: string -> string, convert: string -> string) returns (reply: AddReply)
    modifies ud
    ensures (Snapshot(bot, ud), reply) == AddLink(old(Snapshot(bot, ud)), caller, admins, args, resolve, convert)
  {
    if caller !in admins {
      return AddIgnored;
    }
    if ud.state == Some(AWAITING_MANUAL_LINKS) {
      if args == [] {
        return AddNeedsLink;
      }
      var originalList := ud.manualLinksOriginal.GetOr([]);
      if |originalList| >= MANUAL_BATCH_LIMIT {
        return AddLimitReached;
      }
      var resolved := resolve(args[0]);
      var converted := convert(resolved);
      if IsConversionError(converted) {
        return AddConversionFailed(converted);
      }
      ud.manualLinksOriginal := Some(ud.manualLinksOriginal.GetOr([]) + [resolved]);
      ud.manualLinksConverted := Some(ud.manualLinksConverted.GetOr([]) + [converted]);
      reply := AddAccepted(ud.manualLinksConverted.value);
    } else if args != [] {
      reply := AddConvertedOnce(convert(resolve(args[0])));
    } else {
      reply := AddUsage;
    }
  }

  /** `video_db[key] = video` for each key of the finalised batch, in order. */
  method StoreVideo(bot: BotData, keys: seq<string>, video: string)
    modifies bot
    ensures bot.videoDb == Associate(old(bot.videoDb), keys, video)
    ensures bot.linkQueue == old(bot.linkQueue) && bot.userIds == old(bot.userIds)
  {
    var i := 0;
    while i < |keys|
      invariant 0 <= i <= |keys|
      invariant bot.videoDb == Associate(old(bot.videoDb), keys[..i], video)
      invariant bot.linkQueue == old(bot.linkQueue) && bot.userIds == old(bot.userIds)
    {
      assert keys[..i + 1][..i] == keys[..i];
      bot.videoDb := bot.videoDb[keys[i] := video];
      i := i + 1;
    }
    assert keys[..i] == keys;
  }

  /** `/video <link>`. */
  method Video(bot: BotData, ud: UserData, caller: UserId, admins: set<UserId>, args: seq<string>,
               convert: string -> string, delivered: UserId -> bool) returns (reply: VideoReply)
    modifies bot, ud
    ensures (Snapshot(bot, ud), reply) == Finalize(old(Snapshot(bot, ud)), caller, admins, args, convert, delivered)
  {
    if caller !in admins {
      return VideoIgnored;
    }
    if args == [] {
      return VideoUsage;
    }
    var pending := PendingBatch(ud.View());
    if pending == ManualPending([]) {
      return VideoNoManualLinks;
    }
    var keys := PendingKeys(pending);
    if keys == [] {
      return VideoNoBatch;
    }
    var link := convert(args[0]);
    if IsConversionError(link) {
      return VideoConversionFailed(link);
    }
    StoreVideo(bot, keys, link);
    var targets := PendingTargets(pending, caller);
    if targets == [] {
      reply := VideoNobodyToNotify(link);
    } else {
      var sucesso, falha := NotifyAll(targets, delivered);
      reply := VideoSent(link, sucesso, falha);
    }
    ud.Clear();
  }

  /** `/cancelar`. */
  method Cancelar(bot: BotData, ud: UserData, caller: UserId, admins: set<UserId>) returns (reply: CancelReply)
    modifies bot, ud
    ensures (Snapshot(bot, ud), reply) == Cancel(old(Snapshot(bot, ud)), caller, admins)
  {
    if caller !in admins {
      return CancelIgnored;
    }
    if ud.state == Some(AWAITING_MANUAL_LINKS) {
      ud.Clear();
      reply := ManualCancelled;
    } else if ud.lastProcessedItems.Some? {
      var itemsToRestore := ud.lastProcessedItems.value;
      ud.lastProcessedItems := None;
      bot.linkQueue := itemsToRestore + bot.linkQueue;
      ud.lastProcessedUserIds := None;
      reply := BatchRestored(|itemsToRestore|);
    } else {
      reply := NothingToCancel;
    }
  }

  /** `/enviar`: send to every registered user, one at a time, and tally. */
  method Enviar(bot: BotData, caller: UserId, admins: set<UserId>, message: string, hasPhoto: bool,
                delivered: UserId -> bool) returns (reply: BroadcastReply)
    ensures reply == BroadcastOutcome(bot.userIds, caller, admins, message, hasPhoto, delivered)
  {
    if caller !in admins {
      return BroadcastIgnored;
    }
    if message == [] && !hasPhoto {
      return BroadcastUsage;
    }
    var allUserIds := bot.userIds;
    if allUserIds == {} {
      return NobodyRegistered;
    }
    var sucesso, falha := SendToAll(allUserIds, delivered);
    reply := BroadcastDone(sucesso, falha);
  }

  /** The send loop of `/enviar`: every user once, in any order. */
  method SendToAll(users: set<UserId>, delivered: UserId -> bool) returns (sucesso: nat, falha: nat)
    ensures sucesso == |Reached(users, delivered)|
    ensures falha == |Missed(users, delivered)|
  {
    sucesso, falha := 0, 0;
    var toSend := users;
    ghost var done: set<UserId> := {};
    while toSend != {}
      invariant toSend !! done && toSend + done == users
      invariant sucesso == |Reached(done, delivered)|
      invariant falha == |Missed(done, delivered)|
      decreases |toSend|
    {
      HasMember(toSend);
      var u :| u in toSend;
      SentOneMore(done, u, delivered);
      if delivered(u) {
        sucesso := sucesso + 1;
      } else {
        falha := falha + 1;
      }
      toSend := toSend - {u};
      done := done + {u};
    }
    assert done == users;
  }

  /** A non-empty set of users has a next user to send to. */
  lemma HasMember(s: set<UserId>)
    requires s != {}
    ensures exists u :: u in s
  {
    if forall u :: u !in s {
      assert false;
    }
  }

  /** Moving one user from the remaining set to the done set adds it to exactly one tally. */
  lemma SentOneMore(done: set<UserId>, uid: UserId, delivered: UserId -> bool)
    requires uid !in done
    ensures Reached(done + {uid}, delivered) == Reached(done, delivered) + (if delivered(uid) then {uid} else {})
    ensures Missed(done + {uid}, delivered) == Missed(done, delivered) + (if delivered(uid) then {} else {uid})
    ensures uid !in Reached(done, delivered) && uid !in Missed(done, delivered)
  {
  }

  /** `/deletarvideo <video>`: collect the keys stored with the video, then delete them one by one. */
  method DeletarVideo(bot: BotData, ud: UserData, caller: UserId, admins: set<UserId>, args: seq<string>) returns (reply: DeleteReply)
    modifies bot
    ensures (Snapshot(bot, ud), reply) == DeleteVideo(old(Snapshot(bot, ud)), caller, admins, args)
  {
    if caller !in admins {
      return DeleteIgnored;
    }
    if args == [] {
      return DeleteUsage;
    }
    var videoLink := args[0];
    var keysToDelete := KeysFor(bot.videoDb, videoLink);
    if keysToDelete == {} {
      return DeleteNotFound;
    }
    var remaining := keysToDelete;
    while remaining != {}
      invariant remaining <= keysToDelete
      invariant bot.videoDb == old(bot.videoDb) - (keysToDelete - remaining)
      invariant bot.linkQueue == old(bot.linkQueue) && bot.userIds == old(bot.userIds)
      decreases |remaining|
    {
      var key :| key in remaining;
      bot.videoDb := bot.videoDb - {key};
      remaining := remaining - {key};
    }
    assert keysToDelete - remaining == keysToDelete;
    reply := VideoDeleted(|keysToDelete|);
  }

  /** The first item of a batch stored under `key`, searched front to back. */
  method FindItem(items: seq<Submission>, key: string) returns (found: Option<nat>)
    ensures found == IndexOfKey(items, key)
  {
    found := None;
    var i := 0;
    while i < |items|
      invariant 0 <= i <= |items|
      invariant forall j :: 0 <= j < i ==> items[j].normalizedLink != key
    {
      if items[i].normalizedLink == key {
        found := Some(i);
        break;
      }
      i := i + 1;
    }
  }

  /** `/esgotado <link>` and `/bugado <link>`. */
  method HandleProblematicLink(bot: BotData, ud: UserData, caller: UserId, admins: set<UserId>, args: seq<string>,
                               kind: ProblemKind, delivered: UserId -> bool) returns (reply: ProblemReply)
    modifies ud
    ensures (Snapshot(bot, ud), reply) == MarkProblem(old(Snapshot(bot, ud)), caller, admins, args, kind, delivered)
  {
    if caller !in admins {
      return ProblemIgnored;
    }
    if args == [] {
      return ProblemUsage;
    }
    if ud.lastProcessedItems.None? {
      return ProblemNoBatch;
    }
    var key := Normalize(args[0]);
    var items := ud.lastProcessedItems.value;
    var found := FindItem(items, key);
    if found.None? {
      return ProblemNotFound;
    }
    var userToNotify := items[found.value].userId;
    if !delivered(userToNotify) {
      return ProblemNoticeFailed(userToNotify);
    }
    var rest := RemoveFirst(items, items[found.value]);
    ud.lastProcessedItems := Some(rest);
    ud.lastProcessedUserIds := Some(Targets(rest));
    reply := ProblemMarked(kind, userToNotify);
  }
}

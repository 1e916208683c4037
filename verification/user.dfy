/**
 * The user-facing handlers over the mutable `bot_data` and `user_data`, each proved to match
 * its step function in `Admission`.
 */
module UserHandlers {
  import opened Links
  import opened Model
  import opened Admission
  import opened Store

  /** Add the sender to the registered users if not already there (`user_ids.add`). */
  method Register(bot: BotData, userId: UserId)
    modifies bot
    ensures bot.userIds == old(bot.userIds) + {userId}
    ensures bot.linkQueue == old(bot.linkQueue) && bot.videoDb == old(bot.videoDb)
  {
    if userId !in bot.userIds {
      bot.userIds := bot.userIds + {userId};
    }
  }

  /** `/start`. */
  method HandleStart(bot: BotData, ud: UserData, caller: UserId, admins: set<UserId>) returns (reply: StartReply)
    modifies bot, ud
    ensures (Snapshot(bot, ud), reply) == Start(old(Snapshot(bot, ud)), caller, admins)
  {
    ud.Clear();
    Register(bot, caller);
    reply := if caller in admins then AdminMenu else UserMenu;
  }

  /** A plain text message from a user who is not an admin. */
  method HandleUserMessage(bot: BotData, ud: UserData, caller: UserId, text: string,
                           resolve: string -> string) returns (reply: MessageReply)
    modifies bot
    ensures (Snapshot(bot, ud), reply) == Submit(old(Snapshot(bot, ud)), caller, text, resolve)
  {
    Register(bot, caller);
    var route := RouteMessage(text);
    if route.SupportRequest? {
      return ForwardedToSupport;
    }
    if route.SupportWithLink? {
      return ForwardedWithLink(route.link);
    }
    var resolvedLink := resolve(route.link);
    var kind := Classify(resolvedLink);
    if kind == VideoLink {
      return VideoLinkRejected;
    }
    if kind == UnrecognisedLink {
      return NotAProduct;
    }
    var normalizedLink := Normalize(resolvedLink);
    if normalizedLink in bot.videoDb {
      return AlreadyHasVideo(bot.videoDb[normalizedLink]);
    }
    bot.linkQueue := bot.linkQueue + [Submission(caller, resolvedLink, normalizedLink)];
    var novaQuantidade := |bot.linkQueue|;
    reply := Queued(novaQuantidade > 0 && novaQuantidade % ALERT_EVERY == 0);
  }
}

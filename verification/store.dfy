/**
 * The two dictionaries the handlers mutate in place: `bot_data`, shared by every update,
 * and the `user_data` of the user whose update is being handled.
 */
module Store {
  import opened Wrappers
  import opened Model

  /** `context.bot_data`. An absent `link_queue` key is the empty queue. */
  class BotData {
    var linkQueue: seq<Submission>
    var videoDb: map<string, string>
    var userIds: set<UserId>

    /** Start-up: the video store and the users are loaded from disk; no queue exists yet. */
    constructor (loadedVideos: map<string, string>, loadedUsers: set<UserId>)
      ensures linkQueue == [] && videoDb == loadedVideos && userIds == loadedUsers
    {
      linkQueue := [];
      videoDb := loadedVideos;
      userIds := loadedUsers;
    }
  }

  /** `context.user_data`: one field per key the handlers use, `None` while the key is absent. */
  class UserData {
    var state: Option<string>
    var manualLinksOriginal: Option<seq<string>>
    var manualLinksConverted: Option<seq<string>>
    var lastProcessedItems: Option<seq<Submission>>
    var lastProcessedUserIds: Option<seq<UserId>>

    constructor ()
      ensures View() == EmptySession
    {
      state, manualLinksOriginal, manualLinksConverted := None, None, None;
      lastProcessedItems, lastProcessedUserIds := None, None;
    }

    /** The dictionary as a value. */
    function View(): Session
      reads this
    {
      Session(state, manualLinksOriginal, manualLinksConverted, lastProcessedItems, lastProcessedUserIds)
    }

    /** `user_data.clear()`. */
    method Clear()
      modifies this
      ensures View() == EmptySession
    {
      state, manualLinksOriginal, manualLinksConverted := None, None, None;
      lastProcessedItems, lastProcessedUserIds := None, None;
    }
  }

  /** What a handler sees: the shared data and the caller's session. */
  function Snapshot(bot: BotData, ud: UserData): World
    reads bot, ud
  {
    World(bot.linkQueue, bot.videoDb, bot.userIds, ud.View())
  }
}

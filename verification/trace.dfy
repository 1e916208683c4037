/**
 * The whole bot over a sequence of updates from any users, in any interleaving: `bot_data`
 * plus every user's `user_data`. Each update is routed as `bot.py` registers the handlers
 * and applied to the sender's view of the state. The session invariant holds in every state
 * reachable from start-up.
 */
module Trace {
  import opened Wrappers
  import opened Model
  import opened Lifecycle
  import opened Admission

  /** The `bot_data` dictionary and the `user_data` of every user who has one. */
  datatype Bot = Bot(
    linkQueue: seq<Submission>,
    videoDb: map<string, string>,
    userIds: set<UserId>,
    sessions: map<UserId, Session>)

  datatype Command =
    | CutCommand(text: string)
    | PendingCommand
    | ManualCommand
    | AddCommand(addArgs: seq<string>)
    | VideoCommand(videoArgs: seq<string>)
    | CancelCommand
    | BroadcastCommand(message: string, hasPhoto: bool)
    | DeleteCommand(deleteArgs: seq<string>)
    | ProblemCommand(problemArgs: seq<string>, kind: ProblemKind)
    | StartCommand
    | TextMessage(messageText: string)

  datatype Update = Update(sender: UserId, command: Command)

  /** What the model takes from outside: the admin list and the network collaborators. */
  datatype Env = Env(
    admins: set<UserId>,
    resolve: string -> string,
    convert: string -> string,
    delivered: UserId -> bool)

  /** Start-up: the stores are loaded from disk, nothing is queued and nobody has a session. */
  function Initial(loadedVideos: map<string, string>, loadedUsers: set<UserId>): Bot {
    Bot([], loadedVideos, loadedUsers, map[])
  }

  function SessionOf(b: Bot, user: UserId): Session {
    if user in b.sessions then b.sessions[user] else EmptySession
  }

  /** The state as the handler of an update from `user` sees it. */
  function ViewFor(b: Bot, user: UserId): World {
    World(b.linkQueue, b.videoDb, b.userIds, SessionOf(b, user))
  }

  /** Write a handler's result back: shared data for everyone, the session for the sender only. */
  function Commit(b: Bot, user: UserId, w: World): Bot {
    Bot(w.linkQueue, w.videoDb, w.userIds, b.sessions[user := w.session])
  }

  /**
   * The step function of the handler an update reaches. Admin commands from anyone else change
   * nothing (each step ignores a caller outside `admins`); a plain text from an admin goes to
   * the support reply handler, which touches none of this state. Only `/video` and
   * `/deletarvideo` write the video store, only a cut, a cancel and a user's message move the
   * queue, and only `/start` and a user's message register anyone.
   */
  function Dispatch(w: World, u: Update, env: Env): (r: World)
    ensures u.sender !in env.admins && !u.command.StartCommand? && !u.command.TextMessage? ==> r == w
    ensures u.sender in env.admins && u.command.TextMessage? ==> r == w
    ensures r.videoDb != w.videoDb ==> u.command.VideoCommand? || u.command.DeleteCommand?
    ensures r.linkQueue != w.linkQueue ==> u.command.CutCommand? || u.command.CancelCommand? || u.command.TextMessage?
    ensures r.userIds != w.userIds ==> u.command.StartCommand? || u.command.TextMessage?
  {
    match u.command
    case CutCommand(text) => Cut(w, u.sender, env.admins, text, env.convert).0
    case PendingCommand => w
    case ManualCommand => OpenManual(w, u.sender, env.admins).0
    case AddCommand(args) => AddLink(w, u.sender, env.admins, args, env.resolve, env.convert).0
    case VideoCommand(args) => Finalize(w, u.sender, env.admins, args, env.convert, env.delivered).0
    case CancelCommand => Cancel(w, u.sender, env.admins).0
    case BroadcastCommand(_, _) => w
    case DeleteCommand(args) => DeleteVideo(w, u.sender, env.admins, args).0
    case ProblemCommand(args, kind) => MarkProblem(w, u.sender, env.admins, args, kind, env.delivered).0
    case StartCommand => Start(w, u.sender, env.admins).0
    case TextMessage(text) => if u.sender in env.admins then w else Submit(w, u.sender, text, env.resolve).0
  }

  function Step(b: Bot, u: Update, env: Env): Bot {
    Commit(b, u.sender, Dispatch(ViewFor(b, u.sender), u, env))
  }

  function Run(b: Bot, updates: seq<Update>, env: Env): Bot
    decreases |updates|
  {
    if updates == [] then b else Run(Step(b, updates[0], env), updates[1..], env)
  }

  /** Every session has a shape the handlers produce, and every record keeps its own key. */
  predicate BotValid(b: Bot) {
    && AllWellFormed(b.linkQueue)
    && forall user :: user in b.sessions ==> SessionValid(b.sessions[user]) && AllWellFormed(CutBatch(b.sessions[user]))
  }

  lemma InitialIsValid(loadedVideos: map<string, string>, loadedUsers: set<UserId>)
    ensures BotValid(Initial(loadedVideos, loadedUsers))
  {
  }

  /** Each handler keeps the sender's view valid. */
  lemma DispatchKeepsValid(w: World, u: Update, env: Env)
    requires WorldValid(w)
    ensures WorldValid(Dispatch(w, u, env))
  {
  }

  lemma StepKeepsValid(b: Bot, u: Update, env: Env)
    requires BotValid(b)
    ensures BotValid(Step(b, u, env))
  {
    var w := ViewFor(b, u.sender);
    assert WorldValid(w);
    DispatchKeepsValid(w, u, env);
  }

  /** The invariant holds after any sequence of updates, from any users, in any order. */
  lemma {:induction false} RunKeepsValid(b: Bot, updates: seq<Update>, env: Env)
    requires BotValid(b)
    ensures BotValid(Run(b, updates, env))
    decreases |updates|
  {
    if updates != [] {
      StepKeepsValid(b, updates[0], env);
      RunKeepsValid(Step(b, updates[0], env), updates[1..], env);
    }
  }

  /** In every reachable state, no manual batch holds more than six links, all converted. */
  lemma ManualBatchStaysBounded(loadedVideos: map<string, string>, loadedUsers: set<UserId>,
                                updates: seq<Update>, env: Env, user: UserId)
    ensures var s := SessionOf(Run(Initial(loadedVideos, loadedUsers), updates, env), user);
      && (s.manualLinksOriginal.Some? ==> |s.manualLinksOriginal.value| <= MANUAL_BATCH_LIMIT)
      && (s.manualLinksConverted.Some? ==> |s.manualLinksConverted.value| <= MANUAL_BATCH_LIMIT)
      && (s.lastProcessedItems.Some? ==> s.lastProcessedUserIds == Some(Targets(s.lastProcessedItems.value)))
  {
    InitialIsValid(loadedVideos, loadedUsers);
    RunKeepsValid(Initial(loadedVideos, loadedUsers), updates, env);
  }
}

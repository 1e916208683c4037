/**
 * The data the handlers share: the queued submissions, the video store, the registered users
 * and the per-user session dictionary (`context.user_data`), kept as its own five keys.
 */
module Model {
  import opened Wrappers
  import opened Text
  import opened Links

  type UserId = int

  /** A queued record `{'user_id', 'original_link', 'normalized_link'}`. */
  datatype Submission = Submission(userId: UserId, originalLink: string, normalizedLink: string)

  /** The one value the session key `state` ever takes. */
  const AWAITING_MANUAL_LINKS: string := "awaiting_manual_links"

  /** A manual batch holds at most this many links. */
  const MANUAL_BATCH_LIMIT: nat := 6

  /** The admins are alerted whenever the queue length reaches a multiple of this. */
  const ALERT_EVERY: nat := 6

  /**
   * `context.user_data` of one user. Each field is one dictionary key, `None` when the key is
   * absent: `state`, `manual_links_original`, `manual_links_converted`,
   * `last_processed_items` and `last_processed_user_ids`.
   */
  datatype Session = Session(
    state: Option<string>,
    manualLinksOriginal: Option<seq<string>>,
    manualLinksConverted: Option<seq<string>>,
    lastProcessedItems: Option<seq<Submission>>,
    lastProcessedUserIds: Option<seq<UserId>>)

  /** `user_data` after `clear()`. */
  const EmptySession: Session := Session(None, None, None, None, None)

  /**
   * What one handler invocation can see and change: `bot_data['link_queue']` (an absent key
   * reads as the empty list everywhere), `bot_data['video_db']`, `bot_data['user_ids']`, and
   * the calling user's session.
   */
  datatype World = World(
    linkQueue: seq<Submission>,
    videoDb: map<string, string>,
    userIds: set<UserId>,
    session: Session)

  /** `"Erro" in link`: how every caller recognises a conversion failure. */
  predicate IsConversionError(link: string) {
    Contains(link, "Erro")
  }

  /** A queued record keeps the key of its own link. */
  predicate WellFormed(x: Submission) {
    x.normalizedLink == Normalize(x.originalLink)
  }

  predicate AllWellFormed(items: seq<Submission>) {
    forall x :: x in items ==> WellFormed(x)
  }

  /** The items of the cut batch held in a session, none when there is none. */
  function CutBatch(s: Session): seq<Submission> {
    s.lastProcessedItems.GetOr([])
  }

  /**
   * Every submission the system still owes an answer: the queue plus the cut batch of the
   * session. Cut and cancel should move submissions between the two, never lose them.
   */
  function Held(w: World): multiset<Submission> {
    multiset(w.linkQueue) + multiset(CutBatch(w.session))
  }

  predicate NoDuplicates(s: seq<UserId>) {
    forall i, j :: 0 <= i < j < |s| ==> s[i] != s[j]
  }

  /** `list(set(xs))`, in first-occurrence order. */
  function Distinct(xs: seq<UserId>): (r: seq<UserId>)
    ensures forall x :: x in r <==> x in xs
    ensures NoDuplicates(r)
    ensures |r| <= |xs|
  {
    if xs == [] then []
    else
      var d := Distinct(xs[..|xs| - 1]);
      if xs[|xs| - 1] in d then d else d + [xs[|xs| - 1]]
  }

  function UserIdsOf(items: seq<Submission>): seq<UserId> {
    seq(|items|, i requires 0 <= i < |items| => items[i].userId)
  }

  /** The users to notify about a batch: each submitter of one of its items, once. */
  function Targets(items: seq<Submission>): (r: seq<UserId>)
    ensures forall u :: u in r <==> exists i :: 0 <= i < |items| && items[i].userId == u
    ensures NoDuplicates(r)
  {
    var ids := UserIdsOf(items);
    assert forall u :: u in ids <==> exists i :: 0 <= i < |items| && items[i].userId == u by {
      forall u | u in ids ensures exists i :: 0 <= i < |items| && items[i].userId == u {
        var i :| 0 <= i < |ids| && ids[i] == u;
        assert items[i].userId == u;
      }
      forall i | 0 <= i < |items| ensures items[i].userId in ids {
        assert ids[i] == items[i].userId;
      }
    }
    Distinct(ids)
  }

  /** The original links of a batch, in order: what is sent for conversion. */
  function OriginalLinks(items: seq<Submission>): seq<string> {
    seq(|items|, i requires 0 <= i < |items| => items[i].originalLink)
  }

  /** `convert_shopee_links`: one result per link, in order. */
  function ConvertAll(convert: string -> string, links: seq<string>): seq<string> {
    seq(|links|, i requires 0 <= i < |links| => convert(links[i]))
  }

  /** The video keys of a cut batch. */
  function ItemKeys(items: seq<Submission>): seq<string> {
    seq(|items|, i requires 0 <= i < |items| => items[i].normalizedLink)
  }

  /** The video keys of a manual batch: each link up to its `?`. */
  function ManualKeys(links: seq<string>): seq<string> {
    seq(|links|, i requires 0 <= i < |links| => Normalize(links[i]))
  }

  /**
   * The index Python cuts at for `s[:k]` and `s[k:]` on a sequence of length `len`: a
   * negative `k` counts from the end; both are clamped to the sequence.
   */
  function SliceIndex(len: nat, k: int): (e: nat)
    ensures e <= len
  {
    if k < 0 then (if len + k < 0 then 0 else len + k)
    else if k <= len then k
    else len
  }

  /** `video_db[key] = video` for every key, in order. */
  function Associate(db: map<string, string>, keys: seq<string>, video: string): (r: map<string, string>)
    ensures forall k :: k in keys ==> k in r && r[k] == video
    ensures forall k :: k !in keys ==> (k in r <==> k in db) && (k in db ==> r[k] == db[k])
  {
    if keys == [] then db
    else Associate(db, keys[..|keys| - 1], video)[keys[|keys| - 1] := video]
  }

  /** The keys stored with `video`. */
  function KeysFor(db: map<string, string>, video: string): set<string> {
    set k | k in db && db[k] == video
  }

  /** The store with every entry for `video` removed. */
  function WithoutVideo(db: map<string, string>, video: string): (r: map<string, string>)
    ensures r.Keys == db.Keys - KeysFor(db, video)
    ensures forall k :: k in r ==> r[k] == db[k] && r[k] != video
  {
    db - KeysFor(db, video)
  }

  /** How many of the sends to `targets` go through. */
  function CountDelivered(targets: seq<UserId>, delivered: UserId -> bool): (n: nat)
    ensures n <= |targets|
  {
    if targets == [] then 0
    else CountDelivered(targets[..|targets| - 1], delivered) + (if delivered(targets[|targets| - 1]) then 1 else 0)
  }

  /** The position of the first item of a batch stored under `key`. */
  function IndexOfKey(items: seq<Submission>, key: string): (r: Option<nat>)
    ensures r.Some? ==> r.value < |items| && items[r.value].normalizedLink == key
    ensures r.Some? ==> forall j :: 0 <= j < r.value ==> items[j].normalizedLink != key
    ensures r.None? ==> forall j :: 0 <= j < |items| ==> items[j].normalizedLink != key
  {
    if items == [] then None
    else if items[0].normalizedLink == key then Some(0)
    else match IndexOfKey(items[1..], key)
      case None => None
      case Some(i) => Some(i + 1)
  }

  /** `list.remove(x)`: the sequence without the first element equal to `x`. */
  function RemoveFirst(items: seq<Submission>, x: Submission): (r: seq<Submission>)
    ensures x in items ==> |r| == |items| - 1 && multiset(r) + multiset{x} == multiset(items)
    ensures x !in items ==> r == items
  {
    if items == [] then []
    else
      assert items == [items[0]] + items[1..];
      if items[0] == x then items[1..]
      else [items[0]] + RemoveFirst(items[1..], x)
  }

  /** Removing by value the first item stored under a key removes exactly that position. */
  lemma {:induction false} RemoveFirstAt(items: seq<Submission>, i: nat)
    requires i < |items|
    requires forall j :: 0 <= j < i ==> items[j] != items[i]
    ensures RemoveFirst(items, items[i]) == WithoutItem(items, i)
  {
    if i > 0 {
      var tail := items[1..];
      assert tail[i - 1] == items[i];
      RemoveFirstAt(tail, i - 1);
      assert [items[0]] + (tail[..i - 1] + tail[i..]) == items[..i] + items[i + 1..];
    }
  }

  /** The batch without the item at position `i`: one fewer, the rest in order, nothing else lost. */
  function WithoutItem(items: seq<Submission>, i: nat): (r: seq<Submission>)
    requires i < |items|
    ensures |r| == |items| - 1
    ensures multiset(r) + multiset{items[i]} == multiset(items)
    ensures forall x :: x in r ==> x in items
  {
    assert items == items[..i] + [items[i]] + items[i + 1..];
    items[..i] + items[i + 1..]
  }

  /**
   * The session shapes the handlers can produce: manual mode holds two lists of equal length,
   * at most six, of successful conversions; a cut batch always comes with its targets.
   */
  predicate SessionValid(s: Session) {
    && (s.state.Some? ==> s.state.value == AWAITING_MANUAL_LINKS)
    && (s.state.Some? <==> s.manualLinksOriginal.Some?)
    && (s.state.Some? <==> s.manualLinksConverted.Some?)
    && (s.state.Some? ==>
          && |s.manualLinksOriginal.value| == |s.manualLinksConverted.value| <= MANUAL_BATCH_LIMIT
          && forall i :: 0 <= i < |s.manualLinksConverted.value| ==> !IsConversionError(s.manualLinksConverted.value[i]))
    && (s.lastProcessedItems.Some? <==> s.lastProcessedUserIds.Some?)
    && (s.lastProcessedItems.Some? ==> s.lastProcessedUserIds.value == Targets(s.lastProcessedItems.value))
  }

  /** The reachable worlds: a valid session and well-formed records everywhere. */
  predicate WorldValid(w: World) {
    && SessionValid(w.session)
    && AllWellFormed(w.linkQueue)
    && AllWellFormed(CutBatch(w.session))
  }
}

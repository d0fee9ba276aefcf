/**
 * The quota policy of the group: `check_message_limits` (adminBot/main.py)
 * as a decision over the `users`, `levels` and `messages` tables.
 */
module Quota {
  import opened Wrappers
  import opened Tables

  /** The trailing window, one hour. */
  const WindowSeconds := 3600

  /** Limit meaning "this category is blocked". */
  const Blocked := 0

  /** Limit meaning "no limit". */
  const Unlimited := -1

  /**
   * The limit of a `levels` row for a content type, as `dict(zip(limit_types,
   * row))` gives it; `video_chat_started` has no column.
   */
  function LimitFor(row: LevelRow, kind: ContentType): (r: Option<int>)
    ensures r.None? <==> kind == VideoChatStarted
  {
    match kind
    case TextMsg => Some(row.textLimit)
    case Animation => Some(row.gifLimit)
    case Photo => Some(row.photoLimit)
    case Video => Some(row.videoLimit)
    case VideoNote => Some(row.videoNoteLimit)
    case Voice => Some(row.voiceLimit)
    case VideoChatStarted => None
  }

  /** The row matches `user_id = user AND message_type = kind AND timestamp > now - 1h`. */
  predicate InWindow(e: MessageEvent, user: UserId, kind: ContentType, now: int) {
    e.user == user && e.kind == kind && e.time > now - WindowSeconds
  }

  /** The `SELECT COUNT(*)` of the rows `InWindow`. */
  function CountRecent(log: seq<MessageEvent>, user: UserId, kind: ContentType, now: int): (n: nat)
    ensures n <= |log|
  {
    if log == [] then 0
    else CountRecent(log[..|log| - 1], user, kind, now) + (if InWindow(log[|log| - 1], user, kind, now) then 1 else 0)
  }

  /** The positions of the log that match, an independent definition of the count. */
  ghost function WindowIndices(log: seq<MessageEvent>, user: UserId, kind: ContentType, now: int): set<int> {
    set i | 0 <= i < |log| && InWindow(log[i], user, kind, now)
  }

  /** `check_message_limits(user, kind)` at time `now`, with the database reachable. */
  function CheckMessageLimits(users: map<UserId, User>, levels: seq<LevelRow>, log: seq<MessageEvent>,
                              user: UserId, kind: ContentType, now: int): (ok: bool)
    ensures ok ==> user in users && kind != VideoChatStarted && FindLevel(levels, users[user].accessLevel).Some?
    ensures ok ==> LimitFor(FindLevel(levels, users[user].accessLevel).value, kind) != Some(Blocked)
  {
    if user !in users then false
    else match FindLevel(levels, users[user].accessLevel)
      case None => false
      case Some(row) =>
        match LimitFor(row, kind)
        case None => false
        case Some(limit) =>
          if limit == Blocked then false
          else if limit == Unlimited then true
          else CountRecent(log, user, kind, now) < limit
  }

  /** The count is the number of matching positions. */
  lemma {:induction false} CountIsWindowSize(log: seq<MessageEvent>, user: UserId, kind: ContentType, now: int)
    ensures CountRecent(log, user, kind, now) == |WindowIndices(log, user, kind, now)|
  {
    if log != [] {
      var front := log[..|log| - 1];
      CountIsWindowSize(front, user, kind, now);
      WindowIndicesSnoc(log, user, kind, now);
    }
  }

  /** The matching positions of a log are those of its front, plus the last one if it matches. */
  lemma WindowIndicesSnoc(log: seq<MessageEvent>, user: UserId, kind: ContentType, now: int)
    requires log != []
    ensures WindowIndices(log, user, kind, now)
         == WindowIndices(log[..|log| - 1], user, kind, now)
            + (if InWindow(log[|log| - 1], user, kind, now) then {|log| - 1} else {})
  {
    var front := log[..|log| - 1];
    forall i | 0 <= i < |front|
      ensures i in WindowIndices(log, user, kind, now) <==> i in WindowIndices(front, user, kind, now)
    {
      assert front[i] == log[i];
    }
  }

  /** Counting a log made of two parts adds the counts of the parts. */
  lemma {:induction false} CountConcat(a: seq<MessageEvent>, b: seq<MessageEvent>, user: UserId, kind: ContentType, now: int)
    ensures CountRecent(a + b, user, kind, now) == CountRecent(a, user, kind, now) + CountRecent(b, user, kind, now)
  {
    if b == [] {
      assert a + b == a;
    } else {
      var bf := b[..|b| - 1];
      assert (a + b)[..|a + b| - 1] == a + bf;
      assert (a + b)[|a + b| - 1] == b[|b| - 1];
      CountConcat(a, bf, user, kind, now);
    }
  }

  /** A later window never holds more entries than an earlier one. */
  lemma {:induction false} CountShrinksOverTime(log: seq<MessageEvent>, user: UserId, kind: ContentType, earlier: int, later: int)
    requires earlier <= later
    ensures CountRecent(log, user, kind, later) <= CountRecent(log, user, kind, earlier)
  {
    if log != [] {
      CountShrinksOverTime(log[..|log| - 1], user, kind, earlier, later);
    }
  }

  /**
   * Three denials come before any counting: an unregistered user, a level
   * without a `levels` row, and a content type without a limit column (so a
   * `video_chat_started` message is always refused).
   */
  lemma DeniedBeforeCounting(users: map<UserId, User>, levels: seq<LevelRow>, log: seq<MessageEvent>,
                             user: UserId, kind: ContentType, now: int)
    requires user !in users || FindLevel(levels, users[user].accessLevel).None? || kind == VideoChatStarted
    ensures !CheckMessageLimits(users, levels, log, user, kind, now)
  {
  }

  /** A limit of 0 always denies and a limit of -1 always allows, whatever the log holds. */
  lemma BlockedAndUnlimitedIgnoreLog(users: map<UserId, User>, levels: seq<LevelRow>, log: seq<MessageEvent>,
                                     user: UserId, kind: ContentType, now: int, row: LevelRow)
    requires user in users && FindLevel(levels, users[user].accessLevel) == Some(row)
    requires LimitFor(row, kind) == Some(Blocked) || LimitFor(row, kind) == Some(Unlimited)
    ensures CheckMessageLimits(users, levels, log, user, kind, now) == (LimitFor(row, kind) == Some(Unlimited))
    ensures CheckMessageLimits(users, levels, log, user, kind, now) == CheckMessageLimits(users, levels, [], user, kind, now)
  {
  }

  /**
   * Any other limit is a sliding-window cap: allowed exactly when fewer than
   * `limit` entries of this user and category are newer than one hour ago.
   */
  lemma SlidingWindowRule(users: map<UserId, User>, levels: seq<LevelRow>, log: seq<MessageEvent>,
                          user: UserId, kind: ContentType, now: int, row: LevelRow, limit: int)
    requires user in users && FindLevel(levels, users[user].accessLevel) == Some(row)
    requires LimitFor(row, kind) == Some(limit) && limit != Blocked && limit != Unlimited
    ensures CheckMessageLimits(users, levels, log, user, kind, now) == (|WindowIndices(log, user, kind, now)| < limit)
  {
    CountIsWindowSize(log, user, kind, now);
  }

  /**
   * An entry of another user, another category, or older than the window, can
   * be inserted anywhere in the log without changing any decision for
   * `user` and `kind` at `now`.
   */
  lemma UnrelatedEntryIgnored(users: map<UserId, User>, levels: seq<LevelRow>, a: seq<MessageEvent>, e: MessageEvent,
                              b: seq<MessageEvent>, user: UserId, kind: ContentType, now: int)
    requires e.user != user || e.kind != kind || e.time <= now - WindowSeconds
    ensures CheckMessageLimits(users, levels, a + [e] + b, user, kind, now) == CheckMessageLimits(users, levels, a + b, user, kind, now)
  {
    CountConcat(a + [e], b, user, kind, now);
    CountConcat(a, [e], user, kind, now);
    CountConcat(a, b, user, kind, now);
    assert CountRecent([e], user, kind, now) == 0 by {
      assert [e][..0] == [];
    }
  }

  /**
   * With a limit of 1, a message accepted at `t` and logged blocks the next
   * message of that category exactly until the hour has passed: one at
   * `t + d` is refused for `d < 3600` and accepted from `d == 3600` on.
   */
  lemma OnePerHour(users: map<UserId, User>, levels: seq<LevelRow>, log: seq<MessageEvent>,
                   user: UserId, kind: ContentType, t: int, d: int, row: LevelRow)
    requires user in users && FindLevel(levels, users[user].accessLevel) == Some(row)
    requires LimitFor(row, kind) == Some(1)
    requires CheckMessageLimits(users, levels, log, user, kind, t)
    requires d >= 0
    ensures CheckMessageLimits(users, levels, log + [MessageEvent(user, kind, t)], user, kind, t + d) == (d >= WindowSeconds)
  {
    var e := MessageEvent(user, kind, t);
    CountShrinksOverTime(log, user, kind, t, t + d);
    CountConcat(log, [e], user, kind, t + d);
    assert [e][..0] == [];
  }
}

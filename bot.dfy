/**
 * The bot's handlers (adminBot/main.py) as one object: the four tables, the
 * per-user conversation state of aiogram's FSM storage, and one method per
 * handler. Each method is one atomic step; `dbUp` says whether
 * `create_connection()` succeeds during it.
 */
module Bot {
  import opened Wrappers
  import opened Text
  import opened Validate
  import opened Tables
  import opened Payment
  import opened Quota

  /** The FSM states: `Registration.*`, `AdminPromote.*` and `Upgrade.txn_hash`. */
  datatype Step =
    | RegTwitter | RegTelegram | RegAge | RegCity | RegGender | RegPurpose
    | PromoteForward | PromoteLevel
    | UpgradeTxnHash

  /**
   * The FSM data dictionary. `update_data` adds keys and `clear` drops them
   * all; `set_state` alone keeps them, so data written in one flow is still
   * there in the next.
   */
  datatype Data = Data(
    twitter: Option<string>,
    telegram: Option<string>,
    age: Option<int>,
    city: Option<string>,
    gender: Option<string>,
    forwardId: Option<UserId>,
    newLevel: Option<int>,
    price: Option<int>)

  const NoData := Data(None, None, None, None, None, None, None, None)

  /** One user's FSM context: the current state (if any) and the data. */
  datatype Session = Session(step: Option<Step>, data: Data)

  /** What `state.clear()` leaves. */
  const Cleared := Session(None, NoData)

  /** An inline button: the level, its price and the callback payload. */
  datatype MenuItem = MenuItem(level: int, price: int, callback: string)

  function ItemFor(row: LevelRow, tag: string): MenuItem {
    MenuItem(row.level, row.price, CallbackData(tag, row.level))
  }

  /** The buttons of `upgrade_menu`: the levels above `current`, in table order. */
  function UpgradeOptions(levels: seq<LevelRow>, current: int): seq<MenuItem> {
    if levels == [] then []
    else
      var last := levels[|levels| - 1];
      UpgradeOptions(levels[..|levels| - 1], current) + (if last.level > current then [ItemFor(last, "upgrade")] else [])
  }

  /** The buttons are listed by strictly ascending level. */
  ghost predicate MenuAscending(items: seq<MenuItem>) {
    forall i, j :: 0 <= i < j < |items| ==> items[i].level < items[j].level
  }

  /** Every button of the upgrade menu is a level of the table above the caller's. */
  lemma {:induction false} UpgradeOptionsAbove(levels: seq<LevelRow>, current: int)
    ensures forall m :: m in UpgradeOptions(levels, current) ==>
      m.level > current && exists row :: row in levels && m == ItemFor(row, "upgrade")
  {
    if levels != [] {
      var front := levels[..|levels| - 1];
      UpgradeOptionsAbove(front, current);
      assert forall row :: row in front ==> row in levels;
    }
  }

  /** Every level of the table above the caller's has its button. */
  lemma {:induction false} UpgradeOptionsComplete(levels: seq<LevelRow>, current: int)
    ensures forall row :: row in levels && row.level > current ==> ItemFor(row, "upgrade") in UpgradeOptions(levels, current)
  {
    if levels != [] {
      var front := levels[..|levels| - 1];
      UpgradeOptionsComplete(front, current);
      assert forall row :: row in levels ==> row in front || row == levels[|levels| - 1];
    }
  }

  /** Over a table listed by ascending level, the buttons are ascending too. */
  lemma {:induction false} UpgradeOptionsAscending(levels: seq<LevelRow>, current: int)
    requires LevelsAscending(levels)
    ensures MenuAscending(UpgradeOptions(levels, current))
  {
    if levels != [] {
      var front := levels[..|levels| - 1];
      var last := levels[|levels| - 1];
      assert LevelsAscending(front);
      UpgradeOptionsAscending(front, current);
      UpgradeOptionsAbove(front, current);
      forall row | row in front ensures row.level < last.level {
        var i :| 0 <= i < |front| && front[i] == row;
        assert levels[i] == row;
      }
      var r := UpgradeOptions(levels, current);
      var rf := UpgradeOptions(front, current);
      assert r == rf + (if last.level > current then [ItemFor(last, "upgrade")] else []);
      forall i, j | 0 <= i < j < |r| ensures r[i].level < r[j].level {
        if j >= |rf| {
          assert last.level > current;
          assert r[j] == ItemFor(last, "upgrade");
          assert r[i] == rf[i] && rf[i] in rf;
          var row :| row in front && rf[i] == ItemFor(row, "upgrade");
          assert row.level < last.level;
          assert r[i].level == row.level;
        } else {
          assert r[i] == rf[i] && r[j] == rf[j];
        }
      }
    }
  }

  /** The buttons of `handle_forward_id`: every level, in table order. */
  function PromoteOptions(levels: seq<LevelRow>): (r: seq<MenuItem>)
    ensures |r| == |levels|
    ensures forall i :: 0 <= i < |r| ==> r[i] == ItemFor(levels[i], "promote")
  {
    if levels == [] then [] else PromoteOptions(levels[..|levels| - 1]) + [ItemFor(levels[|levels| - 1], "promote")]
  }

  /** `upgrade_menu`'s reply. */
  datatype UpgradeMenuReply = NotRegistered | Unavailable | Offer(items: seq<MenuItem>)

  /** What `receive_txn_hash` does with a submitted hash. */
  datatype Redemption = NoConnection | NotVerified | AlreadyUsed | Upgraded

  /** Every row of `users` passed the registration validators. */
  ghost predicate UserValid(u: User) {
    TwitterAccepted(u.twitter) && TelegramAccepted(u.telegram) && 10 < u.age < 100
  }

  /** Every collected field passed its validator. */
  ghost predicate DataValid(d: Data) {
    && (d.twitter.Some? ==> TwitterAccepted(d.twitter.value))
    && (d.telegram.Some? ==> TelegramAccepted(d.telegram.value))
    && (d.age.Some? ==> 10 < d.age.value < 100)
  }

  /** The fields the registration form has collected before the purpose question. */
  predicate FormComplete(d: Data) {
    d.twitter.Some? && d.telegram.Some? && d.age.Some? && d.city.Some? && d.gender.Some?
  }

  /** Each state holds the data its handler reads. */
  ghost predicate SessionValid(s: Session) {
    && DataValid(s.data)
    && match s.step
       case None => true
       case Some(RegTwitter) => true
       case Some(RegTelegram) => s.data.twitter.Some?
       case Some(RegAge) => s.data.twitter.Some? && s.data.telegram.Some?
       case Some(RegCity) => s.data.twitter.Some? && s.data.telegram.Some? && s.data.age.Some?
       case Some(RegGender) => s.data.twitter.Some? && s.data.telegram.Some? && s.data.age.Some? && s.data.city.Some?
       case Some(RegPurpose) => FormComplete(s.data)
       case Some(PromoteForward) => true
       case Some(PromoteLevel) => s.data.forwardId.Some?
       case Some(UpgradeTxnHash) => s.data.newLevel.Some? && s.data.price.Some?
  }

  /** The `users` row `process_purpose` inserts. */
  function NewUser(d: Data, purpose: string): User
    requires FormComplete(d)
  {
    User(d.twitter.value, d.telegram.value, d.age.value, d.city.value, d.gender.value, purpose, DefaultAccessLevel)
  }

  class BotState {
    /** `ADMINS_ID` from the configuration. */
    const admins: set<UserId>
    /** `WALLET_ADDRESS` from the configuration. */
    const wallet: string
    /** The `levels` table, static reference data, in `ORDER BY level` order. */
    const levels: seq<LevelRow>

    var users: map<UserId, User>
    var messages: seq<MessageEvent>
    var transactions: seq<Transaction>
    var sessions: map<UserId, Session>

    ghost predicate Valid()
      reads this
    {
      && LevelsAscending(levels)
      && (forall u :: u in users ==> UserValid(users[u]))
      && HashesUnique(transactions)
      && (forall u :: u in sessions ==> SessionValid(sessions[u]))
    }

    /** The FSM context of `user`; one never touched is the cleared one. */
    function SessionOf(user: UserId): Session
      reads this
    {
      if user in sessions then sessions[user] else Cleared
    }

    lemma SessionOfValid(user: UserId)
      requires Valid()
      ensures SessionValid(SessionOf(user))
    {
    }

    /** A fresh deployment: empty tables and no conversations. */
    constructor (admins: set<UserId>, wallet: string, levels: seq<LevelRow>)
      requires LevelsAscending(levels)
      ensures Valid()
      ensures this.admins == admins && this.wallet == wallet && this.levels == levels
      ensures users == map[] && messages == [] && transactions == [] && sessions == map[]
    {
      this.admins := admins;
      this.wallet := wallet;
      this.levels := levels;
      users := map[];
      messages := [];
      transactions := [];
      sessions := map[];
    }

    /** `get_user_access_level`: the stored level, `None` for no row or no connection. */
    function AccessLevel(user: UserId, dbUp: bool): (r: Option<int>)
      reads this
      ensures r.Some? <==> dbUp && user in users
      ensures r.Some? ==> r.value == users[user].accessLevel
    {
      if dbUp && user in users then Some(users[user].accessLevel) else None
    }

    /**
     * `message_handler`: a group message from `user` of content type `kind`
     * at time `now`. It is deleted unless the sender has a truthy level and
     * the quota allows it; an accepted message is logged once.
     */
    method MessageHandler(user: UserId, kind: ContentType, now: int, dbUp: bool) returns (accepted: bool)
      requires Valid()
      modifies this`messages
      ensures Valid()
      ensures accepted == (dbUp && user in users && users[user].accessLevel != 0
                           && CheckMessageLimits(users, levels, old(messages), user, kind, now))
      ensures messages == if accepted then old(messages) + [MessageEvent(user, kind, now)] else old(messages)
    {
      var level := AccessLevel(user, dbUp);
      if level.None? || level.value == 0 {
        return false;
      }
      accepted := CheckMessageLimits(users, levels, messages, user, kind, now);
      if accepted {
        messages := messages + [MessageEvent(user, kind, now)];
      }
    }

    /** `command_start_handler`: anyone but an admin or a registered user starts the form. */
    method Start(user: UserId, dbUp: bool) returns (began: bool)
      requires Valid()
      modifies this`sessions
      ensures Valid()
      ensures began == (user !in admins && !(dbUp && user in users))
      ensures sessions == if began then old(sessions)[user := Session(Some(RegTwitter), old(SessionOf(user)).data)]
                          else old(sessions)
    {
      began := user !in admins && AccessLevel(user, dbUp).None?;
      if began {
        SessionOfValid(user);
        sessions := sessions[user := Session(Some(RegTwitter), SessionOf(user).data)];
      }
    }

    /** `process_twitter_id`: on a valid link, store the raw text and ask for the Telegram handle. */
    method ProcessTwitterId(user: UserId, text: string) returns (accepted: bool)
      requires Valid() && SessionOf(user).step == Some(RegTwitter)
      modifies this`sessions
      ensures Valid()
      ensures accepted == TwitterAccepted(text)
      ensures sessions == if accepted then old(sessions)[user := Session(Some(RegTelegram), old(SessionOf(user)).data.(twitter := Some(text)))]
                          else old(sessions)
    {
      accepted := TwitterAccepted(text);
      if accepted {
        SessionOfValid(user);
        sessions := sessions[user := Session(Some(RegTelegram), SessionOf(user).data.(twitter := Some(text)))];
      }
    }

    /** `process_telegram_id`: on a valid handle, store the raw text and ask for the age. */
    method ProcessTelegramId(user: UserId, text: string) returns (accepted: bool)
      requires Valid() && SessionOf(user).step == Some(RegTelegram)
      modifies this`sessions
      ensures Valid()
      ensures accepted == TelegramAccepted(text)
      ensures sessions == if accepted then old(sessions)[user := Session(Some(RegAge), old(SessionOf(user)).data.(telegram := Some(text)))]
                          else old(sessions)
    {
      accepted := TelegramAccepted(text);
      if accepted {
        SessionOfValid(user);
        sessions := sessions[user := Session(Some(RegAge), SessionOf(user).data.(telegram := Some(text)))];
      }
    }

    /** `process_age`: on an integer strictly between 10 and 100, store it and ask for the city. */
    method ProcessAge(user: UserId, text: string) returns (age: Option<int>)
      requires Valid() && SessionOf(user).step == Some(RegAge)
      modifies this`sessions
      ensures Valid()
      ensures age == AgeOf(text)
      ensures sessions == if age.Some? then old(sessions)[user := Session(Some(RegCity), old(SessionOf(user)).data.(age := age))]
                          else old(sessions)
    {
      age := AgeOf(text);
      if age.Some? {
        SessionOfValid(user);
        sessions := sessions[user := Session(Some(RegCity), SessionOf(user).data.(age := age))];
      }
    }

    /** `process_city`: any text is stored and the form moves on. */
    method ProcessCity(user: UserId, text: string)
      requires Valid() && SessionOf(user).step == Some(RegCity)
      modifies this`sessions
      ensures Valid()
      ensures sessions == old(sessions)[user := Session(Some(RegGender), old(SessionOf(user)).data.(city := Some(text)))]
    {
      SessionOfValid(user);
      sessions := sessions[user := Session(Some(RegGender), SessionOf(user).data.(city := Some(text)))];
    }

    /** `process_gender`: any text is stored and the form moves on. */
    method ProcessGender(user: UserId, text: string)
      requires Valid() && SessionOf(user).step == Some(RegGender)
      modifies this`sessions
      ensures Valid()
      ensures sessions == old(sessions)[user := Session(Some(RegPurpose), old(SessionOf(user)).data.(gender := Some(text)))]
    {
      SessionOfValid(user);
      sessions := sessions[user := Session(Some(RegPurpose), SessionOf(user).data.(gender := Some(text)))];
    }

    /**
     * `process_purpose`: the conversation is cleared and one `users` row is
     * inserted from the collected fields, at the default level; the INSERT
     * fails, and nothing is inserted, without a connection or when the id
     * already has a row.
     */
    method ProcessPurpose(user: UserId, text: string, dbUp: bool) returns (inserted: bool)
      requires Valid() && SessionOf(user).step == Some(RegPurpose)
      modifies this`sessions, this`users
      ensures Valid()
      ensures sessions == old(sessions) - {user}
      ensures inserted == (dbUp && user !in old(users))
      ensures FormComplete(old(SessionOf(user)).data)
      ensures users == if inserted then old(users)[user := NewUser(old(SessionOf(user)).data, text)] else old(users)
      ensures inserted ==> users[user].accessLevel == DefaultAccessLevel
    {
      SessionOfValid(user);
      var d := SessionOf(user).data;
      sessions := sessions - {user};
      inserted := dbUp && user !in users;
      if inserted {
        users := users[user := NewUser(d, text)];
      }
    }

    /** The admin's button that starts a promotion (`show_profile`, first of that name). */
    method BeginPromote(user: UserId)
      requires Valid() && user in admins
      modifies this`sessions
      ensures Valid()
      ensures sessions == old(sessions)[user := Session(Some(PromoteForward), old(SessionOf(user)).data)]
    {
      SessionOfValid(user);
      sessions := sessions[user := Session(Some(PromoteForward), SessionOf(user).data)];
    }

    /**
     * `handle_forward_id`: the target is the original sender of the forwarded
     * message (`None` when privacy settings hide it); every level is offered.
     */
    method HandleForwardId(user: UserId, forwardFrom: Option<UserId>, dbUp: bool) returns (items: seq<MenuItem>)
      requires Valid() && SessionOf(user).step == Some(PromoteForward)
      modifies this`sessions
      ensures Valid()
      ensures forwardFrom.None? ==> items == [] && sessions == old(sessions) - {user}
      ensures forwardFrom.Some? && dbUp && levels != [] ==>
        items == PromoteOptions(levels)
        && sessions == old(sessions)[user := Session(Some(PromoteLevel), old(SessionOf(user)).data.(forwardId := forwardFrom))]
      ensures forwardFrom.Some? && !(dbUp && levels != []) ==>
        items == []
        && sessions == old(sessions)[user := Session(Some(PromoteForward), old(SessionOf(user)).data.(forwardId := forwardFrom))]
    {
      if forwardFrom.None? {
        sessions := sessions - {user};
        return [];
      }
      SessionOfValid(user);
      var d := SessionOf(user).data.(forwardId := forwardFrom);
      sessions := sessions[user := Session(Some(PromoteForward), d)];
      if !dbUp || levels == [] {
        return [];
      }
      items := [];
      for i := 0 to |levels|
        invariant items == PromoteOptions(levels[..i])
      {
        assert levels[..i + 1][..i] == levels[..i];
        items := items + [ItemFor(levels[i], "promote")];
      }
      assert levels[..|levels|] == levels;
      sessions := sessions[user := Session(Some(PromoteLevel), d)];
    }

    /**
     * `handle_level`: the admin tapped `promote_<n>`. The conversation is
     * cleared and the target's level is set to `n` directly; no
     * `transactions` row is written. A payload whose level does not parse
     * raises before anything changes.
     */
    method HandleLevel(user: UserId, callback: string, dbUp: bool) returns (announced: bool)
      requires Valid() && StartsWith(callback, "promote_")
      modifies this`sessions, this`users
      ensures Valid()
      ensures transactions == old(transactions)
      ensures CallbackLevel(callback).None? ==> sessions == old(sessions) && users == old(users)
      ensures CallbackLevel(callback).Some? ==> sessions == old(sessions) - {user}
      ensures announced == (CallbackLevel(callback).Some? && dbUp && old(SessionOf(user)).data.forwardId.Some?)
      ensures users == if announced
                       then SetAccessLevel(old(users), old(SessionOf(user)).data.forwardId.value, CallbackLevel(callback).value)
                       else old(users)
    {
      var level := CallbackLevel(callback);
      if level.None? {
        return false;
      }
      var target := SessionOf(user).data.forwardId;
      sessions := sessions - {user};
      announced := dbUp && target.Some?;
      if announced {
        users := SetAccessLevel(users, target.value, level.value);
      }
    }

    /**
     * `upgrade_menu`: nothing for a caller without a level, then the levels
     * strictly above the caller's, ascending.
     */
    method UpgradeMenu(user: UserId, dbUp: bool) returns (reply: UpgradeMenuReply)
      requires Valid()
      ensures reply.NotRegistered? <==> !(dbUp && user in users)
      ensures reply.Unavailable? <==> dbUp && user in users && levels == []
      ensures reply.Offer? ==> reply.items == UpgradeOptions(levels, users[user].accessLevel)
    {
      var current := AccessLevel(user, dbUp);
      if current.None? {
        return NotRegistered;
      }
      if levels == [] {
        return Unavailable;
      }
      var items := [];
      for i := 0 to |levels|
        invariant items == UpgradeOptions(levels[..i], current.value)
      {
        assert levels[..i + 1][..i] == levels[..i];
        if levels[i].level > current.value {
          items := items + [ItemFor(levels[i], "upgrade")];
        }
      }
      assert levels[..|levels|] == levels;
      reply := Offer(items);
    }

    /**
     * `process_upgrade`: the caller tapped `upgrade_<n>`. When level `n` has a
     * row, its price is quoted and the conversation waits for the payment's
     * hash, remembering the level and the price.
     */
    method ProcessUpgrade(user: UserId, callback: string, dbUp: bool) returns (quoted: Option<int>)
      requires Valid() && StartsWith(callback, "upgrade_")
      modifies this`sessions
      ensures Valid()
      ensures quoted.Some? <==> CallbackLevel(callback).Some? && dbUp && FindLevel(levels, CallbackLevel(callback).value).Some?
      ensures quoted.Some? ==> quoted.value == FindLevel(levels, CallbackLevel(callback).value).value.price
      ensures sessions == if quoted.Some?
                          then old(sessions)[user := Session(Some(UpgradeTxnHash),
                                 old(SessionOf(user)).data.(newLevel := CallbackLevel(callback), price := quoted))]
                          else old(sessions)
    {
      var level := CallbackLevel(callback);
      if level.None? || !dbUp {
        return None;
      }
      var row := FindLevel(levels, level.value);
      if row.None? {
        return None;
      }
      quoted := Some(row.value.price);
      SessionOfValid(user);
      var d := SessionOf(user).data.(newLevel := level, price := quoted);
      assert SessionValid(Session(Some(UpgradeTxnHash), d));
      sessions := sessions[user := Session(Some(UpgradeTxnHash), d)];
    }

    /**
     * `receive_txn_hash`: `info` is the explorer's answer for `hash`. A
     * verified hash that no `transactions` row holds raises the caller to
     * the chosen level and is recorded; a used hash changes no table. The
     * conversation is cleared whenever a connection was obtained.
     */
    method ReceiveTxnHash(user: UserId, hash: string, info: Option<Transfer>, dbUp: bool) returns (outcome: Redemption)
      requires Valid() && SessionOf(user).step == Some(UpgradeTxnHash)
      modifies this`sessions, this`users, this`transactions
      ensures Valid()
      ensures old(SessionOf(user)).data.newLevel.Some? && old(SessionOf(user)).data.price.Some?
      ensures outcome == if !dbUp then NoConnection
                         else if !VerifyTransaction(info, wallet, old(SessionOf(user)).data.price.value) then NotVerified
                         else if HashUsed(old(transactions), hash) then AlreadyUsed
                         else Upgraded
      ensures sessions == if dbUp then old(sessions) - {user} else old(sessions)
      ensures users == if outcome == Upgraded then SetAccessLevel(old(users), user, old(SessionOf(user)).data.newLevel.value)
                       else old(users)
      ensures transactions == if outcome == Upgraded
                              then old(transactions) + [Transaction(user, old(SessionOf(user)).data.newLevel.value, hash)]
                              else old(transactions)
      ensures HashUsed(old(transactions), hash) ==> users == old(users) && transactions == old(transactions)
      ensures HashUsed(transactions, hash) || outcome != Upgraded
    {
      if !dbUp {
        return NoConnection;
      }
      SessionOfValid(user);
      var d := SessionOf(user).data;
      if !VerifyTransaction(info, wallet, d.price.value) {
        outcome := NotVerified;
      } else if HashUsed(transactions, hash) {
        outcome := AlreadyUsed;
      } else {
        var record := Transaction(user, d.newLevel.value, hash);
        RecordFreshHash(transactions, record);
        users := SetAccessLevel(users, user, d.newLevel.value);
        transactions := transactions + [record];
        outcome := Upgraded;
      }
      sessions := sessions - {user};
    }
  }
}

/**
 * Conversations driven through the handlers of `Bot.BotState`, with what
 * they add up to: a whole registration, a payment redeemed twice and an
 * admin promotion.
 */
module Scenarios {
  import opened Wrappers
  import opened Text
  import opened Validate
  import opened Tables
  import opened Payment
  import opened Bot

  /** `/start`, a valid link and a valid handle bring the form to the age question. */
  method AnswerHandles(bot: BotState, user: UserId, twitter: string, telegram: string) returns (ghost d: Data)
    requires bot.Valid() && user !in bot.admins && user !in bot.users
    requires TwitterAccepted(twitter) && TelegramAccepted(telegram)
    modifies bot
    ensures bot.Valid()
    ensures d.twitter == Some(twitter) && d.telegram == Some(telegram)
    ensures bot.sessions == old(bot.sessions)[user := Session(Some(RegAge), d)]
    ensures bot.users == old(bot.users) && bot.messages == old(bot.messages) && bot.transactions == old(bot.transactions)
  {
    var began := bot.Start(user, true);
    ghost var d0 := bot.SessionOf(user).data;
    var ok := bot.ProcessTwitterId(user, twitter);
    ok := bot.ProcessTelegramId(user, telegram);
    d := d0.(twitter := Some(twitter), telegram := Some(telegram));
  }

  /** Typing a valid age as its decimal text brings the form to the city question. */
  method AnswerAge(bot: BotState, user: UserId, age: int, ghost d: Data) returns (ghost d': Data)
    requires bot.Valid() && bot.SessionOf(user) == Session(Some(RegAge), d) && 10 < age < 100
    modifies bot
    ensures bot.Valid()
    ensures d' == d.(age := Some(age))
    ensures bot.sessions == old(bot.sessions)[user := Session(Some(RegCity), d')]
    ensures bot.users == old(bot.users) && bot.messages == old(bot.messages) && bot.transactions == old(bot.transactions)
  {
    AgeOfNumber(age);
    var a := bot.ProcessAge(user, ShowInt(age));
    d' := d.(age := Some(age));
  }

  /** A valid age and any city and gender bring the form to the purpose question. */
  method AnswerProfile(bot: BotState, user: UserId, age: int, city: string, gender: string, ghost d: Data) returns (ghost d': Data)
    requires bot.Valid() && bot.SessionOf(user) == Session(Some(RegAge), d) && 10 < age < 100
    modifies bot
    ensures bot.Valid()
    ensures d' == d.(age := Some(age), city := Some(city), gender := Some(gender))
    ensures bot.sessions == old(bot.sessions)[user := Session(Some(RegPurpose), d')]
    ensures bot.users == old(bot.users) && bot.messages == old(bot.messages) && bot.transactions == old(bot.transactions)
  {
    ghost var da := AnswerAge(bot, user, age, d);
    bot.ProcessCity(user, city);
    bot.ProcessGender(user, gender);
    d' := da.(city := Some(city), gender := Some(gender));
  }

  /**
   * `/start` followed by six valid answers inserts one `users` row holding
   * exactly the answers, at the default level, and ends the conversation.
   */
  method CompleteRegistration(bot: BotState, user: UserId, twitter: string, telegram: string, age: int,
                              city: string, gender: string, purpose: string)
    requires bot.Valid() && user !in bot.admins && user !in bot.users
    requires TwitterAccepted(twitter) && TelegramAccepted(telegram) && 10 < age < 100
    modifies bot
    ensures bot.Valid()
    ensures bot.users == old(bot.users)[user := User(twitter, telegram, age, city, gender, purpose, DefaultAccessLevel)]
    ensures bot.sessions == old(bot.sessions) - {user}
    ensures bot.messages == old(bot.messages) && bot.transactions == old(bot.transactions)
  {
    ghost var d := AnswerHandles(bot, user, twitter, telegram);
    d := AnswerProfile(bot, user, age, city, gender, d);
    var inserted := bot.ProcessPurpose(user, purpose, true);
    assert NewUser(d, purpose) == User(twitter, telegram, age, city, gender, purpose, DefaultAccessLevel);
    assert bot.sessions == old(bot.sessions) - {user};
  }

  /** A new user who answers every question validly is registered at level 1 with those answers. */
  method RegisterNewUser(admins: set<UserId>, wallet: string, levels: seq<LevelRow>, user: UserId,
                         twitter: string, telegram: string, age: int, city: string, gender: string, purpose: string)
    returns (row: User, registered: set<UserId>)
    requires LevelsAscending(levels) && user !in admins
    requires TwitterAccepted(twitter) && TelegramAccepted(telegram) && 10 < age < 100
    ensures registered == {user}
    ensures row == User(twitter, telegram, age, city, gender, purpose, 1)
  {
    var bot := new BotState(admins, wallet, levels);
    CompleteRegistration(bot, user, twitter, telegram, age, city, gender, purpose);
    row := bot.users[user];
    registered := bot.users.Keys;
  }

  /** Tapping `upgrade_<n>` for a level of the table and then submitting `hash`. */
  method ChooseAndPay(bot: BotState, user: UserId, n: int, hash: string, info: Option<Transfer>) returns (outcome: Redemption)
    requires bot.Valid() && FindLevel(bot.levels, n).Some?
    modifies bot
    ensures bot.Valid()
    ensures outcome == if !VerifyTransaction(info, bot.wallet, FindLevel(bot.levels, n).value.price) then NotVerified
                       else if HashUsed(old(bot.transactions), hash) then AlreadyUsed
                       else Upgraded
    ensures bot.users == if outcome == Upgraded then SetAccessLevel(old(bot.users), user, n) else old(bot.users)
    ensures bot.transactions == if outcome == Upgraded then old(bot.transactions) + [Transaction(user, n, hash)]
                                else old(bot.transactions)
  {
    ChooseLevel(bot, user, n);
    outcome := bot.ReceiveTxnHash(user, hash, info, true);
  }

  /** Tapping `upgrade_<n>` for a level of the table: the bot waits for the hash of a payment of its price. */
  method ChooseLevel(bot: BotState, user: UserId, n: int)
    requires bot.Valid() && FindLevel(bot.levels, n).Some?
    modifies bot
    ensures bot.Valid()
    ensures bot.SessionOf(user).step == Some(UpgradeTxnHash)
    ensures bot.SessionOf(user).data.newLevel == Some(n)
    ensures bot.SessionOf(user).data.price == Some(FindLevel(bot.levels, n).value.price)
    ensures bot.users == old(bot.users) && bot.transactions == old(bot.transactions)
  {
    CallbackRoundTrip("upgrade", n);
    var quoted := bot.ProcessUpgrade(user, CallbackData("upgrade", n), true);
  }

  /**
   * A verified payment for level `n` upgrades the payer once; submitting the
   * same hash again after choosing the level anew is refused as already
   * used, and the log keeps the single record.
   */
  method ReplayRejected(admins: set<UserId>, wallet: string, levels: seq<LevelRow>, user: UserId,
                        twitter: string, telegram: string, age: int, n: int, hash: string, info: Option<Transfer>)
    returns (first: Redemption, second: Redemption, level: int, records: seq<Transaction>)
    requires LevelsAscending(levels) && user !in admins
    requires TwitterAccepted(twitter) && TelegramAccepted(telegram) && 10 < age < 100
    requires FindLevel(levels, n).Some? && VerifyTransaction(info, wallet, FindLevel(levels, n).value.price)
    ensures first == Upgraded && second == AlreadyUsed
    ensures level == n
    ensures records == [Transaction(user, n, hash)]
  {
    var bot := new BotState(admins, wallet, levels);
    CompleteRegistration(bot, user, twitter, telegram, age, "", "", "");
    first := ChooseAndPay(bot, user, n, hash, info);
    assert HashUsed(bot.transactions, hash) by { assert bot.transactions[0].hash == hash; }
    second := ChooseAndPay(bot, user, n, hash, info);
    level := bot.users[user].accessLevel;
    records := bot.transactions;
  }

  /**
   * An admin who forwards a registered user's message and taps `promote_<n>`
   * sets that user's level to `n`, whether or not `n` is above the current
   * level, and no payment is recorded.
   */
  method PromoteByForward(admins: set<UserId>, wallet: string, levels: seq<LevelRow>, admin: UserId, target: UserId,
                          twitter: string, telegram: string, age: int, n: int)
    returns (level: int, records: seq<Transaction>)
    requires LevelsAscending(levels) && levels != [] && admin in admins && target !in admins
    requires TwitterAccepted(twitter) && TelegramAccepted(telegram) && 10 < age < 100
    ensures level == n && records == []
  {
    var bot := new BotState(admins, wallet, levels);
    CompleteRegistration(bot, target, twitter, telegram, age, "", "", "");
    Promote(bot, admin, target, n);
    level := bot.users[target].accessLevel;
    records := bot.transactions;
  }

  /** `/promote`, a message forwarded from `target`, then a tap on `promote_<n>`. */
  method Promote(bot: BotState, admin: UserId, target: UserId, n: int)
    requires bot.Valid() && bot.levels != [] && admin in bot.admins
    modifies bot
    ensures bot.Valid()
    ensures bot.users == SetAccessLevel(old(bot.users), target, n)
    ensures bot.transactions == old(bot.transactions)
  {
    bot.BeginPromote(admin);
    var items := bot.HandleForwardId(admin, Some(target), true);
    CallbackRoundTrip("promote", n);
    var announced := bot.HandleLevel(admin, CallbackData("promote", n), true);
  }
}

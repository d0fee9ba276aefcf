/**
 * The four MySQL tables the bot reads and writes, as values: `users`,
 * `levels`, `messages` and `transactions`, with the lookups and updates the
 * handlers run against them.
 */
module Tables {
  import opened Wrappers

  /** A Telegram user id, the primary key of `users`. */
  type UserId = int

  /** A `users` row, keyed by its id. `created_at` is filled by the database and not modelled. */
  datatype User = User(
    twitter: string,
    telegram: string,
    age: int,
    city: string,
    gender: string,
    purpose: string,
    accessLevel: int)

  /**
   * The level a new row starts at: the registration INSERT leaves
   * `access_level` to the column default, which the confirmation reply names
   * as level 1.
   */
  const DefaultAccessLevel := 1

  /** A `levels` row: the price in micro-units of USDT and the six per-hour limits. */
  datatype LevelRow = LevelRow(
    level: int,
    price: int,
    textLimit: int,
    gifLimit: int,
    photoLimit: int,
    videoLimit: int,
    videoNoteLimit: int,
    voiceLimit: int)

  /** The `content_type`s the group handler is registered for. */
  datatype ContentType = TextMsg | Photo | Animation | Video | Voice | VideoNote | VideoChatStarted

  /** A `messages` row: one accepted group message. Times are in seconds. */
  datatype MessageEvent = MessageEvent(user: UserId, kind: ContentType, time: int)

  /** A `transactions` row: one redeemed payment. */
  datatype Transaction = Transaction(user: UserId, level: int, hash: string)

  /**
   * `SELECT ... FROM levels ORDER BY level` over a table whose key is
   * `level`: the rows come strictly ascending by level.
   */
  ghost predicate LevelsAscending(levels: seq<LevelRow>) {
    forall i, j :: 0 <= i < j < |levels| ==> levels[i].level < levels[j].level
  }

  /** `SELECT ... FROM levels WHERE level = n`, first row. */
  function FindLevel(levels: seq<LevelRow>, n: int): (r: Option<LevelRow>)
    ensures r.Some? <==> exists i :: 0 <= i < |levels| && levels[i].level == n
    ensures r.Some? ==> r.value in levels && r.value.level == n
  {
    if levels == [] then None
    else if levels[0].level == n then Some(levels[0])
    else
      var r := FindLevel(levels[1..], n);
      assert forall i :: 1 <= i < |levels| ==> levels[i] == levels[1..][i - 1];
      r
  }

  /** `UPDATE users SET access_level = level WHERE id = id`: only that row changes, and only its level. */
  function SetAccessLevel(users: map<UserId, User>, id: UserId, level: int): (r: map<UserId, User>)
    ensures r.Keys == users.Keys
    ensures id in users ==> r[id].accessLevel == level && r[id] == users[id].(accessLevel := level)
    ensures forall u :: u in users && u != id ==> r[u] == users[u]
  {
    if id in users then users[id := users[id].(accessLevel := level)] else users
  }

  /** `SELECT user_id FROM transactions WHERE txn_hash = h` returns a row. */
  predicate HashUsed(txns: seq<Transaction>, h: string) {
    exists i :: 0 <= i < |txns| && txns[i].hash == h
  }

  /** No hash appears in two `transactions` rows: each hash is redeemed at most once. */
  ghost predicate HashesUnique(txns: seq<Transaction>) {
    forall i, j :: 0 <= i < j < |txns| ==> txns[i].hash != txns[j].hash
  }

  /** Recording a hash that was not yet used keeps every hash unique, and the new hash is then used. */
  lemma RecordFreshHash(txns: seq<Transaction>, t: Transaction)
    requires HashesUnique(txns) && !HashUsed(txns, t.hash)
    ensures HashesUnique(txns + [t]) && HashUsed(txns + [t], t.hash)
  {
    var after := txns + [t];
    assert after[|txns|] == t;
    forall i, j | 0 <= i < j < |after|
      ensures after[i].hash != after[j].hash
    {
      if j == |txns| {
        assert after[i] == txns[i];
      } else {
        assert after[i] == txns[i] && after[j] == txns[j];
      }
    }
  }
}

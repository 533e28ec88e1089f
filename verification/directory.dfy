/**
 * The user directory as the bot and the scheduler see it: a sequence of
 * user records in the store's natural order, looked up by telegram id, by
 * email or by id, and updated field by field on the first record a filter
 * matches.
 */
module Directory {
  import opened Basics

  /** A chat identifier; the directory stores it as `telegram_id`, its decimal text. */
  type ChatId = int

  type UserId = nat

  /**
   * A user record. `telegramId` is None when the record has no telegram id or
   * an empty one; `preferredTime` is None when no time of day is stored.
   */
  datatype User = User(
    id: UserId,
    email: string,
    username: string,
    password: string,
    telegramId: Option<ChatId>,
    category: seq<string>,
    preferredTime: Option<string>,
    deliveryMethod: string,
    subscribed: bool)

  /** The values the user schema supplies for the fields a bot registration does not set. */
  datatype SchemaDefaults = SchemaDefaults(
    category: seq<string>,
    preferredTime: Option<string>,
    deliveryMethod: string,
    subscribed: bool)

  predicate DistinctIds(users: seq<User>) {
    forall i, j :: 0 <= i < j < |users| ==> users[i].id != users[j].id
  }

  /** No chat is linked to two records. */
  predicate UniqueLinks(users: seq<User>) {
    forall i, j :: 0 <= i < j < |users| && users[i].telegramId.Some? ==> users[i].telegramId != users[j].telegramId
  }

  predicate WellFormed(users: seq<User>) {
    DistinctIds(users) && UniqueLinks(users)
  }

  /** The key `findById` looks a record up by. */
  function IdOf(u: User): UserId { u.id }

  /** The key `findOne({ telegram_id })` looks a record up by. */
  function LinkOf(u: User): Option<ChatId> { u.telegramId }

  /** `findOne({ telegram_id })`: the position of the first record linked to `chat`. */
  function FindLinked(users: seq<User>, chat: ChatId): (r: Option<nat>)
    ensures r.Some? ==> r.value < |users| && users[r.value].telegramId == Some(chat)
    ensures r.None? ==> forall j :: 0 <= j < |users| ==> users[j].telegramId != Some(chat)
  {
    IndexOfKey(users, LinkOf, Some(chat), 0)
  }

  /** `User.findById(id)`: the position of the first record with this id. */
  function FindById(users: seq<User>, id: UserId): (r: Option<nat>)
    ensures r.Some? ==> r.value < |users| && users[r.value].id == id
    ensures r.None? ==> forall j :: 0 <= j < |users| ==> users[j].id != id
  {
    IndexOfKey(users, IdOf, id, 0)
  }

  /** `findOne({ email })` finds a record. */
  predicate EmailTaken(users: seq<User>, email: string) {
    exists i :: 0 <= i < |users| && users[i].email == email
  }

  /** An id above every id in the directory, for a record about to be created. */
  function NextUserId(users: seq<User>): (r: UserId)
    ensures forall i :: 0 <= i < |users| ==> users[i].id < r
  {
    FreshKey(users, (u: User) => u.id)
  }

  /**
   * `User.create({ email, username: email, password, telegram_id })`: the
   * record a bot registration creates; every other field takes the schema's value.
   */
  function NewAccount(users: seq<User>, email: string, password: string, chat: ChatId, d: SchemaDefaults): User {
    User(NextUserId(users), email, email, password, Some(chat), d.category, d.preferredTime, d.deliveryMethod, d.subscribed)
  }

  /** The single-field updates the bot requests. */
  datatype Patch =
    | SetCategory(category: seq<string>)
    | SetTime(time: string)
    | SetDelivery(deliveryMethod: string)
    | SetSubscribed(subscribed: bool)

  function Apply(u: User, p: Patch): User {
    match p
    case SetCategory(c) => u.(category := c)
    case SetTime(t) => u.(preferredTime := Some(t))
    case SetDelivery(m) => u.(deliveryMethod := m)
    case SetSubscribed(b) => u.(subscribed := b)
  }

  /** `findOneAndUpdate({ telegram_id }, patch)`: patches the first record linked to `chat`, if there is one. */
  function UpdateLinked(users: seq<User>, chat: ChatId, p: Patch): seq<User> {
    match FindLinked(users, chat)
    case None => users
    case Some(i) => users[i := Apply(users[i], p)]
  }

  /**
   * A linked update touches one record, the one linked to `chat`, and only
   * the patched field: ids and links stay, so the directory stays well formed
   * and every chat still finds the same record.
   */
  lemma UpdateLinkedEffect(users: seq<User>, chat: ChatId, p: Patch)
    requires WellFormed(users)
    ensures var r := UpdateLinked(users, chat, p);
      && |r| == |users|
      && WellFormed(r)
      && (forall c :: FindLinked(r, c) == FindLinked(users, c))
      && (forall i :: 0 <= i < |users| && users[i].telegramId != Some(chat) ==> r[i] == users[i])
      && (forall i :: 0 <= i < |users| && users[i].telegramId == Some(chat) ==> r[i] == Apply(users[i], p))
  {
    var r := UpdateLinked(users, chat, p);
    assert forall i :: 0 <= i < |users| ==> r[i].id == users[i].id && r[i].telegramId == users[i].telegramId;
    forall c
      ensures FindLinked(r, c) == FindLinked(users, c)
    {
      SameKeysSameIndex(users, r, LinkOf, Some(c), 0);
    }
  }

  /** Appending a record for a chat nobody is linked to keeps the directory well formed and links that chat to it. */
  lemma CreateLinkedEffect(users: seq<User>, u: User, chat: ChatId)
    requires WellFormed(users)
    requires FindLinked(users, chat).None?
    requires u.id == NextUserId(users) && u.telegramId == Some(chat)
    ensures WellFormed(users + [u])
    ensures FindLinked(users + [u], chat) == Some(|users|)
    ensures forall c :: c != chat ==> FindLinked(users + [u], c) == FindLinked(users, c)
  {
    var r := users + [u];
    assert r[|users|] == u;
    forall c | c != chat
      ensures FindLinked(r, c) == FindLinked(users, c)
    {
      IndexOfKeyAppend(users, u, LinkOf, Some(c), 0);
    }
  }
}

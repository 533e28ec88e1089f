/**
 * The two HTTP handlers of the telegram controller: a test message for one
 * summary, and instant news for a user. Each checks its request in a fixed
 * order and answers with the first failure's status, or sends.
 */
module Controller {
  import opened Basics
  import opened Directory
  import opened News
  import opened Delivery
  import opened Scheduler

  /** News items sent per category on an instant request over HTTP. */
  const HttpCap: nat := 3

  datatype ApiError = MissingIds | MissingUserId | UserNotFound | SummaryNotFound | NoTelegramId | NoCategories

  /** The HTTP status each failure is answered with. */
  function Status(e: ApiError): nat {
    match e
    case UserNotFound => 404
    case SummaryNotFound => 404
    case _ => 400
  }

  /** `user.username || user.email`. */
  function DisplayName(u: User): string {
    if u.username != "" then u.username else u.email
  }

  function SummaryIdOf(s: Summary): nat { s.id }

  /** `NewsSummary.findById(id)`: the position of the first summary with this id. */
  function FindSummaryById(ss: seq<Summary>, id: nat): (r: Option<nat>)
    ensures r.Some? ==> r.value < |ss| && ss[r.value].id == id
    ensures r.None? ==> forall j :: 0 <= j < |ss| ==> ss[j].id != id
  {
    IndexOfKey(ss, SummaryIdOf, id, 0)
  }

  datatype TestResponse =
    | TestRejected(status: nat, error: ApiError)
    | TestSent(sentTo: string, chatId: ChatId, summary: string)

  /**
   * `sendTestMessage`: a missing id is refused with 400; then, in this
   * order, an unknown user (404), an unknown summary (404) and a user
   * without a telegram id (400); otherwise the summary is sent to the
   * user's chat.
   */
  function SendTestMessage(userId: Option<UserId>, summaryId: Option<nat>, users: seq<User>, ss: seq<Summary>): (r: TestResponse)
    ensures r.TestRejected? ==> r.status == Status(r.error)
    ensures r.TestRejected? && r.error == MissingIds <==> userId.None? || summaryId.None?
    ensures r.TestRejected? && r.error == UserNotFound <==>
      userId.Some? && summaryId.Some? && FindById(users, userId.value).None?
    ensures r.TestRejected? && r.error == SummaryNotFound <==>
      && userId.Some? && summaryId.Some? && FindById(users, userId.value).Some?
      && FindSummaryById(ss, summaryId.value).None?
    ensures r.TestRejected? && r.error == NoTelegramId <==>
      && userId.Some? && summaryId.Some? && FindById(users, userId.value).Some?
      && FindSummaryById(ss, summaryId.value).Some?
      && users[FindById(users, userId.value).value].telegramId.None?
    ensures r.TestSent? ==>
      && userId.Some? && summaryId.Some?
      && var u := users[FindById(users, userId.value).value];
      && var s := ss[FindSummaryById(ss, summaryId.value).value];
      && u.id == userId.value && s.id == summaryId.value
      && Some(r.chatId) == u.telegramId && r.sentTo == DisplayName(u) && r.summary == s.item.summaryText
    ensures r.TestRejected? ==> r.error in {MissingIds, UserNotFound, SummaryNotFound, NoTelegramId}
  {
    if userId.None? || summaryId.None? then TestRejected(400, MissingIds)
    else
      var user := FindById(users, userId.value);
      var summary := FindSummaryById(ss, summaryId.value);
      if user.None? then TestRejected(404, UserNotFound)
      else if summary.None? then TestRejected(404, SummaryNotFound)
      else
        var u := users[user.value];
        if u.telegramId.None? then TestRejected(400, NoTelegramId)
        else TestSent(DisplayName(u), u.telegramId.value, ss[summary.value].item.summaryText)
  }

  datatype InstantResponse =
    | InstantRejected(status: nat, error: ApiError)
    | InstantSent(sentTo: string, chatId: ChatId, newsCount: nat, categories: seq<string>, sentNews: seq<SentItem>)

  /**
   * `sendInstantNews`: refuses, in this order, a missing user id (400), an
   * unknown user (404), a user without a telegram id (400) and an empty list
   * of categories (400), the request's list when it has one and the user's
   * otherwise; then sends up to three items per category and reports the
   * count, the categories and what was sent.
   */
  method SendInstantNews(userId: Option<UserId>, categories: Option<seq<string>>, users: seq<User>, feed: Feed)
    returns (r: InstantResponse)
    ensures r.InstantRejected? ==> r.status == Status(r.error)
    ensures r.InstantRejected? && r.error == MissingUserId <==> userId.None?
    ensures r.InstantRejected? && r.error == UserNotFound <==> userId.Some? && FindById(users, userId.value).None?
    ensures r.InstantRejected? && r.error == NoTelegramId <==>
      userId.Some? && FindById(users, userId.value).Some? && users[FindById(users, userId.value).value].telegramId.None?
    ensures r.InstantRejected? && r.error == NoCategories <==>
      && userId.Some? && FindById(users, userId.value).Some?
      && var u := users[FindById(users, userId.value).value];
      && u.telegramId.Some? && categories.GetOr(u.category) == []
    ensures r.InstantRejected? ==> r.error in {MissingUserId, UserNotFound, NoTelegramId, NoCategories}
    ensures r.InstantSent? ==>
      && userId.Some? && FindById(users, userId.value).Some?
      && var u := users[FindById(users, userId.value).value];
      && Some(r.chatId) == u.telegramId && r.sentTo == DisplayName(u)
      && r.categories == categories.GetOr(u.category) != []
      && r.sentNews == Sent(r.categories, feed, HttpCap)
      && r.newsCount == |r.sentNews| == Count(r.categories, feed, HttpCap)
  {
    if userId.None? {
      return InstantRejected(400, MissingUserId);
    }
    var found := FindById(users, userId.value);
    if found.None? {
      return InstantRejected(404, UserNotFound);
    }
    var u := users[found.value];
    if u.telegramId.None? {
      return InstantRejected(400, NoTelegramId);
    }
    var cats := categories.GetOr(u.category);
    if cats == [] {
      return InstantRejected(400, NoCategories);
    }
    var count, sent := Deliver(cats, feed, HttpCap);
    r := InstantSent(DisplayName(u), u.telegramId.value, count, cats, sent);
  }

  /** Over HTTP at most three items per category are sent, and the count is the number of records. */
  lemma InstantNewsBound(cats: seq<string>, feed: Feed)
    ensures |Sent(cats, feed, HttpCap)| == Count(cats, feed, HttpCap) <= HttpCap * |cats|
  {
    SentLength(cats, feed, HttpCap);
    CountBound(cats, feed, HttpCap);
  }
}

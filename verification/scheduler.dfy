/**
 * The scheduling run: for each subscribed user (or the one user asked for),
 * for each of the user's categories, for each fetched item, reuse or create
 * the summary with the item's text and create a schedule entry for the
 * (user, summary) pair unless one exists. Times are milliseconds on the
 * local clock; `now` is read once per run.
 */
module Scheduler {
  import opened Basics
  import opened TimeOfDay
  import opened Directory
  import opened News

  const MinuteMs: int := 60000
  const DayMs: int := 86400000

  /** A stored summary: its id and the fetched item it was created from. */
  datatype Summary = Summary(id: nat, item: NewsItem)

  /** A stored schedule entry. */
  datatype Entry = Entry(userId: UserId, summaryId: nat, sendTime: int, sendMethod: seq<string>)

  // ---------------------------------------------------------------------
  // Send time and send method

  /** A stored time of day is either absent or one the bot's time step accepts. */
  predicate TimeStored(u: User) {
    u.preferredTime.None? || ValidTime(u.preferredTime.value)
  }

  /** `(preferred_time_of_day || "09:00").split(":").map(Number)`: the hour and minute to send at. */
  function Clock(u: User): (hm: (nat, nat))
    requires TimeStored(u)
    ensures hm.0 < 24 && hm.1 < 60
    ensures u.preferredTime.None? ==> hm == (9, 0)
    ensures u.preferredTime.Some? ==> u.preferredTime.value == Render(hm.0, hm.1, |u.preferredTime.value| == 5)
  {
    var t := u.preferredTime.GetOr("09:00");
    assert u.preferredTime.Some? ==> t == Render(ParseTime(t).0, ParseTime(t).1, |t| == 5) by {
      if u.preferredTime.Some? {
        AcceptedIsRendered(t);
      }
    }
    ParseTime(t)
  }

  /** The start of the day `now` falls in. */
  function Midnight(now: int): (r: int)
    ensures r == (now / DayMs) * DayMs && r <= now < r + DayMs
  {
    now - now % DayMs
  }

  /** The instant `o` milliseconds into day `d` has time of day `o`. */
  lemma TimeOfDayOf(d: int, o: int)
    requires 0 <= o < DayMs
    ensures (d * DayMs + o) % DayMs == o
  {
    var x := d * DayMs + o;
    var q, r := x / DayMs, x % DayMs;
    assert x == q * DayMs + r;
    assert (d - q) * DayMs == r - o;
  }

  /** Milliseconds from midnight to `h:m:00.000`. */
  function Offset(h: nat, m: nat): (r: int)
    requires h < 24 && m < 60
    ensures 0 <= r < DayMs
  {
    (h * 60 + m) * MinuteMs
  }

  /**
   * `setHours(h, m, 0, 0)` on the current date, moved one day on when that is
   * not after `now`: the first instant after `now` whose time of day is h:m,
   * never more than a day away.
   */
  function SendTime(h: nat, m: nat, now: int): (t: int)
    requires h < 24 && m < 60
    ensures now < t <= now + DayMs
    ensures t % DayMs == Offset(h, m)
    ensures t == Midnight(now) + Offset(h, m) || t == Midnight(now) + Offset(h, m) + DayMs
  {
    var d := now / DayMs;
    var today := Midnight(now) + Offset(h, m);
    TimeOfDayOf(d, Offset(h, m));
    TimeOfDayOf(d + 1, Offset(h, m));
    assert today + DayMs == (d + 1) * DayMs + Offset(h, m);
    if today <= now then today + DayMs else today
  }

  /** No other instant after `now` and at most a day away has time of day h:m. */
  lemma SendTimeUnique(h: nat, m: nat, now: int, t: int)
    requires h < 24 && m < 60
    requires now < t <= now + DayMs && t % DayMs == Offset(h, m)
    ensures t == SendTime(h, m, now)
  {
    var s := SendTime(h, m, now);
    var q, q' := s / DayMs, t / DayMs;
    assert s == q * DayMs + Offset(h, m);
    assert t == q' * DayMs + Offset(h, m);
    assert -DayMs < t - s < DayMs;
    assert t - s == (q' - q) * DayMs;
  }

  /** The send time stays today exactly when h:m today is still ahead of `now`. */
  lemma SendTimeToday(h: nat, m: nat, now: int)
    requires h < 24 && m < 60
    ensures SendTime(h, m, now) == Midnight(now) + Offset(h, m) <==> Midnight(now) + Offset(h, m) > now
  {
  }

  /** The run at 08:00 and at 10:00 for a 09:00 preference, on the day starting at `day`. */
  lemma SendTimeExamples(day: int)
    requires day % DayMs == 0
    ensures SendTime(9, 0, day + 8 * 60 * MinuteMs) == day + 9 * 60 * MinuteMs
    ensures SendTime(9, 0, day + 10 * 60 * MinuteMs) == day + DayMs + 9 * 60 * MinuteMs
  {
    var d := day / DayMs;
    assert day == d * DayMs;
    TimeOfDayOf(d, 8 * 60 * MinuteMs);
    TimeOfDayOf(d, 10 * 60 * MinuteMs);
    assert Midnight(day + 8 * 60 * MinuteMs) == day;
    assert Midnight(day + 10 * 60 * MinuteMs) == day;
  }

  /** `"both"` expands to both channels; any other method is sent on as given. */
  function SendMethods(deliveryMethod: string): seq<string> {
    if deliveryMethod == "both" then ["telegram", "email"] else [deliveryMethod]
  }

  /** The entry the run creates for user `u`: its id, its send time, its channels. */
  predicate EntryFor(e: Entry, u: User, now: int)
    requires TimeStored(u)
  {
    && e.userId == u.id
    && e.sendTime == SendTime(Clock(u).0, Clock(u).1, now)
    && e.sendMethod == SendMethods(u.deliveryMethod)
  }

  // ---------------------------------------------------------------------
  // The stores

  predicate Extends<T(==)>(a: seq<T>, b: seq<T>) {
    |a| <= |b| && b[..|a|] == a
  }

  lemma ExtendsTrans<T>(a: seq<T>, b: seq<T>, c: seq<T>)
    requires Extends(a, b) && Extends(b, c)
    ensures Extends(a, c)
  {
    assert c[..|a|] == c[..|b|][..|a|];
  }

  predicate DistinctSummaryIds(ss: seq<Summary>) {
    forall i, j :: 0 <= i < j < |ss| ==> ss[i].id != ss[j].id
  }

  /** No two summaries carry the same text. */
  predicate UniqueTexts(ss: seq<Summary>) {
    forall i, j :: 0 <= i < j < |ss| ==> ss[i].item.summaryText != ss[j].item.summaryText
  }

  /** No two entries share a (user, summary) pair. */
  predicate UniquePairs(es: seq<Entry>) {
    forall i, j :: 0 <= i < j < |es| ==> es[i].userId != es[j].userId || es[i].summaryId != es[j].summaryId
  }

  predicate StoresOk(ss: seq<Summary>, es: seq<Entry>) {
    DistinctSummaryIds(ss) && UniqueTexts(ss) && UniquePairs(es)
  }

  /** An id above every summary id, for a summary about to be created. */
  function NextSummaryId(ss: seq<Summary>): (r: nat)
    ensures forall i :: 0 <= i < |ss| ==> ss[i].id < r
  {
    FreshKey(ss, (s: Summary) => s.id)
  }

  function TextOf(s: Summary): string { s.item.summaryText }

  /** `NewsSummary.findOne({ summary_text })`: the first summary with this text. */
  function FindSummary(ss: seq<Summary>, text: string): (r: Option<nat>)
    ensures r.Some? ==> r.value < |ss| && ss[r.value].item.summaryText == text
    ensures r.Some? ==> forall j :: 0 <= j < r.value ==> ss[j].item.summaryText != text
    ensures r.None? ==> forall j :: 0 <= j < |ss| ==> ss[j].item.summaryText != text
  {
    IndexOfKey(ss, TextOf, text, 0)
  }

  /** `NewsScheduler.findOne({ user_id, summary_id })` finds an entry. */
  predicate HasEntry(es: seq<Entry>, uid: UserId, sid: nat) {
    exists j :: 0 <= j < |es| && es[j].userId == uid && es[j].summaryId == sid
  }

  /** Some summary has this text and the user has an entry for it. */
  predicate Scheduled(uid: UserId, text: string, ss: seq<Summary>, es: seq<Entry>) {
    exists i :: 0 <= i < |ss| && ss[i].item.summaryText == text && HasEntry(es, uid, ss[i].id)
  }

  /** Every item of a category's list is scheduled for the user. */
  predicate ItemsScheduled(uid: UserId, items: seq<NewsItem>, ss: seq<Summary>, es: seq<Entry>) {
    forall k :: 0 <= k < |items| ==> Scheduled(uid, items[k].summaryText, ss, es)
  }

  /** What is scheduled stays scheduled when the stores only grow. */
  lemma ScheduledGrows(uid: UserId, text: string, ss: seq<Summary>, es: seq<Entry>, ss': seq<Summary>, es': seq<Entry>)
    requires Scheduled(uid, text, ss, es) && Extends(ss, ss') && Extends(es, es')
    ensures Scheduled(uid, text, ss', es')
  {
    var i :| 0 <= i < |ss| && ss[i].item.summaryText == text && HasEntry(es, uid, ss[i].id);
    var j :| 0 <= j < |es| && es[j].userId == uid && es[j].summaryId == ss[i].id;
    assert ss'[i] == ss[i] && es'[j] == es[j];
  }

  lemma ItemsScheduledGrow(uid: UserId, items: seq<NewsItem>, ss: seq<Summary>, es: seq<Entry>, ss': seq<Summary>, es': seq<Entry>)
    requires ItemsScheduled(uid, items, ss, es) && Extends(ss, ss') && Extends(es, es')
    ensures ItemsScheduled(uid, items, ss', es')
  {
    forall k | 0 <= k < |items|
      ensures Scheduled(uid, items[k].summaryText, ss', es')
    {
      ScheduledGrows(uid, items[k].summaryText, ss, es, ss', es');
    }
  }

  // ---------------------------------------------------------------------
  // What a run may create

  /** Some item of `items` carries `text`. */
  predicate HasText(items: seq<NewsItem>, text: string) {
    exists n :: 0 <= n < |items| && items[n].summaryText == text
  }

  /** Summary `sid` of `ss` carries the text of one of `items`. */
  predicate SummaryOf(ss: seq<Summary>, sid: nat, items: seq<NewsItem>) {
    exists i :: 0 <= i < |ss| && ss[i].id == sid && HasText(items, ss[i].item.summaryText)
  }

  /** Every summary created since `ss` holds one of `items`. */
  predicate NewSummariesFrom(ss: seq<Summary>, ss': seq<Summary>, items: seq<NewsItem>) {
    forall k :: |ss| <= k < |ss'| ==> ss'[k].item in items
  }

  /**
   * Every entry created since `es` is `u`'s, at `u`'s send time, for the
   * summary in `ss'` of one of `items`.
   */
  predicate NewEntriesFrom(es: seq<Entry>, es': seq<Entry>, u: User, now: int, items: seq<NewsItem>, ss': seq<Summary>)
    requires TimeStored(u)
  {
    forall k :: |es| <= k < |es'| ==> EntryFor(es'[k], u, now) && SummaryOf(ss', es'[k].summaryId, items)
  }

  /** A summary keeps its provenance when the store grows and the item list widens. */
  lemma SummaryOfGrows(ss: seq<Summary>, ss': seq<Summary>, sid: nat, items: seq<NewsItem>, items': seq<NewsItem>)
    requires Extends(ss, ss') && SummaryOf(ss, sid, items)
    requires forall n :: 0 <= n < |items| ==> items[n] in items'
    ensures SummaryOf(ss', sid, items')
  {
    var i :| 0 <= i < |ss| && ss[i].id == sid && HasText(items, ss[i].item.summaryText);
    var n :| 0 <= n < |items| && items[n].summaryText == ss[i].item.summaryText;
    var m :| 0 <= m < |items'| && items'[m] == items[n];
    assert ss'[i] == ss[i];
  }

  lemma NewSummariesFromStep(ss: seq<Summary>, ss1: seq<Summary>, ss2: seq<Summary>, a: seq<NewsItem>, b: seq<NewsItem>)
    requires |ss| <= |ss1| && Extends(ss1, ss2)
    requires NewSummariesFrom(ss, ss1, a) && NewSummariesFrom(ss1, ss2, b)
    ensures NewSummariesFrom(ss, ss2, a + b)
  {
    forall k | |ss| <= k < |ss2|
      ensures ss2[k].item in a + b
    {
      if k < |ss1| {
        assert ss2[k] == ss1[k];
      }
    }
  }

  lemma NewEntriesFromStep(es: seq<Entry>, es1: seq<Entry>, es2: seq<Entry>, u: User, now: int,
                           ss1: seq<Summary>, ss2: seq<Summary>, a: seq<NewsItem>, b: seq<NewsItem>)
    requires TimeStored(u) && |es| <= |es1| && Extends(es1, es2) && Extends(ss1, ss2)
    requires NewEntriesFrom(es, es1, u, now, a, ss1) && NewEntriesFrom(es1, es2, u, now, b, ss2)
    ensures NewEntriesFrom(es, es2, u, now, a + b, ss2)
  {
    forall k | |es| <= k < |es2|
      ensures EntryFor(es2[k], u, now) && SummaryOf(ss2, es2[k].summaryId, a + b)
    {
      if k < |es1| {
        assert es2[k] == es1[k];
        SummaryOfGrows(ss1, ss2, es1[k].summaryId, a, a + b);
      } else {
        assert ss2[..|ss2|] == ss2;
        SummaryOfGrows(ss2, ss2, es2[k].summaryId, b, a + b);
      }
    }
  }

  // ---------------------------------------------------------------------
  // One item, one category, one user

  /**
   * The body of the innermost loop: find or create the summary for the
   * item's text, then create the user's entry for it unless one exists.
   * At most one summary and one entry are created, and the entry points at
   * the summary carrying the item's text.
   */
  method ScheduleItem(u: User, item: NewsItem, now: int, ss: seq<Summary>, es: seq<Entry>)
    returns (ss': seq<Summary>, es': seq<Entry>)
    requires TimeStored(u) && StoresOk(ss, es)
    ensures StoresOk(ss', es') && Extends(ss, ss') && Extends(es, es')
    ensures Scheduled(u.id, item.summaryText, ss', es')
    ensures Scheduled(u.id, item.summaryText, ss, es) ==> ss' == ss && es' == es
    ensures |ss'| <= |ss| + 1 && |es'| <= |es| + 1
    ensures NewSummariesFrom(ss, ss', [item])
    ensures NewEntriesFrom(es, es', u, now, [item], ss')
  {
    var found := FindSummary(ss, item.summaryText);
    if Scheduled(u.id, item.summaryText, ss, es) {
      ScheduledFound(u.id, item.summaryText, ss, es);
    }
    var sid: nat;
    var at: nat;
    if found.None? {
      sid := NextSummaryId(ss);
      NewSummaryOk(ss, item);
      ss' := ss + [Summary(sid, item)];
      at := |ss|;
      assert NewSummariesFrom(ss, ss', [item]) by {
        assert ss'[|ss|].item == item;
      }
    } else {
      at := found.value;
      sid := ss[at].id;
      ss' := ss;
      assert NewSummariesFrom(ss, ss', [item]);
    }
    assert ss'[at].item.summaryText == item.summaryText && ss'[at].id == sid;
    assert [item][0] == item;
    assert SummaryOf(ss', sid, [item]);
    if HasEntry(es, u.id, sid) {
      es' := es;
      assert NewEntriesFrom(es, es', u, now, [item], ss');
    } else {
      var (h, m) := Clock(u);
      var e := Entry(u.id, sid, SendTime(h, m, now), SendMethods(u.deliveryMethod));
      NewEntryOk(es, e);
      es' := es + [e];
      assert es'[|es|] == e;
      assert NewEntriesFrom(es, es', u, now, [item], ss') by {
        assert EntryFor(e, u, now);
      }
    }
    assert HasEntry(es', u.id, ss'[at].id);
  }

  /** Creating a summary for a text no summary has keeps ids distinct and texts unique. */
  lemma NewSummaryOk(ss: seq<Summary>, item: NewsItem)
    requires DistinctSummaryIds(ss) && UniqueTexts(ss)
    requires forall j :: 0 <= j < |ss| ==> ss[j].item.summaryText != item.summaryText
    ensures var ss' := ss + [Summary(NextSummaryId(ss), item)];
      DistinctSummaryIds(ss') && UniqueTexts(ss')
  {
  }

  /** Creating an entry for a pair no entry has keeps pairs unique. */
  lemma NewEntryOk(es: seq<Entry>, e: Entry)
    requires UniquePairs(es) && !HasEntry(es, e.userId, e.summaryId)
    ensures UniquePairs(es + [e])
  {
    forall i, j | 0 <= i < j < |es + [e]|
      ensures (es + [e])[i].userId != (es + [e])[j].userId || (es + [e])[i].summaryId != (es + [e])[j].summaryId
    {
      if j == |es| {
        assert (es + [e])[i] == es[i];
      }
    }
  }

  /** With unique texts, the lookup of a scheduled text finds the summary the user's entry points at. */
  lemma ScheduledFound(uid: UserId, text: string, ss: seq<Summary>, es: seq<Entry>)
    requires UniqueTexts(ss) && Scheduled(uid, text, ss, es)
    ensures FindSummary(ss, text).Some? && HasEntry(es, uid, ss[FindSummary(ss, text).value].id)
  {
    var i :| 0 <= i < |ss| && ss[i].item.summaryText == text && HasEntry(es, uid, ss[i].id);
    var f := FindSummary(ss, text);
    assert f.Some?;
    assert f.value == i;
  }

  /** The loop over one category's fetched items. */
  method ScheduleCategory(u: User, items: seq<NewsItem>, now: int, ss: seq<Summary>, es: seq<Entry>)
    returns (ss': seq<Summary>, es': seq<Entry>)
    requires TimeStored(u) && StoresOk(ss, es)
    ensures StoresOk(ss', es') && Extends(ss, ss') && Extends(es, es')
    ensures ItemsScheduled(u.id, items, ss', es')
    ensures ItemsScheduled(u.id, items, ss, es) ==> ss' == ss && es' == es
    ensures NewSummariesFrom(ss, ss', items)
    ensures NewEntriesFrom(es, es', u, now, items, ss')
  {
    ss', es' := ss, es;
    var n := 0;
    while n < |items|
      invariant 0 <= n <= |items|
      invariant StoresOk(ss', es') && Extends(ss, ss') && Extends(es, es')
      invariant ItemsScheduled(u.id, items[..n], ss', es')
      invariant ItemsScheduled(u.id, items, ss, es) ==> ss' == ss && es' == es
      invariant NewSummariesFrom(ss, ss', items[..n])
      invariant NewEntriesFrom(es, es', u, now, items[..n], ss')
    {
      var ss1, es1 := ScheduleItem(u, items[n], now, ss', es');
      ItemsScheduledGrow(u.id, items[..n], ss', es', ss1, es1);
      NewSummariesFromStep(ss, ss', ss1, items[..n], [items[n]]);
      NewEntriesFromStep(es, es', es1, u, now, ss', ss1, items[..n], [items[n]]);
      assert items[..n + 1] == items[..n] + [items[n]];
      ExtendsTrans(ss, ss', ss1);
      ExtendsTrans(es, es', es1);
      ss', es' := ss1, es1;
      n := n + 1;
    }
    assert items[..n] == items;
  }

  /** The position of the first category whose fetch fails, or the number of categories. */
  function FirstMissing(cats: seq<string>, feed: Feed): (k: nat)
    ensures k <= |cats|
    ensures forall j :: 0 <= j < k ==> cats[j] in feed
    ensures k < |cats| ==> cats[k] !in feed
  {
    if cats == [] then 0
    else if cats[0] !in feed then 0
    else 1 + FirstMissing(cats[1..], feed)
  }

  /** The items of the first `n` categories, category by category, all of them fetched. */
  function FetchedItems(cats: seq<string>, feed: Feed, n: nat): (items: seq<NewsItem>)
    requires n <= FirstMissing(cats, feed)
    ensures forall x :: x in items <==> exists j :: 0 <= j < n && x in feed[cats[j]]
  {
    if n == 0 then []
    else
      var init := FetchedItems(cats, feed, n - 1);
      assert forall x :: x in init + feed[cats[n - 1]] <==> x in init || x in feed[cats[n - 1]];
      init + feed[cats[n - 1]]
  }

  /** Everything the run fetches for `u`: the items of its categories before the first failed fetch. */
  function ReachedItems(u: User, feed: Feed): seq<NewsItem> {
    FetchedItems(u.category, feed, FirstMissing(u.category, feed))
  }

  /** The first `n` categories of `u`, all fetched, have all their items scheduled. */
  predicate Reached(u: User, feed: Feed, n: nat, ss: seq<Summary>, es: seq<Entry>)
    requires n <= FirstMissing(u.category, feed)
  {
    forall k :: 0 <= k < n ==> ItemsScheduled(u.id, feed[u.category[k]], ss, es)
  }

  /** Every category the run reached for `u` before a failed fetch has all its items scheduled. */
  predicate UserCovered(u: User, feed: Feed, ss: seq<Summary>, es: seq<Entry>) {
    Reached(u, feed, FirstMissing(u.category, feed), ss, es)
  }

  lemma ReachedGrows(u: User, feed: Feed, n: nat, ss: seq<Summary>, es: seq<Entry>, ss': seq<Summary>, es': seq<Entry>)
    requires n <= FirstMissing(u.category, feed)
    requires Reached(u, feed, n, ss, es) && Extends(ss, ss') && Extends(es, es')
    ensures Reached(u, feed, n, ss', es')
  {
    forall k | 0 <= k < n
      ensures ItemsScheduled(u.id, feed[u.category[k]], ss', es')
    {
      ItemsScheduledGrow(u.id, feed[u.category[k]], ss, es, ss', es');
    }
  }

  lemma ReachedStep(u: User, feed: Feed, n: nat, ss: seq<Summary>, es: seq<Entry>, ss': seq<Summary>, es': seq<Entry>)
    requires n < FirstMissing(u.category, feed)
    requires Reached(u, feed, n, ss, es) && Extends(ss, ss') && Extends(es, es')
    requires ItemsScheduled(u.id, feed[u.category[n]], ss', es')
    ensures Reached(u, feed, n + 1, ss', es')
  {
    ReachedGrows(u, feed, n, ss, es, ss', es');
  }

  lemma UserCoveredGrows(u: User, feed: Feed, ss: seq<Summary>, es: seq<Entry>, ss': seq<Summary>, es': seq<Entry>)
    requires UserCovered(u, feed, ss, es) && Extends(ss, ss') && Extends(es, es')
    ensures UserCovered(u, feed, ss', es')
  {
    ReachedGrows(u, feed, FirstMissing(u.category, feed), ss, es, ss', es');
  }

  /**
   * The loop over one user's categories. A failed fetch ends it (and, in the
   * caller, the whole run): `ok` says whether every category was fetched.
   * Nothing is created for a category after the failed one.
   */
  method ScheduleUser(u: User, feed: Feed, now: int, ss: seq<Summary>, es: seq<Entry>)
    returns (ss': seq<Summary>, es': seq<Entry>, ok: bool)
    requires TimeStored(u) && StoresOk(ss, es)
    ensures StoresOk(ss', es') && Extends(ss, ss') && Extends(es, es')
    ensures ok <==> FirstMissing(u.category, feed) == |u.category|
    ensures UserCovered(u, feed, ss', es')
    ensures UserCovered(u, feed, ss, es) ==> ss' == ss && es' == es
    ensures NewSummariesFrom(ss, ss', ReachedItems(u, feed))
    ensures NewEntriesFrom(es, es', u, now, ReachedItems(u, feed), ss')
  {
    ss', es' := ss, es;
    var cats := u.category;
    var stop := FirstMissing(cats, feed);
    var n := 0;
    while n < |cats|
      invariant 0 <= n <= stop
      invariant StoresOk(ss', es') && Extends(ss, ss') && Extends(es, es')
      invariant Reached(u, feed, n, ss', es')
      invariant UserCovered(u, feed, ss, es) ==> ss' == ss && es' == es
      invariant NewSummariesFrom(ss, ss', FetchedItems(cats, feed, n))
      invariant NewEntriesFrom(es, es', u, now, FetchedItems(cats, feed, n), ss')
    {
      var c := cats[n];
      if c !in feed {
        return ss', es', false;
      }
      var ss1, es1 := ScheduleCategory(u, feed[c], now, ss', es');
      ReachedStep(u, feed, n, ss', es', ss1, es1);
      NewSummariesFromStep(ss, ss', ss1, FetchedItems(cats, feed, n), feed[c]);
      NewEntriesFromStep(es, es', es1, u, now, ss', ss1, FetchedItems(cats, feed, n), feed[c]);
      assert FetchedItems(cats, feed, n + 1) == FetchedItems(cats, feed, n) + feed[c];
      ExtendsTrans(ss, ss', ss1);
      ExtendsTrans(es, es', es1);
      ss', es' := ss1, es1;
      n := n + 1;
    }
    ok := true;
  }

  // ---------------------------------------------------------------------
  // The run

  /**
   * `User.find({ subscription_status: true })`, narrowed to `_id: forUser`
   * when a user is given; directory order.
   */
  function Targets(users: seq<User>, forUser: Option<UserId>): (ts: seq<User>)
    ensures forall u :: u in ts <==> u in users && u.subscribed && (forUser.Some? ==> u.id == forUser.value)
  {
    if users == [] then []
    else
      var u := users[|users| - 1];
      var rest := Targets(users[..|users| - 1], forUser);
      assert forall v :: v in users <==> v in users[..|users| - 1] || v == u;
      if u.subscribed && (forUser.Some? ==> u.id == forUser.value) then rest + [u] else rest
  }

  /** With distinct ids, a run for one user processes at most that one user. */
  lemma {:induction false} OneTarget(users: seq<User>, id: UserId)
    requires DistinctIds(users)
    ensures |Targets(users, Some(id))| <= 1
  {
    if users != [] {
      var init := users[..|users| - 1];
      var u := users[|users| - 1];
      OneTarget(init, id);
      if Targets(init, Some(id)) != [] {
        assert Targets(init, Some(id))[0] in Targets(init, Some(id));
      }
    }
  }

  /** The position of the first target with a failed fetch, or the number of targets. */
  function FirstFailing(ts: seq<User>, feed: Feed): (r: nat)
    ensures r <= |ts|
    ensures forall t :: 0 <= t < r ==> FirstMissing(ts[t].category, feed) == |ts[t].category|
    ensures r < |ts| ==> FirstMissing(ts[r].category, feed) < |ts[r].category|
  {
    if ts == [] then 0
    else if FirstMissing(ts[0].category, feed) < |ts[0].category| then 0
    else 1 + FirstFailing(ts[1..], feed)
  }

  /** How many targets the run processes: all of them, or up to and including the first failing one. */
  function RunLength(ts: seq<User>, feed: Feed): (n: nat)
    ensures n <= |ts|
    ensures FirstFailing(ts, feed) < |ts| ==> n == FirstFailing(ts, feed) + 1
    ensures FirstFailing(ts, feed) == |ts| ==> n == |ts|
  {
    Min(FirstFailing(ts, feed) + 1, |ts|)
  }

  /** Every target the run reached is covered as far as the run got with it. */
  predicate RunCovered(ts: seq<User>, feed: Feed, ss: seq<Summary>, es: seq<Entry>) {
    forall t :: 0 <= t < |ts| && t <= FirstFailing(ts, feed) ==> UserCovered(ts[t], feed, ss, es)
  }

  /**
   * `e` is, for one of the first `n` targets, that target's entry for the
   * summary of an item the run fetched for it.
   */
  predicate EntryOfTarget(e: Entry, ts: seq<User>, feed: Feed, now: int, ss: seq<Summary>, n: nat)
    requires n <= |ts| && forall t :: 0 <= t < |ts| ==> TimeStored(ts[t])
  {
    exists t :: 0 <= t < n && EntryFor(e, ts[t], now) && SummaryOf(ss, e.summaryId, ReachedItems(ts[t], feed))
  }

  /**
   * `fetchAndScheduleNews(forUserId)`. Summaries and entries are only ever
   * appended. The first failed fetch ends the whole run (`completed` is
   * false) and what was created before it stays; nothing is created for a
   * category or a target after it. Everything the run reached is scheduled
   * afterwards, and a run over stores that already cover it creates nothing.
   * Every created entry is a reached target's, for the summary of an item
   * fetched for that target, sent at its time of day strictly after `now`
   * and at most a day later.
   */
  method FetchAndSchedule(users: seq<User>, forUser: Option<UserId>, feed: Feed, now: int, ss: seq<Summary>, es: seq<Entry>)
    returns (ss': seq<Summary>, es': seq<Entry>, completed: bool)
    requires forall u :: u in users ==> TimeStored(u)
    requires StoresOk(ss, es)
    ensures forall t :: 0 <= t < |Targets(users, forUser)| ==> TimeStored(Targets(users, forUser)[t])
    ensures StoresOk(ss', es') && Extends(ss, ss') && Extends(es, es')
    ensures completed <==> FirstFailing(Targets(users, forUser), feed) == |Targets(users, forUser)|
    ensures RunCovered(Targets(users, forUser), feed, ss', es')
    ensures RunCovered(Targets(users, forUser), feed, ss, es) ==> ss' == ss && es' == es
    ensures NewSummariesReached(ss, ss', Targets(users, forUser), feed, RunLength(Targets(users, forUser), feed))
    ensures NewEntriesOk(es, es', Targets(users, forUser), feed, now, ss', RunLength(Targets(users, forUser), feed))
  {
    var ts := Targets(users, forUser);
    assert forall t :: 0 <= t < |ts| ==> ts[t] in ts;
    ss', es', completed := ScheduleTargets(ts, feed, now, ss, es);
  }

  /**
   * Every summary created since `ss` holds an item the run fetched for one
   * of the first `n` targets.
   */
  predicate NewSummariesReached(ss: seq<Summary>, ss': seq<Summary>, ts: seq<User>, feed: Feed, n: nat)
    requires n <= |ts|
  {
    forall k :: |ss| <= k < |ss'| ==> exists t :: 0 <= t < n && ss'[k].item in ReachedItems(ts[t], feed)
  }

  /**
   * Every entry created since `es` is one of the first `n` targets' entries,
   * sent after `now` and at most a day later.
   */
  predicate NewEntriesOk(es: seq<Entry>, es': seq<Entry>, ts: seq<User>, feed: Feed, now: int, ss': seq<Summary>, n: nat)
    requires n <= |ts| && forall t :: 0 <= t < |ts| ==> TimeStored(ts[t])
  {
    forall k :: |es| <= k < |es'| ==> now < es'[k].sendTime <= now + DayMs && EntryOfTarget(es'[k], ts, feed, now, ss', n)
  }

  lemma NewSummariesStep(ss: seq<Summary>, ss1: seq<Summary>, ss2: seq<Summary>, ts: seq<User>, feed: Feed, i: nat)
    requires i < |ts| && |ss| <= |ss1| && Extends(ss1, ss2)
    requires NewSummariesReached(ss, ss1, ts, feed, i) && NewSummariesFrom(ss1, ss2, ReachedItems(ts[i], feed))
    ensures NewSummariesReached(ss, ss2, ts, feed, i + 1)
  {
    forall k | |ss| <= k < |ss2|
      ensures exists t :: 0 <= t < i + 1 && ss2[k].item in ReachedItems(ts[t], feed)
    {
      if k < |ss1| {
        assert ss2[k] == ss1[k];
      } else {
        assert ss2[k].item in ReachedItems(ts[i], feed);
      }
    }
  }

  lemma NewEntriesStep(es: seq<Entry>, es1: seq<Entry>, es2: seq<Entry>, ss1: seq<Summary>, ss2: seq<Summary>,
                       ts: seq<User>, feed: Feed, i: nat, now: int)
    requires forall t :: 0 <= t < |ts| ==> TimeStored(ts[t])
    requires i < |ts| && Extends(es1, es2) && Extends(ss1, ss2) && |es| <= |es1|
    requires NewEntriesOk(es, es1, ts, feed, now, ss1, i)
    requires NewEntriesFrom(es1, es2, ts[i], now, ReachedItems(ts[i], feed), ss2)
    ensures NewEntriesOk(es, es2, ts, feed, now, ss2, i + 1)
  {
    forall k | |es| <= k < |es2|
      ensures now < es2[k].sendTime <= now + DayMs && EntryOfTarget(es2[k], ts, feed, now, ss2, i + 1)
    {
      if k < |es1| {
        assert es2[k] == es1[k];
        var t :| 0 <= t < i && EntryFor(es1[k], ts[t], now) && SummaryOf(ss1, es1[k].summaryId, ReachedItems(ts[t], feed));
        SummaryOfGrows(ss1, ss2, es1[k].summaryId, ReachedItems(ts[t], feed), ReachedItems(ts[t], feed));
      } else {
        assert EntryFor(es2[k], ts[i], now);
      }
    }
  }

  /** The first `n` targets are covered. */
  predicate CoveredBefore(ts: seq<User>, feed: Feed, n: nat, ss: seq<Summary>, es: seq<Entry>)
    requires n <= |ts|
  {
    forall t :: 0 <= t < n ==> UserCovered(ts[t], feed, ss, es)
  }

  lemma CoveredStep(ts: seq<User>, feed: Feed, i: nat, ss1: seq<Summary>, es1: seq<Entry>, ss2: seq<Summary>, es2: seq<Entry>)
    requires i < |ts| && Extends(ss1, ss2) && Extends(es1, es2)
    requires CoveredBefore(ts, feed, i, ss1, es1) && UserCovered(ts[i], feed, ss2, es2)
    ensures CoveredBefore(ts, feed, i + 1, ss2, es2)
  {
    forall t | 0 <= t < i
      ensures UserCovered(ts[t], feed, ss2, es2)
    {
      UserCoveredGrows(ts[t], feed, ss1, es1, ss2, es2);
    }
  }

  /** Covering every target up to and including the first failing one covers the run. */
  lemma RunCoveredByPrefix(ts: seq<User>, feed: Feed, n: nat, ss: seq<Summary>, es: seq<Entry>)
    requires n <= |ts| && CoveredBefore(ts, feed, n, ss, es)
    requires n == |ts| || n == FirstFailing(ts, feed) + 1
    ensures RunCovered(ts, feed, ss, es)
  {
  }

  /** The loop over the target users. */
  method ScheduleTargets(ts: seq<User>, feed: Feed, now: int, ss: seq<Summary>, es: seq<Entry>)
    returns (ss': seq<Summary>, es': seq<Entry>, completed: bool)
    requires forall t :: 0 <= t < |ts| ==> TimeStored(ts[t])
    requires StoresOk(ss, es)
    ensures StoresOk(ss', es') && Extends(ss, ss') && Extends(es, es')
    ensures completed <==> FirstFailing(ts, feed) == |ts|
    ensures RunCovered(ts, feed, ss', es')
    ensures RunCovered(ts, feed, ss, es) ==> ss' == ss && es' == es
    ensures NewSummariesReached(ss, ss', ts, feed, RunLength(ts, feed))
    ensures NewEntriesOk(es, es', ts, feed, now, ss', RunLength(ts, feed))
  {
    var stop := FirstFailing(ts, feed);
    ss', es' := ss, es;
    var i := 0;
    while i < |ts|
      invariant 0 <= i <= stop
      invariant StoresOk(ss', es') && Extends(ss, ss') && Extends(es, es')
      invariant CoveredBefore(ts, feed, i, ss', es')
      invariant RunCovered(ts, feed, ss, es) ==> ss' == ss && es' == es
      invariant NewSummariesReached(ss, ss', ts, feed, i)
      invariant NewEntriesOk(es, es', ts, feed, now, ss', i)
    {
      if RunCovered(ts, feed, ss, es) {
        assert UserCovered(ts[i], feed, ss', es');
      }
      var ss1, es1, ok := ScheduleUser(ts[i], feed, now, ss', es');
      CoveredStep(ts, feed, i, ss', es', ss1, es1);
      NewSummariesStep(ss, ss', ss1, ts, feed, i);
      NewEntriesStep(es, es', es1, ss', ss1, ts, feed, i, now);
      ExtendsTrans(ss, ss', ss1);
      ExtendsTrans(es, es', es1);
      ss', es' := ss1, es1;
      if !ok {
        RunCoveredByPrefix(ts, feed, i + 1, ss', es');
        return ss', es', false;
      }
      i := i + 1;
    }
    RunCoveredByPrefix(ts, feed, i, ss', es');
    completed := true;
  }

  /**
   * Two runs in a row over the same news: the second creates no summary and
   * no entry, whether or not the first ran to the end.
   */
  method RunTwice(users: seq<User>, forUser: Option<UserId>, feed: Feed, now1: int, now2: int, ss: seq<Summary>, es: seq<Entry>)
    returns (secondEntries: nat, secondSummaries: nat)
    requires forall u :: u in users ==> TimeStored(u)
    requires StoresOk(ss, es)
    ensures secondEntries == 0 && secondSummaries == 0
  {
    var ss1, es1, _ := FetchAndSchedule(users, forUser, feed, now1, ss, es);
    var ss2, es2, _ := FetchAndSchedule(users, forUser, feed, now2, ss1, es1);
    secondEntries := |es2| - |es1|;
    secondSummaries := |ss2| - |ss1|;
  }

  /**
   * A run over u1 (categories a, x) and u2 (category y) in which x fails to
   * fetch: whatever it creates is a summary of a's item and an entry of u1's;
   * nothing is created for u2.
   */
  lemma AbortedRunExample(u1: User, u2: User, i1: NewsItem, i2: NewsItem, feed: Feed, now: int,
                          ss: seq<Summary>, ss': seq<Summary>, es: seq<Entry>, es': seq<Entry>)
    requires u1.category == ["a", "x"] && u2.category == ["y"] && TimeStored(u1) && TimeStored(u2)
    requires feed == map["a" := [i1], "y" := [i2]]
    requires NewSummariesReached(ss, ss', [u1, u2], feed, RunLength([u1, u2], feed))
    requires NewEntriesOk(es, es', [u1, u2], feed, now, ss', RunLength([u1, u2], feed))
    ensures forall k :: |ss| <= k < |ss'| ==> ss'[k].item == i1
    ensures forall k :: |es| <= k < |es'| ==> es'[k].userId == u1.id
  {
    var ts := [u1, u2];
    assert FirstMissing(u1.category[1..], feed) == 0;
    assert FirstMissing(u1.category, feed) == 1;
    assert FirstFailing(ts, feed) == 0;
    assert FetchedItems(u1.category, feed, 0) == [];
    assert FetchedItems(u1.category, feed, 1) == [] + feed["a"];
    assert ReachedItems(u1, feed) == [i1];
  }

  /**
   * Without unique texts a covered item can still gain an entry: the text
   * lookup finds the first of two summaries, while the user's entry points
   * at the second.
   */
  lemma DuplicateTextsExample(u: User, i: NewsItem, t: int, m: seq<string>)
    ensures var ss := [Summary(1, i), Summary(2, i)];
      var es := [Entry(u.id, 2, t, m)];
      && Scheduled(u.id, i.summaryText, ss, es)
      && FindSummary(ss, i.summaryText) == Some(0)
      && !HasEntry(es, u.id, 1)
  {
    var ss := [Summary(1, i), Summary(2, i)];
    var es := [Entry(u.id, 2, t, m)];
    assert es[0].userId == u.id && es[0].summaryId == ss[1].id;
    assert HasEntry(es, u.id, ss[1].id);
    assert ss[0].item.summaryText == i.summaryText;
  }
}

/**
 * The bot's per-chat conversation: a step and a pending list per chat,
 * driven by inbound texts and button presses, reading and updating the
 * user directory.
 */
module Conversation {
  import opened Basics
  import opened Text
  import opened TimeOfDay
  import opened Directory
  import opened News
  import opened Delivery

  /** The values the step of a chat takes: the empty step and the four prompts. */
  datatype Step = Idle | AwaitingEmail | AwaitingPassword | AwaitingTime | AwaitingDelivery {
    /** The steps whose free text the message handler interprets. */
    predicate AwaitsText() {
      AwaitingEmail? || AwaitingPassword? || AwaitingTime?
    }
    /** The steps of a registration still in progress. */
    predicate Registering() {
      AwaitingEmail? || AwaitingPassword?
    }
  }

  /** The categories offered on the selection keyboard, in keyboard order. */
  const Categories: seq<string> := ["business", "entertainment", "general", "health", "science", "sports", "technology"]

  /** News items the bot sends per category on an instant request. */
  const BotCap: nat := 2

  const TogglePrefix: string := "toggle_"
  const DeliveryPrefix: string := "delivery_"

  // ---------------------------------------------------------------------
  // Pending category selections

  predicate NoDup(s: seq<string>) {
    forall i, j :: 0 <= i < j < |s| ==> s[i] != s[j]
  }

  /** `list.filter(x => x !== c)`. */
  function Without(s: seq<string>, c: string): (r: seq<string>)
    ensures forall x :: x in r <==> x in s && x != c
    ensures NoDup(s) ==> NoDup(r)
  {
    if s == [] then []
    else
      var rest := Without(s[1..], c);
      assert NoDup(s) ==> s[0] !in s[1..];
      if s[0] == c then rest else [s[0]] + rest
  }

  lemma {:induction false} WithoutAbsent(s: seq<string>, c: string)
    requires c !in s
    ensures Without(s, c) == s
  {
    if s != [] {
      WithoutAbsent(s[1..], c);
    }
  }

  lemma {:induction false} WithoutAppended(s: seq<string>, c: string)
    ensures Without(s + [c], c) == Without(s, c)
  {
    if s == [] {
      assert Without([c], c) == Without([], c);
    } else {
      assert (s + [c])[1..] == s[1..] + [c];
      WithoutAppended(s[1..], c);
    }
  }

  /** A `toggle_c` press: drops every `c` from the pending list if it is there, appends it otherwise. */
  function Toggled(sel: seq<string>, c: string): seq<string> {
    if c in sel then Without(sel, c) else sel + [c]
  }

  /** A toggle flips the membership of its category and of no other, and never creates a duplicate. */
  lemma ToggleFlips(sel: seq<string>, c: string)
    ensures c in Toggled(sel, c) <==> c !in sel
    ensures forall x :: x != c ==> (x in Toggled(sel, c) <==> x in sel)
    ensures NoDup(sel) ==> NoDup(Toggled(sel, c))
  {
  }

  /** Toggling twice restores the list exactly when the category was absent, and its members always. */
  lemma ToggleTwice(sel: seq<string>, c: string)
    ensures forall x :: x in Toggled(Toggled(sel, c), c) <==> x in sel
    ensures c !in sel ==> Toggled(Toggled(sel, c), c) == sel
  {
    if c !in sel {
      WithoutAppended(sel, c);
      WithoutAbsent(sel, c);
    }
  }

  // ---------------------------------------------------------------------
  // Keyboards

  datatype Button = Button(text: string, data: string)

  type Keyboard = seq<seq<Button>>

  /** The label of a category the pending list holds. */
  function CheckedLabel(cat: string): string {
    "\U{2705} " + cat
  }

  const DoneButton: Button := Button("\U{2705} Done", "done_categories")

  function CategoryButton(cat: string, sel: seq<string>): Button {
    Button(if cat in sel then CheckedLabel(cat) else cat, TogglePrefix + cat)
  }

  /**
   * `askCategories`: one row per category in fixed order, labelled as checked
   * exactly when the pending list holds it and pressing it toggles that
   * category, then a row that finishes the selection.
   */
  function CategoryKeyboard(sel: seq<string>): (kb: Keyboard)
    ensures |kb| == |Categories| + 1
    ensures forall i :: 0 <= i < |Categories| ==>
      |kb[i]| == 1 && Classify(kb[i][0].data) == Toggle(Categories[i])
      && (kb[i][0].text == CheckedLabel(Categories[i]) <==> Categories[i] in sel)
    ensures kb[|Categories|] == [DoneButton] && Classify(DoneButton.data) == FinishCategories
  {
    var rows := seq(|Categories|, i requires 0 <= i < |Categories| => [CategoryButton(Categories[i], sel)]);
    forall i | 0 <= i < |Categories|
      ensures Classify(rows[i][0].data) == Toggle(Categories[i])
      ensures rows[i][0].text == CheckedLabel(Categories[i]) <==> Categories[i] in sel
    {
      ClassifyToggle(Categories[i]);
      assert |CheckedLabel(Categories[i])| > |Categories[i]|;
    }
    NotPrefixed(DoneButton.data);
    rows + [[DoneButton]]
  }

  /** The keyboard depends only on which offered categories the pending list holds. */
  lemma KeyboardByMembership(a: seq<string>, b: seq<string>)
    requires forall i :: 0 <= i < |Categories| ==> (Categories[i] in a <==> Categories[i] in b)
    ensures CategoryKeyboard(a) == CategoryKeyboard(b)
  {
    var ka, kb := CategoryKeyboard(a), CategoryKeyboard(b);
    forall i | 0 <= i < |ka|
      ensures ka[i] == kb[i]
    {
    }
  }

  /** Toggling a category twice re-renders the identical keyboard. */
  lemma ToggleTwiceKeyboard(sel: seq<string>, c: string)
    ensures CategoryKeyboard(Toggled(Toggled(sel, c), c)) == CategoryKeyboard(sel)
  {
    ToggleTwice(sel, c);
    KeyboardByMembership(Toggled(Toggled(sel, c), c), sel);
  }

  // ---------------------------------------------------------------------
  // Button payloads

  /** What a button press asks for. */
  datatype Action =
    | GetInstantNews
    | Toggle(category: string)
    | FinishCategories
    | PickDelivery(deliveryMethod: string)
    | ChangeCategories
    | ChangeSchedule
    | ChangeDelivery
    | Unsubscribe
    | NoAction

  /** The callback handler's chain of tests on the payload, in its order (a missing payload is the empty string). */
  function Classify(data: string): Action {
    if data == "instant_news" then GetInstantNews
    else if StartsWith(data, TogglePrefix) then Toggle(data[|TogglePrefix|..])
    else if data == "done_categories" then FinishCategories
    else if StartsWith(data, DeliveryPrefix) then PickDelivery(data[|DeliveryPrefix|..])
    else if data == "change_categories" then ChangeCategories
    else if data == "change_schedule" then ChangeSchedule
    else if data == "change_delivery" then ChangeDelivery
    else if data == "unsubscribe" then Unsubscribe
    else NoAction
  }

  /** The payload the bot's buttons carry for each action. */
  function CallbackData(a: Action): string
    requires !a.NoAction?
  {
    match a
    case GetInstantNews => "instant_news"
    case Toggle(c) => TogglePrefix + c
    case FinishCategories => "done_categories"
    case PickDelivery(m) => DeliveryPrefix + m
    case ChangeCategories => "change_categories"
    case ChangeSchedule => "change_schedule"
    case ChangeDelivery => "change_delivery"
    case Unsubscribe => "unsubscribe"
  }

  lemma ClassifyToggle(c: string)
    ensures Classify(TogglePrefix + c) == Toggle(c)
  {
    var d := TogglePrefix + c;
    assert d[0] == 't';
    assert StartsWith(d, TogglePrefix) && d[|TogglePrefix|..] == c;
  }

  lemma ClassifyDelivery(m: string)
    ensures Classify(DeliveryPrefix + m) == PickDelivery(m)
  {
    var d := DeliveryPrefix + m;
    assert d[0] == 'd' && d[1] == 'e';
    assert !StartsWith(d, TogglePrefix);
    assert StartsWith(d, DeliveryPrefix) && d[|DeliveryPrefix|..] == m;
  }

  /** Every payload the bot puts on a button is read back as the action it stands for. */
  lemma ClassifyRoundTrip(a: Action)
    requires !a.NoAction?
    ensures Classify(CallbackData(a)) == a
  {
    match a
    case Toggle(c) => ClassifyToggle(c);
    case PickDelivery(m) => ClassifyDelivery(m);
    case GetInstantNews =>
    case FinishCategories => NotPrefixed("done_categories");
    case ChangeCategories => NotPrefixed("change_categories");
    case ChangeSchedule => NotPrefixed("change_schedule");
    case ChangeDelivery => NotPrefixed("change_delivery");
    case Unsubscribe => NotPrefixed("unsubscribe");
  }

  lemma NotPrefixed(d: string)
    requires |d| > 1 && d[0] != 't' && (d[0] != 'd' || d[1] != 'e')
    ensures !StartsWith(d, TogglePrefix) && !StartsWith(d, DeliveryPrefix)
  {
  }

  // ---------------------------------------------------------------------
  // Replies

  /** What the bot sends back; the wording of each message is not modelled. */
  datatype Reply =
    | Silent
    | ManagementMenu
    | AskEmail
    | EmailInUse
    | AskPassword
    | RegistrationError
    | ChooseCategories(selected: seq<string>)  // shown with CategoryKeyboard(selected)
    | InvalidTime
    | ChooseDelivery
    | SelectAtLeastOne
    | AskTime
    | RegistrationComplete(deliveryMethod: string)
    | Unsubscribed
    | NeedRegistration
    | NoCategoriesYet
    | NewsSent(count: nat)
    | HelpText

  /** The outcome of an instant news request from the bot, as its handlers decide it. */
  function NewsReply(users: seq<User>, chat: ChatId, feed: Feed): Reply {
    match FindLinked(users, chat)
    case None => NeedRegistration
    case Some(i) =>
      if users[i].category == [] then NoCategoriesYet
      else NewsSent(Count(users[i].category, feed, BotCap))
  }

  /** An instant request sends at most two items per category of the linked account. */
  lemma NewsReplyBound(users: seq<User>, chat: ChatId, feed: Feed)
    ensures NewsReply(users, chat, feed).NewsSent? ==>
      var i := FindLinked(users, chat).value;
      NewsReply(users, chat, feed).count <= BotCap * |users[i].category|
  {
    if FindLinked(users, chat).Some? {
      CountBound(users[FindLinked(users, chat).value].category, feed, BotCap);
    }
  }

  /** Inbound text the message handler returns on at once: none, empty, or a command. */
  predicate IgnoredText(text: Option<string>) {
    text.None? || text.value == "" || StartsWith(text.value, "/")
  }

  /** The email stashed at the front of a pending list, or the empty string when there is none. */
  function Stash(selections: map<ChatId, seq<string>>, chat: ChatId): string {
    if chat in selections && selections[chat] != [] then selections[chat][0] else ""
  }

  /**
   * Ids are distinct, each chat is linked to at most one record, a chat in
   * the middle of a registration is linked to none, and no pending list
   * holds a value twice.
   */
  ghost predicate Consistent(steps: map<ChatId, Step>, selections: map<ChatId, seq<string>>, users: seq<User>) {
    && WellFormed(users)
    && (forall c :: c in steps && steps[c].Registering() ==> FindLinked(users, c).None?)
    && (forall c :: c in selections ==> NoDup(selections[c]))
  }

  /** Moving one chat to a step keeps the state consistent unless it is a registering step of a linked chat. */
  lemma StepKeepsConsistent(steps: map<ChatId, Step>, selections: map<ChatId, seq<string>>, users: seq<User>, chat: ChatId, s: Step)
    requires Consistent(steps, selections, users)
    requires s.Registering() ==> FindLinked(users, chat).None?
    ensures Consistent(steps[chat := s], selections, users)
  {
  }

  /** Replacing or dropping one pending list by a duplicate-free one keeps the state consistent. */
  lemma SelectionKeepsConsistent(steps: map<ChatId, Step>, selections: map<ChatId, seq<string>>, users: seq<User>, chat: ChatId, l: seq<string>)
    requires Consistent(steps, selections, users)
    requires NoDup(l)
    ensures Consistent(steps, selections[chat := l], users)
    ensures Consistent(steps, selections - {chat}, users)
  {
  }

  /** A single-field update of the record linked to a chat keeps the state consistent. */
  lemma PatchKeepsConsistent(steps: map<ChatId, Step>, selections: map<ChatId, seq<string>>, users: seq<User>, chat: ChatId, p: Patch)
    requires Consistent(steps, selections, users)
    ensures Consistent(steps, selections, UpdateLinked(users, chat, p))
  {
    UpdateLinkedEffect(users, chat, p);
  }

  /**
   * Finishing a registration clears the chat's step and pending list; the
   * account it may create is linked to that chat only.
   */
  lemma RegistrationKeepsConsistent(steps: map<ChatId, Step>, selections: map<ChatId, seq<string>>, users: seq<User>, chat: ChatId, account: User)
    requires Consistent(steps, selections, users)
    requires chat in steps && steps[chat].Registering()
    requires account.id == NextUserId(users) && account.telegramId == Some(chat)
    ensures Consistent(steps[chat := Idle], selections - {chat}, users)
    ensures Consistent(steps[chat := Idle], selections - {chat}, users + [account])
  {
    var steps' := steps[chat := Idle];
    CreateLinkedEffect(users, account, chat);
    forall c | c in steps' && steps'[c].Registering()
      ensures FindLinked(users + [account], c).None?
    {
      assert c != chat && c in steps && steps[c] == steps'[c];
    }
  }

  /**
   * The process-wide conversation state: the step and the pending list of
   * every chat, and the user directory the handlers read and update.
   */
  class ChatBot {
    var steps: map<ChatId, Step>
    var selections: map<ChatId, seq<string>>
    var users: seq<User>
    const defaults: SchemaDefaults

    /** The state of the bot is consistent; see `Consistent`. */
    ghost predicate Valid()
      reads this
    {
      Consistent(steps, selections, users)
    }

    /** `userSelections[chatId]`, an absent list read as empty. */
    function Selected(chat: ChatId): seq<string>
      reads this
    {
      if chat in selections then selections[chat] else []
    }

    constructor (users0: seq<User>, d: SchemaDefaults)
      requires WellFormed(users0)
      ensures Valid()
      ensures steps == map[] && selections == map[] && users == users0 && defaults == d
    {
      steps, selections, users, defaults := map[], map[], users0, d;
    }

    /** The `/start` handler. */
    method Start(chat: ChatId) returns (reply: Reply)
      requires Valid()
      modifies this
      ensures Valid()
      ensures users == old(users) && selections == old(selections)
      ensures FindLinked(users, chat).Some? ==> steps == old(steps) && reply == ManagementMenu
      ensures FindLinked(users, chat).None? ==> steps == old(steps)[chat := AwaitingEmail] && reply == AskEmail
    {
      if FindLinked(users, chat).Some? {
        reply := ManagementMenu;
      } else {
        StepKeepsConsistent(steps, selections, users, chat, AwaitingEmail);
        steps := steps[chat := AwaitingEmail];
        reply := AskEmail;
      }
    }

    /** The `/news` handler, and the `instant_news` button: sends up to two items per category of the linked account. */
    method InstantNews(chat: ChatId, feed: Feed) returns (reply: Reply)
      ensures reply == NewsReply(users, chat, feed)
    {
      var found := FindLinked(users, chat);
      if found.None? {
        return NeedRegistration;
      }
      var cats := users[found.value].category;
      if cats == [] {
        return NoCategoriesYet;
      }
      var count, _ := Deliver(cats, feed, BotCap);
      reply := NewsSent(count);
    }

    /** The message handler: interprets free text, trimmed, according to the chat's step. */
    method OnMessage(chat: ChatId, text: Option<string>) returns (reply: Reply)
      requires Valid()
      modifies this
      ensures Valid()
      ensures IgnoredText(text) || chat !in old(steps) || !old(steps)[chat].AwaitsText() ==>
        steps == old(steps) && selections == old(selections) && users == old(users) && reply == Silent
      ensures !IgnoredText(text) && chat in old(steps) && old(steps)[chat] == AwaitingEmail ==>
        var email := Trim(text.value);
        && users == old(users)
        && (EmailTaken(old(users), email) ==>
              steps == old(steps) && selections == old(selections) && reply == EmailInUse)
        && (!EmailTaken(old(users), email) ==>
              && steps == old(steps)[chat := AwaitingPassword]
              && selections == old(selections)[chat := [email]]
              && reply == AskPassword)
      ensures !IgnoredText(text) && chat in old(steps) && old(steps)[chat] == AwaitingPassword ==>
        var email := Stash(old(selections), chat);
        && steps == old(steps)[chat := Idle]
        && selections == old(selections) - {chat}
        && (email == "" ==> users == old(users) && reply == RegistrationError)
        && (email != "" ==>
              && users == old(users) + [NewAccount(old(users), email, Trim(text.value), chat, defaults)]
              && reply == ChooseCategories([]))
      ensures !IgnoredText(text) && chat in old(steps) && old(steps)[chat] == AwaitingTime ==>
        var time := Trim(text.value);
        && selections == old(selections)
        && (ValidTime(time) ==>
              && users == UpdateLinked(old(users), chat, SetTime(time))
              && steps == old(steps)[chat := AwaitingDelivery]
              && reply == ChooseDelivery)
        && (!ValidTime(time) ==> users == old(users) && steps == old(steps) && reply == InvalidTime)
    {
      reply := Silent;
      if IgnoredText(text) || chat !in steps {
        return;
      }
      match steps[chat]
      case AwaitingEmail => reply := ReceiveEmail(chat, Trim(text.value));
      case AwaitingPassword => reply := ReceivePassword(chat, Trim(text.value));
      case AwaitingTime => reply := ReceiveTime(chat, Trim(text.value));
      case _ =>
    }

    /** The `awaiting_email` case: refuses an email already registered, otherwise stashes it and asks for a password. */
    method ReceiveEmail(chat: ChatId, email: string) returns (reply: Reply)
      requires Valid() && chat in steps && steps[chat] == AwaitingEmail
      modifies this
      ensures Valid()
      ensures users == old(users)
      ensures
        && (EmailTaken(old(users), email) ==>
              steps == old(steps) && selections == old(selections) && reply == EmailInUse)
        && (!EmailTaken(old(users), email) ==>
              && steps == old(steps)[chat := AwaitingPassword]
              && selections == old(selections)[chat := [email]]
              && reply == AskPassword)
    {
      if EmailTaken(users, email) {
        reply := EmailInUse;
      } else {
        StepKeepsConsistent(steps, selections, users, chat, AwaitingPassword);
        SelectionKeepsConsistent(steps[chat := AwaitingPassword], selections, users, chat, [email]);
        steps := steps[chat := AwaitingPassword];
        selections := selections[chat := [email]];
        reply := AskPassword;
      }
    }

    /**
     * The `awaiting_password` case: without a stashed email reports an error;
     * with one creates the account linked to this chat and offers the
     * categories. Either way the step is cleared and the pending list dropped.
     */
    method ReceivePassword(chat: ChatId, password: string) returns (reply: Reply)
      requires Valid() && chat in steps && steps[chat] == AwaitingPassword
      modifies this
      ensures Valid()
      ensures steps == old(steps)[chat := Idle]
      ensures selections == old(selections) - {chat}
      ensures var email := Stash(old(selections), chat);
        && (email == "" ==> users == old(users) && reply == RegistrationError)
        && (email != "" ==>
              && users == old(users) + [NewAccount(old(users), email, password, chat, defaults)]
              && reply == ChooseCategories([]))
    {
      var email := Stash(selections, chat);
      var account := NewAccount(users, email, password, chat, defaults);
      RegistrationKeepsConsistent(steps, selections, users, chat, account);
      var users' := if email == "" then users else users + [account];
      assert Consistent(steps[chat := Idle], selections - {chat}, users');
      steps, selections, users := steps[chat := Idle], selections - {chat}, users';
      reply := if email == "" then RegistrationError else ChooseCategories([]);
    }

    /** The `awaiting_time` case: stores an accepted time and asks for the delivery method, or asks again. */
    method ReceiveTime(chat: ChatId, time: string) returns (reply: Reply)
      requires Valid() && chat in steps && steps[chat] == AwaitingTime
      modifies this
      ensures Valid()
      ensures selections == old(selections)
      ensures
        && (ValidTime(time) ==>
              && users == UpdateLinked(old(users), chat, SetTime(time))
              && steps == old(steps)[chat := AwaitingDelivery]
              && reply == ChooseDelivery)
        && (!ValidTime(time) ==> users == old(users) && steps == old(steps) && reply == InvalidTime)
    {
      if ValidTime(time) {
        PatchKeepsConsistent(steps, selections, users, chat, SetTime(time));
        StepKeepsConsistent(steps, selections, UpdateLinked(users, chat, SetTime(time)), chat, AwaitingDelivery);
        users := UpdateLinked(users, chat, SetTime(time));
        steps := steps[chat := AwaitingDelivery];
        reply := ChooseDelivery;
      } else {
        reply := InvalidTime;
      }
    }

    /**
     * The callback handler: dispatches on the button payload. Only a toggle,
     * a finished selection, a delivery choice, a schedule change and an
     * unsubscribe change anything; a delivery choice also asks the scheduler
     * to run for the linked account when there is one.
     */
    method OnCallback(chat: ChatId, data: string, feed: Feed) returns (reply: Reply, scheduleRequested: bool)
      requires Valid()
      modifies this
      ensures Valid()
      ensures scheduleRequested <==> Classify(data).PickDelivery? && FindLinked(old(users), chat).Some?
      ensures match Classify(data)
        case GetInstantNews =>
          unchanged(this) && reply == NewsReply(users, chat, feed)
        case Toggle(c) =>
          var next := Toggled(old(Selected(chat)), c);
          && steps == old(steps) && users == old(users)
          && selections == old(selections)[chat := next]
          && reply == ChooseCategories(next)
        case FinishCategories =>
          var sel := old(Selected(chat));
          && (sel == [] ==> unchanged(this) && reply == SelectAtLeastOne)
          && (sel != [] ==>
                && users == UpdateLinked(old(users), chat, SetCategory(sel))
                && selections == old(selections) - {chat}
                && steps == old(steps)[chat := AwaitingTime]
                && reply == AskTime)
        case PickDelivery(m) =>
          && users == UpdateLinked(old(users), chat, SetDelivery(m))
          && steps == old(steps)[chat := Idle]
          && selections == old(selections)
          && reply == RegistrationComplete(m)
        case ChangeCategories =>
          unchanged(this) && reply == ChooseCategories(Selected(chat))
        case ChangeSchedule =>
          && steps == old(steps)[chat := AwaitingTime]
          && selections == old(selections) && users == old(users)
          && reply == AskTime
        case ChangeDelivery =>
          unchanged(this) && reply == ChooseDelivery
        case Unsubscribe =>
          && users == UpdateLinked(old(users), chat, SetSubscribed(false))
          && steps == old(steps) && selections == old(selections)
          && reply == Unsubscribed
        case NoAction =>
          unchanged(this) && reply == Silent
    {
      scheduleRequested := false;
      match Classify(data)
      case GetInstantNews =>
        reply := InstantNews(chat, feed);
      case Toggle(c) =>
        reply := ToggleCategory(chat, c);
      case FinishCategories =>
        reply := FinishSelection(chat);
      case PickDelivery(m) =>
        scheduleRequested := FindLinked(users, chat).Some?;
        PatchKeepsConsistent(steps, selections, users, chat, SetDelivery(m));
        StepKeepsConsistent(steps, selections, UpdateLinked(users, chat, SetDelivery(m)), chat, Idle);
        users := UpdateLinked(users, chat, SetDelivery(m));
        steps := steps[chat := Idle];
        reply := RegistrationComplete(m);
      case ChangeCategories =>
        reply := ChooseCategories(Selected(chat));
      case ChangeSchedule =>
        StepKeepsConsistent(steps, selections, users, chat, AwaitingTime);
        steps := steps[chat := AwaitingTime];
        reply := AskTime;
      case ChangeDelivery =>
        reply := ChooseDelivery;
      case Unsubscribe =>
        PatchKeepsConsistent(steps, selections, users, chat, SetSubscribed(false));
        users := UpdateLinked(users, chat, SetSubscribed(false));
        reply := Unsubscribed;
      case NoAction =>
        reply := Silent;
    }

    /** A `toggle_c` press: toggles `c` in the chat's pending list (creating it if absent) and re-renders the keyboard. */
    method ToggleCategory(chat: ChatId, c: string) returns (reply: Reply)
      requires Valid()
      modifies this
      ensures Valid()
      ensures steps == old(steps) && users == old(users)
      ensures selections == old(selections)[chat := Toggled(old(Selected(chat)), c)]
      ensures reply == ChooseCategories(Toggled(old(Selected(chat)), c))
    {
      var next := Toggled(Selected(chat), c);
      ToggleFlips(Selected(chat), c);
      SelectionKeepsConsistent(steps, selections, users, chat, next);
      selections := selections[chat := next];
      reply := ChooseCategories(next);
    }

    /**
     * The `done_categories` press: refuses an empty or absent pending list;
     * otherwise stores it as the linked account's categories, drops it and
     * asks for a time.
     */
    method FinishSelection(chat: ChatId) returns (reply: Reply)
      requires Valid()
      modifies this
      ensures Valid()
      ensures old(Selected(chat)) == [] ==> unchanged(this) && reply == SelectAtLeastOne
      ensures old(Selected(chat)) != [] ==>
        && users == UpdateLinked(old(users), chat, SetCategory(old(Selected(chat))))
        && selections == old(selections) - {chat}
        && steps == old(steps)[chat := AwaitingTime]
        && reply == AskTime
    {
      var sel := Selected(chat);
      if sel == [] {
        return SelectAtLeastOne;
      }
      var patched := UpdateLinked(users, chat, SetCategory(sel));
      PatchKeepsConsistent(steps, selections, users, chat, SetCategory(sel));
      SelectionKeepsConsistent(steps, selections, patched, chat, []);
      StepKeepsConsistent(steps, selections - {chat}, patched, chat, AwaitingTime);
      users := patched;
      selections := selections - {chat};
      steps := steps[chat := AwaitingTime];
      reply := AskTime;
    }

    /**
     * An inbound text message: the message handler runs, then each command
     * handler whose pattern (`/start`, `/news`, `/help`) occurs anywhere in
     * the text, in that order.
     */
    method Receive(chat: ChatId, text: Option<string>, feed: Feed) returns (replies: seq<Reply>)
      requires Valid()
      modifies this
      ensures Valid()
      ensures text.Some? && StartsWith(text.value, "/") && !Contains(text.value, "/start") ==>
        steps == old(steps) && selections == old(selections) && users == old(users)
      ensures text.Some? && StartsWith(text.value, "/") && Contains(text.value, "/start") ==>
        && selections == old(selections) && users == old(users)
        && steps == (if FindLinked(users, chat).Some? then old(steps) else old(steps)[chat := AwaitingEmail])
      ensures text.Some? && Contains(text.value, "/help") ==> |replies| >= 2 && replies[|replies| - 1] == HelpText
    {
      var r := OnMessage(chat, text);
      if text.Some? && StartsWith(text.value, "/") {
        assert IgnoredText(text);
      }
      var more := [];
      if text.Some? {
        more := Commands(chat, text.value, feed);
      }
      replies := [r] + more;
    }

    /**
     * The pattern handlers for one text, in registration order: `/start`,
     * `/news` and `/help`, each when its pattern occurs anywhere in the text.
     */
    method Commands(chat: ChatId, text: string, feed: Feed) returns (replies: seq<Reply>)
      requires Valid()
      modifies this
      ensures Valid()
      ensures !Contains(text, "/start") ==>
        steps == old(steps) && selections == old(selections) && users == old(users)
      ensures Contains(text, "/start") ==>
        && selections == old(selections) && users == old(users)
        && steps == (if FindLinked(users, chat).Some? then old(steps) else old(steps)[chat := AwaitingEmail])
      ensures Contains(text, "/help") ==> |replies| >= 1 && replies[|replies| - 1] == HelpText
    {
      replies := [];
      if Contains(text, "/start") {
        var r := Start(chat);
        replies := replies + [r];
      }
      if Contains(text, "/news") {
        var r := InstantNews(chat, feed);
        replies := replies + [r];
      }
      if Contains(text, "/help") {
        replies := replies + [HelpText];
      }
    }
  }
}

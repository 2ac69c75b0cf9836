/**
 The Telegram side of the bridge (telegram_bot.js): the handlers for `/start`,
 `/request_passkey`, `/verify`, `/link`, the callback queries and the admin
 commands, each one a step on the global `BOT_CONFIG` object. Messages the
 bot sends are returned as a list of `Outgoing` notices, and the events it
 emits towards the WhatsApp side as an `Event`.
 */
module TelegramBot {
  import opened Wrappers
  import opened Strings
  import Passkey

  /** An entry of a user's `deleted_messages` list, as the review buttons use it. */
  datatype DeletedMessage = DeletedMessage(id: string, to: string, body: Option<string>)

  /** A user record in the shape telegram_bot.js writes: `{active, numbers, deleted_messages}`. */
  datatype UserRecord = UserRecord(active: bool, numbers: seq<string>, deletedMessages: Option<seq<DeletedMessage>>)

  /** The value of `BOT_CONFIG`. */
  datatype BotState = BotState(
    users: map<string, UserRecord>,
    passkeys: map<string, string>,
    adminId: string,
    notifyAdminOnAccessAttempt: bool,
    passkeyLength: nat)

  datatype LinkMethod = Qr | Phone

  /** What the bot emits for the WhatsApp side (`link_whatsapp`, `unlink_whatsapp`). */
  datatype Event =
    | LinkWhatsApp(userId: string, number: string, via: LinkMethod)
    | UnlinkWhatsApp(userId: string, number: string)

  /** What a callback's data asks for. */
  datatype CallbackAction =
    | Link(number: string, via: LinkMethod)
    | Unlink(number: string)
    | Review(msgId: string, keep: bool)
    | Unknown

  /** The content of a message the bot sends; texts are left out, what they carry is kept. */
  datatype Notice =
    | NotRegistered
    | AccessAttempt(userId: string)
    | Welcome
    | AccessRequested(userId: string, key: string)
    | RequestSent
    | AccessGranted
    | InvalidPasskey
    | NotAuthorized
    | LinkChoice(number: string, buttons: seq<string>)
    | Linking(number: string, via: LinkMethod)
    | Unlinking(number: string)
    | MessageKept
    | MessagePurged
    | UserAdded(userId: string)
    | UserRemoved(userId: string)
    | UserInfo(record: UserRecord)
    | UserNotFound

  datatype Outgoing = Outgoing(chat: string, notice: Notice)

  /** The record `/verify` creates. */
  function ActiveRecord(): UserRecord {
    UserRecord(true, [], Some([]))
  }

  /** The record `/add_user` creates. */
  function InactiveRecord(): UserRecord {
    UserRecord(false, [], Some([]))
  }

  /** The gate of every user command: the id has a record, whatever its `active` flag. */
  predicate Registered(s: BotState, userId: string) {
    userId in s.users
  }

  /** `/verify`'s test: the key maps to exactly the caller's id. */
  predicate Redeemable(s: BotState, userId: string, key: string) {
    key in s.passkeys && s.passkeys[key] == userId
  }

  /** The admin gate: an exact match with `admin_id`. */
  predicate IsAdmin(s: BotState, userId: string) {
    userId == s.adminId
  }

  function KeyOwner(s: BotState, key: string): Option<string> {
    if key in s.passkeys then Some(s.passkeys[key]) else None
  }

  function Record(s: BotState, userId: string): Option<UserRecord> {
    if userId in s.users then Some(s.users[userId]) else None
  }

  /** Only the maps change: the admin id and the settings stay. */
  predicate SameSettings(r: BotState, s: BotState) {
    r.adminId == s.adminId && r.notifyAdminOnAccessAttempt == s.notifyAdminOnAccessAttempt
    && r.passkeyLength == s.passkeyLength
  }

  // -----------------------
  // Admission
  // -----------------------

  /** `/request_passkey` with the freshly generated `key`. */
  function AfterRequestPasskey(s: BotState, userId: string, key: string): (r: BotState)
    ensures Registered(s, userId) ==> r == s
    ensures !Registered(s, userId) ==> Redeemable(r, userId, key)
    ensures r.users == s.users && SameSettings(r, s)
    ensures forall k :: k != key ==> KeyOwner(r, k) == KeyOwner(s, k)
  {
    if userId in s.users then s else s.(passkeys := s.passkeys[key := userId])
  }

  /** `/verify key`. */
  function AfterVerify(s: BotState, userId: string, key: string): (r: BotState)
    ensures !Redeemable(s, userId, key) ==> r == s
    ensures Redeemable(s, userId, key) ==> Record(r, userId) == Some(ActiveRecord()) && KeyOwner(r, key) == None
    ensures forall u :: u != userId ==> Record(r, u) == Record(s, u)
    ensures forall k :: k != key ==> KeyOwner(r, k) == KeyOwner(s, k)
    ensures SameSettings(r, s)
  {
    if Redeemable(s, userId, key) then
      s.(users := s.users[userId := ActiveRecord()], passkeys := s.passkeys - {key})
    else s
  }

  /**
   The admission scenario: an unregistered id requests a passkey and redeems it;
   it ends up active with empty lists, and the key is consumed.
   */
  lemma RequestThenVerify(s: BotState, userId: string, key: string)
    requires !Registered(s, userId)
    ensures var r := AfterVerify(AfterRequestPasskey(s, userId, key), userId, key);
      && Record(r, userId) == Some(ActiveRecord())
      && r.passkeys == s.passkeys - {key}
      && r.users == s.users[userId := ActiveRecord()]
  {
  }

  /** A key is consumed once: after a successful `/verify` nobody can redeem it again. */
  lemma VerifyConsumesKey(s: BotState, userId: string, key: string, anyone: string)
    requires Redeemable(s, userId, key)
    ensures !Redeemable(AfterVerify(s, userId, key), anyone, key)
    ensures AfterVerify(AfterVerify(s, userId, key), anyone, key) == AfterVerify(s, userId, key)
  {
  }

  /**
   Passkeys are not checked for collisions: when a second requester draws the same
   key, the first requester's key is silently taken over.
   */
  lemma CollidingRequestRevokesKey(s: BotState, first: string, second: string, key: string)
    requires first != second && !Registered(s, first) && !Registered(s, second)
    ensures Redeemable(AfterRequestPasskey(s, first, key), first, key)
    ensures !Redeemable(AfterRequestPasskey(AfterRequestPasskey(s, first, key), second, key), first, key)
  {
  }

  // -----------------------
  // Admin commands
  // -----------------------

  /** `/add_user target`: overwrites any existing record with an inactive one. */
  function AfterAddUser(s: BotState, callerId: string, targetId: string): (r: BotState)
    ensures !IsAdmin(s, callerId) ==> r == s
    ensures IsAdmin(s, callerId) ==> Record(r, targetId) == Some(InactiveRecord())
    ensures forall u :: u != targetId ==> Record(r, u) == Record(s, u)
    ensures r.passkeys == s.passkeys && SameSettings(r, s)
  {
    if IsAdmin(s, callerId) then s.(users := s.users[targetId := InactiveRecord()]) else s
  }

  /** `/remove_user target`. */
  function AfterRemoveUser(s: BotState, callerId: string, targetId: string): (r: BotState)
    ensures !IsAdmin(s, callerId) ==> r == s
    ensures IsAdmin(s, callerId) ==> Record(r, targetId) == None
    ensures forall u :: u != targetId ==> Record(r, u) == Record(s, u)
    ensures r.passkeys == s.passkeys && SameSettings(r, s)
  {
    if IsAdmin(s, callerId) then s.(users := s.users - {targetId}) else s
  }

  /** Adding and then removing a target leaves no record for it; on a new id it gives back the state. */
  lemma AddThenRemoveLeavesNoRecord(s: BotState, targetId: string)
    ensures Record(AfterRemoveUser(AfterAddUser(s, s.adminId, targetId), s.adminId, targetId), targetId) == None
    ensures targetId !in s.users ==>
      AfterRemoveUser(AfterAddUser(s, s.adminId, targetId), s.adminId, targetId) == s
  {
    if targetId !in s.users {
      assert s.users[targetId := InactiveRecord()] - {targetId} == s.users;
    }
  }

  // -----------------------
  // Callback data
  // -----------------------

  /** The buttons `/link number` offers (telegram_bot.js:122-124). */
  function LinkKeyboard(number: string): seq<string> {
    ["link_qr_" + number, "link_num_" + number, "unlink_" + number]
  }

  /** The buttons offered for reviewing one deleted message. */
  function ReviewKeyboard(msgId: string): seq<string> {
    ["keep_" + msgId, "delete_" + msgId]
  }

  /** The callback data that asks for an action. */
  function ButtonData(a: CallbackAction): string {
    match a
    case Link(n, Qr) => "link_qr_" + n
    case Link(n, Phone) => "link_num_" + n
    case Unlink(n) => "unlink_" + n
    case Review(id, keep) => (if keep then "keep_" else "delete_") + id
    case Unknown => ""
  }

  /** The id in `keep_<id>` / `delete_<id>` as written: `data.split("_")[1]`. */
  function MessageIdAsWritten(data: string): string {
    var fields := Split(data, '_');
    if |fields| >= 2 then fields[1] else ""
  }

  /** The id in `keep_<id>` / `delete_<id>`: the data with its prefix removed, as the link branches do. */
  function MessageId(data: string): string {
    if StartsWith(data, "keep_") then ReplaceFirst(data, "keep_", "")
    else ReplaceFirst(data, "delete_", "")
  }

  /** The prefix dispatch of the `callback_query` handler. */
  function Route(data: string): (a: CallbackAction)
    ensures a != Unknown ==> ButtonData(a) == data
  {
    if StartsWith(data, "link_qr_") then
      ReplaceLeadingPattern(data, "link_qr_");
      Link(ReplaceFirst(data, "link_qr_", ""), Qr)
    else if StartsWith(data, "link_num_") then
      ReplaceLeadingPattern(data, "link_num_");
      Link(ReplaceFirst(data, "link_num_", ""), Phone)
    else if StartsWith(data, "unlink_") then
      ReplaceLeadingPattern(data, "unlink_");
      Unlink(ReplaceFirst(data, "unlink_", ""))
    else if StartsWith(data, "keep_") then
      ReplaceLeadingPattern(data, "keep_");
      Review(MessageId(data), true)
    else if StartsWith(data, "delete_") then
      ReplaceLeadingPattern(data, "delete_");
      Review(MessageId(data), false)
    else Unknown
  }

  /** Every button the bot offers routes back to the action it was made for. */
  lemma {:induction false} RouteButtonData(a: CallbackAction)
    requires a != Unknown
    ensures Route(ButtonData(a)) == a
  {
    var data := ButtonData(a);
    match a
    case Link(n, Qr) =>
      assert StartsWith(data, "link_qr_");
      ReplaceLeadingPattern(data, "link_qr_");
    case Link(n, Phone) =>
      assert data[5] == 'n';
      assert !StartsWith(data, "link_qr_") && StartsWith(data, "link_num_");
      ReplaceLeadingPattern(data, "link_num_");
    case Unlink(n) =>
      assert data[0] == 'u';
      assert StartsWith(data, "unlink_");
      ReplaceLeadingPattern(data, "unlink_");
    case Review(id, keep) =>
      if keep {
        assert data[0] == 'k';
        assert StartsWith(data, "keep_");
        ReplaceLeadingPattern(data, "keep_");
      } else {
        assert data[0] == 'd';
        assert StartsWith(data, "delete_");
        ReplaceLeadingPattern(data, "delete_");
      }
  }

  /** The `/link` keyboard offers exactly QR linking, phone-code linking and unlinking of that number. */
  lemma LinkKeyboardRoutes(number: string)
    ensures Route(LinkKeyboard(number)[0]) == Link(number, Qr)
    ensures Route(LinkKeyboard(number)[1]) == Link(number, Phone)
    ensures Route(LinkKeyboard(number)[2]) == Unlink(number)
  {
    RouteButtonData(Link(number, Qr));
    RouteButtonData(Link(number, Phone));
    RouteButtonData(Unlink(number));
  }

  /** The review keyboard keeps or purges exactly the message it was made for. */
  lemma ReviewKeyboardRoutes(msgId: string)
    ensures Route(ReviewKeyboard(msgId)[0]) == Review(msgId, true)
    ensures Route(ReviewKeyboard(msgId)[1]) == Review(msgId, false)
  {
    RouteButtonData(Review(msgId, true));
    RouteButtonData(Review(msgId, false));
  }

  /** `split("_")[1]` stops at the next underscore: it recovers the id only when the id has none. */
  lemma {:induction false} AsWrittenIdStopsAtUnderscore(keep: bool, msgId: string)
    ensures MessageIdAsWritten(ButtonData(Review(msgId, keep))) == Split(msgId, '_')[0]
    ensures MessageIdAsWritten(ButtonData(Review(msgId, keep))) == msgId <==> '_' !in msgId
  {
    var head := if keep then "keep" else "delete";
    assert ButtonData(Review(msgId, keep)) == head + ['_'] + msgId;
    SplitAtFirstSeparator(head, '_', msgId);
    if '_' !in msgId {
      SplitWithoutSeparator(msgId, '_');
    } else {
      var first := Split(msgId, '_')[0];
      assert '_' !in first;
    }
  }

  /** A concrete id the as-written split gets wrong: `keep_a_b` reviews `a`, not `a_b`. */
  lemma AsWrittenIdCounterexample()
    ensures MessageIdAsWritten("keep_a_b") == "a"
    ensures Route("keep_a_b") == Review("a_b", true)
  {
    var id := "a_b";
    assert ButtonData(Review(id, true)) == "keep_a_b";
    AsWrittenIdStopsAtUnderscore(true, id);
    assert id == "a" + ['_'] + "b";
    SplitAtFirstSeparator("a", '_', "b");
    RouteButtonData(Review(id, true));
  }

  /** On ids without an underscore, the as-written split and the prefix removal agree. */
  lemma AsWrittenAgreesWithoutUnderscore(keep: bool, msgId: string)
    requires '_' !in msgId
    ensures Route(ButtonData(Review(msgId, keep))) == Review(MessageIdAsWritten(ButtonData(Review(msgId, keep))), keep)
  {
    AsWrittenIdStopsAtUnderscore(keep, msgId);
    RouteButtonData(Review(msgId, keep));
  }

  /** `deleted_messages.filter(m => m.id !== msgId)` */
  function RemoveId(msgs: seq<DeletedMessage>, msgId: string): (r: seq<DeletedMessage>)
    ensures |r| <= |msgs|
    ensures forall m :: m in r <==> m in msgs && m.id != msgId
  {
    if msgs == [] then []
    else if msgs[0].id == msgId then RemoveId(msgs[1..], msgId)
    else [msgs[0]] + RemoveId(msgs[1..], msgId)
  }

  /** Filtering keeps the other entries in their order: it distributes over concatenation. */
  lemma {:induction false} RemoveIdConcat(a: seq<DeletedMessage>, b: seq<DeletedMessage>, msgId: string)
    ensures RemoveId(a + b, msgId) == RemoveId(a, msgId) + RemoveId(b, msgId)
  {
    if a == [] {
      assert a + b == b;
    } else {
      var ab := a + b;
      assert ab != [] && ab[0] == a[0] && ab[1..] == a[1..] + b;
      RemoveIdConcat(a[1..], b, msgId);
      if a[0].id != msgId {
        calc {
          RemoveId(ab, msgId);
          [a[0]] + RemoveId(a[1..] + b, msgId);
          [a[0]] + (RemoveId(a[1..], msgId) + RemoveId(b, msgId));
          ([a[0]] + RemoveId(a[1..], msgId)) + RemoveId(b, msgId);
        }
      }
    }
  }

  /** A list without the id is left as it is. */
  lemma {:induction false} RemoveIdAbsent(msgs: seq<DeletedMessage>, msgId: string)
    requires forall i :: 0 <= i < |msgs| ==> msgs[i].id != msgId
    ensures RemoveId(msgs, msgId) == msgs
  {
    if msgs != [] {
      RemoveIdAbsent(msgs[1..], msgId);
    }
  }

  /** Reviewing the same id twice is the same as reviewing it once. */
  lemma RemoveIdIdempotent(msgs: seq<DeletedMessage>, msgId: string)
    ensures RemoveId(RemoveId(msgs, msgId), msgId) == RemoveId(msgs, msgId)
  {
    var r := RemoveId(msgs, msgId);
    forall i | 0 <= i < |r| ensures r[i].id != msgId {
      assert r[i] in r;
    }
    RemoveIdAbsent(r, msgId);
  }

  /** `callback_query` on the state. */
  function AfterCallback(s: BotState, userId: string, data: string): (r: BotState)
    ensures !Registered(s, userId) || !Route(data).Review? ==> r == s
    ensures forall u :: u != userId ==> Record(r, u) == Record(s, u)
    ensures r.passkeys == s.passkeys && SameSettings(r, s)
    ensures Registered(s, userId) <==> Registered(r, userId)
    ensures Registered(s, userId) && Route(data).Review? ==>
      var before := s.users[userId].deletedMessages;
      var after := r.users[userId].deletedMessages;
      && before.None? == after.None?
      && (before.Some? ==> forall m :: m in after.value <==> m in before.value && m.id != Route(data).msgId)
  {
    if userId !in s.users then s
    else match Route(data)
      case Review(msgId, _) => Reviewed(s, userId, msgId)
      case _ => s
  }

  /** A registered user's review of `msgId`: the entries with that id leave its `deleted_messages`, if it has one. */
  function Reviewed(s: BotState, userId: string, msgId: string): BotState
    requires userId in s.users
  {
    var rec := s.users[userId];
    if rec.deletedMessages.None? then s
    else s.(users := s.users[userId := rec.(deletedMessages := Some(RemoveId(rec.deletedMessages.value, msgId)))])
  }

  /** What `callback_query` emits for the WhatsApp side. */
  function CallbackEvent(s: BotState, userId: string, data: string): (ev: Option<Event>)
    ensures ev.Some? <==> Registered(s, userId) && (Route(data).Link? || Route(data).Unlink?)
    ensures ev.Some? ==> ev.value.userId == userId && ev.value.number == Route(data).number
    ensures ev.Some? && Route(data).Link? ==> ev.value.LinkWhatsApp? && ev.value.via == Route(data).via
    ensures ev.Some? && Route(data).Unlink? ==> ev.value.UnlinkWhatsApp?
  {
    if userId !in s.users then None
    else match Route(data)
      case Link(number, via) => Some(LinkWhatsApp(userId, number, via))
      case Unlink(number) => Some(UnlinkWhatsApp(userId, number))
      case _ => None
  }

  /** `keep_` and `delete_` do the same to the list, and a repeated review is a no-op. */
  lemma ReviewIsIdempotent(s: BotState, userId: string, msgId: string, firstKeep: bool, thenKeep: bool)
    ensures var once := AfterCallback(s, userId, ButtonData(Review(msgId, firstKeep)));
      AfterCallback(once, userId, ButtonData(Review(msgId, thenKeep))) == once
    ensures AfterCallback(s, userId, ButtonData(Review(msgId, true)))
         == AfterCallback(s, userId, ButtonData(Review(msgId, false)))
  {
    ReviewData(s, userId, msgId, true);
    ReviewData(s, userId, msgId, false);
    var once := AfterCallback(s, userId, ButtonData(Review(msgId, firstKeep)));
    ReviewData(s, userId, msgId, firstKeep);
    ReviewData(once, userId, msgId, thenKeep);
    if userId in s.users && s.users[userId].deletedMessages.Some? {
      RemoveIdIdempotent(s.users[userId].deletedMessages.value, msgId);
    }
  }

  /** A review button's callback is the review of its message, whichever button it is. */
  lemma ReviewData(s: BotState, userId: string, msgId: string, keep: bool)
    ensures AfterCallback(s, userId, ButtonData(Review(msgId, keep)))
         == if userId in s.users then Reviewed(s, userId, msgId) else s
  {
    RouteButtonData(Review(msgId, keep));
  }

  /** For every registered caller, the `/link` buttons emit a QR link, a phone-code link and an unlink of that number. */
  lemma LinkKeyboardEmits(s: BotState, userId: string, number: string)
    requires Registered(s, userId)
    ensures CallbackEvent(s, userId, LinkKeyboard(number)[0]) == Some(LinkWhatsApp(userId, number, Qr))
    ensures CallbackEvent(s, userId, LinkKeyboard(number)[1]) == Some(LinkWhatsApp(userId, number, Phone))
    ensures CallbackEvent(s, userId, LinkKeyboard(number)[2]) == Some(UnlinkWhatsApp(userId, number))
  {
    LinkKeyboardRoutes(number);
  }

  /** The gate checks presence only: a user the admin added but who is not active can still link numbers. */
  lemma InactiveUserMayLink(s: BotState, userId: string, number: string)
    requires Record(s, userId) == Some(InactiveRecord())
    ensures CallbackEvent(s, userId, ButtonData(Link(number, Qr))) == Some(LinkWhatsApp(userId, number, Qr))
  {
    RouteButtonData(Link(number, Qr));
  }

  /** `BOT_CONFIG` with the handlers of telegram_bot.js. */
  class BotConfig {
    var users: map<string, UserRecord>
    var passkeys: map<string, string>
    var adminId: string
    var notifyAdminOnAccessAttempt: bool
    var passkeyLength: nat

    function State(): BotState
      reads this
    {
      BotState(users, passkeys, adminId, notifyAdminOnAccessAttempt, passkeyLength)
    }

    /** The configuration `loadConfig` writes when no config file exists. */
    constructor Defaults()
      ensures State() == BotState(map[], map[], "", true, 6)
    {
      users, passkeys, adminId := map[], map[], "";
      notifyAdminOnAccessAttempt, passkeyLength := true, 6;
    }

    method OnStart(userId: string, chatId: string) returns (out: seq<Outgoing>)
      ensures Registered(State(), userId) ==> out == [Outgoing(chatId, Welcome)]
      ensures !Registered(State(), userId) ==>
        out == [Outgoing(chatId, NotRegistered)]
             + (if notifyAdminOnAccessAttempt then [Outgoing(adminId, AccessAttempt(userId))] else [])
    {
      if userId !in users {
        out := [Outgoing(chatId, NotRegistered)];
        if notifyAdminOnAccessAttempt {
          out := out + [Outgoing(adminId, AccessAttempt(userId))];
        }
        return;
      }
      out := [Outgoing(chatId, Welcome)];
    }

    method OnRequestPasskey(userId: string, chatId: string, draws: seq<Passkey.Digit>) returns (out: seq<Outgoing>)
      requires |draws| == passkeyLength
      modifies this`passkeys
      ensures State() == AfterRequestPasskey(old(State()), userId, Passkey.DigitString(draws))
      ensures out == if Registered(old(State()), userId) then []
        else [Outgoing(adminId, AccessRequested(userId, Passkey.DigitString(draws))), Outgoing(chatId, RequestSent)]
    {
      out := [];
      if userId !in users {
        var key := Passkey.GeneratePasskey(passkeyLength, draws);
        passkeys := passkeys[key := userId];
        out := [Outgoing(adminId, AccessRequested(userId, key)), Outgoing(chatId, RequestSent)];
      }
    }

    method OnVerify(userId: string, chatId: string, key: string) returns (out: seq<Outgoing>)
      modifies this`users, this`passkeys
      ensures State() == AfterVerify(old(State()), userId, key)
      ensures out == [Outgoing(chatId, if Redeemable(old(State()), userId, key) then AccessGranted else InvalidPasskey)]
    {
      if key in passkeys && passkeys[key] == userId {
        users := users[userId := ActiveRecord()];
        passkeys := passkeys - {key};
        out := [Outgoing(chatId, AccessGranted)];
      } else {
        out := [Outgoing(chatId, InvalidPasskey)];
      }
    }

    method OnLink(userId: string, chatId: string, number: string) returns (out: seq<Outgoing>)
      ensures !Registered(State(), userId) ==> out == [Outgoing(chatId, NotAuthorized)]
      ensures Registered(State(), userId) ==> out == [Outgoing(chatId, LinkChoice(number, LinkKeyboard(number)))]
    {
      if userId !in users {
        return [Outgoing(chatId, NotAuthorized)];
      }
      out := [Outgoing(chatId, LinkChoice(number, ["link_qr_" + number, "link_num_" + number, "unlink_" + number]))];
    }

    method OnCallbackQuery(userId: string, chatId: string, data: string) returns (out: seq<Outgoing>, ev: Option<Event>)
      modifies this`users
      ensures State() == AfterCallback(old(State()), userId, data)
      ensures ev == CallbackEvent(old(State()), userId, data)
      ensures !Registered(old(State()), userId) ==> out == [Outgoing(chatId, NotAuthorized)]
      ensures Registered(old(State()), userId) ==>
        out == match Route(data)
          case Link(number, via) => [Outgoing(chatId, Linking(number, via))]
          case Unlink(number) => [Outgoing(chatId, Unlinking(number))]
          case Review(_, keep) =>
            if old(users)[userId].deletedMessages.None? then []
            else [Outgoing(chatId, if keep then MessageKept else MessagePurged)]
          case Unknown => []
    {
      ev := None;
      if userId !in users {
        out := [Outgoing(chatId, NotAuthorized)];
        return;
      }
      out := [];
      if StartsWith(data, "link_qr_") {
        var number := ReplaceFirst(data, "link_qr_", "");
        out := [Outgoing(chatId, Linking(number, Qr))];
        ev := Some(LinkWhatsApp(userId, number, Qr));
      } else if StartsWith(data, "link_num_") {
        var number := ReplaceFirst(data, "link_num_", "");
        out := [Outgoing(chatId, Linking(number, Phone))];
        ev := Some(LinkWhatsApp(userId, number, Phone));
      } else if StartsWith(data, "unlink_") {
        var number := ReplaceFirst(data, "unlink_", "");
        out := [Outgoing(chatId, Unlinking(number))];
        ev := Some(UnlinkWhatsApp(userId, number));
      } else if StartsWith(data, "keep_") || StartsWith(data, "delete_") {
        var userData := users[userId];
        if userData.deletedMessages.None? {
          return;
        }
        var msgId := MessageId(data);
        var kept := RemoveId(userData.deletedMessages.value, msgId);
        users := users[userId := userData.(deletedMessages := Some(kept))];
        out := [Outgoing(chatId, if StartsWith(data, "keep_") then MessageKept else MessagePurged)];
      }
    }

    method OnAddUser(callerId: string, chatId: string, targetId: string) returns (out: seq<Outgoing>)
      modifies this`users
      ensures State() == AfterAddUser(old(State()), callerId, targetId)
      ensures out == if IsAdmin(old(State()), callerId) then [Outgoing(chatId, UserAdded(targetId))] else []
    {
      if callerId != adminId {
        return [];
      }
      users := users[targetId := InactiveRecord()];
      out := [Outgoing(chatId, UserAdded(targetId))];
    }

    method OnRemoveUser(callerId: string, chatId: string, targetId: string) returns (out: seq<Outgoing>)
      modifies this`users
      ensures State() == AfterRemoveUser(old(State()), callerId, targetId)
      ensures out == if IsAdmin(old(State()), callerId) then [Outgoing(chatId, UserRemoved(targetId))] else []
    {
      if callerId != adminId {
        return [];
      }
      users := users - {targetId};
      out := [Outgoing(chatId, UserRemoved(targetId))];
    }

    method OnViewUser(callerId: string, chatId: string, targetId: string) returns (out: seq<Outgoing>)
      ensures !IsAdmin(State(), callerId) ==> out == []
      ensures IsAdmin(State(), callerId) ==>
        out == [Outgoing(chatId, if targetId in users then UserInfo(users[targetId]) else UserNotFound)]
    {
      if callerId != adminId {
        return [];
      }
      var userInfo := Record(State(), targetId);
      out := [Outgoing(chatId, if userInfo.Some? then UserInfo(userInfo.value) else UserNotFound)];
    }
  }
}

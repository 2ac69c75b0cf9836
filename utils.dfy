/**
 The shared helpers of utils.js, acting on its module-level `CONFIG` object and
 on the per-number deleted-message files: user records with an activity log,
 passkeys, the capped deleted-message log, and the session-file name listing.
 Timestamps (`new Date().toISOString()`) and random digits are parameters.
 */
module Utils {
  import opened Wrappers
  import opened Strings
  import Passkey

  /** One `{time, message}` entry of a user's activity log. */
  datatype Activity = Activity(time: string, message: string)

  /** A user record in the shape utils.js writes: `{numbers, activity_log, active}`. */
  datatype User = User(numbers: seq<string>, activityLog: seq<Activity>, active: bool)

  /** A WhatsApp message as the socket delivers it: its key `{id, remoteJid, fromMe}` and its content, if any. */
  datatype WaMessage = WaMessage(id: string, remoteJid: string, fromMe: bool, content: Option<string>)

  /** One `{time, message}` entry of a number's deleted-message file. */
  datatype DeletedEntry = DeletedEntry(time: string, message: WaMessage)

  /** The record `addUser` creates. */
  function NewUser(): User {
    User([], [], false)
  }

  /**
   `validatePasskey`'s test: the key maps to a truthy user id equal to the caller's.
   An empty stored id is falsy in JavaScript and is refused.
   */
  predicate Redeemable(passkeys: map<string, string>, userId: string, key: string) {
    key in passkeys && passkeys[key] != "" && passkeys[key] == userId
  }

  /** A key issued to a non-empty id can be redeemed by that id, and redeeming it takes back exactly that entry. */
  lemma AssignThenValidate(passkeys: map<string, string>, userId: string, key: string)
    requires userId != ""
    ensures Redeemable(passkeys[key := userId], userId, key)
    ensures passkeys[key := userId] - {key} == passkeys - {key}
  {
  }

  /** A redeemed key is gone: nobody can redeem it a second time. */
  lemma ValidateConsumesKey(passkeys: map<string, string>, userId: string, key: string, anyone: string)
    requires Redeemable(passkeys, userId, key)
    ensures !Redeemable(passkeys - {key}, anyone, key)
  {
  }

  /** A key that maps to someone else cannot be redeemed. */
  lemma OtherUsersKeyRefused(passkeys: map<string, string>, userId: string, key: string)
    requires key in passkeys && passkeys[key] != userId
    ensures !Redeemable(passkeys, userId, key)
  {
  }

  /** `removeUser` undoes `addUser` on an id that was not yet present. */
  lemma RemoveUndoesAdd(users: map<string, User>, userId: string)
    requires userId !in users
    ensures users[userId := NewUser()] - {userId} == users
  {
  }

  // -----------------------
  // Deleted-message log
  // -----------------------

  /** The last `n` elements of `s` (all of `s` when it is not longer than `n`). */
  function KeepLast<T>(s: seq<T>, n: nat): (r: seq<T>)
    ensures |r| == if |s| <= n then |s| else n
    ensures r == s[|s| - |r|..]
  {
    if |s| <= n then s else s[|s| - n..]
  }

  /** Below the limit, saving an entry is a plain append. */
  lemma SaveBelowLimitAppends<T>(log: seq<T>, entry: T, limit: nat)
    requires |log| < limit
    ensures KeepLast(log + [entry], limit) == log + [entry]
  {
  }

  /** With room for at least one entry, the entry just saved is the newest one kept. */
  lemma SaveKeepsNewest<T>(log: seq<T>, entry: T, limit: nat)
    requires limit > 0
    ensures KeepLast(log + [entry], limit) != []
    ensures KeepLast(log + [entry], limit)[|KeepLast(log + [entry], limit)| - 1] == entry
  {
  }

  /**
   Capping is forgetful in the FIFO sense: capping a history and then appending
   more entries and capping again keeps what capping the whole history keeps.
   */
  lemma {:induction false} KeepLastOfKeepLast<T>(history: seq<T>, more: seq<T>, n: nat)
    ensures KeepLast(KeepLast(history, n) + more, n) == KeepLast(history + more, n)
  {
    if |history| > n {
      var h := history[|history| - n..];
      assert KeepLast(history, n) == h;
      var whole := history + more;
      var s := h + more;
      var left, right := KeepLast(s, n), KeepLast(whole, n);
      assert |left| == n && |right| == n;
      forall i | 0 <= i < n
        ensures left[i] == right[i]
      {
        assert left[i] == s[|more| + i];
        assert right[i] == whole[|history| - n + |more| + i];
        if |more| + i < n {
          assert s[|more| + i] == h[|more| + i] == history[|history| - n + |more| + i];
        } else {
          assert s[|more| + i] == more[|more| + i - n];
        }
      }
    }
  }

  /** The saved entries of a number; a missing file reads as empty. */
  function LogOf(logs: map<string, seq<DeletedEntry>>, number: string): seq<DeletedEntry> {
    if number in logs then logs[number] else []
  }

  /** Where `messages.slice(start)` begins: a negative start counts back from the end, and `-0` is `0`. */
  function SliceStart(start: int, len: nat): (i: nat)
    ensures i <= len
  {
    if start < 0 then (if len + start < 0 then 0 else len + start)
    else if start > len then len
    else start
  }

  /** The cap of utils.js:140 as written: `messages.slice(-limit)` once the log is longer than the limit. */
  function CappedAsWritten<T>(messages: seq<T>, limit: nat): seq<T> {
    if |messages| > limit then messages[SliceStart(-(limit as int), |messages|)..] else messages
  }

  /** With a limit of 0, `slice(-0)` is `slice(0)`: nothing is dropped and the log exceeds its limit. */
  lemma ZeroLimitKeepsEverything<T>(log: seq<T>, entry: T)
    ensures CappedAsWritten(log + [entry], 0) == log + [entry]
    ensures |CappedAsWritten(log + [entry], 0)| > 0
  {
  }

  /** For every positive limit the cap as written keeps the last `limit` entries. */
  lemma AsWrittenAgreesForPositiveLimit<T>(messages: seq<T>, limit: nat)
    requires limit > 0
    ensures CappedAsWritten(messages, limit) == KeepLast(messages, limit)
  {
  }

  // -----------------------
  // Session files
  // -----------------------

  /** `path.basename(f, suffix)` for a directory entry that ends with the suffix. */
  function StripSuffix(f: string, suffix: string): string
    requires EndsWith(f, suffix)
  {
    f[..|f| - |suffix|]
  }

  /** The `.filter(f => f.endsWith(".json")).map(f => path.basename(f, ".json"))` of `listWhatsAppSessions`. */
  function SessionNames(entries: seq<string>): (names: seq<string>)
    ensures |names| <= |entries|
    ensures forall i :: 0 <= i < |names| ==> names[i] + ".json" in entries
  {
    if entries == [] then []
    else
      var rest := SessionNames(entries[1..]);
      if EndsWith(entries[0], ".json") then
        var f := entries[0];
        assert StripSuffix(f, ".json") + ".json" == f;
        [StripSuffix(f, ".json")] + rest
      else rest
  }

  /** A name is listed exactly when the directory holds that name with `.json` appended. */
  lemma {:induction false} SessionNamesExact(entries: seq<string>, name: string)
    ensures name in SessionNames(entries) <==> name + ".json" in entries
  {
    if entries != [] {
      SessionNamesExact(entries[1..], name);
      var f := entries[0];
      if f == name + ".json" {
        assert EndsWith(f, ".json");
        assert StripSuffix(f, ".json") == name;
      } else if EndsWith(f, ".json") {
        assert StripSuffix(f, ".json") + ".json" == f;
      }
      assert entries == [f] + entries[1..];
    }
  }

  /** The module-level `CONFIG` of utils.js together with the deleted-message files it governs. */
  class Config {
    var users: map<string, User>
    var passkeys: map<string, string>
    var passkeyLength: nat
    var logUserActivity: bool
    var logDeletedMessages: bool
    var deletedMessagesLimit: nat
    /** `auto_delete`: absent from the defaults, so falsy unless the config file sets it. */
    var autoDelete: bool
    /** The files under `deleted_messages_path`: number -> its saved entries. */
    var deletedLogs: map<string, seq<DeletedEntry>>

    /** The configuration `loadConfig` writes when no config file exists. */
    constructor Defaults()
      ensures users == map[] && passkeys == map[] && passkeyLength == 6
      ensures logUserActivity && logDeletedMessages && deletedMessagesLimit == 1000
      ensures !autoDelete && deletedLogs == map[]
    {
      users, passkeys, passkeyLength := map[], map[], 6;
      logUserActivity, logDeletedMessages, deletedMessagesLimit := true, true, 1000;
      autoDelete, deletedLogs := false, map[];
    }

    function GetUser(userId: string): (r: Option<User>)
      reads this
      ensures r.Some? <==> userId in users
      ensures r.Some? ==> r.value == users[userId]
    {
      if userId in users then Some(users[userId]) else None
    }

    method AddUser(userId: string) returns (added: bool)
      modifies this`users
      ensures added <==> userId !in old(users)
      ensures users == if added then old(users)[userId := NewUser()] else old(users)
    {
      if userId in users {
        return false;
      }
      users := users[userId := NewUser()];
      added := true;
    }

    method RemoveUser(userId: string) returns (removed: Option<User>)
      modifies this`users
      ensures removed == old(GetUser(userId))
      ensures userId !in users
      ensures users == old(users) - {userId}
    {
      removed := GetUser(userId);
      users := users - {userId};
    }

    method LogUserActivity(userId: string, message: string, time: string)
      modifies this`users
      ensures !logUserActivity || userId !in old(users) ==> users == old(users)
      ensures logUserActivity && userId in old(users) ==>
        users == old(users)[userId := old(users)[userId].(activityLog := old(users)[userId].activityLog + [Activity(time, message)])]
    {
      if !logUserActivity {
        return;
      }
      var user := GetUser(userId);
      if user.Some? {
        users := users[userId := user.value.(activityLog := user.value.activityLog + [Activity(time, message)])];
      }
    }

    method AssignPasskey(userId: string, draws: seq<Passkey.Digit>) returns (key: string)
      requires |draws| == passkeyLength
      modifies this`passkeys
      ensures Passkey.IsPasskey(key, passkeyLength)
      ensures key == Passkey.DigitString(draws)
      ensures passkeys == old(passkeys)[key := userId]
    {
      key := Passkey.GeneratePasskey(passkeyLength, draws);
      passkeys := passkeys[key := userId];
    }

    method ValidatePasskey(userId: string, key: string) returns (valid: bool)
      modifies this`passkeys
      ensures valid <==> Redeemable(old(passkeys), userId, key)
      ensures passkeys == if valid then old(passkeys) - {key} else old(passkeys)
    {
      if !(key in passkeys && passkeys[key] != "") || userId != passkeys[key] {
        return false;
      }
      passkeys := passkeys - {key};
      valid := true;
    }

    method SaveDeletedMessage(number: string, message: WaMessage, time: string)
      modifies this`deletedLogs
      ensures !logDeletedMessages ==> deletedLogs == old(deletedLogs)
      ensures logDeletedMessages ==>
        deletedLogs == old(deletedLogs)[number := KeepLast(LogOf(old(deletedLogs), number) + [DeletedEntry(time, message)], deletedMessagesLimit)]
    {
      if !logDeletedMessages {
        return;
      }
      var messages := LogOf(deletedLogs, number);
      messages := messages + [DeletedEntry(time, message)];
      if |messages| > deletedMessagesLimit {
        messages := messages[|messages| - deletedMessagesLimit..];
      }
      deletedLogs := deletedLogs[number := messages];
    }
  }
}

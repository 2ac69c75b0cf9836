/**
 The WhatsApp side of the bridge (whatsapp_bot.js): the static session registry
 of `WhatsAppManager`, user id -> phone number -> socket, with starting,
 stopping, listing and the bookkeeping of the socket's connection and message
 events. Socket creation, logout and the network delete call are external: their
 outcomes are parameters.
 */
module WhatsAppBot {
  import opened Wrappers
  import Utils
  import TelegramBot

  /** A live socket, opaque; instances are told apart by a number. */
  datatype Socket = Socket(instance: nat)

  /** `activeSessions`: user id -> number -> socket. */
  type Registry = map<string, map<string, Socket>>

  /** The socket registered for a (user, number) pair, if any. */
  function Lookup(reg: Registry, userId: string, number: string): Option<Socket> {
    if userId in reg && number in reg[userId] then Some(reg[userId][number]) else None
  }

  /** What `startSession` did. */
  datatype StartResult = AlreadyRunning | Started(sock: Socket) | Failed

  /**
   `startSession` on the registry. `created` is the socket the WhatsApp library
   hands back, or `None` when setting it up throws. The user's inner map is
   created first, so it stays even when the setup throws.
   */
  function AfterStart(reg: Registry, userId: string, number: string, created: Option<Socket>): (r: Registry)
    ensures userId in r
    ensures Lookup(reg, userId, number).Some? ==> r == reg
    ensures Lookup(reg, userId, number).None? ==> Lookup(r, userId, number) == created
    ensures forall u, n :: u != userId || n != number ==> Lookup(r, u, n) == Lookup(reg, u, n)
  {
    var withUser := if userId in reg then reg else reg[userId := map[]];
    if number in withUser[userId] then withUser
    else match created
      case None => withUser
      case Some(sock) => withUser[userId := withUser[userId][number := sock]]
  }

  function StartOutcome(reg: Registry, userId: string, number: string, created: Option<Socket>): StartResult {
    if Lookup(reg, userId, number).Some? then AlreadyRunning
    else if created.Some? then Started(created.value)
    else Failed
  }

  /** Dropping a pair from the registry (`delete activeSessions[userId][number]`). */
  function Deregister(reg: Registry, userId: string, number: string): (r: Registry)
    ensures Lookup(r, userId, number) == None
    ensures forall u, n :: u != userId || n != number ==> Lookup(r, u, n) == Lookup(reg, u, n)
    ensures r.Keys == reg.Keys
  {
    if userId in reg then reg[userId := reg[userId] - {number}] else reg
  }

  /** Two starts in a row for one pair leave one socket: the second start changes nothing. */
  lemma StartTwiceKeepsOneSocket(reg: Registry, userId: string, number: string, first: Option<Socket>, second: Option<Socket>)
    ensures var once := AfterStart(reg, userId, number, first);
      Lookup(once, userId, number).Some? ==>
        StartOutcome(once, userId, number, second) == AlreadyRunning
        && AfterStart(once, userId, number, second) == once
  {
  }

  /** Stopping a freshly started pair removes its socket and leaves every other pair as it was before the start. */
  lemma StopUndoesStart(reg: Registry, userId: string, number: string, created: Option<Socket>)
    requires Lookup(reg, userId, number).None?
    ensures var r := Deregister(AfterStart(reg, userId, number, created), userId, number);
      forall u, n :: Lookup(r, u, n) == Lookup(reg, u, n)
  {
  }

  // -----------------------
  // Restoring sessions at startup
  // -----------------------

  /** `Object.entries(users)` lists every user once, in some order. */
  predicate IsEnumeration(order: seq<string>, users: map<string, Utils.User>) {
    && (forall i :: 0 <= i < |order| ==> order[i] in users)
    && (forall u :: u in users ==> u in order)
    && (forall i, j :: 0 <= i < j < |order| ==> order[i] != order[j])
  }

  /** The (user, number) pairs of one user, in the order of its numbers. */
  function Row(userId: string, numbers: seq<string>): (row: seq<(string, string)>)
    ensures |row| == |numbers|
    ensures forall j :: 0 <= j < |numbers| ==> row[j] == (userId, numbers[j])
  {
    seq(|numbers|, j requires 0 <= j < |numbers| => (userId, numbers[j]))
  }

  /** The pairs the nested loop of `startAllSessions` visits, in order. */
  function Pairs(users: map<string, Utils.User>, order: seq<string>): seq<(string, string)>
    requires forall i :: 0 <= i < |order| ==> order[i] in users
  {
    if order == [] then [] else Row(order[0], users[order[0]].numbers) + Pairs(users, order[1..])
  }

  /** The pairs visited are exactly the numbers of the listed users. */
  lemma {:induction false} PairsExact(users: map<string, Utils.User>, order: seq<string>, userId: string, number: string)
    requires forall i :: 0 <= i < |order| ==> order[i] in users
    ensures (userId, number) in Pairs(users, order) <==> userId in order && number in users[userId].numbers
  {
    if order != [] {
      PairsExact(users, order[1..], userId, number);
      var row := Row(order[0], users[order[0]].numbers);
      if (userId, number) in row {
        var j :| 0 <= j < |row| && row[j] == (userId, number);
      }
      if userId == order[0] && number in users[userId].numbers {
        var j :| 0 <= j < |users[userId].numbers| && users[userId].numbers[j] == number;
        assert row[j] == (userId, number);
      }
      assert order == [order[0]] + order[1..];
    }
  }

  /**
   Running `startSession` over the pairs in order; there is no try/catch, so the
   first start that throws ends the run. The flag tells whether the run completed.
   */
  function RunStarts(reg: Registry, pairs: seq<(string, string)>, created: seq<Option<Socket>>): (Registry, bool)
    requires |created| == |pairs|
    decreases |pairs|
  {
    if pairs == [] then (reg, true)
    else
      var next := AfterStart(reg, pairs[0].0, pairs[0].1, created[0]);
      if StartOutcome(reg, pairs[0].0, pairs[0].1, created[0]).Failed? then (next, false)
      else RunStarts(next, pairs[1..], created[1..])
  }

  /** The pairs from the i-th listed user on: that user's row, then the rest. */
  lemma PairsFrom(users: map<string, Utils.User>, order: seq<string>, i: nat)
    requires forall i :: 0 <= i < |order| ==> order[i] in users
    requires i < |order|
    ensures Pairs(users, order[i..]) == Row(order[i], users[order[i]].numbers) + Pairs(users, order[i + 1..])
  {
    assert order[i..][1..] == order[i + 1..];
  }

  /** Stepping through a row: the next pair is the j-th number, followed by the rest of the row. */
  lemma RowStep(userId: string, numbers: seq<string>, j: nat, tail: seq<(string, string)>)
    requires j < |numbers|
    ensures var rest := Row(userId, numbers)[j..] + tail;
      rest[0] == (userId, numbers[j]) && rest[1..] == Row(userId, numbers)[j + 1..] + tail
  {
    var row := Row(userId, numbers);
    assert (row[j..] + tail)[1..] == row[j + 1..] + tail;
  }

  /** One step of a run: the first start either throws and ends it, or the run goes on from there. */
  lemma RunStartsStep(reg: Registry, pairs: seq<(string, string)>, created: seq<Option<Socket>>)
    requires |created| == |pairs| > 0
    ensures var next := AfterStart(reg, pairs[0].0, pairs[0].1, created[0]);
      RunStarts(reg, pairs, created)
      == if StartOutcome(reg, pairs[0].0, pairs[0].1, created[0]).Failed? then (next, false)
         else RunStarts(next, pairs[1..], created[1..])
  {
  }

  /** Starting never removes or replaces a registered socket. */
  lemma {:induction false} RunStartsKeepsRegistered(reg: Registry, pairs: seq<(string, string)>, created: seq<Option<Socket>>, userId: string, number: string)
    requires |created| == |pairs|
    requires Lookup(reg, userId, number).Some?
    ensures Lookup(RunStarts(reg, pairs, created).0, userId, number) == Lookup(reg, userId, number)
    decreases |pairs|
  {
    if pairs != [] {
      var next := AfterStart(reg, pairs[0].0, pairs[0].1, created[0]);
      if !StartOutcome(reg, pairs[0].0, pairs[0].1, created[0]).Failed? {
        RunStartsKeepsRegistered(next, pairs[1..], created[1..], userId, number);
      }
    }
  }

  /** A completed run leaves a socket registered for every pair it visited. */
  lemma {:induction false} RunStartsRegistersAll(reg: Registry, pairs: seq<(string, string)>, created: seq<Option<Socket>>)
    requires |created| == |pairs|
    requires RunStarts(reg, pairs, created).1
    ensures forall i :: 0 <= i < |pairs| ==> Lookup(RunStarts(reg, pairs, created).0, pairs[i].0, pairs[i].1).Some?
    decreases |pairs|
  {
    if pairs != [] {
      var next := AfterStart(reg, pairs[0].0, pairs[0].1, created[0]);
      RunStartsRegistersAll(next, pairs[1..], created[1..]);
      RunStartsKeepsRegistered(next, pairs[1..], created[1..], pairs[0].0, pairs[0].1);
      forall i | 1 <= i < |pairs|
        ensures Lookup(RunStarts(reg, pairs, created).0, pairs[i].0, pairs[i].1).Some?
      {
        assert pairs[1..][i - 1] == pairs[i];
      }
    }
  }

  /** Pairs the run does not visit keep their entries. */
  lemma {:induction false} RunStartsFrame(reg: Registry, pairs: seq<(string, string)>, created: seq<Option<Socket>>, userId: string, number: string)
    requires |created| == |pairs|
    requires (userId, number) !in pairs
    ensures Lookup(RunStarts(reg, pairs, created).0, userId, number) == Lookup(reg, userId, number)
    decreases |pairs|
  {
    if pairs != [] {
      var next := AfterStart(reg, pairs[0].0, pairs[0].1, created[0]);
      assert pairs[0] != (userId, number);
      if !StartOutcome(reg, pairs[0].0, pairs[0].1, created[0]).Failed? {
        assert (userId, number) !in pairs[1..];
        RunStartsFrame(next, pairs[1..], created[1..], userId, number);
      }
    }
  }

  /**
   Restoring at startup: when no start throws, every number of every user has a
   socket afterwards, and the sessions of ids that are not users are untouched.
   */
  lemma RestoreRegistersEveryNumber(reg: Registry, users: map<string, Utils.User>, order: seq<string>, created: seq<Option<Socket>>)
    requires IsEnumeration(order, users)
    requires |created| == |Pairs(users, order)|
    requires RunStarts(reg, Pairs(users, order), created).1
    ensures forall u, n :: u in users && n in users[u].numbers ==>
      Lookup(RunStarts(reg, Pairs(users, order), created).0, u, n).Some?
    ensures forall u, n :: u !in users ==>
      Lookup(RunStarts(reg, Pairs(users, order), created).0, u, n) == Lookup(reg, u, n)
  {
    var pairs := Pairs(users, order);
    RunStartsRegistersAll(reg, pairs, created);
    forall u, n | u in users && n in users[u].numbers
      ensures Lookup(RunStarts(reg, pairs, created).0, u, n).Some?
    {
      PairsExact(users, order, u, n);
      var i :| 0 <= i < |pairs| && pairs[i] == (u, n);
    }
    forall u, n | u !in users
      ensures Lookup(RunStarts(reg, pairs, created).0, u, n) == Lookup(reg, u, n)
    {
      PairsExact(users, order, u, n);
      RunStartsFrame(reg, pairs, created, u, n);
    }
  }

  // -----------------------
  // Outgoing-message watcher
  // -----------------------

  /** A candidate for auto-deletion: it has content and was sent from this account. */
  predicate IsOutgoing(m: Utils.WaMessage) {
    m.content.Some? && m.fromMe
  }

  /**
   The log entries a `messages.upsert` batch produces: one per outgoing message whose
   delete call succeeded, when `auto_delete` is set, stamped with its own time.
   */
  function DeletedEntries(batch: seq<Utils.WaMessage>, autoDelete: bool, deleteOk: seq<bool>, times: seq<string>): (entries: seq<Utils.DeletedEntry>)
    requires |deleteOk| == |batch| && |times| == |batch|
    ensures |entries| <= |batch|
  {
    if batch == [] then []
    else
      var k := |batch| - 1;
      DeletedEntries(batch[..k], autoDelete, deleteOk[..k], times[..k])
      + (if autoDelete && IsOutgoing(batch[k]) && deleteOk[k] then [Utils.DeletedEntry(times[k], batch[k])] else [])
  }

  /** Only outgoing messages of the batch are logged, and only when `auto_delete` is set. */
  lemma {:induction false} DeletedEntriesSound(batch: seq<Utils.WaMessage>, autoDelete: bool, deleteOk: seq<bool>, times: seq<string>)
    requires |deleteOk| == |batch| && |times| == |batch|
    ensures forall e :: e in DeletedEntries(batch, autoDelete, deleteOk, times) ==> autoDelete && IsOutgoing(e.message) && e.message in batch
    decreases |batch|
  {
    if batch != [] {
      var k := |batch| - 1;
      DeletedEntriesSound(batch[..k], autoDelete, deleteOk[..k], times[..k]);
      forall e | e in DeletedEntries(batch[..k], autoDelete, deleteOk[..k], times[..k])
        ensures e.message in batch
      {
        assert e.message in batch[..k];
      }
    }
  }

  /** Every outgoing message whose delete call succeeds is logged, whatever happened to the others. */
  lemma {:induction false} DeletedEntriesComplete(batch: seq<Utils.WaMessage>, autoDelete: bool, deleteOk: seq<bool>, times: seq<string>, i: nat)
    requires |deleteOk| == |batch| && |times| == |batch|
    requires i < |batch| && autoDelete && IsOutgoing(batch[i]) && deleteOk[i]
    ensures Utils.DeletedEntry(times[i], batch[i]) in DeletedEntries(batch, autoDelete, deleteOk, times)
    decreases |batch|
  {
    var k := |batch| - 1;
    if i < k {
      DeletedEntriesComplete(batch[..k], autoDelete, deleteOk[..k], times[..k], i);
    }
  }

  /** A failed delete call logs nothing for that message. */
  lemma {:induction false} DeletedEntriesNeedSuccess(batch: seq<Utils.WaMessage>, autoDelete: bool, deleteOk: seq<bool>, times: seq<string>, i: nat)
    requires |deleteOk| == |batch| && |times| == |batch|
    requires i < |batch| && !deleteOk[i]
    requires forall j :: 0 <= j < |batch| && j != i ==> batch[j] != batch[i]
    ensures forall e :: e in DeletedEntries(batch, autoDelete, deleteOk, times) ==> e.message != batch[i]
    decreases |batch|
  {
    var k := |batch| - 1;
    if i < k {
      DeletedEntriesNeedSuccess(batch[..k], autoDelete, deleteOk[..k], times[..k], i);
    } else {
      DeletedEntriesSound(batch[..k], autoDelete, deleteOk[..k], times[..k]);
      forall e | e in DeletedEntries(batch[..k], autoDelete, deleteOk[..k], times[..k])
        ensures e.message != batch[i]
      {
        assert e.message in batch[..k];
      }
    }
  }

  /** No message has two entries in the log. */
  predicate EachMessageOnce(entries: seq<Utils.DeletedEntry>) {
    forall i, j :: 0 <= i < j < |entries| ==> entries[i].message != entries[j].message
  }

  /** In a batch of distinct messages, each message is logged at most once. */
  lemma {:induction false} DeletedEntriesAtMostOnce(batch: seq<Utils.WaMessage>, autoDelete: bool, deleteOk: seq<bool>, times: seq<string>)
    requires |deleteOk| == |batch| && |times| == |batch|
    requires forall i, j :: 0 <= i < j < |batch| ==> batch[i] != batch[j]
    ensures EachMessageOnce(DeletedEntries(batch, autoDelete, deleteOk, times))
    decreases |batch|
  {
    if batch != [] {
      var k := |batch| - 1;
      var prefix := DeletedEntries(batch[..k], autoDelete, deleteOk[..k], times[..k]);
      DeletedEntriesAtMostOnce(batch[..k], autoDelete, deleteOk[..k], times[..k]);
      DeletedEntriesSound(batch[..k], autoDelete, deleteOk[..k], times[..k]);
      forall i | 0 <= i < |prefix|
        ensures prefix[i].message != batch[k]
      {
        assert prefix[i] in prefix;
        var j :| 0 <= j < k && batch[..k][j] == prefix[i].message;
      }
      var last := if autoDelete && IsOutgoing(batch[k]) && deleteOk[k] then [Utils.DeletedEntry(times[k], batch[k])] else [];
      var entries := prefix + last;
      assert DeletedEntries(batch, autoDelete, deleteOk, times) == entries;
      forall i, j | 0 <= i < j < |entries|
        ensures entries[i].message != entries[j].message
      {
        assert |last| <= 1 && i < |prefix|;
        assert entries[i] == prefix[i];
        if j >= |prefix| {
          assert entries[j] == last[0] && last[0].message == batch[k];
        } else {
          assert entries[j] == prefix[j];
          assert prefix[i].message != prefix[j].message;
        }
      }
    }
  }

  /** The batch entries grow one message at a time. */
  lemma DeletedEntriesSnoc(batch: seq<Utils.WaMessage>, autoDelete: bool, deleteOk: seq<bool>, times: seq<string>, k: nat)
    requires |deleteOk| == |batch| && |times| == |batch| && k < |batch|
    ensures DeletedEntries(batch[..k + 1], autoDelete, deleteOk[..k + 1], times[..k + 1])
         == DeletedEntries(batch[..k], autoDelete, deleteOk[..k], times[..k])
            + (if autoDelete && IsOutgoing(batch[k]) && deleteOk[k] then [Utils.DeletedEntry(times[k], batch[k])] else [])
  {
    assert batch[..k + 1][..k] == batch[..k] && deleteOk[..k + 1][..k] == deleteOk[..k] && times[..k + 1][..k] == times[..k];
  }

  /** The messages of the log entries, in order. */
  function MessagesOf(entries: seq<Utils.DeletedEntry>): (msgs: seq<Utils.WaMessage>)
    ensures |msgs| == |entries|
  {
    if entries == [] then [] else MessagesOf(entries[..|entries| - 1]) + [entries[|entries| - 1].message]
  }

  /** Message i of the list is the message of entry i. */
  lemma {:induction false} MessagesOfPointwise(entries: seq<Utils.DeletedEntry>)
    ensures forall i :: 0 <= i < |entries| ==> MessagesOf(entries)[i] == entries[i].message
    decreases |entries|
  {
    if entries != [] {
      var k := |entries| - 1;
      MessagesOfPointwise(entries[..k]);
      assert forall i :: 0 <= i < k ==> entries[..k][i] == entries[i];
    }
  }

  /**
   The deleted-message files after saving `entries` for `number`, one at a time,
   starting from `before`: the last `limit` entries of the whole history.
   */
  function LogsAfter(logs: map<string, seq<Utils.DeletedEntry>>, number: string, before: seq<Utils.DeletedEntry>,
                     entries: seq<Utils.DeletedEntry>, logging: bool, limit: nat): map<string, seq<Utils.DeletedEntry>>
  {
    if logging && entries != [] then logs[number := Utils.KeepLast(before + entries, limit)] else logs
  }

  /** One more save extends the history by one entry. */
  lemma LogsAfterOneMore(logs: map<string, seq<Utils.DeletedEntry>>, number: string, before: seq<Utils.DeletedEntry>,
                         entries: seq<Utils.DeletedEntry>, entry: Utils.DeletedEntry, logging: bool, limit: nat)
    requires before == Utils.LogOf(logs, number)
    ensures var cur := LogsAfter(logs, number, before, entries, logging, limit);
      LogsAfter(logs, number, before, entries + [entry], logging, limit)
      == if logging then cur[number := Utils.KeepLast(Utils.LogOf(cur, number) + [entry], limit)] else cur
  {
    if logging {
      var cur := LogsAfter(logs, number, before, entries, logging, limit);
      if entries == [] {
        assert cur == logs;
        assert before + (entries + [entry]) == before + [entry];
      } else {
        var capped := Utils.KeepLast(before + entries, limit);
        assert cur == logs[number := capped] && cur[number] == capped;
        Utils.KeepLastOfKeepLast(before + entries, [entry], limit);
        assert before + entries + [entry] == before + (entries + [entry]);
        assert cur[number := Utils.KeepLast(capped + [entry], limit)]
            == logs[number := Utils.KeepLast(before + (entries + [entry]), limit)];
      }
    }
  }

  // -----------------------
  // The manager
  // -----------------------

  /** Whether a connection update reports the connection closed, open, or neither. */
  datatype Connection = Close | Open | Connecting

  /** `listActiveSessions`: one user's map, or the whole registry. */
  datatype Listing = ForUser(sessions: map<string, Socket>) | Everything(registry: Registry)

  class WhatsAppManager {
    var activeSessions: Registry

    constructor ()
      ensures activeSessions == map[]
    {
      activeSessions := map[];
    }

    method StartSession(userId: string, number: string, via: TelegramBot.LinkMethod, created: Option<Socket>) returns (result: StartResult)
      modifies this
      ensures result == StartOutcome(old(activeSessions), userId, number, created)
      ensures activeSessions == AfterStart(old(activeSessions), userId, number, created)
    {
      if userId !in activeSessions {
        activeSessions := activeSessions[userId := map[]];
      }
      if number in activeSessions[userId] {
        return AlreadyRunning;
      }
      if created.None? {
        return Failed;
      }
      var sock := created.value;
      activeSessions := activeSessions[userId := activeSessions[userId][number := sock]];
      result := Started(sock);
    }

    /** `logoutSucceeds` is the outcome of `logout()`; the unlinked notice is sent only after it. */
    method StopSession(userId: string, number: string, logoutSucceeds: bool) returns (notified: bool)
      modifies this
      ensures notified <==> Lookup(old(activeSessions), userId, number).Some? && logoutSucceeds
      ensures activeSessions == Deregister(old(activeSessions), userId, number)
    {
      notified := false;
      if userId in activeSessions && number in activeSessions[userId] {
        notified := logoutSucceeds;
        activeSessions := activeSessions[userId := activeSessions[userId] - {number}];
      } else if userId in activeSessions {
        assert activeSessions[userId] - {number} == activeSessions[userId];
        assert activeSessions[userId := activeSessions[userId]] == activeSessions;
      }
    }

    /** The registry part of the `connection.update` handler of the session (userId, number). */
    method OnConnectionUpdate(userId: string, number: string, connection: Option<Connection>)
      modifies this
      ensures activeSessions == if connection == Some(Close) then Deregister(old(activeSessions), userId, number)
                                else old(activeSessions)
    {
      if connection == Some(Close) && userId in activeSessions {
        activeSessions := activeSessions[userId := activeSessions[userId] - {number}];
      }
    }

    /** `userId` is the optional argument; an empty id is falsy and lists everything. */
    method ListActiveSessions(userId: Option<string>) returns (listing: Listing)
      ensures userId.None? || userId == Some("") ==> listing == Everything(activeSessions)
      ensures userId.Some? && userId.value != "" ==>
        listing.ForUser? && forall n :: Lookup(activeSessions, userId.value, n) == (if n in listing.sessions then Some(listing.sessions[n]) else None)
    {
      if userId.Some? && userId.value != "" {
        var u := userId.value;
        return ForUser(if u in activeSessions then activeSessions[u] else map[]);
      }
      listing := Everything(activeSessions);
    }

    /**
     The `messages.upsert` handler of the session (userId, number) over one batch.
     `deleteOk[i]` is whether the delete call for message i succeeds; `times[i]` is its timestamp.
     Returns the messages deleted on the network.
     */
    method OnMessagesUpsert(number: string, batch: seq<Utils.WaMessage>, deleteOk: seq<bool>, times: seq<string>, store: Utils.Config)
      returns (deleted: seq<Utils.WaMessage>)
      requires |deleteOk| == |batch| && |times| == |batch|
      modifies store`deletedLogs
      ensures var entries := DeletedEntries(batch, store.autoDelete, deleteOk, times);
        && deleted == MessagesOf(entries)
        && store.deletedLogs == LogsAfter(old(store.deletedLogs), number, Utils.LogOf(old(store.deletedLogs), number), entries,
                                          store.logDeletedMessages, store.deletedMessagesLimit)
    {
      deleted := [];
      var autoDelete, logging, limit := store.autoDelete, store.logDeletedMessages, store.deletedMessagesLimit;
      ghost var entries: seq<Utils.DeletedEntry> := [];
      ghost var before := Utils.LogOf(store.deletedLogs, number);
      for k := 0 to |batch|
        invariant entries == DeletedEntries(batch[..k], autoDelete, deleteOk[..k], times[..k])
        invariant deleted == MessagesOf(entries)
        invariant store.deletedLogs == LogsAfter(old(store.deletedLogs), number, before, entries, logging, limit)
      {
        DeletedEntriesSnoc(batch, autoDelete, deleteOk, times, k);
        var msg := batch[k];
        if msg.content.Some? && msg.fromMe && autoDelete && deleteOk[k] {
          var entry := Utils.DeletedEntry(times[k], msg);
          LogsAfterOneMore(old(store.deletedLogs), number, before, entries, entry, logging, limit);
          ghost var next := LogsAfter(old(store.deletedLogs), number, before, entries + [entry], logging, limit);
          store.SaveDeletedMessage(number, msg, times[k]);
          assert store.deletedLogs == next;
          assert (entries + [entry])[..|entries|] == entries;
          deleted := deleted + [msg];
          entries := entries + [entry];
        }
      }
      assert batch[..|batch|] == batch && deleteOk[..|batch|] == deleteOk && times[..|batch|] == times;
    }

    /**
     `startAllSessions`: for each user in `Object.entries` order, for each of its numbers,
     `startSession` with the default method; `created` holds the socket outcome of each call.
     */
    method StartAllSessions(users: map<string, Utils.User>, order: seq<string>, created: seq<Option<Socket>>)
      returns (completed: bool)
      requires forall i :: 0 <= i < |order| ==> order[i] in users
      requires |created| == |Pairs(users, order)|
      modifies this
      ensures (activeSessions, completed) == RunStarts(old(activeSessions), Pairs(users, order), created)
    {
      ghost var goal := RunStarts(activeSessions, Pairs(users, order), created);
      ghost var restPairs := Pairs(users, order);
      var restCreated := created;
      assert order[0..] == order;
      for i := 0 to |order|
        invariant restPairs == Pairs(users, order[i..])
        invariant |restCreated| == |restPairs|
        invariant RunStarts(activeSessions, restPairs, restCreated) == goal
      {
        var userId := order[i];
        var numbers := users[userId].numbers;
        ghost var row := Row(userId, numbers);
        ghost var tail := Pairs(users, order[i + 1..]);
        PairsFrom(users, order, i);
        assert row[0..] == row;
        for j := 0 to |numbers|
          invariant restPairs == row[j..] + tail
          invariant |restCreated| == |restPairs|
          invariant RunStarts(activeSessions, restPairs, restCreated) == goal
        {
          RowStep(userId, numbers, j, tail);
          RunStartsStep(activeSessions, restPairs, restCreated);
          var result := StartSession(userId, numbers[j], TelegramBot.Qr, restCreated[0]);
          if result.Failed? {
            return false;
          }
          restPairs, restCreated := restPairs[1..], restCreated[1..];
        }
        assert row[|numbers|..] == [];
        assert restPairs == tail;
      }
      assert order[|order|..] == [];
      completed := true;
    }

    /** The bridge from the Telegram side: `link_whatsapp` starts a session, `unlink_whatsapp` stops one. */
    method OnTelegramEvent(ev: TelegramBot.Event, created: Option<Socket>, logoutSucceeds: bool)
      modifies this
      ensures ev.LinkWhatsApp? ==> activeSessions == AfterStart(old(activeSessions), ev.userId, ev.number, created)
      ensures ev.UnlinkWhatsApp? ==> activeSessions == Deregister(old(activeSessions), ev.userId, ev.number)
    {
      match ev
      case LinkWhatsApp(userId, number, via) =>
        var _ := StartSession(userId, number, via, created);
      case UnlinkWhatsApp(userId, number) =>
        var _ := StopSession(userId, number, logoutSucceeds);
    }
  }
}

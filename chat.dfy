/** The real-time chat relay: a registry of joined users keyed by connection
    id, a bounded history of recent messages, and the events the socket
    handlers emit. Every emit is recorded in an outbox together with the set
    of connections it reaches. */
module Chat {

  /** A socket.io connection id. */
  type ConnId = string

  /** A `new Date()` value, taken as an opaque parameter. */
  type Time = int

  /** How many messages the history keeps. */
  const Capacity: nat := 100

  /** An entry of the `users` registry. */
  datatype User = User(id: ConnId, username: string, joinedAt: Time)

  /** A chat message as stored in the history and broadcast (`type: 'user'`). */
  datatype ChatMessage = ChatMessage(id: ConnId, username: string, message: string, timestamp: Time)

  /** The outbound events, one constructor per event name. The system
      messages (`type: 'system'`) are `UserJoined` and `UserLeft`. */
  datatype Event =
    | UserJoined(message: string, users: seq<User>, timestamp: Time)
    | MessageHistory(history: seq<ChatMessage>)
    | ReceiveMessage(chat: ChatMessage)
    | UserTyping(username: string, userId: ConnId)
    | UserStoppedTyping(userId: ConnId)
    | UsersList(users: seq<User>)
    | UserLeft(message: string, users: seq<User>, timestamp: Time)

  /** One emit: the event and every connection it is delivered to. */
  datatype Emission = Emission(recipients: set<ConnId>, event: Event)

  /** The body of the `/api/status` response. */
  datatype StatusReport = StatusReport(status: string, connectedUsers: nat, messageCount: nat)

  // ---------------------------------------------------------------------
  // The history buffer.

  /** `messageHistory.push(m)` followed by one `shift()` when the length
      exceeds the capacity. */
  function Pushed(h: seq<ChatMessage>, m: ChatMessage): (r: seq<ChatMessage>)
    ensures |h| <= Capacity ==> |r| <= Capacity
    ensures |r| > 0 && r[|r| - 1] == m
  {
    var pushed := h + [m];
    if |pushed| > Capacity then pushed[1..] else pushed
  }

  /** The last `n` elements of `s`, or all of them when there are fewer. */
  function Newest(s: seq<ChatMessage>, n: nat): (r: seq<ChatMessage>) {
    if |s| <= n then s else s[|s| - n..]
  }

  /** The history after a series of sends, one `Pushed` per message. */
  function Replay(h: seq<ChatMessage>, ms: seq<ChatMessage>): (r: seq<ChatMessage>)
    ensures |h| <= Capacity ==> |r| <= Capacity
    ensures ms != [] ==> |r| > 0 && r[|r| - 1] == ms[|ms| - 1]
    decreases |ms|
  {
    if ms == [] then h else Replay(Pushed(h, ms[0]), ms[1..])
  }

  /** One push keeps exactly the newest messages when the history was within
      capacity: the oldest one is evicted only on overflow. */
  lemma {:induction false} PushedIsNewest(h: seq<ChatMessage>, m: ChatMessage)
    requires |h| <= Capacity
    ensures Pushed(h, m) == Newest(h + [m], Capacity)
  {
  }

  /** Evicting the oldest message on overflow does not change which
      messages are the newest `Capacity` once more arrive. */
  lemma {:induction false} NewestAfterPush(h: seq<ChatMessage>, m: ChatMessage, rest: seq<ChatMessage>)
    requires |h| <= Capacity
    ensures Newest(Pushed(h, m) + rest, Capacity) == Newest(h + [m] + rest, Capacity)
  {
    var s := h + [m] + rest;
    if |h + [m]| > Capacity {
      assert Pushed(h, m) + rest == s[1..];
      if rest == [] {
        assert s[1..] == s[|s| - Capacity..];
      } else {
        assert s[1..][|s| - 1 - Capacity..] == s[|s| - Capacity..];
      }
    }
  }

  /** FIFO eviction law: from a history within capacity, any series of sends
      leaves the newest `Capacity` of all messages, in arrival order. */
  lemma {:induction false} ReplayKeepsNewest(h: seq<ChatMessage>, ms: seq<ChatMessage>)
    requires |h| <= Capacity
    ensures Replay(h, ms) == Newest(h + ms, Capacity)
    decreases |ms|
  {
    if ms == [] {
      assert h + ms == h;
    } else {
      var m, rest := ms[0], ms[1..];
      calc {
        Replay(h, ms);
        Replay(Pushed(h, m), rest);
        { ReplayKeepsNewest(Pushed(h, m), rest); }
        Newest(Pushed(h, m) + rest, Capacity);
        { NewestAfterPush(h, m, rest); }
        Newest(h + [m] + rest, Capacity);
        { assert h + [m] + rest == h + ms; }
        Newest(h + ms, Capacity);
      }
    }
  }

  /** After n sends to an empty history, it holds the last min(n, 100) of
      them, in arrival order. */
  lemma {:induction false} ReplayFromEmpty(ms: seq<ChatMessage>)
    ensures |Replay([], ms)| == if |ms| <= Capacity then |ms| else Capacity
    ensures Replay([], ms) == ms[|ms| - |Replay([], ms)|..]
  {
    ReplayKeepsNewest([], ms);
    assert [] + ms == ms;
  }

  // ---------------------------------------------------------------------
  // The users registry: a map plus the insertion order of its keys, which
  // is the order `Object.values` lists them in.

  /** No element occurs twice. */
  predicate Distinct(s: seq<ConnId>) {
    forall i, j :: 0 <= i < j < |s| ==> s[i] != s[j]
  }

  /** The key list has no repeats and holds exactly the map's keys, and each
      entry's `id` is the key it is stored under. */
  ghost predicate Keyed(order: seq<ConnId>, users: map<ConnId, User>) {
    Distinct(order) &&
    (forall k :: k in users <==> k in order) &&
    (forall k :: k in users ==> users[k].id == k)
  }

  /** `Object.values(users)`. */
  function Roster(order: seq<ConnId>, users: map<ConnId, User>): (r: seq<User>)
    requires forall i :: 0 <= i < |order| ==> order[i] in users
    ensures |r| == |order|
    ensures forall u :: u in r ==> u in users.Values
  {
    seq(|order|, i requires 0 <= i < |order| => users[order[i]])
  }

  /** `delete users[id]` as seen by the key order. */
  function Erase(order: seq<ConnId>, id: ConnId): (r: seq<ConnId>)
    ensures |r| <= |order| && id !in r
  {
    if order == [] then []
    else (if order[0] == id then [] else [order[0]]) + Erase(order[1..], id)
  }

  /** Erasing keeps every other key and drops `id`. */
  lemma {:induction false} EraseElements(order: seq<ConnId>, id: ConnId)
    ensures forall k :: k in Erase(order, id) <==> k in order && k != id
  {
    if order != [] {
      EraseElements(order[1..], id);
      assert forall k :: k in order <==> k == order[0] || k in order[1..];
    }
  }

  /** Erasing from a key list without repeats gives a key list without repeats. */
  lemma {:induction false} EraseDistinct(order: seq<ConnId>, id: ConnId)
    requires Distinct(order)
    ensures Distinct(Erase(order, id))
  {
    if order != [] {
      var tail := order[1..];
      EraseDistinct(tail, id);
      EraseElements(tail, id);
      var e, et := Erase(order, id), Erase(tail, id);
      if order[0] != id {
        assert e == [order[0]] + et;
        assert order[0] !in et;
        forall i, j | 0 <= i < j < |e| ensures e[i] != e[j] {
          assert e[j] == et[j - 1];
          if i > 0 {
            assert e[i] == et[i - 1];
          }
        }
      } else {
        assert e == et;
      }
    }
  }

  /** A key list without repeats has as many elements as the set it lists. */
  lemma {:induction false} DistinctCard(order: seq<ConnId>)
    requires Distinct(order)
    ensures |set k | k in order| == |order|
  {
    if order != [] {
      var tail := order[1..];
      DistinctCard(tail);
      assert order[0] !in tail;
      assert (set k | k in order) == {order[0]} + (set k | k in tail);
    }
  }

  /** `Object.keys(users).length` counts the registry's entries. */
  lemma {:induction false} KeyCount(order: seq<ConnId>, users: map<ConnId, User>)
    requires Keyed(order, users)
    ensures |users| == |order|
  {
    DistinctCard(order);
    assert users.Keys == set k | k in order;
  }

  /** The key order after `users[id] = …`: a new key goes last, an
      existing key keeps its place. */
  function Inserted(order: seq<ConnId>, users: map<ConnId, User>, id: ConnId): (r: seq<ConnId>)
    ensures id in r <==> id in order || id !in users
    ensures order <= r && |r| <= |order| + 1
  {
    if id in users then order else order + [id]
  }

  /** Storing an entry under its own id keeps the registry consistent. */
  lemma {:induction false} JoinKeyed(order: seq<ConnId>, users: map<ConnId, User>, u: User)
    requires Keyed(order, users)
    ensures Keyed(Inserted(order, users, u.id), users[u.id := u])
  {
    var order' := Inserted(order, users, u.id);
    if u.id !in users {
      forall i, j | 0 <= i < j < |order'| ensures order'[i] != order'[j] {
        if j == |order| {
          assert order'[i] == order[i] && order[i] in users;
        } else {
          assert order'[i] == order[i] && order'[j] == order[j];
        }
      }
      assert forall k :: k in order' <==> k in order || k == u.id;
    }
  }

  /** `users[u.id] = u` as seen by `Object.values`: every position of the old
      listing keeps its entry, except the joiner's own, which becomes `u`; a
      new id adds `u` at the end; either way `u` is listed. */
  lemma {:induction false} JoinListing(order: seq<ConnId>, users: map<ConnId, User>, u: User)
    requires Keyed(order, users)
    ensures var order', users' := Inserted(order, users, u.id), users[u.id := u];
      |Roster(order', users')| == |order'| &&
      (forall i :: 0 <= i < |order| ==>
        Roster(order', users')[i] == if order[i] == u.id then u else Roster(order, users)[i]) &&
      (u.id !in users ==> Roster(order', users') == Roster(order, users) + [u]) &&
      u in Roster(order', users')
  {
    var order', users' := Inserted(order, users, u.id), users[u.id := u];
    var after := Roster(order', users');
    if u.id in users {
      var i :| 0 <= i < |order| && order[i] == u.id;
      assert after[i] == u;
    } else {
      assert after[|order|] == u;
      assert after == Roster(order, users) + [u];
    }
  }

  /** Deleting an entry keeps the registry consistent. */
  lemma {:induction false} LeaveKeyed(order: seq<ConnId>, users: map<ConnId, User>, id: ConnId)
    requires Keyed(order, users)
    ensures Keyed(Erase(order, id), users - {id})
  {
    EraseElements(order, id);
    EraseDistinct(order, id);
  }

  /** `delete users[id]` leaves a listing one entry shorter. */
  lemma {:induction false} LeaveCount(order: seq<ConnId>, users: map<ConnId, User>, id: ConnId)
    requires Keyed(order, users) && id in users
    ensures |Erase(order, id)| == |order| - 1
  {
    LeaveKeyed(order, users, id);
    KeyCount(order, users);
    KeyCount(Erase(order, id), users - {id});
  }

  /** Erasing a key that is not listed changes nothing. */
  lemma {:induction false} EraseAbsent(order: seq<ConnId>, id: ConnId)
    requires id !in order
    ensures Erase(order, id) == order
  {
    if order != [] {
      EraseAbsent(order[1..], id);
      assert [order[0]] + order[1..] == order;
    }
  }

  /** Erasing the key listed once at index k removes exactly that index. */
  lemma {:induction false} EraseAt(order: seq<ConnId>, id: ConnId, k: nat)
    requires Distinct(order) && k < |order| && order[k] == id
    ensures Erase(order, id) == order[..k] + order[k + 1..]
  {
    var tail := order[1..];
    if k == 0 {
      assert id !in tail;
      EraseAbsent(tail, id);
    } else {
      assert Distinct(tail);
      assert tail[k - 1] == id;
      EraseAt(tail, id, k - 1);
      assert order[0] != id;
      assert order[..k] == [order[0]] + tail[..k - 1];
      assert order[k + 1..] == tail[k..];
    }
  }

  /** `delete users[id]` keeps the other entries of `Object.values(users)` in
      their earlier relative order. */
  lemma {:induction false} LeaveOrder(order: seq<ConnId>, users: map<ConnId, User>, id: ConnId, k: nat)
    requires Keyed(order, users) && k < |order| && order[k] == id
    ensures Keyed(Erase(order, id), users - {id})
    ensures Roster(Erase(order, id), users - {id}) == Roster(order, users)[..k] + Roster(order, users)[k + 1..]
  {
    LeaveKeyed(order, users, id);
    EraseAt(order, id, k);
    var order', users' := Erase(order, id), users - {id};
    var before, after := Roster(order, users), Roster(order', users');
    forall i | 0 <= i < |after| ensures after[i] == (before[..k] + before[k + 1..])[i] {
      if i < k {
        assert order'[i] == order[i];
      } else {
        assert order'[i] == order[i + 1];
      }
    }
  }

  /** `delete users[id]` as seen by `Object.values`: the listing is one
      shorter, lists exactly the old entries whose id is not the leaver's,
      and keeps them in their earlier order. */
  lemma {:induction false} LeaveListing(order: seq<ConnId>, users: map<ConnId, User>, id: ConnId)
    requires Keyed(order, users) && id in users
    ensures Keyed(Erase(order, id), users - {id})
    ensures |Roster(Erase(order, id), users - {id})| == |Roster(order, users)| - 1
    ensures forall x :: x in Roster(Erase(order, id), users - {id}) <==> x in Roster(order, users) && x.id != id
    ensures forall k :: 0 <= k < |order| && order[k] == id ==>
      Roster(Erase(order, id), users - {id}) == Roster(order, users)[..k] + Roster(order, users)[k + 1..]
  {
    LeaveKeyed(order, users, id);
    LeaveCount(order, users, id);
    LeaveMembers(order, users, id);
    forall k | 0 <= k < |order| && order[k] == id
      ensures Roster(Erase(order, id), users - {id}) == Roster(order, users)[..k] + Roster(order, users)[k + 1..]
    {
      LeaveOrder(order, users, id, k);
    }
  }

  /** After `delete users[id]` the listing holds exactly the other entries. */
  lemma {:induction false} LeaveMembers(order: seq<ConnId>, users: map<ConnId, User>, id: ConnId)
    requires Keyed(order, users) && id in users
    ensures Keyed(Erase(order, id), users - {id})
    ensures forall x :: x in Roster(Erase(order, id), users - {id}) <==> x in Roster(order, users) && x.id != id
  {
    var order', users' := Erase(order, id), users - {id};
    LeaveKeyed(order, users, id);
    EraseElements(order, id);
    var before, after := Roster(order, users), Roster(order', users');
    forall x | x in after ensures x in before && x.id != id {
      var i :| 0 <= i < |after| && after[i] == x;
      assert order'[i] in order;
      var j :| 0 <= j < |order| && order[j] == order'[i];
      assert before[j] == x;
    }
    forall x | x in before && x.id != id ensures x in after {
      var j :| 0 <= j < |before| && before[j] == x;
      assert order[j] in order';
      var i :| 0 <= i < |order'| && order'[i] == order[j];
      assert after[i] == x;
    }
  }

  // ---------------------------------------------------------------------
  // The relay state and its socket handlers.

  class Relay {
    /** The sockets currently connected, joined or not. */
    var connected: set<ConnId>
    /** The `users` registry. */
    var users: map<ConnId, User>
    /** The registry's keys in insertion order. */
    var order: seq<ConnId>
    /** `messageHistory`, oldest first. */
    var history: seq<ChatMessage>
    /** Every emit so far, in emission order. */
    var outbox: seq<Emission>

    ghost predicate Valid()
      reads this
    {
      Keyed(order, users) && users.Keys <= connected && |history| <= Capacity
    }

    /** The state at start-up: no sockets, no users, no history. */
    constructor ()
      ensures Valid()
      ensures connected == {} && users == map[] && order == [] && history == [] && outbox == []
    {
      connected, users, order, history, outbox := {}, map[], [], [], [];
    }

    /** `io.on('connection')`: the socket joins the connected set. */
    method Connect(id: ConnId)
      requires Valid()
      modifies this`connected
      ensures Valid()
      ensures connected == old(connected) + {id}
    {
      connected := connected + {id};
    }

    /** `userJoin`: store the entry, announce the join to every connected
        socket with the updated users list, then send the joiner the history
        as it was before the join. */
    method UserJoin(id: ConnId, username: string, joinedAt: Time, now: Time)
      requires Valid() && id in connected
      modifies this`users, this`order, this`outbox
      ensures Valid()
      ensures users == old(users)[id := User(id, username, joinedAt)]
      ensures order == Inserted(old(order), old(users), id)
      ensures history == old(history)
      ensures User(id, username, joinedAt) in Roster(order, users)
      ensures outbox == old(outbox) + [
        Emission(connected, UserJoined(username + " joined the chat", Roster(order, users), now)),
        Emission({id}, MessageHistory(history))]
    {
      var u := User(id, username, joinedAt);
      JoinKeyed(order, users, u);
      JoinListing(order, users, u);
      if id !in users {
        order := order + [id];
      }
      users := users[id := u];
      outbox := outbox + [Emission(connected, UserJoined(username + " joined the chat", Roster(order, users), now))];
      outbox := outbox + [Emission({id}, MessageHistory(history))];
    }

    /** `sendMessage`: append to the history (evicting the oldest past the
        capacity), then broadcast the message to every connected socket,
        the sender included. The id is the sender's connection and the
        username the payload's; the sender need not have joined. */
    method SendMessage(id: ConnId, username: string, message: string, now: Time)
      requires Valid() && id in connected
      modifies this`history, this`outbox
      ensures Valid()
      ensures history == Pushed(old(history), ChatMessage(id, username, message, now))
      ensures history[|history| - 1] == ChatMessage(id, username, message, now)
      ensures outbox == old(outbox) + [Emission(connected, ReceiveMessage(ChatMessage(id, username, message, now)))]
      ensures id in outbox[|outbox| - 1].recipients
    {
      var chat := ChatMessage(id, username, message, now);
      history := history + [chat];
      if |history| > Capacity {
        history := history[1..];
      }
      outbox := outbox + [Emission(connected, ReceiveMessage(chat))];
    }

    /** `typing`: relay to every connected socket but the sender. */
    method Typing(id: ConnId, username: string)
      requires Valid() && id in connected
      modifies this`outbox
      ensures Valid()
      ensures outbox == old(outbox) + [Emission(connected - {id}, UserTyping(username, id))]
      ensures id !in outbox[|outbox| - 1].recipients
    {
      outbox := outbox + [Emission(connected - {id}, UserTyping(username, id))];
    }

    /** `stopTyping`: relay to every connected socket but the sender. */
    method StopTyping(id: ConnId)
      requires Valid() && id in connected
      modifies this`outbox
      ensures Valid()
      ensures outbox == old(outbox) + [Emission(connected - {id}, UserStoppedTyping(id))]
      ensures id !in outbox[|outbox| - 1].recipients
    {
      outbox := outbox + [Emission(connected - {id}, UserStoppedTyping(id))];
    }

    /** `getUsers`: send the users list to the requester only. */
    method GetUsers(id: ConnId)
      requires Valid() && id in connected
      modifies this`outbox
      ensures Valid()
      ensures outbox == old(outbox) + [Emission({id}, UsersList(Roster(order, users)))]
      ensures |outbox[|outbox| - 1].event.users| == |users|
    {
      KeyCount(order, users);
      outbox := outbox + [Emission({id}, UsersList(Roster(order, users)))];
    }

    /** `disconnect`: the socket has already left the connected set. A joined
        connection loses its entry and every remaining socket is told, with
        a users list that no longer has it; a connection that never joined
        changes nothing else and emits nothing, so a repeated disconnect is
        a no-op. */
    method Disconnect(id: ConnId, now: Time)
      requires Valid()
      modifies this`connected, this`users, this`order, this`outbox
      ensures Valid()
      ensures connected == old(connected) - {id}
      ensures id !in users
      ensures old(id in users) ==>
        users == old(users) - {id} && order == Erase(old(order), id) &&
        (forall x :: x in Roster(order, users) <==> x in old(Roster(order, users)) && x.id != id) &&
        (forall k :: 0 <= k < |old(order)| && old(order)[k] == id ==>
          Roster(order, users) == old(Roster(order, users))[..k] + old(Roster(order, users))[k + 1..]) &&
        outbox == old(outbox) + [Emission(connected,
          UserLeft(old(users)[id].username + " left the chat", Roster(order, users), now))]
      ensures old(id !in users) ==> users == old(users) && order == old(order) && outbox == old(outbox)
    {
      connected := connected - {id};
      if id in users {
        var username := users[id].username;
        LeaveListing(order, users, id);
        users := users - {id};
        order := Erase(order, id);
        outbox := outbox + [Emission(connected, UserLeft(username + " left the chat", Roster(order, users), now))];
      }
    }

    /** `GET /api/status`: reads the counters and changes nothing. */
    function Status(): (r: StatusReport)
      reads this
      requires Valid()
      ensures r.connectedUsers == |users| && r.messageCount == |history|
      ensures r.messageCount <= Capacity
    {
      KeyCount(order, users);
      StatusReport("Chat server running", |order|, |history|)
    }
  }
}

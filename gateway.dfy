/** NotificationGateway (notification.gateway.ts): the admin and public queues
    of live socket connections, keyed by username, and the events the gateway
    emits. A socket is represented by its connection id; `socket.emit` appends
    to an outbox. */
module Gateway {
  import opened Common

  /** The value stored for a username: the connection id of its socket. */
  datatype Entry = Entry(id: string, username: string)

  /** A JavaScript Map: its entries, and the order in which `for...of` and
      `forEach` visit their keys (insertion order). */
  datatype Queue = Queue(order: seq<string>, entries: map<string, Entry>) {

    /** The order lists every key exactly once. */
    ghost predicate Valid() {
      && (forall i :: 0 <= i < |order| ==> order[i] in entries)
      && (forall k :: k in entries ==> k in order)
      && (forall i, j :: 0 <= i < j < |order| ==> order[i] != order[j])
    }

    /** Map.prototype.set: a new key goes last, an existing key keeps its place. */
    function Set(k: string, v: Entry): Queue {
      Queue(if k in entries then order else order + [k], entries[k := v])
    }

    /** Map.prototype.delete. */
    function Delete(k: string): Queue {
      Queue(Remove(order, k), entries - {k})
    }
  }

  const EmptyQueue := Queue([], map[])

  /** The order without `k`. */
  function Remove(s: seq<string>, k: string): seq<string> {
    if s == [] then []
    else if s[0] == k then Remove(s[1..], k)
    else [s[0]] + Remove(s[1..], k)
  }

  lemma {:induction false} RemoveElements(s: seq<string>, k: string)
    ensures forall x :: x in Remove(s, k) <==> x in s && x != k
    ensures (forall i, j :: 0 <= i < j < |s| ==> s[i] != s[j]) ==>
              forall i, j :: 0 <= i < j < |Remove(s, k)| ==> Remove(s, k)[i] != Remove(s, k)[j]
  {
    if s != [] {
      RemoveElements(s[1..], k);
      if (forall i, j :: 0 <= i < j < |s| ==> s[i] != s[j]) {
        assert forall i, j :: 0 <= i < j < |s[1..]| ==> s[1..][i] != s[1..][j] by {
          forall i, j | 0 <= i < j < |s[1..]| ensures s[1..][i] != s[1..][j] {
            assert s[1..][i] == s[i + 1] && s[1..][j] == s[j + 1];
          }
        }
        assert s[0] !in s[1..];
      }
    }
  }

  /** Set keeps the order an exact listing of the keys. */
  lemma SetValid(q: Queue, k: string, v: Entry)
    requires q.Valid()
    ensures q.Set(k, v).Valid()
  {
    if k !in q.entries {
      assert k !in q.order;
      var o := q.order + [k];
      forall i, j | 0 <= i < j < |o| ensures o[i] != o[j] {
        if j == |o| - 1 { assert o[i] == q.order[i]; }
      }
    }
  }

  /** Delete keeps the order an exact listing of the keys. */
  lemma DeleteValid(q: Queue, k: string)
    requires q.Valid()
    ensures q.Delete(k).Valid()
  {
    RemoveElements(q.order, k);
    var d := q.Delete(k);
    forall i | 0 <= i < |d.order| ensures d.order[i] in d.entries {
      assert d.order[i] in Remove(q.order, k);
    }
  }

  /** Every entry is stored under its own username. */
  ghost predicate KeyedByUsername(q: Queue) {
    forall k :: k in q.entries ==> q.entries[k].username == k
  }

  /** The username the scan `for (const [name, data] of queue) if (data.id === id)`
      stops at: the first key, in iteration order, whose entry has that id. */
  function FirstWithId(order: seq<string>, entries: map<string, Entry>, id: string): Option<string> {
    if order == [] then None
    else if order[0] in entries && entries[order[0]].id == id then Some(order[0])
    else FirstWithId(order[1..], entries, id)
  }

  /** The scan finds a key holding the id, and finds none exactly when no entry
      holds it. */
  lemma {:induction false} FirstWithIdMeaning(order: seq<string>, entries: map<string, Entry>, id: string)
    requires forall i :: 0 <= i < |order| ==> order[i] in entries
    ensures FirstWithId(order, entries, id).Some? ==>
              FirstWithId(order, entries, id).value in order
              && entries[FirstWithId(order, entries, id).value].id == id
    ensures FirstWithId(order, entries, id).None? <==>
              forall i :: 0 <= i < |order| ==> entries[order[i]].id != id
  {
    if order != [] {
      FirstWithIdMeaning(order[1..], entries, id);
      if FirstWithId(order, entries, id).None? {
        forall i | 0 <= i < |order| ensures entries[order[i]].id != id {
          if i > 0 { assert order[i] == order[1..][i - 1]; }
        }
      }
    }
  }

  /** The scan itself, as the gateway runs it: visit the keys in order and stop
      at the first whose entry has the id. */
  method FindById(q: Queue, id: string) returns (found: Option<string>)
    requires forall i :: 0 <= i < |q.order| ==> q.order[i] in q.entries
    ensures found == FirstWithId(q.order, q.entries, id)
  {
    var i := 0;
    while i < |q.order|
      invariant 0 <= i <= |q.order|
      invariant FirstWithId(q.order[i..], q.entries, id) == FirstWithId(q.order, q.entries, id)
    {
      var name := q.order[i];
      if q.entries[name].id == id {
        return Some(name);
      }
      assert q.order[i..][1..] == q.order[i + 1..];
      i := i + 1;
    }
    return None;
  }

  /** Admitting a connection whose id no entry holds yet makes it the entry the
      scan finds for that id. */
  lemma {:induction false} AdmitThenFind(q: Queue, username: string, id: string)
    requires q.Valid()
    requires forall k :: k in q.entries ==> q.entries[k].id != id
    ensures FirstWithId(q.Set(username, Entry(id, username)).order, q.Set(username, Entry(id, username)).entries, id)
         == Some(username)
  {
    var q' := q.Set(username, Entry(id, username));
    SetValid(q, username, Entry(id, username));
    FirstWithIdMeaning(q'.order, q'.entries, id);
    assert username in q'.order;
    var i :| 0 <= i < |q'.order| && q'.order[i] == username;
    assert q'.entries[q'.order[i]].id == id;
    var u := FirstWithId(q'.order, q'.entries, id).value;
    assert q'.entries[u].id == id;
    assert u == username;
  }

  /** After a newer connection took over a username, the scan for the older
      connection's id can no longer land on that username. */
  lemma SupersededIdMissesNewEntry(q: Queue, username: string, newId: string, oldId: string)
    requires q.Valid()
    requires newId != oldId
    ensures FirstWithId(q.Set(username, Entry(newId, username)).order,
                        q.Set(username, Entry(newId, username)).entries, oldId) != Some(username)
  {
    var q' := q.Set(username, Entry(newId, username));
    SetValid(q, username, Entry(newId, username));
    FirstWithIdMeaning(q'.order, q'.entries, oldId);
  }

  // Event names, as the gateway spells them.
  const ConnectionSuccessEvent := "connectionSuccess"
  const MessageEvent := "message"
  const RequestMessageEvent := "requst-message"
  const TemplateChangeEvent := "template-change-message"

  /** The data of an emitted event. */
  datatype EventData =
    | Welcome(message: string)            // { message }
    | Chat(sender: string, data: string)  // { sender, data }
    | Text(text: string)                  // a plain string

  datatype Emit = Emit(to: string, event: string, data: EventData)

  /** The username and `role_id` read from the `Role` cookie. */
  datatype RoleClaim = RoleClaim(username: string, roleId: int)

  /** What the handshake offers: no cookie header at all (or an empty one), or a
      header whose Role cookie did or did not parse. */
  datatype Handshake = NoCookie | CookieHeader(role: Option<RoleClaim>)

  /** `Roles[role_id] === 'admin'`: only the exact name admin; super is not. */
  predicate AdmitsToAdmin(roleId: int) {
    RoleName(roleId) == Some("admin")
  }

  lemma OnlyAdminIsAdmitted()
    ensures AdmitsToAdmin(AdminRole) && !AdmitsToAdmin(SuperRole) && !AdmitsToAdmin(PublicRole)
  {
  }

  /** What `queue.forEach(({socket}) => socket.emit('message', data))` emits,
      in iteration order. */
  function FanOut(order: seq<string>, entries: map<string, Entry>, data: EventData): seq<Emit>
    requires forall i :: 0 <= i < |order| ==> order[i] in entries
  {
    if order == [] then []
    else FanOut(order[..|order| - 1], entries, data) + [Emit(entries[order[|order| - 1]].id, MessageEvent, data)]
  }

  /** The fan-out sends one event to each entry of the queue, in order, and
      nothing to anyone else. */
  lemma {:induction false} FanOutReachesEachEntry(order: seq<string>, entries: map<string, Entry>, data: EventData)
    requires forall i :: 0 <= i < |order| ==> order[i] in entries
    ensures |FanOut(order, entries, data)| == |order|
    ensures forall i :: 0 <= i < |order| ==>
              FanOut(order, entries, data)[i] == Emit(entries[order[i]].id, MessageEvent, data)
  {
    if order != [] {
      var init := order[..|order| - 1];
      FanOutReachesEachEntry(init, entries, data);
      forall i | 0 <= i < |order| - 1 ensures order[i] == init[i] { }
    }
  }

  /** `queue.get(username)?.socket.emit(event, text)`. */
  function Unicast(q: Queue, username: string, event: string, text: string): (r: seq<Emit>)
    ensures |r| <= 1
    ensures r != [] <==> username in q.entries
    ensures r != [] ==> r[0] == Emit(q.entries[username].id, event, Text(text))
  {
    if username in q.entries then [Emit(q.entries[username].id, event, Text(text))] else []
  }

  class NotificationGateway {
    var adminQueue: Queue
    var publicQueue: Queue
    /** Every `socket.emit`, in order. */
    var outbox: seq<Emit>

    ghost predicate Valid()
      reads this
    {
      adminQueue.Valid() && publicQueue.Valid() && KeyedByUsername(adminQueue) && KeyedByUsername(publicQueue)
    }

    constructor ()
      ensures Valid() && adminQueue == EmptyQueue && publicQueue == EmptyQueue && outbox == []
    {
      adminQueue := EmptyQueue;
      publicQueue := EmptyQueue;
      outbox := [];
    }

    /** handleConnection: admit the client under the username of its Role
        cookie, into the admin queue exactly when the role's name is admin, and
        welcome it. Without a cookie header or a parsable Role cookie nothing
        happens. */
    method HandleConnection(clientId: string, handshake: Handshake)
      requires Valid()
      modifies this
      ensures Valid()
      ensures (handshake.NoCookie? || handshake.role.None?) ==>
                adminQueue == old(adminQueue) && publicQueue == old(publicQueue) && outbox == old(outbox)
      ensures handshake.CookieHeader? && handshake.role.Some? ==>
                var c := handshake.role.value;
                var e := Entry(clientId, c.username);
                && (AdmitsToAdmin(c.roleId) ==>
                      adminQueue == old(adminQueue).Set(c.username, e) && publicQueue == old(publicQueue))
                && (!AdmitsToAdmin(c.roleId) ==>
                      publicQueue == old(publicQueue).Set(c.username, e) && adminQueue == old(adminQueue))
                && outbox == old(outbox) + [Emit(clientId, ConnectionSuccessEvent, Welcome("Welcome to MF! " + c.username))]
    {
      match handshake
      case NoCookie =>
      case CookieHeader(None) =>
      case CookieHeader(Some(c)) =>
        var e := Entry(clientId, c.username);
        if AdmitsToAdmin(c.roleId) {
          SetValid(adminQueue, c.username, e);
          adminQueue := adminQueue.Set(c.username, e);
        } else {
          SetValid(publicQueue, c.username, e);
          publicQueue := publicQueue.Set(c.username, e);
        }
        outbox := outbox + [Emit(clientId, ConnectionSuccessEvent, Welcome("Welcome to MF! " + c.username))];
    }

    /** handleDisconnect: delete the first admin entry holding the client's id;
        only when there is none, the first such public entry. */
    method HandleDisconnect(clientId: string)
      requires Valid()
      modifies this
      ensures Valid() && outbox == old(outbox)
      ensures var a := FirstWithId(old(adminQueue).order, old(adminQueue).entries, clientId);
              var p := FirstWithId(old(publicQueue).order, old(publicQueue).entries, clientId);
              if a.Some? then
                adminQueue == old(adminQueue).Delete(a.value) && publicQueue == old(publicQueue)
              else if p.Some? then
                adminQueue == old(adminQueue) && publicQueue == old(publicQueue).Delete(p.value)
              else
                adminQueue == old(adminQueue) && publicQueue == old(publicQueue)
    {
      var a := FindById(adminQueue, clientId);
      if a.Some? {
        DeleteValid(adminQueue, a.value);
        adminQueue := adminQueue.Delete(a.value);
        return;
      }
      var p := FindById(publicQueue, clientId);
      if p.Some? {
        DeleteValid(publicQueue, p.value);
        publicQueue := publicQueue.Delete(p.value);
      }
    }

    /** handleMessage: attribute the client to the first admin entry holding its
        id, else the first public one, and broadcast `{sender, data}` to every
        entry of that queue, the sender included. An unknown client, or one
        attributed to the empty username, gets nothing; an admin hit ends the
        search even then. */
    method HandleMessage(data: string, clientId: string)
      requires Valid()
      modifies this`outbox
      ensures var a := FirstWithId(adminQueue.order, adminQueue.entries, clientId);
              var p := FirstWithId(publicQueue.order, publicQueue.entries, clientId);
              if a.Some? && a.value != "" then
                outbox == old(outbox) + FanOut(adminQueue.order, adminQueue.entries, Chat(a.value, data))
              else if a.None? && p.Some? && p.value != "" then
                outbox == old(outbox) + FanOut(publicQueue.order, publicQueue.entries, Chat(p.value, data))
              else
                outbox == old(outbox)
    {
      var sender := FindById(adminQueue, clientId);
      var q := adminQueue;
      if sender.None? {
        sender := FindById(publicQueue, clientId);
        q := publicQueue;
      }
      if sender.None? || sender.value == "" {
        return;
      }
      Broadcast(q, Chat(sender.value, data));
    }

    /** `queue.forEach(({socket}) => socket.emit('message', data))`. */
    method Broadcast(q: Queue, data: EventData)
      requires forall i :: 0 <= i < |q.order| ==> q.order[i] in q.entries
      modifies this`outbox
      ensures outbox == old(outbox) + FanOut(q.order, q.entries, data)
    {
      var i := 0;
      while i < |q.order|
        invariant 0 <= i <= |q.order|
        invariant outbox == old(outbox) + FanOut(q.order[..i], q.entries, data)
      {
        assert q.order[..i + 1][..i] == q.order[..i];
        outbox := outbox + [Emit(q.entries[q.order[i]].id, MessageEvent, data)];
        i := i + 1;
      }
      assert q.order[..|q.order|] == q.order;
    }

    /** sendToAdmin: a 'requst-message' to the named admin, if connected. */
    method SendToAdmin(username: string, message: string)
      modifies this`outbox
      ensures outbox == old(outbox) + Unicast(adminQueue, username, RequestMessageEvent, message)
    {
      if username in adminQueue.entries {
        outbox := outbox + [Emit(adminQueue.entries[username].id, RequestMessageEvent, Text(message))];
      }
    }

    /** sendToPublic: a 'template-change-message' to the named public user, if connected. */
    method SendToPublic(username: string, message: string)
      modifies this`outbox
      ensures outbox == old(outbox) + Unicast(publicQueue, username, TemplateChangeEvent, message)
    {
      if username in publicQueue.entries {
        outbox := outbox + [Emit(publicQueue.entries[username].id, TemplateChangeEvent, Text(message))];
      }
    }
  }
}

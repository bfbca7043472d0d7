/** LowcodeService (lowcode.service.ts): the template store keyed by
    `template_key`, its cache-aside copy under `lowcode:template:<key>`, the
    visibility filter, the pending-page arithmetic and the approval
    transitions, which drive the notification records and the gateway. */
module Lowcode {
  import opened Common
  import opened Notifications
  import opened Gateway

  /** `templateStatusEnum` of the shared package (its module is not part of
      this model; the four values are the ones the workflow names). */
  datatype TemplateStatus = Draft | Pending | Approved | Rejected

  /** A row of `lowcode_templates` (timestamps are not modelled). */
  datatype Template = Template(
    id: int, key: string, name: string, json: string, username: string, status: TemplateStatus)

  /** CreateLowcodeDto. */
  datatype NewTemplate = NewTemplate(name: string, json: string, username: string)

  /** UpdateLowcodeDto: the whitelisting validation pipe lets only these two fields through. */
  datatype TemplateBody = TemplateBody(name: string, json: string)

  /** The reply of findAllPendings. */
  datatype Page = Page(templates: seq<Template>, hasNext: bool)

  /** The column default of `status` (the schema is not part of this model). */
  const InitialStatus := Draft

  const KeyPrefix := "memory_flow_"
  const TemplateExists := "模版已存在"
  const TemplateUpdated := "模版更新成功"
  const TemplateUpdateFailed := "模版更新失败"
  const Transitioned := "流转成功"
  const AwaitingApproval := "您有待审批的模版"
  const StatusChanged := "审批状态已更新"

  /** `findUnique({where: {template_key}})`: the index of the row with that key. */
  function IndexOfKey(ts: seq<Template>, key: string): (r: Option<nat>)
    ensures r.Some? ==> r.value < |ts| && ts[r.value].key == key
    ensures r.None? <==> forall j :: 0 <= j < |ts| ==> ts[j].key != key
  {
    IndexOf(ts, (t: Template) => t.key, key)
  }

  function ByKey(ts: seq<Template>, key: string): Option<Template> {
    match IndexOfKey(ts, key)
    case Some(i) => Some(ts[i])
    case None => None
  }

  /** `findFirst({where: {template_name}})` finds something. */
  predicate NameTaken(ts: seq<Template>, name: string) {
    exists i :: 0 <= i < |ts| && ts[i].name == name
  }

  /** The unique columns of the table: id and template_key. */
  ghost predicate UniqueTemplateKeys(ts: seq<Template>) {
    forall i, j :: 0 <= i < |ts| && 0 <= j < |ts| && i != j ==> ts[i].id != ts[j].id && ts[i].key != ts[j].key
  }

  /** Deleting row i keeps the keys and ids unique and below the same bound,
      and shifts the later rows down by one. */
  lemma RemoveTemplate(ts: seq<Template>, i: nat, rs: seq<Template>, bound: int)
    requires i < |ts| && rs == ts[..i] + ts[i + 1..]
    requires UniqueTemplateKeys(ts) && forall a :: 0 <= a < |ts| ==> ts[a].id < bound
    ensures UniqueTemplateKeys(rs)
    ensures forall a :: 0 <= a < |rs| ==> rs[a] == ts[if a < i then a else a + 1]
    ensures forall a :: 0 <= a < |rs| ==> rs[a].id < bound
  {
    forall a | 0 <= a < |rs| ensures rs[a] == ts[if a < i then a else a + 1] {
    }
  }

  /** `findMany({where: {username}})`: the caller's own templates, in table order. */
  function OwnedBy(ts: seq<Template>, username: string): (r: seq<Template>)
    ensures |r| <= |ts|
    ensures forall t :: t in r <==> t in ts && t.username == username
  {
    if ts == [] then []
    else (if ts[0].username == username then [ts[0]] else []) + OwnedBy(ts[1..], username)
  }

  /** findAll: an actor of role 2 or more sees every template, anyone else
      only their own. The comparison is `>=`, so super (3) sees all too. */
  function Visible(ts: seq<Template>, username: string, role: int): (r: seq<Template>)
    ensures role >= AdminRole ==> r == ts
    ensures forall t :: t in r <==> t in ts && (role >= AdminRole || t.username == username)
  {
    if role >= AdminRole then ts else OwnedBy(ts, username)
  }

  /** `findMany({where: {status: 'pending'}})`, in table order. */
  function PendingOnly(ts: seq<Template>): (r: seq<Template>)
    ensures |r| <= |ts|
    ensures forall t :: t in r <==> t in ts && t.status == Pending
  {
    if ts == [] then []
    else (if ts[0].status == Pending then [ts[0]] else []) + PendingOnly(ts[1..])
  }

  function Min(a: int, b: int): int { if a <= b then a else b }

  /** `skip`/`take` on a sequence: at most `take` items from offset `skip`. */
  function Slice(p: seq<Template>, skip: nat, take: nat): seq<Template> {
    p[Min(skip, |p|)..Min(skip + take, |p|)]
  }

  /** findAllPendings: page `page` of the pending templates, `pageSize` per
      page, and whether the pending count exceeds `page * pageSize`. A
      negative offset is a store error. */
  function PendingPage(ts: seq<Template>, page: int, pageSize: int): (r: Result<Page>)
    requires pageSize >= 0
    ensures (page - 1) * pageSize < 0 <==> r == Err(Internal(NegativeSkip))
    ensures r.Ok? ==>
              var skip := (page - 1) * pageSize;
              var p := PendingOnly(ts);
              && |r.value.templates| <= pageSize
              && (forall j :: 0 <= j < |r.value.templates| ==>
                    skip + j < |p| && r.value.templates[j] == p[skip + j])
              && (forall t :: t in r.value.templates ==> t in ts && t.status == Pending)
              && (r.value.hasNext <==> skip + |r.value.templates| < |p|)
  {
    var skip := (page - 1) * pageSize;
    if skip < 0 then Err(Internal(NegativeSkip))
    else
      var p := PendingOnly(ts);
      var items := Slice(p, skip, pageSize);
      Ok(Page(items, page * pageSize < |p|))
  }

  /** Pages 1 to n, one after the other. */
  function FirstPages(ts: seq<Template>, n: nat, pageSize: nat): seq<Template> {
    if n == 0 then []
    else FirstPages(ts, n - 1, pageSize) + PendingPage(ts, n, pageSize).value.templates
  }

  /** Page n >= 1 is the slice from offset (n - 1) * pageSize. */
  lemma PageAt(ts: seq<Template>, n: nat, pageSize: nat)
    requires n >= 1
    ensures (n - 1) * pageSize >= 0 && (n - 1) * pageSize + pageSize == n * pageSize
    ensures PendingPage(ts, n, pageSize).Ok?
    ensures PendingPage(ts, n, pageSize).value.templates == Slice(PendingOnly(ts), (n - 1) * pageSize, pageSize)
  {
    var m: nat := n - 1;
    assert m * pageSize >= 0;
    assert m * pageSize + pageSize == (m + 1) * pageSize;
  }

  /** Walking the pages from the first lists the pending templates in order,
      with no gap and no repeat: pages 1 to n are the first n * pageSize. */
  lemma {:induction false} PagesTile(ts: seq<Template>, n: nat, pageSize: nat)
    ensures FirstPages(ts, n, pageSize) == PendingOnly(ts)[..Min(n * pageSize, |PendingOnly(ts)|)]
  {
    var p := PendingOnly(ts);
    if n > 0 {
      PagesTile(ts, n - 1, pageSize);
      PageAt(ts, n, pageSize);
      var skip: nat := (n - 1) * pageSize;
      var lo := Min(skip, |p|);
      var hi := Min(n * pageSize, |p|);
      assert Slice(p, skip, pageSize) == p[lo..hi];
      assert p[..lo] + p[lo..hi] == p[..hi];
    }
  }

  /** The cache holds, under every key, the current row with that key. */
  ghost predicate TemplateCacheCoherent(cache: map<string, Template>, ts: seq<Template>) {
    forall k :: k in cache ==> cache[k] in ts && cache[k].key == k
  }

  lemma KeyFinds(ts: seq<Template>, t: Template)
    requires UniqueTemplateKeys(ts) && t in ts
    ensures ByKey(ts, t.key) == Some(t)
  {
    var i :| 0 <= i < |ts| && ts[i] == t;
    assert IndexOfKey(ts, t.key) == Some(i);
  }

  /** Over a coherent cache findByTemplateKey answers what the table answers,
      and leaves the cache coherent. */
  lemma TemplateReadThrough(cache: map<string, Template>, ts: seq<Template>, key: string)
    requires UniqueTemplateKeys(ts) && TemplateCacheCoherent(cache, ts)
    ensures Served(cache, key, ByKey(ts, key)) == ByKey(ts, key)
    ensures TemplateCacheCoherent(Filled(cache, key, ByKey(ts, key)), ts)
  {
    if key in cache { KeyFinds(ts, cache[key]); }
  }

  /** deleteByTemplateKey leaves the cached copy in place: while it lives,
      findByTemplateKey still returns the deleted template. */
  lemma DeletedTemplateStillServed(cache: map<string, Template>, ts: seq<Template>, i: nat)
    requires UniqueTemplateKeys(ts) && i < |ts| && ts[i].key in cache
    ensures ByKey(ts[..i] + ts[i + 1..], ts[i].key) == None
    ensures Served(cache, ts[i].key, ByKey(ts[..i] + ts[i + 1..], ts[i].key)) == Some(cache[ts[i].key])
  {
    var rest := ts[..i] + ts[i + 1..];
    forall j | 0 <= j < |rest| ensures rest[j].key != ts[i].key {
      assert rest[j] == ts[if j < i then j else j + 1];
    }
  }

  /** The write `update` makes: a body replaces name and json, otherwise the
      status is set; with neither, the row is written back unchanged. */
  function Revised(t: Template, body: Option<TemplateBody>, status: Option<TemplateStatus>): Template {
    match body
    case Some(b) => t.(name := b.name, json := b.json)
    case None => if status.Some? then t.(status := status.value) else t
  }

  lemma RevisedKeepsIdentity(t: Template, body: Option<TemplateBody>, status: Option<TemplateStatus>)
    ensures Revised(t, body, status).id == t.id
    ensures Revised(t, body, status).key == t.key
    ensures Revised(t, body, status).username == t.username
    ensures body.None? && status.Some? ==> Revised(t, body, status).status == status.value
  {
  }

  class LowcodeService {
    /** The `lowcode_templates` table, in the order findMany returns it. */
    var templates: seq<Template>
    var nextId: int
    /** The `lowcode:template:<key>` entries, by key. */
    var cache: map<string, Template>
    const notifications: NotificationService
    const gateway: NotificationGateway

    ghost predicate Valid()
      reads this, notifications
    {
      && UniqueTemplateKeys(templates) && (forall i :: 0 <= i < |templates| ==> templates[i].id < nextId)
      && notifications.Valid()
    }

    ghost predicate Coherent()
      reads this
    {
      TemplateCacheCoherent(cache, templates)
    }

    constructor (notifications: NotificationService, gateway: NotificationGateway)
      requires notifications.Valid()
      ensures Valid() && Coherent()
      ensures templates == [] && cache == map[]
      ensures this.notifications == notifications && this.gateway == gateway
    {
      templates := [];
      nextId := 1;
      cache := map[];
      this.notifications := notifications;
      this.gateway := gateway;
    }

    /** create: Conflict when any template has the name; otherwise one new
        draft row under the key `memory_flow_<uuid>` (a key already in the
        table is the store's unique-constraint error). */
    method Create(dto: NewTemplate, uuid: string) returns (r: Result<Template>)
      requires Valid()
      modifies this`templates, this`nextId
      ensures Valid()
      ensures old(NameTaken(templates, dto.name)) ==>
                r == Err(Conflict(TemplateExists)) && templates == old(templates) && nextId == old(nextId)
      ensures !old(NameTaken(templates, dto.name)) && old(ByKey(templates, KeyPrefix + uuid)).Some? ==>
                r == Err(Internal(UniqueViolation)) && templates == old(templates) && nextId == old(nextId)
      ensures !old(NameTaken(templates, dto.name)) && old(ByKey(templates, KeyPrefix + uuid)).None? ==>
                var t := Template(old(nextId), KeyPrefix + uuid, dto.name, dto.json, dto.username, InitialStatus);
                r == Ok(t) && templates == old(templates) + [t] && nextId == old(nextId) + 1
      ensures old(Coherent()) ==> Coherent()
    {
      if NameTaken(templates, dto.name) {
        return Err(Conflict(TemplateExists));
      }
      var key := KeyPrefix + uuid;
      if ByKey(templates, key).Some? {
        return Err(Internal(UniqueViolation));
      }
      var t := Template(nextId, key, dto.name, dto.json, dto.username, InitialStatus);
      templates := templates + [t];
      nextId := nextId + 1;
      r := Ok(t);
    }

    /** findAll. */
    method FindAll(username: string, role: int) returns (r: seq<Template>)
      ensures role >= AdminRole ==> r == templates
      ensures forall t :: t in r <==> t in templates && (role >= AdminRole || t.username == username)
    {
      r := Visible(templates, username, role);
    }

    /** findAllPendings. */
    method FindAllPendings(page: int, pageSize: int) returns (r: Result<Page>)
      requires pageSize >= 0
      ensures r == PendingPage(templates, page, pageSize)
      ensures r.Ok? ==> forall t :: t in r.value.templates ==> t in templates && t.status == Pending
    {
      r := PendingPage(templates, page, pageSize);
    }

    /** deleteByTemplateKey: remove the row (none is the store's not-found
        error); the cache entry for the key is left as it is. */
    method DeleteByTemplateKey(key: string) returns (r: Result<Template>)
      requires Valid()
      modifies this`templates
      ensures Valid() && cache == old(cache)
      ensures match IndexOfKey(old(templates), key)
              case None => r == Err(Internal(RecordNotFound)) && templates == old(templates)
              case Some(i) => r == Ok(old(templates)[i]) && templates == old(templates)[..i] + old(templates)[i + 1..]
      ensures old(Coherent()) && key !in cache ==> Coherent()
    {
      var i := IndexOfKey(templates, key);
      if i.None? {
        return Err(Internal(RecordNotFound));
      }
      ghost var ts0 := templates;
      r := Ok(templates[i.value]);
      templates := templates[..i.value] + templates[i.value + 1..];
      RemoveTemplate(ts0, i.value, templates, nextId);
      if TemplateCacheCoherent(cache, ts0) && key !in cache {
        forall k | k in cache ensures cache[k] in templates {
          var j :| 0 <= j < |ts0| && ts0[j] == cache[k];
          assert templates[if j < i.value then j else j - 1] == cache[k];
        }
      }
    }

    /** findByTemplateKey: the cached copy on a hit; on a miss the row, cached
        only when there is one. */
    method FindByTemplateKey(key: string) returns (r: Option<Template>)
      modifies this`cache
      ensures r == Served(old(cache), key, ByKey(templates, key))
      ensures cache == Filled(old(cache), key, ByKey(templates, key))
    {
      if key in cache {
        return Some(cache[key]);
      }
      r := ByKey(templates, key);
      if r.Some? {
        cache := cache[key := r.value];
      }
    }

    /** updateByTemplateKey: write the revision and cache the written row; any
        store failure (no such key) becomes Conflict. */
    method UpdateByTemplateKey(key: string, body: Option<TemplateBody>, status: Option<TemplateStatus>)
      returns (r: Result<string>)
      requires Valid()
      modifies this`templates, this`cache
      ensures Valid()
      ensures match IndexOfKey(old(templates), key)
              case None =>
                r == Err(Conflict(TemplateUpdateFailed)) && templates == old(templates) && cache == old(cache)
              case Some(i) =>
                var t := Revised(old(templates)[i], body, status);
                && r == Ok(TemplateUpdated) && templates == old(templates)[i := t] && cache == old(cache)[key := t]
      ensures old(Coherent()) ==> Coherent()
    {
      var i := IndexOfKey(templates, key);
      if i.None? {
        return Err(Conflict(TemplateUpdateFailed));
      }
      ghost var ts0, c0 := templates, cache;
      var t := Revised(templates[i.value], body, status);
      templates := templates[i.value := t];
      cache := cache[key := t];
      r := Ok(TemplateUpdated);
      if TemplateCacheCoherent(c0, ts0) {
        forall k | k in cache ensures cache[k] in templates && cache[k].key == k {
          if k != key {
            var j :| 0 <= j < |ts0| && ts0[j] == c0[k];
            assert templates[j] == c0[k];
          } else {
            assert templates[i.value] == t;
          }
        }
      }
    }

    /** The status update followed by the lookup, as each transition runs them. */
    method SetStatus(key: string, status: TemplateStatus) returns (r: Result<Template>)
      requires Valid()
      modifies this`templates, this`cache
      ensures Valid()
      ensures match IndexOfKey(old(templates), key)
              case None =>
                r == Err(Conflict(TemplateUpdateFailed)) && templates == old(templates) && cache == old(cache)
              case Some(i) =>
                var t := old(templates)[i].(status := status);
                && r == Ok(t) && templates == old(templates)[i := t] && cache == old(cache)[key := t]
      ensures old(Coherent()) ==> Coherent()
    {
      var u := UpdateByTemplateKey(key, None, Some(status));
      if u.Err? {
        return Err(u.error);
      }
      var found := FindByTemplateKey(key);
      r := Ok(found.value);
    }

    /** requestApproval: whatever the current status, set it to pending, record
        one unread notification for the template addressed to the approver, and
        tell the approver on the admin queue. */
    method RequestApproval(key: string, approver: string) returns (r: Result<string>)
      requires Valid()
      modifies this`templates, this`cache, notifications, gateway`outbox
      ensures Valid()
      ensures match IndexOfKey(old(templates), key)
              case None =>
                && r == Err(Conflict(TemplateUpdateFailed)) && templates == old(templates) && cache == old(cache)
                && notifications.records == old(notifications.records) && notifications.nextId == old(notifications.nextId)
                && gateway.outbox == old(gateway.outbox)
              case Some(i) =>
                var t := old(templates)[i].(status := Pending);
                && r == Ok(Transitioned) && templates == old(templates)[i := t] && cache == old(cache)[key := t]
                && notifications.records == old(notifications.records) +
                     [Notification(old(notifications.nextId), approver, TemplateApprove, t.id, ApprovalRequestMessage, Unread)]
                && notifications.nextId == old(notifications.nextId) + 1
                && gateway.outbox == old(gateway.outbox) + Unicast(gateway.adminQueue, approver, RequestMessageEvent, AwaitingApproval)
      ensures old(Coherent()) ==> Coherent()
    {
      var found := SetStatus(key, Pending);
      if found.Err? {
        return Err(found.error);
      }
      var _ := notifications.Create(found.value.id, approver);
      gateway.SendToAdmin(approver, AwaitingApproval);
      r := Ok(Transitioned);
    }

    /** approveRequest and rejectRequest: whatever the current status, set the
        verdict, mark the template's notifications read, and tell the owner on
        the public queue only. */
    method Resolve(key: string, verdict: TemplateStatus) returns (r: Result<string>)
      requires Valid()
      modifies this`templates, this`cache, notifications, gateway`outbox
      ensures Valid()
      ensures match IndexOfKey(old(templates), key)
              case None =>
                && r == Err(Conflict(TemplateUpdateFailed)) && templates == old(templates) && cache == old(cache)
                && notifications.records == old(notifications.records) && gateway.outbox == old(gateway.outbox)
              case Some(i) =>
                var t := old(templates)[i].(status := verdict);
                && r == Ok(Transitioned) && templates == old(templates)[i := t] && cache == old(cache)[key := t]
                && notifications.records == MarkRead(old(notifications.records), t.id)
                && gateway.outbox == old(gateway.outbox) + Unicast(gateway.publicQueue, t.username, TemplateChangeEvent, StatusChanged)
      ensures notifications.nextId == old(notifications.nextId)
      ensures old(Coherent()) ==> Coherent()
    {
      var found := SetStatus(key, verdict);
      if found.Err? {
        return Err(found.error);
      }
      var _ := notifications.Update(found.value.id);
      gateway.SendToPublic(found.value.username, StatusChanged);
      r := Ok(Transitioned);
    }

    method ApproveRequest(key: string) returns (r: Result<string>)
      requires Valid()
      modifies this`templates, this`cache, notifications, gateway`outbox
      ensures Valid()
      ensures match IndexOfKey(old(templates), key)
              case None =>
                && r == Err(Conflict(TemplateUpdateFailed)) && templates == old(templates) && cache == old(cache)
                && notifications.records == old(notifications.records) && gateway.outbox == old(gateway.outbox)
              case Some(i) =>
                var t := old(templates)[i].(status := Approved);
                && r == Ok(Transitioned) && templates == old(templates)[i := t] && cache == old(cache)[key := t]
                && notifications.records == MarkRead(old(notifications.records), t.id)
                && gateway.outbox == old(gateway.outbox) + Unicast(gateway.publicQueue, t.username, TemplateChangeEvent, StatusChanged)
      ensures old(Coherent()) ==> Coherent()
    {
      r := Resolve(key, Approved);
    }

    method RejectRequest(key: string) returns (r: Result<string>)
      requires Valid()
      modifies this`templates, this`cache, notifications, gateway`outbox
      ensures Valid()
      ensures match IndexOfKey(old(templates), key)
              case None =>
                && r == Err(Conflict(TemplateUpdateFailed)) && templates == old(templates) && cache == old(cache)
                && notifications.records == old(notifications.records) && gateway.outbox == old(gateway.outbox)
              case Some(i) =>
                var t := old(templates)[i].(status := Rejected);
                && r == Ok(Transitioned) && templates == old(templates)[i := t] && cache == old(cache)[key := t]
                && notifications.records == MarkRead(old(notifications.records), t.id)
                && gateway.outbox == old(gateway.outbox) + Unicast(gateway.publicQueue, t.username, TemplateChangeEvent, StatusChanged)
      ensures old(Coherent()) ==> Coherent()
    {
      r := Resolve(key, Rejected);
    }

    /** A cache entry's TTL lapses. */
    method Expire(key: string)
      modifies this`cache
      ensures cache == old(cache) - {key}
      ensures old(Coherent()) ==> Coherent()
    {
      cache := cache - {key};
    }
  }
}

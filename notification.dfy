/** NotificationService (notification.service.ts): the notification records of
    the approval workflow, created unread and marked read by target template. */
module Notifications {

  const ApprovalRequestMessage := "模版更新请求"

  /** `NotificationType.template_approve` (the constant's own module is not part of this model). */
  datatype NotificationType = TemplateApprove

  datatype ReadState = Unread | Read

  datatype Notification = Notification(
    id: int, username: string, typeId: NotificationType, targetId: int, message: string, status: ReadState)

  /** The effect of `updateMany` on one record. */
  function MarkOne(n: Notification, taskId: int): Notification {
    if n.targetId == taskId then n.(status := Read) else n
  }

  /** `updateMany({where: {target_id: taskId}, data: {status: 'read'}})` on the whole table. */
  function MarkRead(rs: seq<Notification>, taskId: int): seq<Notification> {
    if rs == [] then [] else [MarkOne(rs[0], taskId)] + MarkRead(rs[1..], taskId)
  }

  /** The number of records targeting the task: the `count` updateMany reports. */
  function Targeting(rs: seq<Notification>, taskId: int): nat {
    if rs == [] then 0
    else Targeting(rs[..|rs| - 1], taskId) + (if rs[|rs| - 1].targetId == taskId then 1 else 0)
  }

  /** Marking keeps the number of records; every record targeting the task
      becomes read with its other fields kept, and every other record is
      untouched. */
  lemma {:induction false} MarkReadAt(rs: seq<Notification>, taskId: int)
    ensures |MarkRead(rs, taskId)| == |rs|
    ensures forall i :: 0 <= i < |rs| ==> MarkRead(rs, taskId)[i] == MarkOne(rs[i], taskId)
  {
    if rs != [] {
      MarkReadAt(rs[1..], taskId);
      forall i | 1 <= i < |rs| ensures MarkRead(rs, taskId)[i] == MarkOne(rs[i], taskId) {
        assert rs[i] == rs[1..][i - 1];
      }
    }
  }

  /** Marking twice is marking once. */
  lemma MarkReadIdempotent(rs: seq<Notification>, taskId: int)
    ensures MarkRead(MarkRead(rs, taskId), taskId) == MarkRead(rs, taskId)
  {
    MarkReadAt(rs, taskId);
    MarkReadAt(MarkRead(rs, taskId), taskId);
  }

  /** When no record targets the task, nothing changes. */
  lemma MarkReadNoTarget(rs: seq<Notification>, taskId: int)
    requires forall i :: 0 <= i < |rs| ==> rs[i].targetId != taskId
    ensures MarkRead(rs, taskId) == rs
  {
    MarkReadAt(rs, taskId);
  }

  /** Afterwards no record of the task is unread. */
  lemma MarkReadLeavesNoneUnread(rs: seq<Notification>, taskId: int)
    ensures forall n :: n in MarkRead(rs, taskId) && n.targetId == taskId ==> n.status == Read
  {
    MarkReadAt(rs, taskId);
    forall n | n in MarkRead(rs, taskId) && n.targetId == taskId ensures n.status == Read {
      var i :| 0 <= i < |MarkRead(rs, taskId)| && MarkRead(rs, taskId)[i] == n;
      assert n == MarkOne(rs[i], taskId);
    }
  }

  class NotificationService {
    /** The notifications table, in insertion order. */
    var records: seq<Notification>
    /** The next autoincrement id. */
    var nextId: int

    /** Every record's id was handed out before `nextId`. */
    ghost predicate Valid()
      reads this
    {
      forall n :: n in records ==> n.id < nextId
    }

    constructor ()
      ensures Valid()
      ensures records == [] && nextId == 1
    {
      records := [];
      nextId := 1;
    }

    /** create: one new unread approval-request record for the task, addressed
        to `username`. */
    method Create(taskId: int, username: string) returns (n: Notification)
      requires Valid()
      modifies this
      ensures Valid()
      ensures forall m :: m in old(records) ==> m.id < n.id
      ensures n == Notification(old(nextId), username, TemplateApprove, taskId, ApprovalRequestMessage, Unread)
      ensures records == old(records) + [n] && nextId == old(nextId) + 1
    {
      n := Notification(nextId, username, TemplateApprove, taskId, ApprovalRequestMessage, Unread);
      records := records + [n];
      nextId := nextId + 1;
    }

    /** update: mark every record targeting the task read, in place; returns
        how many records matched. */
    method Update(taskId: int) returns (count: nat)
      requires Valid()
      modifies this
      ensures Valid()
      ensures records == MarkRead(old(records), taskId)
      ensures count == Targeting(old(records), taskId)
      ensures nextId == old(nextId)
    {
      ghost var before := records;
      count := 0;
      var i := 0;
      while i < |records|
        invariant 0 <= i <= |records| == |before|
        invariant forall j :: 0 <= j < i ==> records[j] == MarkOne(before[j], taskId)
        invariant forall j :: i <= j < |records| ==> records[j] == before[j]
        invariant count == Targeting(before[..i], taskId)
        invariant nextId == old(nextId)
      {
        assert before[..i + 1][..i] == before[..i];
        if records[i].targetId == taskId {
          records := records[i := records[i].(status := Read)];
          count := count + 1;
        }
        i := i + 1;
      }
      assert before[..i] == before;
      MarkReadAt(before, taskId);
      forall n | n in records ensures n.id < nextId {
        var j :| 0 <= j < |records| && records[j] == n;
        assert before[j] in before;
      }
    }
  }
}

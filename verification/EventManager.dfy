/**
  The publish/subscribe manager of `event_manager.py`.

  A subscriber's queue belongs to the subscriber, who goes on reading it after unsubscribing; what
  he has read so far is kept beside it.
*/
module EventManagement {
  import opened Common

  type SubscriberId = string
  type GroupId = string
  type EventId = string
  type EventData = map<string, string>

  datatype Inbox = Inbox(taken: seq<EventData>, queued: seq<EventData>)

  datatype Recent = Recent(data: EventData, time: real)

  datatype Manager = Manager(
    resultTtl: real,
    subscribers: set<SubscriberId>,
    inboxes: map<SubscriberId, Inbox>,
    groups: map<GroupId, set<SubscriberId>>,
    recent: map<EventId, Recent>,
    processed: set<EventId>)

  const QUEUE_LIMIT := 100
  const PROCESSED_LIMIT := 10000

  function NewManager(resultTtl: real): Manager {
    Manager(resultTtl, {}, map[], map[], map[], {})
  }

  // ---------------------------------------------------------------- operations

  function Members(groups: map<GroupId, set<SubscriberId>>, group: GroupId): set<SubscriberId> {
    if group in groups then groups[group] else {}
  }

  /** No group and the empty group are the same: such a subscriber receives nothing. */
  function Subscribe(m: Manager, id: SubscriberId, group: Option<GroupId>): Manager {
    m.(subscribers := m.subscribers + {id},
       inboxes := m.inboxes[id := Inbox([], [])],
       groups := if group.None? || group.value == "" then m.groups
                 else m.groups[group.value := Members(m.groups, group.value) + {id}])
  }

  function WithoutMember(groups: map<GroupId, set<SubscriberId>>, id: SubscriberId): map<GroupId, set<SubscriberId>> {
    map g | g in groups :: groups[g] - {id}
  }

  function Unsubscribe(m: Manager, id: SubscriberId): Manager {
    m.(subscribers := m.subscribers - {id}, groups := WithoutMember(m.groups, id))
  }

  /** The group is written into the data unless it names one already. */
  function Stamped(data: EventData, group: GroupId): EventData {
    if "group_id" in data then data else data["group_id" := group]
  }

  function Deliver(inboxes: map<SubscriberId, Inbox>, ids: set<SubscriberId>, data: EventData)
    : map<SubscriberId, Inbox>
  {
    map id | id in inboxes ::
      if id in ids then inboxes[id].(queued := inboxes[id].queued + [data]) else inboxes[id]
  }

  lemma {:induction false} DeliverOneMore(
      inboxes: map<SubscriberId, Inbox>, ids: set<SubscriberId>, data: EventData, id: SubscriberId)
    requires id in inboxes && id !in ids
    ensures var done := Deliver(inboxes, ids, data);
      Deliver(inboxes, ids + {id}, data) == done[id := done[id].(queued := done[id].queued + [data])]
  {
  }

  function Targets(m: Manager, group: GroupId): set<SubscriberId> {
    Members(m.groups, group) * m.subscribers
  }

  /** Publish, and how many were notified. An event already processed is dropped. */
  function Publish(m: Manager, event: EventId, group: GroupId, data: EventData, now: real): (Manager, nat) {
    if event in m.processed then (m, 0)
    else
      (m.(processed := m.processed + {event},
          recent := m.recent[event := Recent(Stamped(data, group), now)],
          inboxes := Deliver(m.inboxes, Targets(m, group), Stamped(data, group))),
       |Targets(m, group)|)
  }

  /** The subscriber takes the next event off his queue. */
  function Take(m: Manager, id: SubscriberId): Manager {
    if id !in m.inboxes || m.inboxes[id].queued == [] then m
    else
      var box := m.inboxes[id];
      m.(inboxes := m.inboxes[id := Inbox(box.taken + [box.queued[0]], box.queued[1..])])
  }

  predicate IsStale(m: Manager, event: EventId, now: real)
    requires event in m.recent
  {
    now - m.recent[event].time > m.resultTtl
  }

  /** One round of the cleanup task. */
  function CleanupPass(m: Manager, now: real): Manager {
    m.(recent := map e | e in m.recent && !IsStale(m, e, now) :: m.recent[e],
       processed := if |m.processed| > PROCESSED_LIMIT then {} else m.processed,
       groups := map g | g in m.groups && m.groups[g] != {} :: m.groups[g])
  }

  // ---------------------------------------------------------------- runs

  datatype Op =
    | SubscribeOp(id: SubscriberId, of: Option<GroupId>)
    | UnsubscribeOp(id: SubscriberId)
    | PublishOp(event: EventId, group: GroupId, data: EventData, now: real)
    | TakeOp(id: SubscriberId)
    | CleanupOp(now: real)

  function Perform(m: Manager, op: Op): Manager {
    match op
    case SubscribeOp(id, group) => Subscribe(m, id, group)
    case UnsubscribeOp(id) => Unsubscribe(m, id)
    case PublishOp(event, group, data, now) => Publish(m, event, group, data, now).0
    case TakeOp(id) => Take(m, id)
    case CleanupOp(now) => CleanupPass(m, now)
  }

  function After(ttl: real, ops: seq<Op>): Manager {
    if ops == [] then NewManager(ttl) else Perform(After(ttl, ops[..|ops| - 1]), ops[|ops| - 1])
  }

  /** Subscriber ids are new, and a publish finds room in every queue it writes to. */
  predicate Allowed(m: Manager, op: Op) {
    match op
    case SubscribeOp(id, _) => id !in m.inboxes
    case PublishOp(event, group, _, _) =>
      event in m.processed ||
      forall id | id in Targets(m, group) && id in m.inboxes :: |m.inboxes[id].queued| < QUEUE_LIMIT
    case _ => true
  }

  predicate Legal(ttl: real, ops: seq<Op>) {
    ops != [] ==> Legal(ttl, ops[..|ops| - 1]) && Allowed(After(ttl, ops[..|ops| - 1]), ops[|ops| - 1])
  }

  // ---------------------------------------------------------------- read off the history

  /** The group a subscriber is in. */
  function GroupOf(ops: seq<Op>, id: SubscriberId): Option<GroupId> {
    if ops == [] then None else
      var before := GroupOf(ops[..|ops| - 1], id);
      match ops[|ops| - 1]
      case SubscribeOp(i, group) => if i == id then (if group == Some("") then None else group) else before
      case UnsubscribeOp(i) => if i == id then None else before
      case _ => before
  }

  /** The event ids published since they were last forgotten. */
  function Seen(ops: seq<Op>): set<EventId> {
    if ops == [] then {} else
      var before := Seen(ops[..|ops| - 1]);
      match ops[|ops| - 1]
      case PublishOp(event, _, _, _) => before + {event}
      case CleanupOp(_) => if |before| > PROCESSED_LIMIT then {} else before
      case _ => before
  }

  /** The events published to a subscriber's group while he was in it, without repetitions. */
  function Projection(ops: seq<Op>, id: SubscriberId): seq<EventData> {
    if ops == [] then [] else
      var before := ops[..|ops| - 1];
      match ops[|ops| - 1]
      case SubscribeOp(i, _) => if i == id then [] else Projection(before, id)
      case PublishOp(event, group, data, _) =>
        Projection(before, id) +
        if event !in Seen(before) && GroupOf(before, id) == Some(group) then
          [if "group_id" in data then data else data["group_id" := group]]
        else []
      case _ => Projection(before, id)
  }

  // ---------------------------------------------------------------- the invariant

  /** What the manager knows of a subscriber is what the history says. */
  ghost predicate Mirrors(m: Manager, ops: seq<Op>, id: SubscriberId) {
    && (forall g :: id in Members(m.groups, g) <==> GroupOf(ops, id) == Some(g))
    && (GroupOf(ops, id).Some? ==> id in m.subscribers)
    && (id in m.subscribers ==> id in m.inboxes)
    && (id in m.inboxes ==> m.inboxes[id].taken + m.inboxes[id].queued == Projection(ops, id))
  }

  lemma {:induction false} MembersAfterSubscribe(m: Manager, id: SubscriberId, group: Option<GroupId>, g: GroupId)
    ensures Members(Subscribe(m, id, group).groups, g) ==
      if group == Some(g) && g != "" then Members(m.groups, g) + {id} else Members(m.groups, g)
  {
  }

  lemma {:induction false} SubscribeMirrors(m: Manager, ops: seq<Op>, op: Op, id: SubscriberId)
    requires op.SubscribeOp? && Mirrors(m, ops, id) && Allowed(m, op)
    ensures Mirrors(Perform(m, op), ops + [op], id)
  {
    assert (ops + [op])[..|ops|] == ops;
    forall g ensures id in Members(Perform(m, op).groups, g) <==> GroupOf(ops + [op], id) == Some(g) {
      MembersAfterSubscribe(m, op.id, op.of, g);
    }
  }

  lemma {:induction false} PublishMirrors(m: Manager, ops: seq<Op>, op: Op, id: SubscriberId)
    requires op.PublishOp? && Mirrors(m, ops, id) && m.processed == Seen(ops)
    ensures Mirrors(Perform(m, op), ops + [op], id)
  {
    assert (ops + [op])[..|ops|] == ops;
    assert id in Members(m.groups, op.group) <==> GroupOf(ops, id) == Some(op.group);
    if op.event !in m.processed && id in m.inboxes {
      var box, data := m.inboxes[id], Stamped(op.data, op.group);
      assert box.taken + (box.queued + [data]) == (box.taken + box.queued) + [data];
    }
  }

  lemma {:induction false} TakeMirrors(m: Manager, ops: seq<Op>, op: Op, id: SubscriberId)
    requires op.TakeOp? && Mirrors(m, ops, id)
    ensures Mirrors(Perform(m, op), ops + [op], id)
  {
    assert (ops + [op])[..|ops|] == ops;
    if op.id == id && id in m.inboxes && m.inboxes[id].queued != [] {
      var box := m.inboxes[id];
      assert (box.taken + [box.queued[0]]) + box.queued[1..] == box.taken + box.queued;
    }
  }

  lemma {:induction false} OtherMirrors(m: Manager, ops: seq<Op>, op: Op, id: SubscriberId)
    requires (op.UnsubscribeOp? || op.CleanupOp?) && Mirrors(m, ops, id)
    ensures Mirrors(Perform(m, op), ops + [op], id)
  {
    assert (ops + [op])[..|ops|] == ops;
    forall g ensures id in Members(Perform(m, op).groups, g) <==> GroupOf(ops + [op], id) == Some(g) {
      assert id in Members(m.groups, g) <==> GroupOf(ops, id) == Some(g);
    }
  }

  lemma {:induction false} HistoryMirrors(ttl: real, ops: seq<Op>, id: SubscriberId)
    requires Legal(ttl, ops)
    ensures Mirrors(After(ttl, ops), ops, id) && After(ttl, ops).processed == Seen(ops)
  {
    if ops != [] {
      var before, op := ops[..|ops| - 1], ops[|ops| - 1];
      HistoryMirrors(ttl, before, id);
      assert before + [op] == ops;
      var m := After(ttl, before);
      match op
      case SubscribeOp(_, _) => SubscribeMirrors(m, before, op, id);
      case PublishOp(_, _, _, _) => PublishMirrors(m, before, op, id);
      case TakeOp(_) => TakeMirrors(m, before, op, id);
      case _ => OtherMirrors(m, before, op, id);
    }
  }

  /** What a subscriber has read and what is queued for him are, in order, the deduplicated events
      published to his group while he was subscribed. */
  lemma {:induction false} DeliveryIsProjection(ttl: real, ops: seq<Op>, id: SubscriberId)
    requires Legal(ttl, ops) && id in After(ttl, ops).inboxes
    ensures var box := After(ttl, ops).inboxes[id]; box.taken + box.queued == Projection(ops, id)
  {
    HistoryMirrors(ttl, ops, id);
  }

  lemma {:induction false} QueuesAreBounded(ttl: real, ops: seq<Op>, id: SubscriberId)
    requires Legal(ttl, ops) && id in After(ttl, ops).inboxes
    ensures |After(ttl, ops).inboxes[id].queued| <= 100
  {
    if ops != [] {
      var before := ops[..|ops| - 1];
      if id in After(ttl, before).inboxes {
        QueuesAreBounded(ttl, before, id);
      }
    }
  }

  /** A published event is recorded as it is delivered, with the moment of its publishing, and the number
      answered is the number of queues that grew; a repetition changes nothing. */
  lemma {:induction false} PublishRecords(m: Manager, event: EventId, group: GroupId, data: EventData, now: real)
    requires forall id | id in m.subscribers :: id in m.inboxes
    ensures var (m', notified) := Publish(m, event, group, data, now);
      if event in m.processed then m' == m && notified == 0
      else
        var sent := if "group_id" in data then data else data["group_id" := group];
        && m'.recent == m.recent[event := Recent(sent, now)] && m'.processed == m.processed + {event}
        && m'.subscribers == m.subscribers && m'.groups == m.groups
        && m'.inboxes.Keys == m.inboxes.Keys
        && (forall id | id in m.inboxes :: m'.inboxes[id].taken == m.inboxes[id].taken)
        && (forall id | id in m.inboxes ::
              m'.inboxes[id].queued ==
              if group in m.groups && id in m.groups[group] && id in m.subscribers then m.inboxes[id].queued + [sent]
              else m.inboxes[id].queued)
        && notified == |set id | id in m.inboxes && |m'.inboxes[id].queued| == |m.inboxes[id].queued| + 1|
  {
    if event !in m.processed {
      var m' := Publish(m, event, group, data, now).0;
      assert Targets(m, group) == set id | id in m.inboxes && |m'.inboxes[id].queued| == |m.inboxes[id].queued| + 1;
    }
  }

  /** Whoever unsubscribes is no subscriber and in no group any more, keeps his queue, and leaves the others as
      they were. */
  lemma {:induction false} UnsubscribeLeaves(m: Manager, id: SubscriberId, other: SubscriberId, group: GroupId)
    requires other != id
    ensures var m' := Unsubscribe(m, id);
      && id !in m'.subscribers && (group in m'.groups ==> id !in m'.groups[group])
      && (other in m'.subscribers <==> other in m.subscribers)
      && (group in m'.groups <==> group in m.groups)
      && (group in m.groups ==> (other in m'.groups[group] <==> other in m.groups[group]))
      && m'.inboxes == m.inboxes && m'.recent == m.recent && m'.processed == m.processed
  {
  }

  /** A publish waits for room only behind a queue of a hundred. */
  lemma {:induction false} RoomBelowHundred(m: Manager, event: EventId, group: GroupId, data: EventData, now: real)
    requires forall id | id in m.inboxes :: |m.inboxes[id].queued| <= 99
    ensures Allowed(m, PublishOp(event, group, data, now))
  {
  }

  // ---------------------------------------------------------------- at most once

  /** The operation at `i` publishes an event that is not dropped as a repetition. */
  predicate Accepts(ops: seq<Op>, i: nat)
    requires i < |ops|
  {
    ops[i].PublishOp? && ops[i].event !in Seen(ops[..i])
  }

  /** The operation at `k` is a cleanup that forgets the processed ids. */
  predicate Forgets(ops: seq<Op>, k: nat)
    requires k < |ops|
  {
    ops[k].CleanupOp? && |Seen(ops[..k])| > PROCESSED_LIMIT
  }

  lemma {:induction false} SeenUntilForgotten(ops: seq<Op>, i: nat, j: nat)
    requires i < j <= |ops| && ops[i].PublishOp?
    requires forall k | i < k < j :: !Forgets(ops, k)
    ensures ops[i].event in Seen(ops[..j])
    decreases j
  {
    assert ops[..j][..j - 1] == ops[..j - 1] && ops[..j][j - 1] == ops[j - 1];
    if i < j - 1 {
      SeenUntilForgotten(ops, i, j - 1);
      assert !Forgets(ops, j - 1);
    }
  }

  /** Between two clears of the processed ids an event id gets through at most once. */
  lemma {:induction false} AtMostOnceBetweenClears(ops: seq<Op>, i: nat, j: nat)
    requires i < j < |ops| && Accepts(ops, i) && Accepts(ops, j) && ops[i].event == ops[j].event
    ensures exists k :: i < k < j && Forgets(ops, k)
  {
    if forall k | i < k < j :: !Forgets(ops, k) {
      SeenUntilForgotten(ops, i, j);
    }
  }

  // ---------------------------------------------------------------- cleanup

  /** A cleanup pass drops exactly the results older than their time to live and the groups without
      members; no subscription, queue or young result is touched. */
  lemma {:induction false} CleanupExactly(m: Manager, now: real)
    ensures var m' := CleanupPass(m, now);
      && (forall g :: Members(m'.groups, g) == Members(m.groups, g))
      && (forall g | g in m.groups :: g in m'.groups <==> m.groups[g] != {})
      && (forall e | e in m.recent :: e in m'.recent <==> now - m.recent[e].time <= m.resultTtl)
      && (forall e | e in m'.recent :: e in m.recent && m'.recent[e] == m.recent[e])
      && m'.subscribers == m.subscribers && m'.inboxes == m.inboxes
      && m'.processed == (if |m.processed| > 10000 then {} else m.processed)
  {
    var m' := CleanupPass(m, now);
    forall g ensures Members(m'.groups, g) == Members(m.groups, g) {
      if g in m.groups && m.groups[g] == {} {
        assert g !in m'.groups;
      }
    }
  }

  // ---------------------------------------------------------------- in place

  class EventManager {
    const resultTtl: real
    var subscribers: set<SubscriberId>
    var inboxes: map<SubscriberId, Inbox>
    var groupSubscriptions: map<GroupId, set<SubscriberId>>
    var recentResults: map<EventId, Recent>
    var processedTasks: set<EventId>

    function View(): Manager
      reads this
    {
      Manager(resultTtl, subscribers, inboxes, groupSubscriptions, recentResults, processedTasks)
    }

    constructor (resultTtl: real)
      ensures View() == NewManager(resultTtl)
    {
      this.resultTtl := resultTtl;
      subscribers, inboxes, groupSubscriptions := {}, map[], map[];
      recentResults, processedTasks := map[], {};
    }

    method AddSubscriber(id: SubscriberId, group: Option<GroupId>)
      modifies this
      ensures View() == Subscribe(old(View()), id, group)
    {
      subscribers := subscribers + {id};
      inboxes := inboxes[id := Inbox([], [])];
      if group.Some? && group.value != "" {
        if group.value !in groupSubscriptions {
          groupSubscriptions := groupSubscriptions[group.value := {}];
        }
        groupSubscriptions := groupSubscriptions[group.value := groupSubscriptions[group.value] + {id}];
      }
    }

    method RemoveSubscriber(id: SubscriberId)
      modifies this
      ensures View() == Unsubscribe(old(View()), id)
    {
      if id in subscribers {
        subscribers := subscribers - {id};
      }
      assert subscribers == old(subscribers) - {id};
      ghost var before := groupSubscriptions;
      var todo := groupSubscriptions.Keys;
      while todo != {}
        invariant todo <= before.Keys == groupSubscriptions.Keys
        invariant forall g | g in before :: groupSubscriptions[g] == if g in todo then before[g] else before[g] - {id}
        invariant View() == old(View()).(subscribers := old(subscribers) - {id}, groups := groupSubscriptions)
        decreases todo
      {
        var g :| g in todo;
        if id in groupSubscriptions[g] {
          groupSubscriptions := groupSubscriptions[g := groupSubscriptions[g] - {id}];
        }
        todo := todo - {g};
      }
      assert groupSubscriptions == WithoutMember(before, id);
    }

    method PublishEvent(event: EventId, group: GroupId, data: EventData, now: real) returns (notified: nat)
      requires forall id | id in subscribers :: id in inboxes
      modifies this
      ensures (View(), notified) == Publish(old(View()), event, group, data, now)
    {
      if event in processedTasks {
        return 0;
      }
      processedTasks := processedTasks + {event};
      var stamped := if "group_id" in data then data else data["group_id" := group];
      recentResults := recentResults[event := Recent(stamped, now)];
      var toNotify := if group in groupSubscriptions then groupSubscriptions[group] else {};
      notified := NotifyAll(toNotify, stamped);
      assert toNotify * subscribers == Targets(old(View()), group);
    }

    /** Put the event on every given subscriber's queue. */
    method NotifyAll(ids: set<SubscriberId>, data: EventData) returns (count: nat)
      requires forall id | id in subscribers :: id in inboxes
      modifies this`inboxes
      ensures inboxes == Deliver(old(inboxes), ids * subscribers, data) && count == |ids * subscribers|
    {
      ghost var before := inboxes;
      var todo := ids;
      ghost var done: set<SubscriberId> := {};
      count := 0;
      assert Deliver(before, {}, data) == before;
      while todo != {}
        invariant todo <= ids && count == |done|
        invariant forall id :: id in done <==> id in ids && id !in todo && id in subscribers
        invariant inboxes == Deliver(before, done, data)
        decreases todo
      {
        var id :| id in todo;
        if id in subscribers {
          DeliverOneMore(before, done, data, id);
          inboxes := inboxes[id := inboxes[id].(queued := inboxes[id].queued + [data])];
          count := count + 1;
          done := done + {id};
        }
        todo := todo - {id};
      }
      assert done == ids * subscribers;
    }

    method Cleanup(now: real)
      modifies this
      ensures View() == CleanupPass(old(View()), now)
    {
      DropStale(now);
      if |processedTasks| > PROCESSED_LIMIT {
        processedTasks := {};
      }
      DropEmptyGroups();
    }

    /** Collect what is older than its time to live, then delete it. */
    method DropStale(now: real)
      modifies this`recentResults
      ensures recentResults == map e | e in old(recentResults) && !IsStale(old(View()), e, now) :: old(recentResults)[e]
    {
      var toRemove: set<EventId> := {};
      var todo := recentResults.Keys;
      while todo != {}
        invariant todo <= recentResults.Keys
        invariant forall e :: e in toRemove <==> e in recentResults && e !in todo && IsStale(View(), e, now)
        decreases todo
      {
        var e :| e in todo;
        if now - recentResults[e].time > resultTtl {
          toRemove := toRemove + {e};
        }
        todo := todo - {e};
      }
      recentResults := recentResults - toRemove;
    }

    method DropEmptyGroups()
      modifies this`groupSubscriptions
      ensures groupSubscriptions ==
              map g | g in old(groupSubscriptions) && old(groupSubscriptions)[g] != {} :: old(groupSubscriptions)[g]
    {
      var empty: set<GroupId> := {};
      var todo := groupSubscriptions.Keys;
      while todo != {}
        invariant todo <= groupSubscriptions.Keys
        invariant forall g :: g in empty <==> g in groupSubscriptions && g !in todo && groupSubscriptions[g] == {}
        decreases todo
      {
        var g :| g in todo;
        if groupSubscriptions[g] == {} {
          empty := empty + {g};
        }
        todo := todo - {g};
      }
      groupSubscriptions := groupSubscriptions - empty;
    }
  }
}

/** What every run of the task service keeps, and what its operations mean to the clients. */
module TaskTheorems {
  import opened Outcomes
  import opened PwrMessage
  import opened TaskSpec

  // ---------------------------------------------------------------- one task

  /** The cached values agree with the subscriber table, whose cleared slots are empty. */
  ghost predicate TaskInv(t: Task) {
    && |t.subs| == MAX_SUBSCRIBERS
    && (forall i, j :: 0 <= i < j < |t.subs| && t.subs[i].sysId != 0 ==> t.subs[i].sysId != t.subs[j].sysId)
    && (forall i :: 0 <= i < |t.subs| && t.subs[i].sysId == 0 ==> t.subs[i] == EMPTY)
    && 1 <= t.subNum == Live(t.subs)
    && (forall i :: 0 <= i < |t.subs| && t.subs[i].sysId != 0 ==> t.interval <= t.subs[i].interval)
  }

  /** A client's slot, if it subscribes. */
  function Entry(t: Task, id: u32): Option<Subscriber> {
    var j := IdAt(t.subs, id);
    if j < |t.subs| then Some(t.subs[j]) else None
  }

  function Interval(o: Option<Subscriber>): Option<int> { if o.Some? then Some(o.value.interval) else None }

  /** The interval that a client asked for, if it subscribes. */
  function Asked(t: Task, id: u32): Option<int> { Interval(Entry(t, id)) }

  function One(b: bool): nat { if b then 1 else 0 }

  lemma LiveOfThree(subs: seq<Subscriber>)
    requires |subs| == MAX_SUBSCRIBERS
    ensures Live(subs) == One(subs[0].sysId != 0) + One(subs[1].sysId != 0) + One(subs[2].sysId != 0)
  {
    assert subs[..2][..1][..0] == [] && subs[..2][..1] == [subs[0]] && subs[..2] == [subs[0], subs[1]];
    assert Live(subs) == Live(subs[..2]) + One(subs[2].sysId != 0);
    assert Live(subs[..2]) == Live(subs[..2][..1]) + One(subs[1].sysId != 0);
  }

  lemma NewTaskIsInv(info: TaskInfo, id: u32, now: TimeVal)
    requires id != 0
    ensures TaskInv(NewTask(info, id, now))
  {
    LiveOfThree(NewTask(info, id, now).subs);
  }

  lemma AddedIsInv(t: Task, interval: int, id: u32, now: TimeVal)
    requires TaskInv(t) && id != 0
    ensures TaskInv(Added(t, interval, id, now))
  {
    LiveOfThree(t.subs);
    LiveOfThree(Added(t, interval, id, now).subs);
  }

  lemma DeletedIsInv(t: Task, id: u32)
    requires TaskInv(t) && id != 0 && Deleted(t, id).Some?
    ensures TaskInv(Deleted(t, id).value)
  {
    LiveOfThree(t.subs);
    LiveOfThree(Unsubscribed(t, id).subs);
  }

  lemma IdAtIs(subs: seq<Subscriber>, j: nat)
    requires j < |subs| && forall i :: 0 <= i < |subs| && i != j ==> subs[i].sysId != subs[j].sysId
    ensures IdAt(subs, subs[j].sysId) == j
  {
  }

  lemma IdAtNone(subs: seq<Subscriber>, id: u32)
    requires forall i :: 0 <= i < |subs| ==> subs[i].sysId != id
    ensures IdAt(subs, id) == |subs|
  {
  }

  /** The slot of a client that asks: for a new one the time since the last data runs from now. */
  function Asking(before: Option<Subscriber>, id: u32, interval: int, now: TimeVal): Subscriber {
    Subscriber(id, interval, if before.Some? then before.value.lastSent else now)
  }

  /** Subscribing changes what this client asks for and nobody else's. */
  lemma AddedAsks(t: Task, interval: int, id: u32, now: TimeVal, i: u32)
    requires TaskInv(t) && id != 0 && i != 0 && HasRoom(t, id)
    ensures Entry(Added(t, interval, id, now), i) == if i == id then Some(Asking(Entry(t, id), id, interval, now))
                                                     else Entry(t, i)
  {
    var subs, subs' := t.subs, Added(t, interval, id, now).subs;
    var j := IdAt(subs, i);
    if i == id {
      IdAtIs(subs', if j < |subs| then j else IdAt(subs, 0));
    } else if j < |subs| {
      IdAtIs(subs', j);
    } else {
      IdAtNone(subs', i);
    }
  }

  lemma UnsubscribedAsks(t: Task, id: u32, i: u32)
    requires TaskInv(t) && id != 0 && i != 0
    ensures Entry(Unsubscribed(t, id), i) == if i == id then None else Entry(t, i)
  {
    var subs, subs' := t.subs, Unsubscribed(t, id).subs;
    var j := IdAt(subs, i);
    if i != id && j < |subs| { IdAtIs(subs', j); } else { IdAtNone(subs', i); }
  }

  /** A task ends exactly when nobody else subscribes. */
  lemma DeletedEndsIff(t: Task, id: u32)
    requires TaskInv(t) && id != 0
    ensures Deleted(t, id) == None <==> forall i: u32 :: i != 0 && i != id ==> Asked(t, i) == None
  {
    LiveOfThree(t.subs);
    LiveOfThree(Unsubscribed(t, id).subs);
    if Deleted(t, id).Some? {
      var j :| 0 <= j < |t.subs| && t.subs[j].sysId != 0 && t.subs[j].sysId != id;
      assert Asked(t, t.subs[j].sysId).Some?;
    }
  }

  /** Some client subscribes to every task. */
  lemma SomebodyAsks(t: Task)
    requires TaskInv(t)
    ensures exists i: u32 :: i != 0 && Asked(t, i).Some?
  {
    LiveOfThree(t.subs);
    var j :| 0 <= j < |t.subs| && t.subs[j].sysId != 0;
    assert Asked(t, t.subs[j].sysId).Some?;
  }

  // ---------------------------------------------------------------- the cached interval

  /** v is the least interval that a client asks for. */
  ghost predicate IsLeast(t: Task, v: int) {
    && (exists i: u32 :: i != 0 && Asked(t, i) == Some(v))
    && forall i: u32 :: i != 0 && Asked(t, i).Some? ==> v <= Asked(t, i).value
  }

  /** The task's interval never exceeds what any client asks for. */
  lemma IntervalIsSoonEnough(t: Task, i: u32)
    requires TaskInv(t) && i != 0 && Asked(t, i).Some?
    ensures t.interval <= Asked(t, i).value
  {
  }

  ghost predicate IsFull(t: Task) { forall j :: 0 <= j < |t.subs| ==> t.subs[j].sysId != 0 }

  /** v is the least interval that a client other than id asks for. */
  ghost predicate IsLeastOfOthers(t: Task, id: u32, v: int) {
    && (exists i: u32 :: i != 0 && i != id && Asked(t, i) == Some(v))
    && forall i: u32 :: i != 0 && i != id && Asked(t, i).Some? ==> v <= Asked(t, i).value
  }

  /** What the others ask for is what is asked for after a removal. */
  lemma OthersAreLeft(t: Task, id: u32, v: int)
    requires TaskInv(t) && id != 0 && IsLeastOfOthers(t, id, v)
    ensures Deleted(t, id).Some? && IsLeast(Deleted(t, id).value, v)
    ensures IsFull(Deleted(t, id).value) <==> IsFull(t) && Asked(t, id) == None
  {
    DeletedEndsIff(t, id);
    var r := Deleted(t, id).value;
    forall i: u32 | i != 0
      ensures Asked(r, i) == if i == id then None else Asked(t, i)
    {
      UnsubscribedAsks(t, id, i);
      assert r.subs == Unsubscribed(t, id).subs;
    }
    var j := IdAt(t.subs, id);
    if j < |t.subs| { assert r.subs[j] == EMPTY; }
  }

  /** The interval recomputed for a removal is the least one that the others ask for exactly when that is not
      positive, or when all slots are taken, none of them by this client, and it is not above the cap: an empty
      slot counts as 0. */
  lemma RecomputedIsLeastIff(t: Task, id: u32, v: int)
    requires TaskInv(t) && id != 0 && IsLeastOfOthers(t, id, v)
    ensures Deleted(t, id).Some? && IsLeast(Deleted(t, id).value, v)
    ensures Deleted(t, id).value.interval == v <==>
      v <= 0 || (IsFull(t) && Asked(t, id) == None && v <= MAX_DC_INTERVAL)
  {
    OthersAreLeft(t, id, v);
    LeastIsRecomputedIff(t, id, v);
  }

  lemma LeastIsRecomputedIff(t: Task, id: u32, v: int)
    requires TaskInv(t) && id != 0 && Deleted(t, id).Some? && IsLeast(Deleted(t, id).value, v)
    ensures Deleted(t, id).value.interval == v <==> v <= 0 || (IsFull(Deleted(t, id).value) && v <= MAX_DC_INTERVAL)
  {
    var r := Deleted(t, id).value;
    DeletedIsInv(t, id);
    var i: u32 :| i != 0 && Asked(r, i) == Some(v);
    assert forall j :: 0 <= j < |r.subs| && r.subs[j].sysId != 0 ==> v <= r.subs[j].interval by {
      forall j | 0 <= j < |r.subs| && r.subs[j].sysId != 0
        ensures v <= r.subs[j].interval
      {
        IdAtIs(r.subs, j);
        assert Asked(r, r.subs[j].sysId) == Some(r.subs[j].interval);
      }
    }
    var j0 := IdAt(r.subs, i);
    assert r.subs[j0].interval == v;
  }

  /** Once a subscriber has left, an empty slot is there, so positive wishes leave the interval 0. */
  lemma IntervalCollapses(t: Task, id: u32)
    requires TaskInv(t) && id != 0 && Asked(t, id).Some? && Deleted(t, id).Some?
    requires forall i: u32 :: i != 0 && Asked(t, i).Some? ==> 0 <= Asked(t, i).value
    ensures Deleted(t, id).value.interval == 0
  {
    var r := Deleted(t, id).value;
    var k := IdAt(t.subs, id);
    assert r.subs[k] == EMPTY;
    forall j | 0 <= j < |r.subs|
      ensures 0 <= r.subs[j].interval
    {
      if r.subs[j].sysId != 0 && j != k {
        IdAtIs(t.subs, j);
        assert Asked(t, t.subs[j].sysId) == Some(r.subs[j].interval);
      }
    }
  }

  /** Asking again lowers the interval but never raises it: it is the least one asked for exactly when the
      new wish is at most the old interval, or when the old interval is still asked for by someone. */
  lemma AddedIntervalIsLeastIff(t: Task, interval: int, id: u32, now: TimeVal)
    requires TaskInv(t) && id != 0 && HasRoom(t, id)
    ensures var r := Added(t, interval, id, now);
      IsLeast(r, r.interval) <==>
        interval <= t.interval || exists i: u32 :: i != 0 && i != id && Asked(t, i) == Some(t.interval)
  {
    var r := Added(t, interval, id, now);
    AddedIsInv(t, interval, id, now);
    AddedAsks(t, interval, id, now, id);
    forall i: u32 | i != 0
      ensures Asked(r, i) == if i == id then Some(interval) else Asked(t, i)
    {
      AddedAsks(t, interval, id, now, i);
    }
    if IsLeast(r, r.interval) && interval > t.interval {
      var i: u32 :| i != 0 && Asked(r, i) == Some(r.interval);
      assert Asked(t, i) == Some(t.interval);
    }
    if i: u32 :| i != 0 && i != id && Asked(t, i) == Some(t.interval) && interval > t.interval {
      assert Asked(r, i) == Some(r.interval);
    }
    if interval <= t.interval { assert Asked(r, id) == Some(r.interval); }
  }

  // ---------------------------------------------------------------- the table

  ghost predicate Inv(s: Service) {
    && |s.table| == MAX_TASK_NUM
    && s.num == Occupied(s.table)
    && (forall k :: 0 <= k < |s.table| && s.table[k].Some? ==> TaskInv(s.table[k].value))
    && (forall k, l :: 0 <= k < l < |s.table| && s.table[k].Some? && s.table[l].Some? ==>
          s.table[k].value.dataType != s.table[l].value.dataType)
  }

  predicate Running(s: Service, dataType: int) { Find(s, dataType) < |s.table| }

  /** A client's slot in the task of a data type, if it subscribes to it. */
  function Subscription(s: Service, dataType: int, id: u32): Option<Subscriber> {
    if Running(s, dataType) then Entry(s.table[Find(s, dataType)].value, id) else None
  }

  /** The interval that it asked for. */
  function Requested(s: Service, dataType: int, id: u32): Option<int> { Interval(Subscription(s, dataType, id)) }

  lemma {:induction false} OccupiedUpdate(table: seq<Option<Task>>, k: nat, t: Option<Task>)
    requires k < |table|
    ensures Occupied(table[k := t]) == Occupied(table) - One(table[k].Some?) + One(t.Some?)
  {
    var n := |table| - 1;
    if k == n {
      assert table[k := t][..n] == table[..n];
    } else {
      OccupiedUpdate(table[..n], k, t);
      assert table[k := t][..n] == table[..n][k := t];
    }
  }

  lemma {:induction false} OccupiedSome(table: seq<Option<Task>>, k: nat)
    requires k < |table| && table[k].Some?
    ensures Occupied(table) > 0
  {
    if k < |table| - 1 { OccupiedSome(table[..|table| - 1], k); }
  }

  lemma {:induction false} OccupiedNone(table: seq<Option<Task>>)
    requires forall k :: 0 <= k < |table| ==> table[k] == None
    ensures Occupied(table) == 0
  {
    if table != [] { OccupiedNone(table[..|table| - 1]); }
  }

  /** The search finds the one task of a data type. */
  lemma FindIs(s: Service, k: nat)
    requires Inv(s) && k < |s.table| && s.table[k].Some?
    ensures Find(s, s.table[k].value.dataType) == k
  {
    hide TaskInv;
    OccupiedSome(s.table, k);
    assert TypeAt(s.table, s.table[k].value.dataType) <= k;
  }

  lemma FindNone(s: Service, dataType: int)
    requires forall k :: 0 <= k < |s.table| && s.table[k].Some? ==> s.table[k].value.dataType != dataType
    ensures !Running(s, dataType)
  {
  }

  /** What replacing the task in one slot by one of the same type, or by none, means. */
  lemma ReplacedMeans(s: Service, s': Service, k: nat, dataType: int, id: u32)
    requires Inv(s) && Inv(s') && k < |s.table| && s.table[k].Some? && s'.table == s.table[k := s'.table[k]]
    requires s'.table[k].Some? ==> s'.table[k].value.dataType == s.table[k].value.dataType
    ensures Subscription(s', dataType, id) ==
      if dataType != s.table[k].value.dataType then Subscription(s, dataType, id)
      else if s'.table[k] == None then None else Entry(s'.table[k].value, id)
  {
    hide TaskInv, Entry;
    FindIs(s, k);
    var l := Find(s, dataType);
    if dataType == s.table[k].value.dataType {
      if s'.table[k].Some? { FindIs(s', k); } else { FindNone(s', dataType); }
    } else if l < |s.table| {
      assert s.table[l].value.dataType == dataType;
      FindIs(s', l);
    } else {
      TypeIsNowhere(s, dataType);
      FindNone(s', dataType);
    }
  }

  lemma TypeIsNowhere(s: Service, dataType: int)
    requires Inv(s) && !Running(s, dataType)
    ensures forall k :: 0 <= k < |s.table| && s.table[k].Some? ==> s.table[k].value.dataType != dataType
  {
    forall k | 0 <= k < |s.table| && s.table[k].Some?
      ensures s.table[k].value.dataType != dataType
    {
      FindIs(s, k);
    }
  }

  lemma UpdateIsInv(s: Service, k: nat, t: Option<Task>)
    requires Inv(s) && k < |s.table|
    requires t.Some? ==> TaskInv(t.value)
    requires t.Some? ==> forall l :: 0 <= l < |s.table| && l != k && s.table[l].Some? ==>
      s.table[l].value.dataType != t.value.dataType
    ensures Inv(Service(s.table[k := t], s.num - One(s.table[k].Some?) + One(t.Some?)))
  {
    hide TaskInv;
    OccupiedUpdate(s.table, k, t);
  }

  lemma CreatedIsInv(s: Service, info: TaskInfo, id: u32, now: TimeVal, memory: bool, thread: RspCode)
    requires Inv(s) && id != 0
    ensures Inv(Created(s, info, id, now, memory, thread).0)
  {
    hide TaskInv, Added, NewTask;
    var k, free := Find(s, info.dataType), FreeAt(s.table);
    if k < |s.table| {
      AddedIsInv(s.table[k].value, info.interval, id, now);
      AddedType(s.table[k].value, info.interval, id, now);
      UpdateIsInv(s, k, Some(Added(s.table[k].value, info.interval, id, now)));
    } else if free < |s.table| {
      NewTaskIsInv(info, id, now);
      NewTaskType(info, id, now);
      TypeIsNowhere(s, info.dataType);
      UpdateIsInv(s, free, Some(NewTask(info, id, now)));
    }
  }

  lemma AddedType(t: Task, interval: int, id: u32, now: TimeVal)
    ensures Added(t, interval, id, now).dataType == t.dataType
  {
  }

  lemma NewTaskType(info: TaskInfo, id: u32, now: TimeVal)
    ensures NewTask(info, id, now).dataType == info.dataType
    ensures forall i: u32 :: i != 0 ==>
      Entry(NewTask(info, id, now), i) == if i == id then Some(Subscriber(id, info.interval, now)) else None
  {
  }

  lemma DeletedAtIsInv(s: Service, k: nat, id: u32)
    requires Inv(s) && id != 0 && k < |s.table|
    ensures Inv(DeletedAt(s, k, id))
  {
    hide TaskInv;
    if s.table[k].Some? {
      var t := s.table[k].value;
      if Deleted(t, id).Some? { DeletedIsInv(t, id); }
      UpdateIsInv(s, k, Deleted(t, id));
    }
  }

  /** When a subscription is refused. */
  predicate Refused(s: Service, info: TaskInfo, id: u32, memory: bool, thread: RspCode) {
    if Running(s, info.dataType) then !HasRoom(s.table[Find(s, info.dataType)].value, id)
    else FreeAt(s.table) == |s.table| || !memory || thread != Success
  }

  /** A subscription that succeeds records the client's interval and touches no other one;
      a refused one changes nothing. */
  lemma CreatedMeans(s: Service, info: TaskInfo, id: u32, now: TimeVal, memory: bool, thread: RspCode, dataType: int,
    i: u32)
    requires Inv(s) && id != 0 && i != 0
    ensures var (s', code) := Created(s, info, id, now, memory, thread);
      && (code == Success <==> !Refused(s, info, id, memory, thread))
      && (code != Success ==> s' == s)
      && (code == Success ==>
            && Requested(s', dataType, i)
               == (if dataType == info.dataType && i == id then Some(info.interval) else Requested(s, dataType, i))
            && Subscription(s', dataType, i)
               == if dataType == info.dataType && i == id then
                    Some(Asking(Subscription(s, dataType, i), id, info.interval, now))
                  else Subscription(s, dataType, i))
  {
    hide TaskInv, Added, NewTask, Entry, HasRoom;
    var k, free := Find(s, info.dataType), FreeAt(s.table);
    var (s', code) := Created(s, info, id, now, memory, thread);
    CreatedIsInv(s, info, id, now, memory, thread);
    if k < |s.table| {
      var t := s.table[k].value;
      AddedType(t, info.interval, id, now);
      if HasRoom(t, id) {
        AddedAsks(t, info.interval, id, now, i);
        ReplacedMeans(s, s', k, dataType, i);
      } else {
        NoRoomNoChange(t, info.interval, id, now);
        assert s.table[k := s.table[k]] == s.table;
      }
    } else if code == Success {
      NewTaskType(info, id, now);
      AppearedMeans(s, s', free, dataType, i);
    }
  }

  lemma RoomIff(t: Task, id: u32)
    requires TaskInv(t) && id != 0
    ensures HasRoom(t, id) <==> Entry(t, id).Some? || t.subNum < 3
  {
    LiveOfThree(t.subs);
  }

  lemma {:induction false} OccupiedFull(table: seq<Option<Task>>)
    ensures Occupied(table) <= |table|
    ensures Occupied(table) == |table| <==> forall k :: 0 <= k < |table| ==> table[k].Some?
  {
    if table != [] { OccupiedFull(table[..|table| - 1]); }
  }

  /** Which code a subscription gets: by the count of the task's subscribers, if it is running, and else by the count
      of tasks and by what a new one can have. */
  lemma CodeMeans(s: Service, info: TaskInfo, id: u32, now: TimeVal, memory: bool, thread: RspCode)
    requires Inv(s) && id != 0
    ensures Created(s, info, id, now, memory, thread).1 ==
      if Running(s, info.dataType) then
        if Subscription(s, info.dataType, id).Some? || s.table[Find(s, info.dataType)].value.subNum < 3 then Success
        else SysException
      else if s.num == 10 then OverMaxTaskNum
      else if !memory then SysException
      else thread
  {
    hide TaskInv, Entry, HasRoom;
    OccupiedFull(s.table);
    if Running(s, info.dataType) { RoomIff(s.table[Find(s, info.dataType)].value, id); }
  }

  lemma NoRoomNoChange(t: Task, interval: int, id: u32, now: TimeVal)
    requires !HasRoom(t, id)
    ensures Added(t, interval, id, now) == t
  {
  }

  /** What a new task in a free slot means. */
  lemma AppearedMeans(s: Service, s': Service, k: nat, dataType: int, id: u32)
    requires Inv(s) && Inv(s') && k < |s.table| && s.table[k] == None && s'.table == s.table[k := s'.table[k]]
    requires s'.table[k].Some?
    ensures Subscription(s', dataType, id) ==
      if dataType == s'.table[k].value.dataType then Entry(s'.table[k].value, id) else Subscription(s, dataType, id)
  {
    hide TaskInv, Entry;
    FindIs(s', k);
    var l := Find(s, dataType);
    if dataType != s'.table[k].value.dataType {
      if l < |s.table| {
        assert s.table[l].value.dataType == dataType;
        FindIs(s', l);
      } else {
        TypeIsNowhere(s, dataType);
        FindNone(s', dataType);
      }
    }
  }

  /** Someone other than this client subscribes to the data type. */
  ghost predicate OthersAsk(s: Service, dataType: int, id: u32) {
    exists i: u32 :: i != 0 && i != id && Requested(s, dataType, i).Some?
  }

  /** What removing a client from the task in one slot leaves there. */
  function DeletedSlot(o: Option<Task>, id: u32): Option<Task> { if o == None then None else Deleted(o.value, id) }

  lemma DeletedType(t: Task, id: u32)
    ensures Deleted(t, id).Some? ==> Deleted(t, id).value.dataType == t.dataType
    ensures Deleted(t, id).Some? ==> Deleted(t, id).value.subs == Unsubscribed(t, id).subs
  {
  }

  /** Removing a client from one task takes away its own subscription only. */
  lemma DeletedSlotMeans(t: Task, id: u32, i: u32)
    requires TaskInv(t) && id != 0 && i != 0
    ensures Deleted(t, id).Some? ==> Entry(Deleted(t, id).value, i) == if i == id then None else Entry(t, i)
    ensures Deleted(t, id) == None && i != id ==> Entry(t, i) == None
  {
    hide TaskInv, Unsubscribed;
    UnsubscribedAsks(t, id, i);
    DeletedEndsIff(t, id);
    assert Deleted(t, id) == None && i != id ==> Asked(t, i) == None;
  }

  /** Deleting a subscription removes it, changes no other one, and ends the task exactly when it was the last. */
  lemma DeletedTaskMeans(s: Service, type0: int, id: u32, dataType: int, i: u32)
    requires Inv(s) && id != 0 && i != 0
    ensures var s' := DeletedTask(s, type0, id);
      && Inv(s')
      && Requested(s', dataType, i) == (if dataType == type0 && i == id then None else Requested(s, dataType, i))
      && Subscription(s', dataType, i)
         == (if dataType == type0 && i == id then None else Subscription(s, dataType, i))
      && (Running(s', dataType) <==> Running(s, dataType) && (dataType == type0 ==> OthersAsk(s, type0, id)))
  {
    hide TaskInv, Deleted, Entry;
    var k := Find(s, type0);
    if k < |s.table| {
      var t := s.table[k].value;
      DeletedAtIsInv(s, k, id);
      DeletedType(t, id);
      DeletedSlotMeans(t, id, i);
      DeletedAtTable(s, k, id);
      var s' := DeletedAt(s, k, id);
      ReplacedMeans(s, s', k, dataType, i);
      ReplacedRuns(s, s', k, dataType);
      SlotEndsIff(s, type0, id);
    }
  }

  lemma DeletedAtTable(s: Service, k: nat, id: u32)
    requires k < |s.table|
    ensures DeletedAt(s, k, id).table == s.table[k := DeletedSlot(s.table[k], id)]
  {
  }

  lemma SlotEndsIff(s: Service, dataType: int, id: u32)
    requires Inv(s) && Running(s, dataType) && id != 0
    ensures Deleted(s.table[Find(s, dataType)].value, id) == None <==> !OthersAsk(s, dataType, id)
  {
    hide TaskInv, Deleted, Asked, Requested;
    var t := s.table[Find(s, dataType)].value;
    DeletedEndsIff(t, id);
    if OthersAsk(s, dataType, id) {
      var i: u32 :| i != 0 && i != id && Requested(s, dataType, i).Some?;
      RequestedIsAsked(s, dataType, i);
      assert Asked(t, i) != None;
      assert Deleted(t, id) != None;
    } else if Deleted(t, id) != None {
      var i: u32 :| i != 0 && i != id && Asked(t, i) != None;
      RequestedIsAsked(s, dataType, i);
      assert false;
    }
  }

  lemma RequestedIsAsked(s: Service, dataType: int, i: u32)
    requires Running(s, dataType)
    ensures Requested(s, dataType, i) == Asked(s.table[Find(s, dataType)].value, i)
  {
  }

  lemma ReplacedRuns(s: Service, s': Service, k: nat, dataType: int)
    requires Inv(s) && Inv(s') && k < |s.table| && s.table[k].Some? && s'.table == s.table[k := s'.table[k]]
    requires s'.table[k].Some? ==> s'.table[k].value.dataType == s.table[k].value.dataType
    ensures Running(s', dataType)
      <==> Running(s, dataType) && (dataType == s.table[k].value.dataType ==> s'.table[k].Some?)
  {
    hide TaskInv;
    FindIs(s, k);
    var l := Find(s, dataType);
    if dataType == s.table[k].value.dataType {
      if s'.table[k].Some? { FindIs(s', k); } else { FindNone(s', dataType); }
    } else if l < |s.table| {
      assert s.table[l].value.dataType == dataType;
      FindIs(s', l);
    } else {
      TypeIsNowhere(s, dataType);
      FindNone(s', dataType);
    }
  }

  // ---------------------------------------------------------------- cleaning up after a client

  lemma {:induction false} CleanedSlots(s: Service, id: u32, n: nat)
    requires Inv(s) && id != 0 && n <= |s.table|
    ensures Inv(CleanedUpTo(s, id, n))
    ensures forall k :: 0 <= k < |s.table| ==>
      CleanedUpTo(s, id, n).table[k] == if k < n then DeletedSlot(s.table[k], id) else s.table[k]
  {
    hide TaskInv, Inv, DeletedSlot;
    if n > 0 {
      CleanedSlots(s, id, n - 1);
      DeletedAtIsInv(CleanedUpTo(s, id, n - 1), n - 1, id);
      DeletedAtTable(CleanedUpTo(s, id, n - 1), n - 1, id);
    }
  }

  lemma EmptyService(s: Service)
    requires Inv(s) && s.num == 0
    ensures forall k :: 0 <= k < |s.table| ==> s.table[k] == None
  {
    forall k | 0 <= k < |s.table|
      ensures s.table[k] == None
    {
      if s.table[k].Some? { OccupiedSome(s.table, k); }
    }
  }

  /** The guard on the number of tasks makes no difference. */
  lemma CleanedAllSlots(s: Service, id: u32)
    requires Inv(s) && id != 0
    ensures Inv(Cleaned(s, id))
    ensures |Cleaned(s, id).table| == |s.table|
    ensures forall k :: 0 <= k < |s.table| ==> Cleaned(s, id).table[k] == DeletedSlot(s.table[k], id)
  {
    hide Inv;
    CleanedSlots(s, id, |s.table|);
    if s.num == 0 { EmptyService(s); }
  }

  /** When every slot loses one client. */
  lemma AllSlotsMean(s: Service, s': Service, id: u32, dataType: int, i: u32)
    requires Inv(s) && Inv(s') && id != 0 && i != 0 && |s'.table| == |s.table|
    requires forall k :: 0 <= k < |s.table| ==> s'.table[k] == DeletedSlot(s.table[k], id)
    ensures Subscription(s', dataType, i) == if i == id then None else Subscription(s, dataType, i)
    ensures Running(s', dataType) <==> Running(s, dataType) && OthersAsk(s, dataType, id)
  {
    hide TaskInv, Deleted, Entry;
    forall k | 0 <= k < |s.table| && s'.table[k].Some?
      ensures s.table[k].Some? && s'.table[k].value.dataType == s.table[k].value.dataType
    {
      DeletedType(s.table[k].value, id);
    }
    var k := Find(s, dataType);
    if k < |s.table| {
      var t := s.table[k].value;
      DeletedSlotMeans(t, id, i);
      SlotEndsIff(s, dataType, id);
      if s'.table[k].Some? { FindIs(s', k); } else { FindNone(s', dataType); }
    } else {
      TypeIsNowhere(s, dataType);
      FindNone(s', dataType);
    }
  }

  /** Cleaning up after a client takes away its subscriptions only, and ends exactly the tasks of which it
      was the only subscriber. */
  lemma CleanedMeans(s: Service, id: u32, dataType: int, i: u32)
    requires Inv(s) && id != 0 && i != 0
    ensures var s' := Cleaned(s, id);
      && Inv(s')
      && Requested(s', dataType, i) == (if i == id then None else Requested(s, dataType, i))
      && Subscription(s', dataType, i) == (if i == id then None else Subscription(s, dataType, i))
      && (Running(s', dataType) <==> Running(s, dataType) && OthersAsk(s, dataType, id))
  {
    hide Inv;
    CleanedAllSlots(s, id);
    AllSlotsMean(s, Cleaned(s, id), id, dataType, i);
  }

  // ---------------------------------------------------------------- runs

  lemma {:induction false} FinishedSlots(s: Service, n: nat)
    requires Inv(s) && n <= |s.table|
    ensures Inv(FinishedUpTo(s, n))
    ensures forall k :: 0 <= k < |s.table| ==> FinishedUpTo(s, n).table[k] == if k < n then None else s.table[k]
  {
    hide TaskInv, Inv;
    if n > 0 {
      FinishedSlots(s, n - 1);
      UpdateIsInv(FinishedUpTo(s, n - 1), n - 1, None);
    }
  }

  /** Finishing leaves no task and a count of zero. */
  lemma FinishedIsEmpty(s: Service)
    requires Inv(s)
    ensures var r := FinishedUpTo(s, |s.table|);
      Inv(r) && r.num == 0 && forall k :: 0 <= k < |r.table| ==> r.table[k] == None
  {
    FinishedSlots(s, |s.table|);
    OccupiedNone(FinishedUpTo(s, |s.table|).table);
  }

  datatype Op =
    | Create(info: TaskInfo, id: u32, now: TimeVal, memory: bool, thread: RspCode)
    | Delete(dataType: int, id: u32)
    | CleanUp(id: u32)
    | Finish

  /** The client an operation is for; client ids are not 0. */
  predicate ForRealClient(op: Op) {
    match op
    case Create(_, id, _, _, _) => id != 0
    case Delete(_, id) => id != 0
    case CleanUp(id) => id != 0
    case Finish => true
  }

  function Step(s: Service, op: Op): Service {
    match op
    case Create(info, id, now, memory, thread) => Created(s, info, id, now, memory, thread).0
    case Delete(dataType, id) => DeletedTask(s, dataType, id)
    case CleanUp(id) => Cleaned(s, id)
    case Finish => FinishedUpTo(s, |s.table|)
  }

  const INITIAL := Service([None, None, None, None, None, None, None, None, None, None], 0)

  function Run(ops: seq<Op>): Service {
    if ops == [] then INITIAL else Step(Run(ops[..|ops| - 1]), ops[|ops| - 1])
  }

  /** After any operations: the task count is that of the occupied slots, data types are distinct, every
      task has one to three distinct subscribers, as many as it counts, and an interval that suits them all. */
  lemma {:induction false} EveryRunKeeps(ops: seq<Op>)
    requires forall n :: 0 <= n < |ops| ==> ForRealClient(ops[n])
    ensures Inv(Run(ops))
  {
    hide TaskInv, Created, Cleaned, DeletedTask;
    if ops == [] {
      OccupiedNone(INITIAL.table);
    } else {
      var s, op := Run(ops[..|ops| - 1]), ops[|ops| - 1];
      EveryRunKeeps(ops[..|ops| - 1]);
      match op
      case Create(info, id, now, memory, thread) => CreatedIsInv(s, info, id, now, memory, thread);
      case Delete(dataType, id) => DeletedTaskMeans(s, dataType, id, 0, id);
      case CleanUp(id) => CleanedMeans(s, id, 0, id);
      case Finish => FinishedIsEmpty(s);
    }
  }

  /** What an operation makes of a client's request for a data type: the service as a map of wishes. */
  function Wish(s: Service, op: Op, dataType: int, i: u32): Option<int> {
    var before := Requested(s, dataType, i);
    match op
    case Create(info, id, now, memory, thread) =>
      if dataType == info.dataType && i == id && !Refused(s, info, id, memory, thread) then Some(info.interval)
      else before
    case Delete(type0, id) => if dataType == type0 && i == id then None else before
    case CleanUp(id) => if i == id then None else before
    case Finish => None
  }

  /** After any run, every operation changes the clients' wishes as the map of wishes says. */
  lemma WishesAfterRun(ops: seq<Op>, op: Op, dataType: int, i: u32)
    requires forall n :: 0 <= n < |ops| ==> ForRealClient(ops[n])
    requires ForRealClient(op) && i != 0
    ensures Requested(Step(Run(ops), op), dataType, i) == Wish(Run(ops), op, dataType, i)
  {
    hide Inv, Created, Cleaned, DeletedTask, Refused;
    EveryRunKeeps(ops);
    var s := Run(ops);
    match op
    case Create(info, id, now, memory, thread) => CreatedMeans(s, info, id, now, memory, thread, dataType, i);
    case Delete(type0, id) => DeletedTaskMeans(s, type0, id, dataType, i);
    case CleanUp(id) => CleanedMeans(s, id, dataType, i);
    case Finish =>
      FinishedIsEmpty(s);
      FindNone(FinishedUpTo(s, |s.table|), dataType);
  }

  /** After any run, the clock of a subscription starts when the client subscribes, and no later operation of any
      client moves it. */
  lemma ClocksAfterRun(ops: seq<Op>, op: Op, dataType: int, i: u32)
    requires forall n :: 0 <= n < |ops| ==> ForRealClient(ops[n])
    requires ForRealClient(op) && i != 0
    ensures var before, after := Subscription(Run(ops), dataType, i), Subscription(Step(Run(ops), op), dataType, i);
      after.Some? ==>
      && after.value.sysId == i
      && if before.Some? then after.value.lastSent == before.value.lastSent
         else op.Create? && op.id == i && op.info.dataType == dataType && after.value.lastSent == op.now
              && after.value.interval == op.info.interval
  {
    hide Inv, Created, Cleaned, DeletedTask, Refused, Entry;
    EveryRunKeeps(ops);
    var s := Run(ops);
    SubscribedIsSelf(s, dataType, i);
    match op
    case Create(info, id, now, memory, thread) => CreatedMeans(s, info, id, now, memory, thread, dataType, i);
    case Delete(type0, id) => DeletedTaskMeans(s, type0, id, dataType, i);
    case CleanUp(id) => CleanedMeans(s, id, dataType, i);
    case Finish =>
      FinishedIsEmpty(s);
      FindNone(FinishedUpTo(s, |s.table|), dataType);
  }

  lemma SubscribedIsSelf(s: Service, dataType: int, i: u32)
    ensures Subscription(s, dataType, i).Some? ==> Subscription(s, dataType, i).value.sysId == i
  {
  }

  // ---------------------------------------------------------------- client id 0

  /** A client numbered 0 is confused with the empty slots: removing it where it never subscribed
      takes a subscriber off the count, and may end a task that another client still wants. */
  lemma ClientZeroEndsTask()
    ensures var t := NewTask(TaskInfo(1, 2000), 5, TimeVal(0, 0));
      TaskInv(t) && Asked(t, 5) == Some(2000) && Deleted(t, 0) == None
  {
    LiveOfThree(NewTask(TaskInfo(1, 2000), 5, TimeVal(0, 0)).subs);
  }

  /** The count stays that of the subscribers exactly for other ids, or when no slot is empty. */
  lemma CountStaysIff(t: Task, id: u32)
    requires TaskInv(t)
    ensures Unsubscribed(t, id).subNum == Live(Unsubscribed(t, id).subs) <==> id != 0 || IsFull(t)
  {
    LiveOfThree(t.subs);
    LiveOfThree(Unsubscribed(t, id).subs);
    if id == 0 && !IsFull(t) {
      var j :| 0 <= j < |t.subs| && t.subs[j].sysId == 0;
      assert IdAt(t.subs, 0) <= j;
    }
  }
}

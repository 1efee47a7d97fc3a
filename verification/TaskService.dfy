/** The task service itself: the table of tasks and the functions of pwrapis/src/taskservice.c that change it. */
module TaskService {
  import opened Outcomes
  import opened PwrMessage
  import opened TaskSpec

  lemma IdAtIsFirst(subs: seq<Subscriber>, id: u32, k: nat)
    requires k <= |subs| && (forall j :: 0 <= j < k ==> subs[j].sysId != id) && (k < |subs| ==> subs[k].sysId == id)
    ensures IdAt(subs, id) == k
  {
  }

  lemma TypeAtIsFirst(table: seq<Option<Task>>, dataType: int, k: nat)
    requires k <= |table| && (forall j :: 0 <= j < k ==> table[j] == None || table[j].value.dataType != dataType)
    requires k < |table| ==> table[k].Some? && table[k].value.dataType == dataType
    ensures TypeAt(table, dataType) == k
  {
  }

  lemma FreeAtIsFirst(table: seq<Option<Task>>, k: nat)
    requires k <= |table| && (forall j :: 0 <= j < k ==> table[j].Some?) && (k < |table| ==> table[k] == None)
    ensures FreeAt(table) == k
  {
  }

  class CollTask {
    const dataType: int
    var interval: int
    var subNum: int
    const subscriberList: array<Subscriber>

    ghost predicate Valid() { subscriberList.Length == MAX_SUBSCRIBERS }

    ghost function View(): Task
      reads this, subscriberList
    {
      Task(dataType, interval, subNum, subscriberList[..])
    }

    constructor (info: TaskInfo, subscriber: u32, now: TimeVal)
      ensures Valid() && fresh(subscriberList)
      ensures View() == NewTask(info, subscriber, now)
    {
      dataType, interval, subNum := info.dataType, info.interval, 1;
      subscriberList := new Subscriber[MAX_SUBSCRIBERS](_ => EMPTY);
      new;
      subscriberList[0] := Subscriber(subscriber, info.interval, now);
      assert subscriberList[..] == [Subscriber(subscriber, info.interval, now), EMPTY, EMPTY];
    }

    method FindSubscriberById(subscriber: u32) returns (i: int)
      requires Valid()
      ensures i == var k := IdAt(subscriberList[..], subscriber); if k == MAX_SUBSCRIBERS then INVALID_INDEX else k
    {
      i := 0;
      while i < MAX_SUBSCRIBERS
        invariant 0 <= i <= MAX_SUBSCRIBERS
        invariant forall j :: 0 <= j < i ==> subscriberList[j].sysId != subscriber
      {
        if subscriberList[i].sysId == subscriber {
          IdAtIsFirst(subscriberList[..], subscriber, i);
          return;
        }
        i := i + 1;
      }
      IdAtIsFirst(subscriberList[..], subscriber, i);
      i := INVALID_INDEX;
    }

    /** With a subscriber's index: lowers the interval to that subscriber's. Otherwise: computes it anew. */
    method UpdataTaskInterval(subIdx: int)
      requires Valid() && INVALID_INDEX <= subIdx < MAX_SUBSCRIBERS
      modifies this`interval
      ensures subIdx != INVALID_INDEX ==> interval == Min(old(interval), subscriberList[subIdx].interval)
      ensures subIdx == INVALID_INDEX ==> interval == Least(subscriberList[..], MAX_DC_INTERVAL)
    {
      if subIdx != INVALID_INDEX {
        if interval > subscriberList[subIdx].interval {
          interval := subscriberList[subIdx].interval;
        }
        return;
      }
      var least := MAX_DC_INTERVAL;
      for i := 0 to MAX_SUBSCRIBERS
        invariant least == Least(subscriberList[..i], MAX_DC_INTERVAL)
      {
        assert subscriberList[..i + 1][..i] == subscriberList[..i];
        if least > subscriberList[i].interval {
          least := subscriberList[i].interval;
        }
      }
      assert subscriberList[..MAX_SUBSCRIBERS] == subscriberList[..];
      interval := least;
    }

    method AddSubscriber(info: TaskInfo, subscriber: u32, now: TimeVal) returns (ret: RspCode)
      requires Valid()
      modifies this, subscriberList
      ensures View() == Added(old(View()), info.interval, subscriber, now)
      ensures ret == if HasRoom(old(View()), subscriber) then Success else SysException
    {
      ret := Success;
      var subIdx := FindSubscriberById(subscriber);
      if subIdx != INVALID_INDEX {
        subscriberList[subIdx] := subscriberList[subIdx].(interval := info.interval);
        UpdataTaskInterval(subIdx);
      } else {
        var i := 0;
        while i < MAX_SUBSCRIBERS
          invariant 0 <= i <= MAX_SUBSCRIBERS
          invariant forall j :: 0 <= j < i ==> subscriberList[j].sysId != 0
          invariant View() == old(View())
        {
          if subscriberList[i].sysId == 0 {
            IdAtIsFirst(subscriberList[..], 0, i);
            subscriberList[i] := Subscriber(subscriber, info.interval, now);
            subNum := subNum + 1;
            UpdataTaskInterval(i);
            return;
          }
          i := i + 1;
        }
        IdAtIsFirst(subscriberList[..], 0, i);
        ret := SysException;
      }
    }

    /** The loop of DeleteSubscriber. */
    method RemoveSubscriber(subscriber: u32)
      requires Valid()
      modifies this, subscriberList
      ensures View() == Unsubscribed(old(View()), subscriber)
    {
      var i := 0;
      while i < MAX_SUBSCRIBERS
        invariant 0 <= i <= MAX_SUBSCRIBERS
        invariant forall j :: 0 <= j < i ==> subscriberList[j].sysId != subscriber
        invariant View() == old(View())
      {
        if subscriberList[i].sysId == subscriber {
          IdAtIsFirst(subscriberList[..], subscriber, i);
          subscriberList[i] := EMPTY;
          subNum := subNum - 1;
          return;
        }
        i := i + 1;
      }
      IdAtIsFirst(subscriberList[..], subscriber, i);
    }
  }

  class TaskTable {
    const collTaskList: array<CollTask?>
    var taskNum: int
    /** The table as a value. */
    ghost var contents: Service

    ghost predicate Valid()
      reads this, collTaskList, Tasks(), Lists()
    {
      && collTaskList.Length == MAX_TASK_NUM && |contents.table| == MAX_TASK_NUM && taskNum == contents.num
      && (forall i :: 0 <= i < MAX_TASK_NUM ==> SlotIs(collTaskList[i], contents.table[i]))
      && (forall i, j :: 0 <= i < j < MAX_TASK_NUM && collTaskList[i] != null && collTaskList[j] != null ==>
            collTaskList[i] != collTaskList[j] && collTaskList[i].subscriberList != collTaskList[j].subscriberList)
    }

    static ghost predicate SlotIs(task: CollTask?, t: Option<Task>)
      reads task, if task == null then {} else {task.subscriberList}
    {
      if task == null then t == None else task.Valid() && t == Some(task.View())
    }

    ghost function Tasks(): set<CollTask>
      reads collTaskList
    {
      set t: CollTask | t in collTaskList[..]
    }

    ghost function Lists(): set<object>
      reads collTaskList
    {
      set t: CollTask | t in Tasks() :: t.subscriberList
    }

    /** InitTaskService */
    constructor ()
      ensures Valid() && fresh(collTaskList)
      ensures contents.num == 0 && forall i :: 0 <= i < MAX_TASK_NUM ==> contents.table[i] == None
    {
      collTaskList := new CollTask?[MAX_TASK_NUM](_ => null);
      taskNum := 0;
      contents := Service(seq(MAX_TASK_NUM, _ => None), 0);
    }

    method FindCollTaskByType(dataType: int) returns (i: int)
      requires Valid()
      ensures i == var k := Find(contents, dataType); if k == MAX_TASK_NUM then INVALID_INDEX else k
    {
      if taskNum == 0 { return INVALID_INDEX; }
      i := 0;
      while i < MAX_TASK_NUM
        invariant 0 <= i <= MAX_TASK_NUM
        invariant forall j :: 0 <= j < i ==> contents.table[j] == None || contents.table[j].value.dataType != dataType
      {
        if collTaskList[i] != null && collTaskList[i].dataType == dataType {
          TypeAtIsFirst(contents.table, dataType, i);
          return;
        }
        i := i + 1;
      }
      TypeAtIsFirst(contents.table, dataType, i);
      i := INVALID_INDEX;
    }

    method FindAvailebleTaskSlot() returns (i: int)
      requires Valid()
      ensures i == var k := FreeAt(contents.table); if k == MAX_TASK_NUM then INVALID_INDEX else k
    {
      i := 0;
      while i < MAX_TASK_NUM
        invariant 0 <= i <= MAX_TASK_NUM
        invariant forall j :: 0 <= j < i ==> contents.table[j].Some?
      {
        if collTaskList[i] == null {
          FreeAtIsFirst(contents.table, i);
          return;
        }
        i := i + 1;
      }
      FreeAtIsFirst(contents.table, i);
      i := INVALID_INDEX;
    }

    method FiniTask(index: nat)
      requires Valid() && index < MAX_TASK_NUM && collTaskList[index] != null
      modifies this, collTaskList
      ensures Valid() && contents == Service(old(contents).table[index := None], old(contents).num - 1)
      ensures collTaskList[..] == old(collTaskList[..])[index := null]
    {
      collTaskList[index] := null;
      taskNum := taskNum - 1;
      contents := Service(contents.table[index := None], contents.num - 1);
    }

    /** A task was changed: the contents follow. */
    ghost method Follow(index: nat)
      requires index < collTaskList.Length == MAX_TASK_NUM
      requires |contents.table| == MAX_TASK_NUM && taskNum == contents.num
      requires collTaskList[index] != null && collTaskList[index].Valid()
      requires forall i :: 0 <= i < MAX_TASK_NUM && i != index ==> SlotIs(collTaskList[i], contents.table[i])
      requires forall i, j :: 0 <= i < j < MAX_TASK_NUM && collTaskList[i] != null && collTaskList[j] != null ==>
        collTaskList[i] != collTaskList[j] && collTaskList[i].subscriberList != collTaskList[j].subscriberList
      modifies this`contents
      ensures Valid()
        && contents == old(contents).(table := old(contents).table[index := Some(collTaskList[index].View())])
    {
      contents := contents.(table := contents.table[index := Some(collTaskList[index].View())]);
    }

    method AddSubscriber(index: nat, info: TaskInfo, subscriber: u32, now: TimeVal) returns (ret: RspCode)
      requires Valid() && index < MAX_TASK_NUM
      modifies this, Tasks(), Lists()
      ensures Valid()
      ensures old(contents).table[index] == None ==> ret == TaskNotExists && contents == old(contents)
      ensures old(contents).table[index].Some? ==>
        var t := old(contents).table[index].value;
        && ret == (if HasRoom(t, subscriber) then Success else SysException)
        && contents
           == old(contents).(table := old(contents).table[index := Some(Added(t, info.interval, subscriber, now))])
    {
      var task := collTaskList[index];
      if task == null { return TaskNotExists; }
      assert task in Tasks() && task.subscriberList in Lists();
      ret := task.AddSubscriber(info, subscriber, now);
      Follow(index);
    }

    method DeleteSubscriber(index: nat, subscriber: u32) returns (ret: RspCode)
      requires Valid() && index < MAX_TASK_NUM
      modifies this, collTaskList, Tasks(), Lists()
      ensures Valid() && contents == DeletedAt(old(contents), index, subscriber)
      ensures ret == if old(contents).table[index] == None then TaskNotExists else Success
      ensures forall i :: 0 <= i < MAX_TASK_NUM ==> collTaskList[i] == old(collTaskList[i]) || collTaskList[i] == null
    {
      var task := collTaskList[index];
      if task == null { return TaskNotExists; }
      assert task in Tasks() && task.subscriberList in Lists();
      task.RemoveSubscriber(subscriber);
      if task.subNum <= 0 {
        Follow(index);
        FiniTask(index);
      } else {
        task.UpdataTaskInterval(INVALID_INDEX);
        Follow(index);
      }
      ret := Success;
    }

    /** memory and thread: whether malloc and CreateThread succeed. */
    method CreateNewTask(info: TaskInfo, subscriber: u32, now: TimeVal, memory: bool, thread: RspCode)
      returns (rspCode: RspCode)
      requires Valid() && Find(contents, info.dataType) == MAX_TASK_NUM
      modifies this, collTaskList
      ensures Valid() && (contents, rspCode) == Created(old(contents), info, subscriber, now, memory, thread)
    {
      var slot := FindAvailebleTaskSlot();
      if slot == INVALID_INDEX { return OverMaxTaskNum; }
      if !memory { return SysException; }
      var task := new CollTask(info, subscriber, now);
      rspCode := thread;
      if rspCode == Success {
        collTaskList[slot] := task;
        taskNum := taskNum + 1;
        contents := Service(contents.table[slot := Some(task.View())], contents.num + 1);
      }
    }

    method CreateTask(info: TaskInfo, subscriber: u32, now: TimeVal, memory: bool, thread: RspCode)
      returns (rspCode: RspCode)
      requires Valid()
      modifies this, collTaskList, Tasks(), Lists()
      ensures Valid() && (contents, rspCode) == Created(old(contents), info, subscriber, now, memory, thread)
    {
      var index := FindCollTaskByType(info.dataType);
      if index != INVALID_INDEX {
        rspCode := AddSubscriber(index, info, subscriber, now);
      } else {
        rspCode := CreateNewTask(info, subscriber, now, memory, thread);
      }
    }

    method DeleteTask(dataType: int, subscriber: u32) returns (rspCode: RspCode)
      requires Valid()
      modifies this, collTaskList, Tasks(), Lists()
      ensures Valid() && contents == DeletedTask(old(contents), dataType, subscriber) && rspCode == Success
    {
      var index := FindCollTaskByType(dataType);
      if index != INVALID_INDEX {
        var _ := DeleteSubscriber(index, subscriber);
      }
      rspCode := Success;
    }

    method FiniAllTask()
      requires Valid()
      modifies this, collTaskList
      ensures Valid() && contents == FinishedUpTo(old(contents), MAX_TASK_NUM)
    {
      for i := 0 to MAX_TASK_NUM
        invariant Valid() && contents == FinishedUpTo(old(contents), i)
        invariant forall k :: 0 <= k < MAX_TASK_NUM ==>
          collTaskList[k] == old(collTaskList[k]) || collTaskList[k] == null
      {
        if collTaskList[i] != null {
          FiniTask(i);
        }
      }
    }

    method DeleteAllTaskByClient(subscriber: u32)
      requires Valid()
      modifies this, collTaskList, Tasks(), Lists()
      ensures Valid() && contents == Cleaned(old(contents), subscriber)
    {
      if taskNum != 0 {
        for i := 0 to MAX_TASK_NUM
          invariant Valid() && contents == CleanedUpTo(old(contents), subscriber, i)
          invariant forall k :: 0 <= k < MAX_TASK_NUM ==>
            collTaskList[k] == old(collTaskList[k]) || collTaskList[k] == null
        {
          assert Tasks() <= old(Tasks()) && Lists() <= old(Lists());
          if collTaskList[i] != null {
            var _ := DeleteSubscriber(i, subscriber);
          }
        }
      }
    }
  }
}

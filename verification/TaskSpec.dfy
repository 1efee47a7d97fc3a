/** The data-collection tasks of pwrapis/src/taskservice.c as values: a table of tasks, each with a small
    table of subscribers, and what the operations make of them. */
module TaskSpec {
  import opened Outcomes
  import opened PwrMessage
  import ClientTable

  const MAX_TASK_NUM := 10
  const MAX_SUBSCRIBERS := ClientTable.MAX_CLIENT_NUM
  const MAX_DC_INTERVAL := 100000000

  datatype TimeVal = TimeVal(sec: int, usec: int)

  datatype Subscriber = Subscriber(sysId: u32, interval: int, lastSent: TimeVal)

  /** A slot cleared by bzero. */
  const EMPTY := Subscriber(0, 0, TimeVal(0, 0))

  datatype TaskInfo = TaskInfo(dataType: int, interval: int)

  datatype Task = Task(dataType: int, interval: int, subNum: int, subs: seq<Subscriber>)

  datatype RspCode = Success | TaskNotExists | SysException | OverMaxTaskNum

  // ---------------------------------------------------------------- one task

  /** The first slot that holds the id, or |subs|. Id 0 is in the slots nobody uses. */
  function IdAt(subs: seq<Subscriber>, id: u32): (k: nat)
    ensures k <= |subs|
    ensures k < |subs| ==> subs[k].sysId == id
    ensures forall j :: 0 <= j < k ==> subs[j].sysId != id
  {
    if subs == [] || subs[0].sysId == id then 0 else 1 + IdAt(subs[1..], id)
  }

  function Min(a: int, b: int): int { if a <= b then a else b }

  /** The least of cap and every slot's interval, used or not. */
  function Least(subs: seq<Subscriber>, cap: int): (m: int)
    ensures m <= cap && forall j :: 0 <= j < |subs| ==> m <= subs[j].interval
    ensures m == cap || exists j :: 0 <= j < |subs| && m == subs[j].interval
  {
    if subs == [] then cap
    else
      var m := Least(subs[..|subs| - 1], cap);
      if m > subs[|subs| - 1].interval then subs[|subs| - 1].interval else m
  }

  /** How many slots are used. */
  function Live(subs: seq<Subscriber>): nat {
    if subs == [] then 0 else Live(subs[..|subs| - 1]) + (if subs[|subs| - 1].sysId != 0 then 1 else 0)
  }

  function NewTask(info: TaskInfo, id: u32, now: TimeVal): Task {
    Task(info.dataType, info.interval, 1, [Subscriber(id, info.interval, now), EMPTY, EMPTY])
  }

  predicate HasRoom(t: Task, id: u32) { IdAt(t.subs, id) < |t.subs| || IdAt(t.subs, 0) < |t.subs| }

  /** AddSubscriber: a subscriber asks for another interval, or a new one takes the first free slot. */
  function Added(t: Task, interval: int, id: u32, now: TimeVal): Task {
    var j, k := IdAt(t.subs, id), IdAt(t.subs, 0);
    if j < |t.subs| then
      t.(subs := t.subs[j := t.subs[j].(interval := interval)], interval := Min(t.interval, interval))
    else if k < |t.subs| then
      t.(subs := t.subs[k := Subscriber(id, interval, now)], subNum := t.subNum + 1,
        interval := Min(t.interval, interval))
    else t
  }

  /** The slot is cleared and the count lowered, if the subscriber was there. */
  function Unsubscribed(t: Task, id: u32): Task {
    var j := IdAt(t.subs, id);
    if j < |t.subs| then t.(subs := t.subs[j := EMPTY], subNum := t.subNum - 1) else t
  }

  /** DeleteSubscriber: the task ends with its last subscriber; else its interval is computed anew. */
  function Deleted(t: Task, id: u32): Option<Task> {
    var u := Unsubscribed(t, id);
    if u.subNum <= 0 then None else Some(u.(interval := Least(u.subs, MAX_DC_INTERVAL)))
  }

  // ---------------------------------------------------------------- the table

  datatype Service = Service(table: seq<Option<Task>>, num: int)

  function TypeAt(table: seq<Option<Task>>, dataType: int): (k: nat)
    ensures k <= |table|
    ensures k < |table| ==> table[k].Some? && table[k].value.dataType == dataType
    ensures forall j :: 0 <= j < k ==> table[j] == None || table[j].value.dataType != dataType
  {
    if table == [] || (table[0].Some? && table[0].value.dataType == dataType) then 0
    else 1 + TypeAt(table[1..], dataType)
  }

  function FreeAt(table: seq<Option<Task>>): (k: nat)
    ensures k <= |table|
    ensures k < |table| ==> table[k] == None
    ensures forall j :: 0 <= j < k ==> table[j].Some?
  {
    if table == [] || table[0] == None then 0 else 1 + FreeAt(table[1..])
  }

  function Occupied(table: seq<Option<Task>>): nat {
    if table == [] then 0 else Occupied(table[..|table| - 1]) + (if table[|table| - 1].Some? then 1 else 0)
  }

  /** FindCollTaskByType: an empty service is not searched. */
  function Find(s: Service, dataType: int): (k: nat)
    ensures k <= |s.table|
    ensures k < |s.table| ==> s.table[k].Some?
  {
    if s.num == 0 then |s.table| else TypeAt(s.table, dataType)
  }

  /** CreateTask. memory and thread say whether a new task's memory and thread can be had. */
  function Created(s: Service, info: TaskInfo, id: u32, now: TimeVal, memory: bool, thread: RspCode):
    (Service, RspCode) {
    var k, free := Find(s, info.dataType), FreeAt(s.table);
    if k < |s.table| then
      var t := s.table[k].value;
      (s.(table := s.table[k := Some(Added(t, info.interval, id, now))]),
       if HasRoom(t, id) then Success else SysException)
    else if free == |s.table| then (s, OverMaxTaskNum)
    else if !memory then (s, SysException)
    else if thread != Success then (s, thread)
    else (Service(s.table[free := Some(NewTask(info, id, now))], s.num + 1), Success)
  }

  /** DeleteSubscriber on slot k, if it holds a task. */
  function DeletedAt(s: Service, k: nat, id: u32): Service
    requires k < |s.table|
  {
    if s.table[k] == None then s
    else
      var t := Deleted(s.table[k].value, id);
      Service(s.table[k := t], if t == None then s.num - 1 else s.num)
  }

  /** DeleteTask */
  function DeletedTask(s: Service, dataType: int, id: u32): Service {
    var k := Find(s, dataType);
    if k < |s.table| then DeletedAt(s, k, id) else s
  }

  /** DeleteAllTaskByClient, on the first n slots. */
  function CleanedUpTo(s: Service, id: u32, n: nat): (r: Service)
    requires n <= |s.table|
    ensures |r.table| == |s.table|
  {
    if n == 0 then s else DeletedAt(CleanedUpTo(s, id, n - 1), n - 1, id)
  }

  function Cleaned(s: Service, id: u32): Service { if s.num != 0 then CleanedUpTo(s, id, |s.table|) else s }

  /** FiniAllTask, on the first n slots. */
  function FinishedUpTo(s: Service, n: nat): (r: Service)
    requires n <= |s.table|
    ensures |r.table| == |s.table|
  {
    if n == 0 then s
    else
      var r := FinishedUpTo(s, n - 1);
      if r.table[n - 1].Some? then Service(r.table[n - 1 := None], r.num - 1) else r
  }
}

/** Cleaning up after a client: CleanClientResource of pwrapis/src/server.c. Its callers pass the base of
    the client table, so the authority and the tasks that are cleaned are those of entry 0. */
module Cleanup {
  import opened Outcomes
  import opened PwrMessage
  import opened ClientTable
  import opened ControlAuth
  import opened TaskSpec
  import TaskTheorems
  import TaskService

  /** The id of an entry as the unsigned number that the services are given. */
  function IdOf(e: PwrClient): u32
    requires -0x8000_0000 <= e.sysId < 0x8000_0000
  {
    if e.sysId < 0 then e.sysId + 0x1_0000_0000 else e.sysId
  }

  /** Everything the server keeps for its clients. */
  datatype World = World(table: seq<PwrClient>, authority: Authority, service: Service)

  ghost predicate Valid(w: World) {
    && WellFormedTable(w.table) && TaskTheorems.Inv(w.service)
    && forall i :: 0 <= i < MAX_CLIENT_NUM ==> w.table[i].sysId != 0
  }

  /** CleanClientResource(g_pwrClients, idx) */
  function CleanedUp(w: World, idx: nat): World
    requires WellFormedTable(w.table) && idx < MAX_CLIENT_NUM
  {
    var id := IdOf(w.table[0]);
    World(w.table[idx := FREE], Released(w.authority, id), Cleaned(w.service, id))
  }

  class Server {
    const clients: Clients
    const auth: Authorities
    const tasks: TaskService.TaskTable

    constructor ()
      ensures clients.Valid() && auth.Valid() && tasks.Valid()
    {
      clients := new Clients();
      auth := new Authorities();
      tasks := new TaskService.TaskTable();
    }

    ghost function View(): World
      reads clients, clients.clients, auth, tasks
    {
      World(clients.clients[..], auth.View(), tasks.contents)
    }

    method CleanClientResource(idx: nat)
      requires clients.Valid() && auth.Valid() && tasks.Valid() && idx < MAX_CLIENT_NUM
      modifies clients, clients.clients, auth, tasks, tasks.collTaskList, tasks.Tasks(), tasks.Lists()
      ensures clients.Valid() && auth.Valid() && tasks.Valid()
      ensures View() == CleanedUp(old(View()), idx)
    {
      var sysId := clients.clients[0].sysId;
      var id: u32 := if sysId < 0 then sysId + 0x1_0000_0000 else sysId;
      auth.CleanControlAuth(id);
      tasks.DeleteAllTaskByClient(id);
      var _ := clients.DeleteFromClientList(idx);
    }
  }

  // ---------------------------------------------------------------- what a client has

  /** Its descriptor, if it is connected. */
  function FdOf(w: World, c: u32): Option<int>
    requires WellFormedTable(w.table)
  {
    var view := View(w.table);
    if Signed(c) in view then Some(view[Signed(c)]) else None
  }

  /** It has the authority, or subscribes to something. */
  ghost predicate Holds(w: World, c: u32) {
    w.authority == OwnedBy(c) || exists dataType :: TaskTheorems.Requested(w.service, dataType, c).Some?
  }

  /** Nothing of client c differs. */
  ghost predicate Untouched(w: World, w': World, c: u32)
    requires WellFormedTable(w.table) && WellFormedTable(w'.table)
  {
    && FdOf(w', c) == FdOf(w, c)
    && (w'.authority == OwnedBy(c) <==> w.authority == OwnedBy(c))
    && forall dataType ::
       TaskTheorems.Requested(w'.service, dataType, c) == TaskTheorems.Requested(w.service, dataType, c)
  }

  lemma SignedIdOf(e: PwrClient)
    requires -0x8000_0000 <= e.sysId < 0x8000_0000
    ensures Signed(IdOf(e)) == e.sysId
  {
  }

  /** The clean-up in terms of what clients have. */
  lemma CleanedUpMeans(w: World, idx: nat, c: u32)
    requires Valid(w) && idx < MAX_CLIENT_NUM && c != 0
    ensures var w', id := CleanedUp(w, idx), IdOf(w.table[0]);
      && WellFormedTable(w'.table) && TaskTheorems.Inv(w'.service)
      && FdOf(w', c) == (if Signed(c) == w.table[idx].sysId then None else FdOf(w, c))
      && (w'.authority == OwnedBy(c) <==> w.authority == OwnedBy(c) && c != id)
      && forall dataType :: TaskTheorems.Requested(w'.service, dataType, c)
                            == if c == id then None else TaskTheorems.Requested(w.service, dataType, c)
  {
    hide TaskTheorems.Inv, TaskTheorems.Requested, Cleaned;
    var id := IdOf(w.table[0]);
    SlotFreed(w.table, idx);
    forall dataType
      ensures TaskTheorems.Requested(Cleaned(w.service, id), dataType, c)
           == if c == id then None else TaskTheorems.Requested(w.service, dataType, c)
    {
      TaskTheorems.CleanedMeans(w.service, id, dataType, c);
    }
    TaskTheorems.CleanedMeans(w.service, id, 0, c);
  }

  lemma IdsDiffer(w: World, i: nat, j: nat)
    requires Valid(w) && i < MAX_CLIENT_NUM && j < MAX_CLIENT_NUM && i != j && w.table[i] != FREE
    ensures IdOf(w.table[i]) != IdOf(w.table[j])
  {
  }

  /** The client that is meant is left without authority or subscriptions exactly when it is in entry 0
      or had none; its connection is always gone. */
  lemma ClientIsCleanedIff(w: World, idx: nat)
    requires Valid(w) && idx < MAX_CLIENT_NUM && w.table[idx] != FREE
    ensures WellFormedTable(CleanedUp(w, idx).table)
    ensures FdOf(CleanedUp(w, idx), IdOf(w.table[idx])) == None
    ensures !Holds(CleanedUp(w, idx), IdOf(w.table[idx])) <==> idx == 0 || !Holds(w, IdOf(w.table[idx]))
  {
    hide TaskTheorems.Inv, TaskTheorems.Requested, Cleaned, CleanedUp;
    var c, w' := IdOf(w.table[idx]), CleanedUp(w, idx);
    CleanedUpMeans(w, idx, c);
    SignedIdOf(w.table[idx]);
    if idx != 0 {
      IdsDiffer(w, idx, 0);
      if Holds(w, c) && w.authority != OwnedBy(c) {
        var dataType :| TaskTheorems.Requested(w.service, dataType, c).Some?;
        assert TaskTheorems.Requested(w'.service, dataType, c).Some?;
      }
    }
  }

  lemma OthersUntouched(w: World, idx: nat, d: u32)
    requires Valid(w) && idx < MAX_CLIENT_NUM && w.table[idx] != FREE && d != 0 && d != IdOf(w.table[idx])
    ensures WellFormedTable(CleanedUp(w, idx).table)
    ensures Untouched(w, CleanedUp(w, idx), d) <==> d != IdOf(w.table[0]) || !Holds(w, d)
  {
    hide TaskTheorems.Inv, TaskTheorems.Requested, Cleaned, CleanedUp;
    var w' := CleanedUp(w, idx);
    CleanedUpMeans(w, idx, d);
    SignedIdOf(w.table[idx]);
    assert FdOf(w', d) == FdOf(w, d) by { SignedIsInjective(d, w.table[idx]); }
    if d == IdOf(w.table[0]) && Holds(w, d) && w.authority != OwnedBy(d) {
      var dataType :| TaskTheorems.Requested(w.service, dataType, d).Some?;
      assert TaskTheorems.Requested(w'.service, dataType, d) == None;
    }
  }

  lemma SignedIsInjective(d: u32, e: PwrClient)
    requires -0x8000_0000 <= e.sysId < 0x8000_0000 && d != IdOf(e)
    ensures Signed(d) != e.sysId
  {
  }

  /** Every other client keeps its connection, authority and subscriptions exactly when the one meant is
      in entry 0, or the client in entry 0 had nothing to lose. */
  lemma OthersUntouchedIff(w: World, idx: nat)
    requires Valid(w) && idx < MAX_CLIENT_NUM && w.table[idx] != FREE
    ensures WellFormedTable(CleanedUp(w, idx).table)
    ensures (forall d: u32 :: d != 0 && d != IdOf(w.table[idx]) ==> Untouched(w, CleanedUp(w, idx), d))
            <==> idx == 0 || !Holds(w, IdOf(w.table[0]))
  {
    hide TaskTheorems.Inv, Cleaned, CleanedUp, Untouched, Holds;
    var w' := CleanedUp(w, idx);
    CleanedUpMeans(w, idx, 1);
    forall d: u32 | d != 0 && d != IdOf(w.table[idx])
      ensures Untouched(w, w', d) <==> d != IdOf(w.table[0]) || !Holds(w, d)
    {
      OthersUntouched(w, idx, d);
    }
    if idx != 0 {
      IdsDiffer(w, idx, 0);
      assert IdOf(w.table[0]) != 0;
    }
  }

  /** For entry 0 the clean-up is right: its client is gone with all it had, nobody else is touched, and
      exactly the tasks end of which it was the only subscriber. */
  lemma EntryZeroIsCleaned(w: World, dataType: int)
    requires Valid(w) && w.table[0] != FREE
    ensures var w', c := CleanedUp(w, 0), IdOf(w.table[0]);
      && Valid(w') && FdOf(w', c) == None && !Holds(w', c)
      && (forall d: u32 :: d != 0 && d != c ==> Untouched(w, w', d))
      && (TaskTheorems.Running(w'.service, dataType) <==>
            TaskTheorems.Running(w.service, dataType) && TaskTheorems.OthersAsk(w.service, dataType, c))
  {
    hide TaskTheorems.Inv, Cleaned, Untouched, Holds, TaskTheorems.Running, TaskTheorems.OthersAsk;
    CleanedUpMeans(w, 0, 1);
    ClientIsCleanedIff(w, 0);
    OthersUntouchedIff(w, 0);
    TaskTheorems.CleanedMeans(w.service, IdOf(w.table[0]), dataType, 1);
  }

  /** Client 7 goes. If client 5 has the authority it loses it; if client 7 has it, it keeps it. */
  lemma WrongClientIsCleaned()
    ensures var w := World([PwrClient(3, 5), PwrClient(4, 7), FREE], OwnedBy(5), TaskTheorems.INITIAL);
      Valid(w) && CleanedUp(w, 1).table == [PwrClient(3, 5), FREE, FREE] && CleanedUp(w, 1).authority == Free
    ensures var w := World([PwrClient(3, 5), PwrClient(4, 7), FREE], OwnedBy(7), TaskTheorems.INITIAL);
      Valid(w) && CleanedUp(w, 1).table == [PwrClient(3, 5), FREE, FREE] && CleanedUp(w, 1).authority == OwnedBy(7)
  {
    TaskTheorems.OccupiedNone(TaskTheorems.INITIAL.table);
  }
}

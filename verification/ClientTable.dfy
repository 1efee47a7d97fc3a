/** The table of connected clients: pwrapis/src/pwrclient.c and AcceptConnection of pwrapis/src/server.c. */
module ClientTable {
  import opened Outcomes
  import opened PwrMessage

  const MAX_CLIENT_NUM := 3
  const INVALID_FD := -1

  datatype PwrClient = PwrClient(fd: int, sysId: int)

  const FREE := PwrClient(INVALID_FD, INVALID_INDEX)

  // ---------------------------------------------------------------- the table as a map from sysId to fd

  /** Free entries are marked in both fields; ids and descriptors are used once. */
  ghost predicate WellFormedTable(t: seq<PwrClient>) {
    && |t| == MAX_CLIENT_NUM
    && (forall i :: 0 <= i < MAX_CLIENT_NUM ==> -0x8000_0000 <= t[i].sysId < 0x8000_0000)
    && (forall i :: 0 <= i < MAX_CLIENT_NUM ==>
       INVALID_FD <= t[i].fd && (t[i].fd == INVALID_FD <==> t[i].sysId == INVALID_INDEX))
    && (forall i, j :: 0 <= i < j < MAX_CLIENT_NUM && t[i] != FREE ==> t[i].sysId != t[j].sysId && t[i].fd != t[j].fd)
  }

  function Put(m: map<int, int>, e: PwrClient): map<int, int> {
    if e.fd == INVALID_FD then m else m[e.sysId := e.fd]
  }

  /** The partial map from client ids to descriptors that the table stands for. */
  function View(t: seq<PwrClient>): map<int, int>
    requires |t| == MAX_CLIENT_NUM
  {
    Put(Put(Put(map[], t[0]), t[1]), t[2])
  }

  ghost function Fds(t: seq<PwrClient>): set<int>
    requires |t| == MAX_CLIENT_NUM
  {
    {t[0].fd, t[1].fd, t[2].fd} - {INVALID_FD}
  }

  /** The client has an entry. */
  predicate Lists(t: seq<PwrClient>, sysId: int) { exists i :: 0 <= i < |t| && t[i].sysId == sysId }

  /** Not all entries are taken. */
  predicate HasFree(t: seq<PwrClient>) { exists i :: 0 <= i < |t| && t[i].fd == INVALID_FD }

  /** The descriptors in the client's entries. */
  ghost function FdsOf(t: seq<PwrClient>, sysId: int): set<int> {
    set i | 0 <= i < |t| && t[i].sysId == sysId :: t[i].fd
  }

  /** Used entries, and nothing else, are in the map. */
  lemma ViewIs(t: seq<PwrClient>, sysId: int, fd: int)
    requires WellFormedTable(t)
    ensures (sysId in View(t) && View(t)[sysId] == fd) <==>
      exists i :: 0 <= i < 3 && t[i] == PwrClient(fd, sysId) && fd != -1
  {
    if i :| 0 <= i < 3 && t[i] == PwrClient(fd, sysId) && fd != -1 { assert t[i] != FREE; }
  }

  /** Room for one more client, or a client that reconnects. */
  predicate Accepts<K>(view: map<int, K>, sysId: int) { sysId in view || |view| < MAX_CLIENT_NUM }

  /** The table after an accepted connection: a known client's old connection is replaced. */
  function Registered<K>(view: map<int, K>, sysId: int, fd: K): map<int, K> {
    if Accepts(view, sysId) then view[sysId := fd] else view
  }

  /** The map is injective, has at most three entries, and its range is the set of descriptors in use. */
  lemma ViewIsInjective(t: seq<PwrClient>)
    requires WellFormedTable(t)
    ensures forall a, b :: a in View(t) && b in View(t) && View(t)[a] == View(t)[b] ==> a == b
    ensures forall a :: a in View(t) ==> View(t)[a] in Fds(t) && a != INVALID_INDEX
    ensures forall fd :: fd in Fds(t) ==> exists a :: a in View(t) && View(t)[a] == fd
  {
    forall fd | fd in Fds(t)
      ensures exists a :: a in View(t) && View(t)[a] == fd
    {
      var i :| 0 <= i < MAX_CLIENT_NUM && t[i].fd == fd;
      assert t[i].sysId in View(t);
    }
  }

  /** The number of occupied entries. */
  lemma ViewSize(t: seq<PwrClient>)
    requires WellFormedTable(t)
    ensures |View(t)|
      == (if t[0] == FREE then 0 else 1) + (if t[1] == FREE then 0 else 1) + (if t[2] == FREE then 0 else 1)
  {
  }

  lemma Reconnected(t: seq<PwrClient>, i: nat, fd: int)
    requires WellFormedTable(t) && i < MAX_CLIENT_NUM && t[i] != FREE && fd >= 0 && fd !in Fds(t)
    ensures var t' := t[i := t[i].(fd := fd)];
      WellFormedTable(t') && View(t') == View(t)[t[i].sysId := fd] && Fds(t') == Fds(t) - {t[i].fd} + {fd}
  {
  }

  lemma SlotTaken(t: seq<PwrClient>, i: nat, c: PwrClient)
    requires WellFormedTable(t) && i < MAX_CLIENT_NUM && t[i] == FREE && c.fd >= 0 && c.fd !in Fds(t)
    requires -0x8000_0000 <= c.sysId < 0x8000_0000 && c.sysId != INVALID_INDEX
    requires forall j :: 0 <= j < MAX_CLIENT_NUM ==> t[j].sysId != c.sysId
    ensures var t' := t[i := c];
      WellFormedTable(t') && View(t') == View(t)[c.sysId := c.fd] && Fds(t') == Fds(t) + {c.fd}
  {
  }

  lemma SlotFreed(t: seq<PwrClient>, i: nat)
    requires WellFormedTable(t) && i < MAX_CLIENT_NUM
    ensures var t' := t[i := FREE];
      WellFormedTable(t') && View(t') == View(t) - {t[i].sysId} && Fds(t') == Fds(t) - {t[i].fd}
  {
  }

  lemma InView(t: seq<PwrClient>, sysId: int)
    requires WellFormedTable(t)
    ensures sysId in View(t) <==> sysId != INVALID_INDEX && exists i :: 0 <= i < MAX_CLIENT_NUM && t[i].sysId == sysId
  {
  }

  class Clients {
    const clients: array<PwrClient>
    /** The client connections the process has open. */
    var open: set<int>

    /** Every open connection is in the table. */
    ghost predicate Valid()
      reads this, clients
    {
      WellFormedTable(clients[..]) && open == Fds(clients[..])
    }

    /** InitPwrClient */
    constructor ()
      ensures Valid() && View(clients[..]) == map[] && fresh(clients)
    {
      clients := new PwrClient[MAX_CLIENT_NUM](_ => FREE);
      open := {};
    }

    method FindAvailableSlot() returns (idx: int)
      requires clients.Length == MAX_CLIENT_NUM
      ensures INVALID_INDEX <= idx < MAX_CLIENT_NUM
      ensures idx != INVALID_INDEX ==> clients[idx].fd == INVALID_FD
      ensures idx == INVALID_INDEX ==> forall i :: 0 <= i < MAX_CLIENT_NUM ==> clients[i].fd != INVALID_FD
    {
      for i := 0 to MAX_CLIENT_NUM
        invariant forall j :: 0 <= j < i ==> clients[j].fd != INVALID_FD
      {
        if clients[i].fd == INVALID_FD { return i; }
      }
      idx := INVALID_INDEX;
    }

    method GetClientIdx(sysId: int) returns (idx: int)
      requires clients.Length == MAX_CLIENT_NUM
      ensures INVALID_INDEX <= idx < MAX_CLIENT_NUM
      ensures idx != INVALID_INDEX ==> clients[idx].sysId == sysId
      ensures forall i :: 0 <= i < (if idx == INVALID_INDEX then MAX_CLIENT_NUM else idx) ==> clients[i].sysId != sysId
    {
      for i := 0 to MAX_CLIENT_NUM
        invariant forall j :: 0 <= j < i ==> clients[j].sysId != sysId
      {
        if clients[i].sysId == sysId { return i; }
      }
      idx := INVALID_INDEX;
    }

    method Close(fd: int)
      modifies this`open
      ensures open == old(open) - {fd}
    {
      open := open - {fd};
    }

    /** Registers a connection. For the id -1, which marks free entries, the table stays well formed
        exactly when it is full. */
    method AddToClientList(newClient: PwrClient) returns (ok: bool)
      requires WellFormedTable(clients[..]) && newClient.fd !in Fds(clients[..])
      requires INVALID_FD <= newClient.fd && -0x8000_0000 <= newClient.sysId < 0x8000_0000
      requires open == Fds(clients[..]) + {newClient.fd} - {INVALID_FD}
      modifies this`open, clients
      ensures !ok ==> clients[..] == old(clients[..]) && open == old(open)
      ensures newClient.fd == INVALID_FD ==> !ok
      ensures ok ==> newClient.fd in open
      ensures newClient.fd != INVALID_FD && newClient.sysId != INVALID_INDEX ==>
        && ok == Accepts(View(old(clients[..])), newClient.sysId)
        && View(clients[..]) == Registered(View(old(clients[..])), newClient.sysId, newClient.fd)
        && (ok ==> Valid())
      ensures newClient.fd != INVALID_FD && newClient.sysId != INVALID_INDEX ==>
        && ok == (Lists(old(clients[..]), newClient.sysId) || HasFree(old(clients[..])))
        && (ok ==> View(clients[..]) == View(old(clients[..]))[newClient.sysId := newClient.fd])
        && open == old(open) - FdsOf(old(clients[..]), newClient.sysId)
      ensures newClient.fd != INVALID_FD && newClient.sysId == INVALID_INDEX ==>
        && ok == (|View(old(clients[..]))| < MAX_CLIENT_NUM)
        && (WellFormedTable(clients[..]) <==> !ok)
    {
      hide View;
      ghost var t := clients[..];
      ViewSize(t);
      InView(t, newClient.sysId);
      if newClient.fd == INVALID_FD { return false; }
      var existIdx := GetClientIdx(newClient.sysId);
      if existIdx != INVALID_INDEX {
        assert t[existIdx].sysId == newClient.sysId;
        if newClient.sysId != INVALID_INDEX { Reconnected(t, existIdx, newClient.fd); }
        Close(clients[existIdx].fd);
        clients[existIdx] := PwrClient(newClient.fd, clients[existIdx].sysId);
        assert clients[..] == t[existIdx := t[existIdx].(fd := newClient.fd)];
        ok := true;
      } else {
        assert forall j :: 0 <= j < MAX_CLIENT_NUM ==> t[j] == clients[j];
        var index := FindAvailableSlot();
        ok := index != INVALID_INDEX;
        if ok {
          SlotTaken(t, index, newClient);
          clients[index] := newClient;
          assert clients[..] == t[index := newClient];
        }
      }
    }

    /** AcceptConnection, given what accept() returned: the new connection ends up in the table or closed.
        An address that reads as the id -1 leaves the table well formed exactly if it is refused. */
    method AcceptConnection(newClientFd: int, sysId: int) returns (ok: bool)
      requires Valid() && newClientFd !in open && -0x8000_0000 <= sysId < 0x8000_0000
      modifies this`open, clients
      ensures newClientFd < 0 ==> !ok && Valid() && clients[..] == old(clients[..])
      ensures newClientFd >= 0 ==> (newClientFd in open <==> ok)
      ensures newClientFd >= 0 && sysId != INVALID_INDEX ==>
        && Valid() && ok == Accepts(View(old(clients[..])), sysId)
        && View(clients[..]) == Registered(View(old(clients[..])), sysId, newClientFd)
      ensures newClientFd >= 0 && sysId != INVALID_INDEX ==>
        && ok == (Lists(old(clients[..]), sysId) || HasFree(old(clients[..])))
        && View(clients[..]) == (if ok then View(old(clients[..]))[sysId := newClientFd] else View(old(clients[..])))
        && open == (if ok then old(open) - FdsOf(old(clients[..]), sysId) + {newClientFd} else old(open))
      ensures newClientFd >= 0 && sysId == INVALID_INDEX ==>
        ok == (|View(old(clients[..]))| < MAX_CLIENT_NUM) && (Valid() <==> !ok)
    {
      if newClientFd < 0 { return false; }
      open := open + {newClientFd};
      ok := AddToClientList(PwrClient(newClientFd, sysId));
      if !ok { Close(newClientFd); }
    }

    /** Closes and frees entry idx. */
    method DeleteFromClientList(idx: int) returns (ok: bool)
      requires Valid()
      modifies this`open, clients
      ensures Valid() && ok == (0 <= idx < MAX_CLIENT_NUM)
      ensures !ok ==> clients[..] == old(clients[..])
      ensures ok ==>
        && clients[..] == old(clients[..])[idx := FREE]
        && View(clients[..]) == View(old(clients[..])) - {old(clients[idx]).sysId}
        && open == old(open) - {old(clients[idx]).fd}
    {
      if idx < 0 || idx >= MAX_CLIENT_NUM { return false; }
      SlotFreed(clients[..], idx);
      Close(clients[idx].fd);
      clients[idx] := FREE;
      assert clients[..] == old(clients[..])[idx := FREE];
      ok := true;
    }

    method CloseAllConnections()
      requires Valid()
      modifies this`open, clients
      ensures Valid() && View(clients[..]) == map[] && open == {}
    {
      for i := 0 to MAX_CLIENT_NUM
        invariant Valid()
        invariant forall j :: 0 <= j < i ==> clients[j] == FREE
      {
        if clients[i].fd != INVALID_FD {
          var _ := DeleteFromClientList(i);
        }
      }
    }

    /** The descriptor registered for a client id, found by comparing the ids as C does, unsigned. */
    method GetFdBySysId(sysId: u32) returns (fd: int)
      requires Valid()
      ensures fd == if Signed(sysId) in View(clients[..]) then View(clients[..])[Signed(sysId)] else INVALID_FD
    {
      for i := 0 to MAX_CLIENT_NUM
        invariant forall j :: 0 <= j < i ==> clients[j].sysId != Signed(sysId)
      {
        if clients[i].sysId % 0x1_0000_0000 == sysId {
          assert clients[..][i] == clients[i];
          return clients[i].fd;
        }
      }
      fd := INVALID_FD;
    }

    method GetIdxByFd(fd: int) returns (idx: int)
      requires Valid()
      ensures fd in open ==> 0 <= idx < MAX_CLIENT_NUM && clients[idx].fd == fd
      ensures fd !in open && fd != INVALID_FD ==> idx == INVALID_INDEX
    {
      for i := 0 to MAX_CLIENT_NUM
        invariant forall j :: 0 <= j < i ==> clients[j].fd != fd
      {
        if clients[i].fd == fd { return i; }
      }
      idx := INVALID_INDEX;
    }
  }
}

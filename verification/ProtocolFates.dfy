/** What becomes of every request and reply: each step moves it as stated, it is in the queue where it is said to be,
    and it is lost for the stated reasons only. */
module ProtocolFates {
  import opened PwrMessage
  import opened Protocol
  import opened ProtocolHistory
  import opened ProtocolLinks
  import MsgRing
  import ProtocolCallers
  import opened ProtocolResults
  import ProtocolSteps
  import WaitList

  /** A queue of this length loses its oldest packet to a new one. */
  const FULL := 63

  // ---------------------------------------------------------------- where each packet goes

  predicate IsFirst(q: seq<Packet>, x: Token) { q != [] && q[0].tok == x }

  predicate PushedOut(q: seq<Packet>, x: Token) { |q| == FULL && q[0].tok == x }

  /** Where x is after a step, by what the step does to the packet that it takes and to a full ring. */
  function Fate(s: State, a: Action, x: Token): Place
    requires Enabled(s, a) && x in s.place
  {
    match a
    case Enqueue(t) =>
      if x == t then ClientRing else if PushedOut(s.clients[t.client].ring, x) then Gone else s.place[x]
    case ClientSend(c) => if IsFirst(s.clients[c].ring, x) then Upstream(s.clients[c].conn.value) else s.place[x]
    case ServerRecv(c) =>
      if IsFirst(s.conns[s.table[c]].up, x) then ServerRing else if PushedOut(s.recvRing, x) then Gone else s.place[x]
    case Serve => if IsFirst(s.recvRing, x) then Service else s.place[x]
    case Answer(_, _, _) =>
      if s.service.value.tok == x then ReplyRing else if PushedOut(s.sendRing, x) then Gone else s.place[x]
    case StaySilent => if s.service.value.tok == x then Gone else s.place[x]
    case Crowd => if IsFirst(s.sendRing, x) then Gone else s.place[x]
    case ServerSend =>
      if !IsFirst(s.sendRing, x) then s.place[x]
      else if x.client in s.table then Downstream(s.table[x.client])
      else Gone
    case ClientRecv(c, i) =>
      if !IsFirst(s.conns[s.clients[c].conn.value].down, x) then s.place[x]
      else if i < |s.clients[c].waiting| then Given(s.clients[c].waiting[i])
      else Gone
    case _ => s.place[x]
  }

  /** The packets at the place that is noted for x. */
  function QueueOf(s: State, x: Token): seq<Packet>
    requires x in s.place
  {
    match s.place[x]
    case ClientRing => if x.client in s.clients then s.clients[x.client].ring else []
    case Upstream(k) => if k in s.conns then s.conns[k].up else []
    case ServerRing => s.recvRing
    case Service => if s.service.Some? then [s.service.value] else []
    case ReplyRing => s.sendRing
    case Downstream(k) => if k in s.conns then s.conns[k].down else []
    case _ => []
  }

  predicate OnItsWay(p: Place) {
    p == ClientRing || p.Upstream? || p == ServerRing || p == Service || p == ReplyRing || p.Downstream?
  }

  predicate Has(q: seq<Packet>, x: Token) { exists i :: 0 <= i < |q| && q[i].tok == x }

  ghost predicate IsHeld(s: State, x: Token) { x in s.place && OnItsWay(s.place[x]) ==> Has(QueueOf(s, x), x) }

  ghost predicate AllHeld(s: State) { forall x :: IsHeld(s, x) }

  lemma HasTail(q: seq<Packet>, x: Token)
    requires Has(q, x) && !IsFirst(q, x)
    ensures Has(q[1..], x)
  {
    var i :| 0 <= i < |q| && q[i].tok == x;
    assert q[1..][i - 1] == q[i];
  }

  lemma HasSnoc(q: seq<Packet>, p: Packet, x: Token)
    requires Has(q, x) || p.tok == x
    ensures Has(q + [p], x)
  {
    if p.tok == x {
      assert (q + [p])[|q|] == p;
    } else {
      var i :| 0 <= i < |q| && q[i].tok == x;
      assert (q + [p])[i] == q[i];
    }
  }

  lemma HasPushed(q: seq<Packet>, p: Packet, x: Token)
    requires p.tok == x || (Has(q, x) && !PushedOut(q, x))
    ensures Has(MsgRing.Pushed(q, p), x)
  {
    if |q| == FULL {
      if p.tok != x { HasTail(q, x); }
      HasSnoc(q[1..], p, x);
    } else {
      HasSnoc(q, p, x);
    }
  }

  // ---------------------------------------------------------------- step by step

  /** What a step has to show for one packet. */
  ghost predicate Fares(s': State, x: Token, p: Place) { x in s'.place && s'.place[x] == p && IsHeld(s', x) }

  lemma EnqueueFares(s: State, t: Token, x: Token)
    requires t in s.calls && t.client in s.clients && x in s.place && IsHeld(s, x)
    ensures Fares(DoEnqueue(s, t), x,
              if x == t then ClientRing else if PushedOut(s.clients[t.client].ring, x) then Gone else s.place[x])
  {
    hide MsgRing.Pushed, Has;
    var ring := s.clients[t.client].ring;
    if x == t || (s.place[x] == ClientRing && x.client == t.client && !PushedOut(ring, x)) {
      HasPushed(ring, Packet(t, s.calls[t].req), x);
    }
  }

  lemma OldestOfClient(s: State, c: u32)
    requires Inv(s) && c in s.clients && s.clients[c].ring != []
    ensures var x := s.clients[c].ring[0].tok; x in s.place && s.place[x] == ClientRing && x.client == c
  {
    hide CallsInv, FreshInv, ConnsInv, TableInv, WaitInv, StartInv, GivenInv, TakenInv;
  }

  lemma OldestUp(s: State, k: ConnId)
    requires Inv(s) && k in s.conns && s.conns[k].up != []
    ensures var x := s.conns[k].up[0].tok; x in s.place && s.place[x] == Upstream(k)
  {
    hide CallsInv, FreshInv, RingsInv, TableInv, WaitInv, StartInv, GivenInv, TakenInv;
    assert ConnOk(s, k);
  }

  lemma OldestDown(s: State, k: ConnId)
    requires Inv(s) && k in s.conns && s.conns[k].down != []
    ensures var x := s.conns[k].down[0].tok; x in s.place && s.place[x] == Downstream(k)
  {
    hide CallsInv, FreshInv, RingsInv, TableInv, WaitInv, StartInv, GivenInv, TakenInv;
    assert ConnOk(s, k);
  }

  lemma OldestReply(s: State)
    requires Inv(s) && s.sendRing != []
    ensures var p := s.sendRing[0]; p.tok in s.place && s.place[p.tok] == ReplyRing && p.msg.head.sysId == p.tok.client
  {
    hide FreshInv, ConnsInv, TableInv, WaitInv, StartInv, GivenInv, TakenInv;
  }

  /** x is a packet at the place p. */
  predicate At(s: State, x: Token, p: Place) { x in s.place && s.place[x] == p }

  lemma ClientSendFares(s: State, c: u32, x: Token)
    requires c in s.clients && Connected(s, c) && s.clients[c].ring != [] && x in s.place && IsHeld(s, x)
    requires At(s, s.clients[c].ring[0].tok, ClientRing) && s.clients[c].ring[0].tok.client == c
    ensures Fares(DoClientSend(s, c), x,
              if IsFirst(s.clients[c].ring, x) then Upstream(s.clients[c].conn.value) else s.place[x])
  {
    hide Has;
    var ring, k := s.clients[c].ring, s.clients[c].conn.value;
    if s.place[x] == ClientRing && x.client == c && !IsFirst(ring, x) { HasTail(ring, x); }
    if s.place[x] == Upstream(k) || IsFirst(ring, x) { HasSnoc(s.conns[k].up, ring[0], x); }
  }

  lemma ServerRecvFares(s: State, c: u32, x: Token)
    requires Registered(s, c) && s.conns[s.table[c]].up != [] && x in s.place && IsHeld(s, x)
    requires At(s, s.conns[s.table[c]].up[0].tok, Upstream(s.table[c]))
    ensures Fares(DoServerRecv(s, c), x,
              if IsFirst(s.conns[s.table[c]].up, x) then ServerRing
              else if PushedOut(s.recvRing, x) then Gone
              else s.place[x])
  {
    hide Has, MsgRing.Pushed;
    var k := s.table[c];
    var up := s.conns[k].up;
    if s.place[x] == Upstream(k) && !IsFirst(up, x) { HasTail(up, x); }
    if IsFirst(up, x) || (s.place[x] == ServerRing && !PushedOut(s.recvRing, x)) {
      HasPushed(s.recvRing, up[0].(msg := up[0].msg.(head := up[0].msg.head.(sysId := c))), x);
    }
  }

  lemma ServedFares(s: State)
    requires s.recvRing != []
    ensures Fares(DoServe(s), s.recvRing[0].tok, Service)
  {
    var p := s.recvRing[0];
    assert QueueOf(DoServe(s), p.tok) == [p] && [p][0].tok == p.tok;
  }

  lemma NotServedFares(s: State, x: Token)
    requires !s.service.Some? && s.recvRing != [] && x in s.place && IsHeld(s, x) && s.recvRing[0].tok != x
    ensures Fares(DoServe(s), x, s.place[x])
  {
    hide Has;
    NotInService(s, x);
    if s.place[x] == ServerRing { HasTail(s.recvRing, x); }
  }

  lemma ServeFares(s: State, x: Token)
    requires !s.service.Some? && s.recvRing != [] && x in s.place && IsHeld(s, x)
    ensures Fares(DoServe(s), x, if IsFirst(s.recvRing, x) then Service else s.place[x])
  {
    hide Fares, DoServe, IsHeld;
    if IsFirst(s.recvRing, x) { ServedFares(s); } else { NotServedFares(s, x); }
  }

  lemma NotInService(s: State, x: Token)
    requires x in s.place && IsHeld(s, x) && !s.service.Some?
    ensures s.place[x] != Service
  {
  }

  lemma AnswerFares(s: State, rspCode: u16, data: seq<u8>, dataLen: u32, x: Token)
    requires s.service.Some? && At(s, s.service.value.tok, Service) && x in s.place && IsHeld(s, x)
    ensures Fares(DoAnswer(s, rspCode, data, dataLen), x,
              if s.service.value.tok == x then ReplyRing else if PushedOut(s.sendRing, x) then Gone else s.place[x])
  {
    hide Has, MsgRing.Pushed, GenerateRspMsg;
    var p := s.service.value;
    InServiceIsIt(s, x);
    if p.tok == x || (s.place[x] == ReplyRing && !PushedOut(s.sendRing, x)) {
      HasPushed(s.sendRing, Packet(p.tok, GenerateRspMsg(p.msg, rspCode, data, dataLen)), x);
    }
  }

  lemma InServiceIsIt(s: State, x: Token)
    requires x in s.place && IsHeld(s, x) && s.service.Some?
    ensures s.place[x] == Service ==> s.service.value.tok == x
  {
  }

  lemma StaySilentFares(s: State, x: Token)
    requires s.service.Some? && At(s, s.service.value.tok, Service) && x in s.place && IsHeld(s, x)
    ensures Fares(DoStaySilent(s), x, if s.service.value.tok == x then Gone else s.place[x])
  {
    hide Has;
    InServiceIsIt(s, x);
  }

  lemma CrowdFares(s: State, x: Token)
    requires s.sendRing != [] && At(s, s.sendRing[0].tok, ReplyRing) && x in s.place && IsHeld(s, x)
    ensures Fares(DoCrowd(s), x, if IsFirst(s.sendRing, x) then Gone else s.place[x])
  {
    hide Has;
    if s.place[x] == ReplyRing && !IsFirst(s.sendRing, x) { HasTail(s.sendRing, x); }
  }

  lemma ServerSendFares(s: State, x: Token)
    requires s.sendRing != [] && At(s, s.sendRing[0].tok, ReplyRing) && x in s.place && IsHeld(s, x)
    requires s.sendRing[0].msg.head.sysId == s.sendRing[0].tok.client
    requires var c := s.sendRing[0].tok.client; c in s.table <==> Registered(s, c)
    ensures Fares(DoServerSend(s), x,
              if !IsFirst(s.sendRing, x) then s.place[x]
              else if x.client in s.table then Downstream(s.table[x.client])
              else Gone)
  {
    hide Has;
    var p := s.sendRing[0];
    if s.place[x] == ReplyRing && !IsFirst(s.sendRing, x) { HasTail(s.sendRing, x); }
    if p.tok.client in s.table {
      var k := s.table[p.tok.client];
      if s.place[x] == Downstream(k) || IsFirst(s.sendRing, x) { HasSnoc(s.conns[k].down, p, x); }
    }
  }

  lemma TableHasConns(s: State, c: u32)
    requires Inv(s)
    ensures c in s.table <==> Registered(s, c)
  {
  }

  lemma ClientRecvFares(s: State, c: u32, i: nat, x: Token)
    requires c in s.clients && Connected(s, c) && s.conns[s.clients[c].conn.value].down != []
    requires i <= |s.clients[c].waiting| && x in s.place && IsHeld(s, x)
    requires var k := s.clients[c].conn.value; At(s, s.conns[k].down[0].tok, Downstream(k))
    ensures Fares(DoClientRecv(s, c, i), x,
              if !IsFirst(s.conns[s.clients[c].conn.value].down, x) then s.place[x]
              else if i < |s.clients[c].waiting| then Given(s.clients[c].waiting[i])
              else Gone)
  {
    hide Has;
    var down := s.conns[s.clients[c].conn.value].down;
    if s.place[x] == Downstream(s.clients[c].conn.value) && !IsFirst(down, x) { HasTail(down, x); }
  }

  lemma DrawFares(s: State, a: Action, x: Token)
    requires CallsInv(s) && a.Draw? && Enabled(s, a) && x in s.place && IsHeld(s, x)
    ensures Fares(Next(s, a), x, Fate(s, a, x))
  {
    hide CallsInv, Has;
    ProtocolCallers.DrawIsNew(s, a.c);
  }

  lemma CallersFare(s: State, a: Action, x: Token)
    requires a.Refuse? || a.Register? || a.Wake? || a.TimeOut? || a.MoveOut? || a.Return? || a.GiveReply?
    requires Enabled(s, a) && x in s.place && IsHeld(s, x)
    ensures Fares(Next(s, a), x, Fate(s, a, x))
  {
    hide Has, HeadOf, WaitList.AfterMoveOut;
  }

  lemma ClientLinksFare(s: State, a: Action, x: Token)
    requires (a.Disconnect? || a.Connect?) && Enabled(s, a) && x in s.place && IsHeld(s, x)
    ensures Fares(Next(s, a), x, Fate(s, a, x))
  {
  }

  lemma ServerLinksFare(s: State, a: Action, x: Token)
    requires (a.Accept? || a.ServerClose?) && Enabled(s, a) && x in s.place && IsHeld(s, x)
    ensures Fares(Next(s, a), x, Fate(s, a, x))
  {
    hide Has;
  }

  lemma HasCallsInv(s: State)
    requires Inv(s)
    ensures CallsInv(s)
  {
  }

  lemma ServiceFares(s: State, a: Action, x: Token)
    requires Inv(s) && Enabled(s, a) && (a.Serve? || a.Answer? || a.StaySilent?) && x in s.place && IsHeld(s, x)
    ensures Fares(Next(s, a), x, Fate(s, a, x))
  {
    hide Inv, Fares, IsHeld, DoServe, DoAnswer, DoStaySilent;
    FrontOfRing(s);
    match a
    case Serve => ServeFares(s, x);
    case Answer(rspCode, data, dataLen) => AnswerFares(s, rspCode, data, dataLen, x);
    case StaySilent => StaySilentFares(s, x);
  }

  lemma RepliesFare(s: State, a: Action, x: Token)
    requires Inv(s) && Enabled(s, a) && (a.ServerSend? || a.Crowd? || a.ClientRecv?) && x in s.place && IsHeld(s, x)
    ensures Fares(Next(s, a), x, Fate(s, a, x))
  {
    hide Inv, Fares, IsHeld, DoServerSend, DoCrowd, DoClientRecv;
    match a
    case ServerSend =>
      OldestReply(s);
      TableHasConns(s, s.sendRing[0].tok.client);
      ServerSendFares(s, x);
    case Crowd =>
      OldestReply(s);
      CrowdFares(s, x);
    case ClientRecv(c, i) =>
      OldestDown(s, s.clients[c].conn.value);
      ClientRecvFares(s, c, i, x);
  }

  lemma RequestsFare(s: State, a: Action, x: Token)
    requires Inv(s) && Enabled(s, a) && (a.Enqueue? || a.ClientSend? || a.ServerRecv?) && x in s.place && IsHeld(s, x)
    ensures Fares(Next(s, a), x, Fate(s, a, x))
  {
    hide Inv, Fares, IsHeld, DoEnqueue, DoClientSend, DoServerRecv;
    match a
    case Enqueue(t) => EnqueueFares(s, t, x);
    case ClientSend(c) =>
      OldestOfClient(s, c);
      ClientSendFares(s, c, x);
    case ServerRecv(c) =>
      OldestUp(s, s.table[c]);
      ServerRecvFares(s, c, x);
  }

  lemma StepFares(s: State, a: Action, x: Token)
    requires Inv(s) && Enabled(s, a) && x in s.place && IsHeld(s, x)
    ensures Fares(Next(s, a), x, Fate(s, a, x))
  {
    hide Inv, Fares, IsHeld, Next, Enabled, Fate;
    match a
    case Draw(_, _, _, _, _) =>
      HasCallsInv(s);
      DrawFares(s, a, x);
    case Enqueue(_) => RequestsFare(s, a, x);
    case ClientSend(_) => RequestsFare(s, a, x);
    case ServerRecv(_) => RequestsFare(s, a, x);
    case Serve => ServiceFares(s, a, x);
    case Answer(_, _, _) => ServiceFares(s, a, x);
    case StaySilent => ServiceFares(s, a, x);
    case ServerSend => RepliesFare(s, a, x);
    case Crowd => RepliesFare(s, a, x);
    case ClientRecv(_, _) => RepliesFare(s, a, x);
    case Disconnect(_) => ClientLinksFare(s, a, x);
    case Connect(_, _) => ClientLinksFare(s, a, x);
    case Accept(_) => ServerLinksFare(s, a, x);
    case ServerClose(_) => ServerLinksFare(s, a, x);
    case _ => CallersFare(s, a, x);
  }

  /** Calls are made by Draw only, and are at first nowhere. */
  lemma NewIsFresh(s: State, a: Action, x: Token)
    requires Inv(s) && x in Next(s, a).place && x !in s.place
    ensures Next(s, a).place[x] == Fresh
  {
    hide Inv, Next;
    if !Enabled(s, a) { DisabledStays(s, a); }
    else if a.Draw? { DrawnIsFresh(s, a, x); }
    else { PlacesStay(s, a); }
  }

  lemma DrawnIsFresh(s: State, a: Action, x: Token)
    requires a.Draw? && Enabled(s, a) && x in Next(s, a).place && x !in s.place
    ensures Next(s, a).place[x] == Fresh
  {
  }

  lemma PlacesStay(s: State, a: Action)
    requires Inv(s) && Enabled(s, a) && !a.Draw?
    ensures Next(s, a).place.Keys == s.place.Keys
  {
    hide Inv, Next;
    ProtocolSteps.StepKeeps(s, a);
    HasCallsInv(s);
    HasCallsInv(Next(s, a));
    CallsStay(s, a);
  }

  lemma CallsStay(s: State, a: Action)
    requires Enabled(s, a) && !a.Draw?
    ensures Next(s, a).calls.Keys == s.calls.Keys
  {
    hide Next;
    if ByCaller(a) { CallersKeepCalls(s, a); } else { CarriersKeepCalls(s, a); }
  }

  lemma CallersKeepCalls(s: State, a: Action)
    requires Enabled(s, a) && ByCaller(a) && !a.Draw?
    ensures Next(s, a).calls.Keys == s.calls.Keys
  {
    hide Move, Displace, MsgRing.Pushed, HeadOf, WaitList.AfterMoveOut;
  }

  lemma {:induction false} EveryPacketIsHeld(pids: set<u32>, actions: seq<Action>)
    ensures AllHeld(Run(pids, actions))
  {
    hide Inv, Next, IsHeld, Fares;
    if actions == [] {
      NothingToHold(pids);
    } else {
      var before, a := actions[..|actions| - 1], actions[|actions| - 1];
      var s := Run(pids, before);
      EveryPacketIsHeld(pids, before);
      ProtocolSteps.EveryRunKeeps(pids, before);
      forall x
        ensures IsHeld(Next(s, a), x)
      {
        assert IsHeld(s, x);
        StepHolds(s, a, x);
      }
    }
  }

  lemma StepHolds(s: State, a: Action, x: Token)
    requires Inv(s) && IsHeld(s, x)
    ensures IsHeld(Next(s, a), x)
  {
    hide Inv, Next;
    if !Enabled(s, a) { DisabledStays(s, a); }
    else if x in s.place { StepFares(s, a, x); }
    else if x in Next(s, a).place { NewIsFresh(s, a, x); }
  }

  lemma NothingToHold(pids: set<u32>)
    ensures AllHeld(Start(pids))
  {
  }

  // ---------------------------------------------------------------- the main results

  /** In every run each step moves each packet as Fate says, and it is then in the queue of that place. */
  lemma EveryPacketFares(pids: set<u32>, actions: seq<Action>, a: Action, x: Token)
    requires Enabled(Run(pids, actions), a) && x in Run(pids, actions).place
    ensures var s, s' := Run(pids, actions), Run(pids, actions + [a]);
      x in s'.place && s'.place[x] == Fate(s, a, x) && (OnItsWay(s'.place[x]) ==> Has(QueueOf(s', x), x))
  {
    hide Inv, Next, Run;
    var s := Run(pids, actions);
    EveryPacketIsHeld(pids, actions);
    ProtocolSteps.EveryRunKeeps(pids, actions);
    assert IsHeld(s, x);
    StepFares(s, a, x);
    RunMore(pids, actions, a);
  }

  lemma RunMore(pids: set<u32>, actions: seq<Action>, a: Action)
    ensures Run(pids, actions + [a]) == Next(Run(pids, actions), a)
  {
    hide Next;
    assert (actions + [a])[..|actions|] == actions;
  }

  /** A packet is at a place exactly when it is in the queue there. */
  lemma PlaceIffQueued(pids: set<u32>, actions: seq<Action>, x: Token)
    requires x in Run(pids, actions).place
    ensures var s := Run(pids, actions);
      && (s.place[x] == ServerRing <==> Has(s.recvRing, x))
      && (s.place[x] == ReplyRing <==> Has(s.sendRing, x))
      && (s.place[x] == Service <==> s.service.Some? && s.service.value.tok == x)
      && (s.place[x] == ClientRing <==> x.client in s.clients && Has(s.clients[x.client].ring, x))
      && (forall k :: s.place[x] == Upstream(k) <==> k in s.conns && Has(s.conns[k].up, x))
      && (forall k :: s.place[x] == Downstream(k) <==> k in s.conns && Has(s.conns[k].down, x))
  {
    hide Run, CallsInv, FreshInv, TableInv, WaitInv, StartInv, GivenInv, TakenInv;
    EveryPacketIsHeld(pids, actions);
    ProtocolSteps.EveryRunKeeps(pids, actions);
    var s := Run(pids, actions);
    assert IsHeld(s, x);
    ConnsHold(s, x);
  }

  lemma ConnsHold(s: State, x: Token)
    requires ConnsInv(s) && x in s.place
    ensures forall k :: k in s.conns && Has(s.conns[k].up, x) ==> s.place[x] == Upstream(k)
    ensures forall k :: k in s.conns && Has(s.conns[k].down, x) ==> s.place[x] == Downstream(k)
  {
    forall k | k in s.conns
      ensures Has(s.conns[k].up, x) ==> s.place[x] == Upstream(k)
      ensures Has(s.conns[k].down, x) ==> s.place[x] == Downstream(k)
    {
      assert ConnOk(s, k);
    }
  }

  /** In every run a step loses a packet exactly for one of these reasons: a full ring takes another one, nobody
      answers, data collected for a client crowds it out, its client is not registered, nobody is found to wait. */
  lemma LostIff(pids: set<u32>, actions: seq<Action>, a: Action, x: Token)
    requires Enabled(Run(pids, actions), a)
    requires x in Run(pids, actions).place && Run(pids, actions).place[x] != Gone
    ensures var s := Run(pids, actions);
      x in Run(pids, actions + [a]).place
      && (Run(pids, actions + [a]).place[x] == Gone <==>
            || (a.Enqueue? && |s.clients[a.t.client].ring| == 63 && s.clients[a.t.client].ring[0].tok == x)
            || (a.ServerRecv? && |s.recvRing| == 63 && s.recvRing[0].tok == x)
            || (a.Answer? && |s.sendRing| == 63 && s.sendRing[0].tok == x)
            || (a == StaySilent && s.service.value.tok == x)
            || (a == Crowd && s.sendRing[0].tok == x)
            || (a == ServerSend && s.sendRing[0].tok == x && x.client !in s.table)
            || (a.ClientRecv? && Arriving(s, a.c).tok == x && a.pick == |s.clients[a.c].waiting|))
  {
    hide Inv, Next, Run, Has, QueueOf;
    var s := Run(pids, actions);
    EveryPacketFares(pids, actions, a, x);
    ProtocolSteps.EveryRunKeeps(pids, actions);
    if a.Enqueue? && s.clients[a.t.client].ring != [] { DrawnIsNotQueued(s, a.t); }
    if a.ServerRecv? && s.recvRing != [] { OnConnIsNotReceived(s, a.c); }
    if a.Answer? && s.sendRing != [] { InServiceIsNotAnswered(s); }
  }

  /** The packet that a step takes is not in the ring that it enters. */
  lemma DrawnIsNotQueued(s: State, t: Token)
    requires Inv(s) && Enabled(s, Enqueue(t)) && s.clients[t.client].ring != []
    ensures s.clients[t.client].ring[0].tok != t
  {
    hide Inv;
    HasFreshInv(s, t);
    OldestOfClient(s, t.client);
  }

  lemma OnConnIsNotReceived(s: State, c: u32)
    requires Inv(s) && Enabled(s, ServerRecv(c)) && s.recvRing != []
    ensures s.recvRing[0].tok != s.conns[s.table[c]].up[0].tok
  {
    hide Inv;
    FrontOfRing(s);
    OldestUp(s, s.table[c]);
  }

  lemma InServiceIsNotAnswered(s: State)
    requires Inv(s) && s.service.Some? && s.sendRing != []
    ensures s.sendRing[0].tok != s.service.value.tok
  {
    hide Inv;
    FrontOfRing(s);
    OldestReply(s);
  }

  lemma HasFreshInv(s: State, t: Token)
    requires Inv(s) && t in s.calls && s.calls[t].phase == Drawn
    ensures t in s.place && s.place[t] == Fresh
  {
  }
}

/** The steps of the callers' threads keep the invariant. */
module ProtocolCallers {
  import opened Outcomes
  import opened PwrMessage
  import opened Sequences
  import WaitList
  import opened Protocol
  import opened ProtocolFrames

  // ---------------------------------------------------------------- one call and its client change

  function Update(s: State, t: Token, call: Call, client: Client): State {
    s.(calls := s.calls[t := call], clients := s.clients[t.client := client])
  }

  /** The call keeps its request and does not go back; the client keeps its ring and connection. */
  ghost predicate MayUpdate(s: State, t: Token, call: Call, client: Client) {
    && t in s.calls && t.client in s.clients
    && call.req == s.calls[t].req
    && (Early(call.phase) ==> Early(s.calls[t].phase)) && (call.phase == Drawn ==> s.calls[t].phase == Drawn)
    && client.drawn == s.clients[t.client].drawn && client.ring == s.clients[t.client].ring
    && client.conn == s.clients[t.client].conn
  }

  lemma UpdateCalls(s: State, t: Token, call: Call, client: Client)
    requires CallsInv(s) && MayUpdate(s, t, call, client)
    ensures CallsStep(s, Update(s, t, call, client))
  {
  }

  lemma UpdateFresh(s: State, t: Token, call: Call, client: Client)
    requires FreshInv(s) && MayUpdate(s, t, call, client)
    ensures FreshInv(Update(s, t, call, client))
  {
  }

  lemma UpdateQueues(s: State, t: Token, call: Call, client: Client)
    requires MayUpdate(s, t, call, client)
    ensures SameQueues(s, Update(s, t, call, client))
  {
  }

  /** The wait list is no longer than before, but for the call itself once it starts to wait. */
  ghost predicate MayWait(s: State, t: Token, call: Call, client: Client)
    requires t in s.calls && t.client in s.clients
  {
    && Distinct(client.waiting)
    && forall x :: x in client.waiting ==>
      x in s.clients[t.client].waiting || (x == t && Early(s.calls[t].phase) && !Early(call.phase))
  }

  lemma UpdateWait(s: State, t: Token, call: Call, client: Client)
    requires WaitInv(s) && MayUpdate(s, t, call, client) && MayWait(s, t, call, client)
    ensures WaitStep(s, Update(s, t, call, client))
  {
  }

  /** The call takes its reply from the hand of the socket thread, and its result from its reply. */
  ghost predicate MayTake(s: State, t: Token, call: Call, client: Client)
    requires t in s.calls && t.client in s.clients
  {
    var was, hand := s.calls[t], s.clients[t.client].hand;
    && (client.hand == hand || client.hand == None)
    && (call.rsp == was.rsp || call.rsp == None || (call.rsp.Some? && hand == Some(Match(call.rsp.value, t))))
    && (call.result == was.result || call.result == was.rsp)
  }

  lemma UpdateTaken(s: State, t: Token, call: Call, client: Client)
    requires MayUpdate(s, t, call, client) && MayTake(s, t, call, client)
    ensures TakenStep(s, Update(s, t, call, client))
  {
  }

  /** The heads read early stay heads. */
  ghost predicate MayStart(s: State, t: Token, call: Call, client: Client)
    requires t in s.calls && t.client in s.clients
  {
    var waiting := s.clients[t.client].waiting;
    && (forall x :: x in client.waiting && (x != t || !Early(s.calls[t].phase)) ==>
      x in waiting && (x == waiting[0] ==> x == client.waiting[0]))
    && (call.phase.TimedOut? ==> client.waiting == waiting
                                 && (call.phase == s.calls[t].phase || call.phase.start == HeadOf(waiting)))
  }

  lemma UpdateStart(s: State, t: Token, call: Call, client: Client)
    requires StartInv(s) && WaitInv(s) && MayUpdate(s, t, call, client) && MayStart(s, t, call, client)
    ensures StartInv(Update(s, t, call, client))
  {
  }

  lemma UpdateKeeps(s: State, t: Token, call: Call, client: Client)
    requires Inv(s) && MayUpdate(s, t, call, client)
    requires MayWait(s, t, call, client) && MayTake(s, t, call, client) && MayStart(s, t, call, client)
    ensures Inv(Update(s, t, call, client))
  {
    hide CallsInv, FreshInv, RingsInv, ConnsInv, TableInv, WaitInv, StartInv, GivenInv, TakenInv,
         MayUpdate, MayWait, MayTake, MayStart, CallsStep, WaitStep, TakenStep, SameQueues;
    var s' := Update(s, t, call, client);
    UpdateCalls(s, t, call, client);
    UpdateFresh(s, t, call, client);
    UpdateQueues(s, t, call, client);
    UpdateWait(s, t, call, client);
    UpdateTaken(s, t, call, client);
    UpdateStart(s, t, call, client);
    CallersKept(s, s');
    QueuesStay(s, s');
    LinksStay(s, s');
  }

  // ---------------------------------------------------------------- the steps

  /** Refuse, Wake and TimeOut. */
  lemma PhaseKeeps(s: State, t: Token, p: Phase)
    requires Inv(s) && t in s.calls && t.client in s.clients && !Early(p)
    requires p.TimedOut? ==> p.start == HeadOf(s.clients[t.client].waiting)
    ensures Inv(SetPhase(s, t, p))
  {
    hide Inv;
    WaitingIsDistinct(s, t.client);
    var client := s.clients[t.client];
    assert s.clients[t.client := client] == s.clients;
    UpdateKeeps(s, t, s.calls[t].(phase := p), client);
  }

  lemma QueuedKeeps(s: State, t: Token)
    requires Inv(s) && t in s.calls && t.client in s.clients && s.calls[t].phase == Drawn
    ensures Inv(SetPhase(s, t, Queued))
  {
    hide Inv;
    WaitingIsDistinct(s, t.client);
    var client := s.clients[t.client];
    assert s.clients[t.client := client] == s.clients;
    UpdateKeeps(s, t, s.calls[t].(phase := Queued), client);
  }

  lemma WaitingIsDistinct(s: State, c: u32)
    requires Inv(s) && c in s.clients
    ensures Distinct(s.clients[c].waiting)
    ensures forall t :: t in s.clients[c].waiting ==> t in s.calls && t.client == c && !Early(s.calls[t].phase)
  {
  }

  lemma RegisterKeeps(s: State, t: Token)
    requires Inv(s) && t in s.calls && s.calls[t].phase == Queued && t.client in s.clients
    ensures Inv(DoRegister(s, t))
  {
    hide Inv;
    WaitingIsDistinct(s, t.client);
    var client := s.clients[t.client];
    UpdateKeeps(s, t, s.calls[t].(phase := Waiting), client.(waiting := client.waiting + [t]));
  }

  lemma RemovalIsOrderly(s: seq<Token>, k: nat)
    requires Distinct(s) && k < |s|
    ensures Distinct(RemoveAt(s, k))
    ensures forall x :: x in RemoveAt(s, k) ==> x in s && x != s[k] && (x == s[0] ==> x == RemoveAt(s, k)[0])
  {
  }

  lemma MoveOutKeeps(s: State, t: Token, reach: bool)
    requires Inv(s) && t in s.calls && s.calls[t].phase.TimedOut? && t.client in s.clients
    ensures Inv(DoMoveOut(s, t, reach))
  {
    hide Inv;
    WaitingIsDistinct(s, t.client);
    var client, call := s.clients[t.client], s.calls[t];
    if call.phase.start == Some(t) && t !in client.waiting {
      assert s.calls[t := call] == s.calls;
      UpdateKeeps(s, t, call, client.(alive := false));
    } else {
      if t in client.waiting { RemovalIsOrderly(client.waiting, IndexOf(client.waiting, t)); }
      UpdateKeeps(s, t, call.(phase := Woken),
                  if reach then client.(waiting := WaitList.AfterMoveOut(client.waiting, call.phase.start, t))
                  else client);
    }
  }

  lemma ReturnKeeps(s: State, t: Token)
    requires Inv(s) && t in s.calls && t.client in s.clients
    ensures Inv(DoReturn(s, t))
  {
    hide Inv;
    WaitingIsDistinct(s, t.client);
    var client, call := s.clients[t.client], s.calls[t];
    assert s.clients[t.client := client] == s.clients;
    UpdateKeeps(s, t, call.(phase := Done, rsp := None, result := call.rsp), client);
  }

  lemma HandIsTo(s: State, c: u32)
    requires Inv(s) && c in s.clients && s.clients[c].hand.Some?
    ensures s.clients[c].hand.value.to.client == c
  {
  }

  lemma GiveReplyKeeps(s: State, c: u32)
    requires Inv(s) && c in s.clients && s.clients[c].hand.Some? && s.clients[c].hand.value.to in s.calls
    ensures Inv(DoGiveReply(s, c))
  {
    hide Inv;
    WaitingIsDistinct(s, c);
    HandIsTo(s, c);
    var client := s.clients[c];
    var m := client.hand.value;
    var call := s.calls[m.to];
    assert s.calls[m.to := call] == s.calls;
    UpdateKeeps(s, m.to, if call.phase == Done then call else call.(rsp := Some(m.reply)), client.(hand := None));
  }

  // ---------------------------------------------------------------- a new call

  lemma DrawIsNew(s: State, c: u32)
    requires CallsInv(s) && c in s.clients
    ensures Token(c, s.clients[c].drawn) !in s.calls && Token(c, s.clients[c].drawn) !in s.place
  {
  }

  /** DoDraw, with the new call's request. */
  function Drew(s: State, c: u32, req: PwrMsg): State
    requires c in s.clients
  {
    var client := s.clients[c];
    var t := Token(c, client.drawn);
    SetClient(s, c, client.(drawn := client.drawn + 1))
      .(calls := s.calls[t := Call(req, Drawn, None, None)], place := Move(s.place, t, Fresh))
  }

  ghost predicate MayDraw(s: State, c: u32, req: PwrMsg) {
    && c in s.clients && Token(c, s.clients[c].drawn) !in s.calls && Token(c, s.clients[c].drawn) !in s.place
    && req.head.seqId == SeqIdOf(c, s.clients[c].drawn) && req.head.sysId == c && req.head.msgType == MT_REQ
  }

  lemma DrewCalls(s: State, c: u32, req: PwrMsg)
    requires CallsInv(s) && MayDraw(s, c, req)
    ensures CallsStep(s, Drew(s, c, req))
  {
  }

  lemma DrewFresh(s: State, c: u32, req: PwrMsg)
    requires FreshInv(s) && MayDraw(s, c, req)
    ensures FreshInv(Drew(s, c, req))
  {
  }

  lemma DrewQueues(s: State, c: u32, req: PwrMsg)
    requires MayDraw(s, c, req)
    ensures SameQueues(s, Drew(s, c, req))
  {
  }

  lemma DrewWait(s: State, c: u32, req: PwrMsg)
    requires WaitInv(s) && MayDraw(s, c, req)
    ensures WaitStep(s, Drew(s, c, req))
  {
  }

  lemma DrewTaken(s: State, c: u32, req: PwrMsg)
    requires MayDraw(s, c, req)
    ensures TakenStep(s, Drew(s, c, req))
  {
  }

  lemma DrewStart(s: State, c: u32, req: PwrMsg)
    requires StartInv(s) && MayDraw(s, c, req)
    ensures StartInv(Drew(s, c, req))
  {
  }

  lemma DrewGiven(s: State, c: u32, req: PwrMsg)
    requires MayDraw(s, c, req)
    ensures GivenSame(s, Drew(s, c, req))
  {
  }

  lemma DrewKeeps(s: State, c: u32, req: PwrMsg)
    requires c in s.clients && Inv(s) && MayDraw(s, c, req)
    ensures Inv(Drew(s, c, req))
  {
    hide CallsInv, FreshInv, RingsInv, ConnsInv, TableInv, WaitInv, StartInv, GivenInv, TakenInv, GivenSame,
         MayDraw, CallsStep, WaitStep, TakenStep, SameQueues, Drew;
    var s' := Drew(s, c, req);
    DrewCalls(s, c, req);
    DrewFresh(s, c, req);
    DrewQueues(s, c, req);
    DrewWait(s, c, req);
    DrewTaken(s, c, req);
    DrewStart(s, c, req);
    DrewGiven(s, c, req);
    CallersKept(s, s');
    QueuesStay(s, s');
    LinksStay(s, s');
  }

  lemma DrawKeeps(s: State, c: u32, optType: u16, taskNo: u32, dataLen: u32, data: seq<u8>)
    requires Inv(s) && c in s.clients
    ensures Inv(DoDraw(s, c, optType, taskNo, dataLen, data))
  {
    hide FreshInv, RingsInv, ConnsInv, TableInv, WaitInv, StartInv, GivenInv, TakenInv;
    DrawIsNew(s, c);
    DrewKeeps(s, c, PwrMsg(RequestHead(SeqIdOf(c, s.clients[c].drawn), c, optType, taskNo, dataLen), data));
  }
}

/** Every step of the protocol keeps its invariant, and so does every run. */
module ProtocolSteps {
  import opened PwrMessage
  import opened Protocol
  import ProtocolCallers
  import ProtocolNetwork
  import ProtocolLinks

  lemma CallerStepKeeps(s: State, a: Action)
    requires Inv(s) && Enabled(s, a)
    requires ByCaller(a)
    ensures Inv(Next(s, a))
  {
    hide Inv, DoDraw, DoEnqueue, DoRegister, DoMoveOut, DoReturn, DoGiveReply, SetPhase;
    match a
    case Draw(c, optType, taskNo, dataLen, data) => ProtocolCallers.DrawKeeps(s, c, optType, taskNo, dataLen, data);
    case Refuse(t) => ProtocolCallers.PhaseKeeps(s, t, Done);
    case Enqueue(t) => ProtocolNetwork.EnqueueKeeps(s, t);
    case Register(t) => ProtocolCallers.RegisterKeeps(s, t);
    case Wake(t) => ProtocolCallers.PhaseKeeps(s, t, Woken);
    case TimeOut(t) => ProtocolCallers.PhaseKeeps(s, t, TimedOut(HeadOf(s.clients[t.client].waiting)));
    case MoveOut(t, reach) => ProtocolCallers.MoveOutKeeps(s, t, reach);
    case Return(t) => ProtocolCallers.ReturnKeeps(s, t);
    case GiveReply(c) => ProtocolCallers.GiveReplyKeeps(s, c);
  }

  lemma NetworkStepKeeps(s: State, a: Action)
    requires Inv(s) && Enabled(s, a)
    requires a.ClientSend? || a.ClientRecv? || a.Disconnect? || a.Connect? || a.Accept? || a.ServerRecv?
      || a.ServerClose?
             || a.Serve? || a.Answer? || a.StaySilent? || a.ServerSend? || a.Crowd?
    ensures Inv(Next(s, a))
  {
    hide Inv, DoClientSend, DoClientRecv, DoDisconnect, DoConnect, DoAccept, DoServerRecv, DoServerClose, DoServe,
         DoAnswer, DoStaySilent, DoServerSend, DoCrowd;
    match a
    case ClientSend(c) => ProtocolNetwork.ClientSendKeeps(s, c);
    case ClientRecv(c, i) =>
      if i == |s.clients[c].waiting| { ProtocolLinks.DropKeeps(s, c, i); } else { ProtocolLinks.MatchKeeps(s, c, i); }
    case Disconnect(c) => ProtocolLinks.DisconnectKeeps(s, c);
    case Connect(c, k) => ProtocolLinks.ConnectKeeps(s, c, k);
    case Accept(k) => ProtocolLinks.AcceptKeeps(s, k);
    case ServerRecv(c) => ProtocolNetwork.ServerRecvKeeps(s, c);
    case ServerClose(c) => ProtocolLinks.ServerCloseKeeps(s, c);
    case Serve => ProtocolNetwork.ServeKeeps(s);
    case Answer(rspCode, data, dataLen) => ProtocolNetwork.AnswerKeeps(s, rspCode, data, dataLen);
    case StaySilent => ProtocolNetwork.StaySilentKeeps(s);
    case ServerSend => ProtocolLinks.ServerSendKeeps(s);
    case Crowd => ProtocolLinks.CrowdKeeps(s);
  }

  lemma StepKeeps(s: State, a: Action)
    requires Inv(s)
    ensures Inv(Next(s, a))
  {
    hide Inv;
    if Enabled(s, a) {
      match a
      case Draw(_, _, _, _, _) => CallerStepKeeps(s, a);
      case Refuse(_) => CallerStepKeeps(s, a);
      case Enqueue(_) => CallerStepKeeps(s, a);
      case Register(_) => CallerStepKeeps(s, a);
      case Wake(_) => CallerStepKeeps(s, a);
      case TimeOut(_) => CallerStepKeeps(s, a);
      case MoveOut(_, _) => CallerStepKeeps(s, a);
      case Return(_) => CallerStepKeeps(s, a);
      case GiveReply(_) => CallerStepKeeps(s, a);
      case _ => NetworkStepKeeps(s, a);
    }
  }

  lemma StartIsInv(pids: set<u32>)
    ensures Inv(Start(pids))
  {
  }

  /** The invariant holds after every interleaving of steps, with any clients. */
  lemma {:induction false} EveryRunKeeps(pids: set<u32>, actions: seq<Action>)
    ensures Inv(Run(pids, actions))
  {
    hide Inv, Next;
    if actions == [] {
      StartIsInv(pids);
    } else {
      EveryRunKeeps(pids, actions[..|actions| - 1]);
      StepKeeps(Run(pids, actions[..|actions| - 1]), actions[|actions| - 1]);
    }
  }
}

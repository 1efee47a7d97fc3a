/** The drop-oldest ring queue of common/src/pwrbuffer.c. A slot holds a message or nothing (a null
    pointer); the live slots are head + 1 .. tail, cyclically, so one of the 64 slots is never used. */
module MsgRing {
  import opened Outcomes
  import opened Sequences

  const PWR_BUFFER_SIZE := 64

  // ---------------------------------------------------------------- the queue as a sequence

  /** What adding m leaves in a queue: a full one first loses its oldest message. */
  function Pushed<T>(live: seq<T>, m: T): seq<T> {
    if |live| == PWR_BUFFER_SIZE - 1 then live[1..] + [m] else live + [m]
  }

  /** The message that adding another one releases, if any. */
  function Displaced<T>(live: seq<T>): Option<T> {
    if |live| == PWR_BUFFER_SIZE - 1 then Some(live[0]) else None
  }

  /** How many messages ResetPwrMsgBuffer releases out of n. */
  function ReleasedByReset(n: nat): nat { if n == 0 then 0 else n - 1 }

  class PwrMsgBuffer<T> {
    var head: nat
    var tail: nat
    const msgList: array<Option<T>>

    ghost predicate Valid()
      reads this, msgList
    {
      && msgList.Length == PWR_BUFFER_SIZE
      && head < PWR_BUFFER_SIZE && tail < PWR_BUFFER_SIZE
      && forall i :: 0 <= i < PWR_BUFFER_SIZE ==> (msgList[i].Some? <==> IsLive(i))
    }

    /** Slot i is one of head + 1 .. tail. */
    ghost predicate IsLive(i: int)
      reads this
    {
      if head <= tail then head < i <= tail else i > head || i <= tail
    }

    ghost function Count(): (n: nat)
      requires head < PWR_BUFFER_SIZE && tail < PWR_BUFFER_SIZE
      reads this
      ensures n < PWR_BUFFER_SIZE
    {
      if head <= tail then tail - head else tail + PWR_BUFFER_SIZE - head
    }

    /** The slot of the k-th oldest message. */
    ghost function Slot(k: nat): (i: nat)
      requires head < PWR_BUFFER_SIZE && k < PWR_BUFFER_SIZE
      reads this
      ensures i < PWR_BUFFER_SIZE
    {
      if head + 1 + k < PWR_BUFFER_SIZE then head + 1 + k else head + 1 + k - PWR_BUFFER_SIZE
    }

    /** The place of slot i in the order of the queue; live slots come first. */
    ghost function Turn(i: int): int
      reads this
    {
      if i > head then i - head - 1 else i + PWR_BUFFER_SIZE - head - 1
    }

    /** The queued messages, oldest first. */
    ghost function Contents(): (c: seq<T>)
      requires Valid()
      reads this, msgList
      ensures |c| == Count()
      ensures forall k :: 0 <= k < |c| ==> IsLive(Slot(k)) && c[k] == msgList[Slot(k)].value
    {
      seq(Count(), k requires Valid() && 0 <= k < Count() reads this, msgList => msgList[Slot(k)].value)
    }

    /** InitPwrMsgBuffer */
    constructor ()
      ensures Valid() && Contents() == [] && fresh(msgList)
    {
      head, tail := 0, 0;
      msgList := new Option<T>[PWR_BUFFER_SIZE](_ => None);
    }

    method IsEmptyBuffer() returns (empty: bool)
      requires Valid()
      ensures empty <==> Contents() == []
    {
      empty := head == tail;
    }

    /** Releases the oldest message, if there is one. */
    method DeleteFromHead() returns (released: Option<T>)
      requires Valid()
      modifies this, msgList
      ensures Valid() && tail == old(tail)
      ensures old(Contents()) == [] ==> released == None && Contents() == []
      ensures old(Contents()) != [] ==> released == Some(old(Contents())[0]) && Contents() == old(Contents())[1..]
    {
      released := None;
      if head != tail {
        var t := (head + 1) % PWR_BUFFER_SIZE;
        released := msgList[t];
        msgList[t] := None;
        head := t;
      }
    }

    /** Fills the free slot t after the tail. */
    method Store(newMsg: T, t: nat)
      requires Valid() && Count() < PWR_BUFFER_SIZE - 1
      requires t == if tail == PWR_BUFFER_SIZE - 1 then 0 else tail + 1
      modifies this, msgList
      ensures Valid() && Contents() == old(Contents()) + [newMsg]
    {
      ghost var live := Contents();
      assert Slot(|live|) == t;
      msgList[t] := Some(newMsg);
      tail := t;
      assert Contents() == live + [newMsg];
    }

    /** Adds at the tail; a full queue first drops its oldest message, which is returned as released. */
    method AddToBufferTail(newMsg: T) returns (released: Option<T>)
      requires Valid()
      modifies this, msgList
      ensures Valid()
      ensures Contents() == Pushed(old(Contents()), newMsg)
      ensures released == Displaced(old(Contents()))
    {
      released := None;
      var t := (tail + 1) % PWR_BUFFER_SIZE;
      assert t == if tail == PWR_BUFFER_SIZE - 1 then 0 else tail + 1;
      if t == head {
        released := DeleteFromHead();
      }
      ghost var live := Contents();
      Store(newMsg, t);
    }

    /** Takes the oldest message, or nothing from an empty queue. */
    method PopFromBufferHead() returns (p: Option<T>)
      requires Valid()
      modifies this, msgList
      ensures Valid()
      ensures old(Contents()) == [] ==> p == None && Contents() == []
      ensures old(Contents()) != [] ==> p == Some(old(Contents())[0]) && Contents() == old(Contents())[1..]
    {
      p := DeleteFromHead();
    }

    lemma NextTurn(i: int)
      requires 0 <= i < PWR_BUFFER_SIZE && head < PWR_BUFFER_SIZE
      ensures Turn((i + 1) % PWR_BUFFER_SIZE) == if i == head then 0 else Turn(i) + 1
    {
    }

    /** ReleasePwrMsg on a slot. */
    method ReleaseSlot(i: nat) returns (r: Option<T>)
      requires i < msgList.Length
      modifies msgList
      ensures r == old(msgList[i]) && msgList[i] == None
      ensures forall j :: 0 <= j < msgList.Length && j != i ==> msgList[j] == old(msgList[j])
    {
      r := msgList[i];
      msgList[i] := None;
    }

    /** The release loop of ResetPwrMsgBuffer as written: it visits slots head .. tail - 1, one place
        before the live ones, so it releases all messages but the newest, which stays in its slot. */
    method ResetPwrMsgBuffer() returns (released: seq<T>)
      requires Valid()
      modifies msgList
      ensures var c := old(Contents());
        && released == c[..ReleasedByReset(|c|)]
        && (forall i :: 0 <= i < PWR_BUFFER_SIZE ==> (msgList[i].Some? <==> c != [] && i == tail))
        && (c != [] ==> msgList[tail] == Some(c[|c| - 1]))
    {
      released := [];
      ghost var c, n, was := Contents(), 0, msgList[..];
      var i := head;
      while i != tail
        invariant 0 <= n <= |c| && 0 <= i < PWR_BUFFER_SIZE
        invariant i == head <==> n == 0
        invariant n > 0 ==> Turn(i) == n - 1
        invariant released == c[..ReleasedByReset(n)]
        invariant forall j :: 0 <= j < PWR_BUFFER_SIZE ==> msgList[j] == if Turn(j) < n - 1 then None else was[j]
        decreases |c| - n
      {
        if n > 0 { assert Slot(n - 1) == i && c[n - 1] == was[i].value; }
        var r := ReleaseSlot(i);
        if r.Some? { released := released + [r.value]; }
        NextTurn(i);
        i := (i + 1) % PWR_BUFFER_SIZE;
        n := n + 1;
      }
      assert c != [] ==> Slot(|c| - 1) == tail;
    }
  }

  /** ResetPwrMsgBuffer releases every queued message exactly when there is none. */
  lemma ResetReleasesAllIffEmpty<T>(c: seq<T>)
    ensures c[..ReleasedByReset(|c|)] == c <==> c == []
  {
  }

  // ---------------------------------------------------------------- whole runs

  datatype Op<T> = Add(m: T) | Pop

  datatype Departure<T> = Popped(m: T) | Evicted(m: T)

  datatype History<T> = History(live: seq<T>, gone: seq<Departure<T>>)

  /** One operation, with the messages that left the queue so far. */
  function Apply<T>(h: History<T>, op: Op<T>): History<T> {
    match op
    case Add(m) =>
      History(Pushed(h.live, m), if Displaced(h.live).Some? then h.gone + [Evicted(h.live[0])] else h.gone)
    case Pop =>
      if h.live == [] then h else History(h.live[1..], h.gone + [Popped(h.live[0])])
  }

  function Execute<T>(ops: seq<Op<T>>): History<T> {
    if ops == [] then History([], []) else Apply(Execute(ops[..|ops| - 1]), ops[|ops| - 1])
  }

  function Added<T>(ops: seq<Op<T>>): seq<T> {
    if ops == [] then [] else
      Added(ops[..|ops| - 1]) + (match ops[|ops| - 1] case Add(m) => [m] case Pop => [])
  }

  function Messages<T>(gone: seq<Departure<T>>): (r: seq<T>)
    ensures |r| == |gone|
  {
    if gone == [] then [] else Messages(gone[..|gone| - 1]) + [gone[|gone| - 1].m]
  }

  function PoppedOf<T>(gone: seq<Departure<T>>): seq<T> {
    if gone == [] then [] else
      PoppedOf(gone[..|gone| - 1]) + (if gone[|gone| - 1].Popped? then [gone[|gone| - 1].m] else [])
  }

  function EvictedOf<T>(gone: seq<Departure<T>>): seq<T> {
    if gone == [] then [] else
      EvictedOf(gone[..|gone| - 1]) + (if gone[|gone| - 1].Evicted? then [gone[|gone| - 1].m] else [])
  }

  lemma MessagesSnoc<T>(gone: seq<Departure<T>>, d: Departure<T>)
    ensures Messages(gone + [d]) == Messages(gone) + [d.m]
    ensures d.Popped? ==> PoppedOf(gone + [d]) == PoppedOf(gone) + [d.m] && EvictedOf(gone + [d]) == EvictedOf(gone)
    ensures d.Evicted? ==> PoppedOf(gone + [d]) == PoppedOf(gone) && EvictedOf(gone + [d]) == EvictedOf(gone) + [d.m]
  {
  }

  lemma ApplyKeepsAccount<T>(h: History<T>, op: Op<T>, added: seq<T>)
    requires Messages(h.gone) + h.live == added && |h.live| < PWR_BUFFER_SIZE
    ensures var h' := Apply(h, op);
      && Messages(h'.gone) + h'.live == added + (match op case Add(m) => [m] case Pop => [])
      && |h'.live| < PWR_BUFFER_SIZE
  {
  }

  /** Conservation: after any run, the messages that left (in the order they left) followed by the
      live ones are exactly the messages added, in order; and at most 63 are ever live. */
  lemma {:induction false} EveryMessageIsAccountedFor<T>(ops: seq<Op<T>>)
    ensures var h := Execute(ops); Messages(h.gone) + h.live == Added(ops) && |h.live| < PWR_BUFFER_SIZE
  {
    if ops != [] {
      EveryMessageIsAccountedFor(ops[..|ops| - 1]);
      ApplyKeepsAccount(Execute(ops[..|ops| - 1]), ops[|ops| - 1], Added(ops[..|ops| - 1]));
    }
  }

  /** The departures of one kind are a subsequence of all of them, ... */
  lemma {:induction false} PoppedAreSubsequence<T>(gone: seq<Departure<T>>)
    ensures Subsequence(PoppedOf(gone), Messages(gone))
  {
    if gone != [] {
      var before, d := gone[..|gone| - 1], gone[|gone| - 1];
      PoppedAreSubsequence(before);
      assert gone == before + [d];
      MessagesSnoc(before, d);
      SubsequenceTake(PoppedOf(before), Messages(before), d.m);
      SubsequenceSkip(PoppedOf(before), Messages(before), d.m);
    }
  }

  lemma PartsSnoc<T>(p: seq<T>, e: seq<T>, all: seq<T>, x: T)
    requires multiset(p) + multiset(e) == multiset(all)
    ensures multiset(p + [x]) + multiset(e) == multiset(all + [x])
    ensures multiset(p) + multiset(e + [x]) == multiset(all + [x])
  {
  }

  /** ... and the two kinds make up the whole. */
  lemma {:induction false} DeparturesSplit<T>(gone: seq<Departure<T>>)
    ensures multiset(PoppedOf(gone)) + multiset(EvictedOf(gone)) == multiset(Messages(gone))
  {
    if gone != [] {
      var before, d := gone[..|gone| - 1], gone[|gone| - 1];
      DeparturesSplit(before);
      assert gone == before + [d];
      MessagesSnoc(before, d);
      PartsSnoc(PoppedOf(before), EvictedOf(before), Messages(before), d.m);
    }
  }

  /** Over any run the popped messages are a subsequence, in order, of the added ones, and every added
      message is in exactly one of popped, evicted and live. */
  lemma PoppedInOrder<T>(ops: seq<Op<T>>)
    ensures var h := Execute(ops);
      && Subsequence(PoppedOf(h.gone), Added(ops))
      && multiset(PoppedOf(h.gone)) + multiset(EvictedOf(h.gone)) + multiset(h.live) == multiset(Added(ops))
  {
    var h := Execute(ops);
    EveryMessageIsAccountedFor(ops);
    PoppedAreSubsequence(h.gone);
    DeparturesSplit(h.gone);
    SubsequenceExtend(PoppedOf(h.gone), Messages(h.gone), h.live);
  }
}

/** When subscribers get their data: SendMetadataToSubscribers of pwrapis/src/taskservice.c and
    GetTimeDistance of pwrapis/src/utils.c. */
module Pacing {
  import opened TaskSpec
  import opened PwrMessage

  const THOUSAND := 1000
  const MILLION := 1_000_000

  /** C's division, which rounds towards zero. */
  function Quotient(a: int, b: int): (q: int)
    requires b > 0
    ensures 0 <= a ==> q * b <= a < q * b + b
    ensures a <= 0 ==> q * b - b < a <= q * b
  {
    if a >= 0 then a / b else -((-a) / b)
  }

  /** GetTimeDistance, in milliseconds. */
  function TimeDistance(v1: TimeVal, v2: TimeVal): int {
    (v1.sec - v2.sec) * THOUSAND + Quotient(v1.usec - v2.usec, THOUSAND)
  }

  function Micros(v: TimeVal): int { v.sec * MILLION + v.usec }

  predicate Normalised(v: TimeVal) { 0 <= v.usec < MILLION }

  /** The distance is the exact one in milliseconds, off by less than one either way. */
  lemma DistanceBounds(v1: TimeVal, v2: TimeVal)
    ensures THOUSAND * TimeDistance(v1, v2) - 999 <= Micros(v1) - Micros(v2) <= THOUSAND * TimeDistance(v1, v2) + 999
  {
  }

  predicate Due(s: Subscriber, now: TimeVal) { s.sysId != 0 && TimeDistance(now, s.lastSent) >= s.interval }

  /** One slot after a round of deliveries; memory says whether the copy of the data could be made. */
  function AfterRound(s: Subscriber, now: TimeVal, memory: bool): Subscriber {
    if Due(s, now) && memory then s.(lastSent := now) else s
  }

  /** Who gets the data in a round, in slot order. */
  function Recipients(subs: seq<Subscriber>, now: TimeVal, memory: seq<bool>): (r: seq<u32>)
    requires |memory| == |subs|
  {
    if subs == [] then []
    else
      var n := |subs| - 1;
      Recipients(subs[..n], now, memory[..n]) + (if Due(subs[n], now) && memory[n] then [subs[n].sysId] else [])
  }

  /** The last data came so long ago that a reading of the clock shows it, whatever its microseconds. */
  predicate IsLate(s: Subscriber, now: TimeVal) {
    s.sysId != 0 && Micros(now) - Micros(s.lastSent) >= 1000 * s.interval + 999
  }

  /** It came so lately that no reading does. */
  predicate IsEarly(s: Subscriber, now: TimeVal) { Micros(now) - Micros(s.lastSent) < 1000 * s.interval - 999 }

  /** SendMetadataToSubscribers, on the subscriber table of one task. */
  method SendMetadataToSubscribers(subscriberList: array<Subscriber>, now: TimeVal, memory: seq<bool>)
    returns (sent: seq<u32>)
    requires subscriberList.Length == MAX_SUBSCRIBERS == |memory|
    modifies subscriberList
    ensures forall i :: 0 <= i < MAX_SUBSCRIBERS ==>
      subscriberList[i] == AfterRound(old(subscriberList[i]), now, memory[i])
    ensures sent == Recipients(old(subscriberList[..]), now, memory)
    ensures forall i :: 0 <= i < MAX_SUBSCRIBERS && memory[i] && IsLate(old(subscriberList[i]), now) ==>
      old(subscriberList[i]).sysId in sent && subscriberList[i] == old(subscriberList[i]).(lastSent := now)
    ensures forall i :: 0 <= i < MAX_SUBSCRIBERS && IsEarly(old(subscriberList[i]), now) ==>
      subscriberList[i] == old(subscriberList[i])
  {
    sent := [];
    ghost var was := subscriberList[..];
    for i := 0 to MAX_SUBSCRIBERS
      invariant forall j :: 0 <= j < i ==> subscriberList[j] == AfterRound(was[j], now, memory[j])
      invariant forall j :: i <= j < MAX_SUBSCRIBERS ==> subscriberList[j] == was[j]
      invariant sent == Recipients(was[..i], now, memory[..i])
    {
      assert was[..i + 1][..i] == was[..i] && memory[..i + 1][..i] == memory[..i];
      if subscriberList[i].sysId != 0 && TimeDistance(now, subscriberList[i].lastSent) >= subscriberList[i].interval {
        if !memory[i] { continue; }
        sent := sent + [subscriberList[i].sysId];
        subscriberList[i] := subscriberList[i].(lastSent := now);
      }
    }
    assert was[..MAX_SUBSCRIBERS] == was && memory[..MAX_SUBSCRIBERS] == memory;
    LateReceive(was, now, memory);
  }

  /** All who are late and have memory are sent to, and nobody who is early. */
  lemma LateReceive(subs: seq<Subscriber>, now: TimeVal, memory: seq<bool>)
    requires |memory| == |subs|
    ensures forall i :: 0 <= i < |subs| && memory[i] && IsLate(subs[i], now) ==>
      subs[i].sysId in Recipients(subs, now, memory) && AfterRound(subs[i], now, true) == subs[i].(lastSent := now)
    ensures forall i, m :: 0 <= i < |subs| && IsEarly(subs[i], now) ==> AfterRound(subs[i], now, m) == subs[i]
    ensures forall id :: id in Recipients(subs, now, memory) ==>
      exists i :: 0 <= i < |subs| && subs[i].sysId == id && memory[i] && !IsEarly(subs[i], now)
  {
    hide TimeDistance, Micros, Recipients;
    forall i | 0 <= i < |subs|
      ensures IsLate(subs[i], now) ==> Due(subs[i], now)
      ensures IsEarly(subs[i], now) ==> !Due(subs[i], now)
      ensures Due(subs[i], now) && memory[i] ==> subs[i].sysId in Recipients(subs, now, memory)
    {
      DistanceBounds(now, subs[i].lastSent);
      if Due(subs[i], now) && memory[i] { DueReceive(subs, now, memory, i); }
    }
    forall id | id in Recipients(subs, now, memory)
      ensures exists i :: 0 <= i < |subs| && subs[i].sysId == id && memory[i] && !IsEarly(subs[i], now)
    {
      RecipientsAreDue(subs, now, memory, id);
    }
  }

  lemma {:induction false} DueReceive(subs: seq<Subscriber>, now: TimeVal, memory: seq<bool>, i: nat)
    requires |memory| == |subs| && i < |subs| && Due(subs[i], now) && memory[i]
    ensures subs[i].sysId in Recipients(subs, now, memory)
  {
    var n := |subs| - 1;
    if i < n { DueReceive(subs[..n], now, memory[..n], i); }
  }

  lemma {:induction false} RecipientsAreDue(subs: seq<Subscriber>, now: TimeVal, memory: seq<bool>, id: u32)
    requires |memory| == |subs| && id in Recipients(subs, now, memory)
    ensures exists i :: 0 <= i < |subs| && subs[i].sysId == id && memory[i] && Due(subs[i], now)
  {
    var n := |subs| - 1;
    if id in Recipients(subs[..n], now, memory[..n]) {
      RecipientsAreDue(subs[..n], now, memory[..n], id);
      var i :| 0 <= i < n && subs[..n][i].sysId == id && memory[..n][i] && Due(subs[..n][i], now);
      assert subs[i].sysId == id && memory[i] && Due(subs[i], now);
    } else {
      assert subs[n].sysId == id;
    }
  }

  /** A clock reading of the task's thread, and whether memory could be had for this subscriber's copy. */
  datatype Round = Round(now: TimeVal, memory: bool)

  /** The slot of one subscriber after some rounds. */
  function AfterRounds(s: Subscriber, rounds: seq<Round>): (r: Subscriber)
    ensures r.sysId == s.sysId && r.interval == s.interval
  {
    if rounds == [] then s
    else
      var last := rounds[|rounds| - 1];
      AfterRound(AfterRounds(s, rounds[..|rounds| - 1]), last.now, last.memory)
  }

  /** The times at which it gets its data. */
  function Deliveries(s: Subscriber, rounds: seq<Round>): seq<TimeVal> {
    if rounds == [] then []
    else
      var before, last := rounds[..|rounds| - 1], rounds[|rounds| - 1];
      Deliveries(s, before) + (if Due(AfterRounds(s, before), last.now) && last.memory then [last.now] else [])
  }

  /** The slot remembers the last delivery. */
  lemma {:induction false} LastSentIsLastDelivery(s: Subscriber, rounds: seq<Round>)
    ensures var d := Deliveries(s, rounds);
      AfterRounds(s, rounds).lastSent == if d == [] then s.lastSent else d[|d| - 1]
  {
    if rounds != [] { LastSentIsLastDelivery(s, rounds[..|rounds| - 1]); }
  }

  /** The last delivery, or the subscription if there was none. */
  function LastTime(s: Subscriber, rounds: seq<Round>): TimeVal {
    var d := Deliveries(s, rounds);
    if d == [] then s.lastSent else d[|d| - 1]
  }

  /** A reading at least 1000 * interval + 999 microseconds after the last delivery brings the next one. */
  lemma LateReadingDelivers(s: Subscriber, rounds: seq<Round>, now: TimeVal)
    requires s.sysId != 0 && Micros(now) - Micros(LastTime(s, rounds)) >= 1000 * s.interval + 999
    ensures Deliveries(s, rounds + [Round(now, true)]) == Deliveries(s, rounds) + [now]
  {
    LastSentIsLastDelivery(s, rounds);
    DistanceBounds(now, LastTime(s, rounds));
    assert (rounds + [Round(now, true)])[..|rounds|] == rounds;
  }

  /** A reading less than 1000 * interval - 999 microseconds after the last delivery brings none. */
  lemma EarlyReadingDoesNot(s: Subscriber, rounds: seq<Round>, now: TimeVal, memory: bool)
    requires Micros(now) - Micros(LastTime(s, rounds)) < 1000 * s.interval - 999
    ensures Deliveries(s, rounds + [Round(now, memory)]) == Deliveries(s, rounds)
  {
    LastSentIsLastDelivery(s, rounds);
    DistanceBounds(now, LastTime(s, rounds));
    assert (rounds + [Round(now, memory)])[..|rounds|] == rounds;
  }

  /** Between readings of whole milliseconds the interval decides alone. */
  lemma WholeReadingDeliversIff(s: Subscriber, rounds: seq<Round>, now: TimeVal)
    requires s.sysId != 0 && (now.usec - LastTime(s, rounds).usec) % 1000 == 0
    ensures Deliveries(s, rounds + [Round(now, true)]) == Deliveries(s, rounds) + [now] <==>
      Micros(now) - Micros(LastTime(s, rounds)) >= 1000 * s.interval
  {
    hide Micros, TimeDistance;
    LastSentIsLastDelivery(s, rounds);
    WholeDistance(now, LastTime(s, rounds));
    assert (rounds + [Round(now, true)])[..|rounds|] == rounds;
    assert |Deliveries(s, rounds) + [now]| == |Deliveries(s, rounds)| + 1;
  }

  lemma WholeDistance(v1: TimeVal, v2: TimeVal)
    requires (v1.usec - v2.usec) % 1000 == 0
    ensures 1000 * TimeDistance(v1, v2) == Micros(v1) - Micros(v2)
  {
    var a := v1.usec - v2.usec;
    assert a == 1000 * (a / 1000);
  }

  /** Nobody is overdue after a round that had memory: the data came in it, or not 1000 * interval + 999
      microseconds have passed since it came last. */
  lemma NobodyIsOverdue(s: Subscriber, rounds: seq<Round>)
    requires s.sysId != 0 && rounds != [] && rounds[|rounds| - 1].memory
    ensures var now := rounds[|rounds| - 1].now;
      || (Deliveries(s, rounds) != [] && LastTime(s, rounds) == now)
      || Micros(now) - Micros(LastTime(s, rounds)) < 1000 * s.interval + 999
  {
    var before, last := rounds[..|rounds| - 1], rounds[|rounds| - 1];
    assert rounds == before + [Round(last.now, true)];
    if Micros(last.now) - Micros(LastTime(s, before)) >= 1000 * s.interval + 999 {
      LateReadingDelivers(s, before, last.now);
    }
  }

  /** So with memory, and readings at most gap apart, two deliveries are less than 1000 * interval + 999 + gap
      microseconds apart. */
  lemma DeliveriesKeepUp(s: Subscriber, rounds: seq<Round>, now: TimeVal, gap: nat)
    requires s.sysId != 0 && 0 <= s.interval
    requires rounds != [] ==> rounds[|rounds| - 1].memory
    requires Micros(now) - Micros(if rounds == [] then s.lastSent else rounds[|rounds| - 1].now) <= gap
    ensures Micros(now) - Micros(LastTime(s, rounds)) < 1000 * s.interval + 999 + gap
  {
    hide Micros;
    if rounds != [] { NobodyIsOverdue(s, rounds); }
  }

  /** Two deliveries in a row are at least 1000 * interval - 999 microseconds apart. */
  lemma DeliveryAdvances(s: Subscriber, before: seq<Round>, now: TimeVal)
    requires Due(AfterRounds(s, before), now)
    ensures var d := Deliveries(s, before);
      Micros(now) >= Micros(if d == [] then s.lastSent else d[|d| - 1]) + THOUSAND * s.interval - 999
  {
  }

  lemma OneMore(n: int, pace: int)
    ensures n * pace == (n - 1) * pace + pace
  {
  }

  lemma {:induction false} PacedBy(s: Subscriber, rounds: seq<Round>, n: nat, pace: int)
    requires 1 <= n <= |Deliveries(s, rounds)| && pace == THOUSAND * s.interval - 999
    ensures Micros(Deliveries(s, rounds)[n - 1]) >= Micros(s.lastSent) + n * pace
  {
    hide Micros, Due;
    var before, last := rounds[..|rounds| - 1], rounds[|rounds| - 1];
    var d := Deliveries(s, before);
    if n <= |d| {
      PacedBy(s, before, n, pace);
    } else {
      DeliveryAdvances(s, before, last.now);
      OneMore(n, pace);
      if n > 1 { PacedBy(s, before, n - 1, pace); }
    }
  }

  /** The n-th delivery comes at least n * (1000 * interval - 999) microseconds after the subscription,
      whatever the clock reads. */
  lemma DeliveriesArePaced(s: Subscriber, rounds: seq<Round>, n: nat)
    requires 1 <= n <= |Deliveries(s, rounds)|
    ensures Micros(Deliveries(s, rounds)[n - 1]) >= Micros(s.lastSent) + n * (THOUSAND * s.interval - 999)
  {
    PacedBy(s, rounds, n, THOUSAND * s.interval - 999);
  }

  /** For every interval there are normalised clock readings that lose the full 999 microseconds. */
  lemma PaceIsTight(s: Subscriber)
    requires s.sysId != 0 && s.lastSent == TimeVal(0, 999_999)
    ensures exists now :: Normalised(now) && Deliveries(s, [Round(now, true)]) == [now]
                          && Micros(now) == Micros(s.lastSent) + THOUSAND * s.interval - 999
  {
    var secs := (s.interval + 999) / THOUSAND;
    var k := THOUSAND * secs - s.interval;
    var now := TimeVal(secs, 999_000 - THOUSAND * k);
    var rounds := [Round(now, true)];
    assert now.usec - 999_999 == -(THOUSAND * k + 999);
    assert Quotient(-(THOUSAND * k + 999), THOUSAND) == -k;
    assert rounds[..0] == [] && AfterRounds(s, []) == s;
    assert Deliveries(s, rounds) == Deliveries(s, rounds[..0]) + [now];
  }

  /** An interval of whole seconds can lose them 1001 times in a row. */
  function LossyRounds(seconds: int, n: nat): seq<Round> {
    if n == 0 then [] else LossyRounds(seconds, n - 1) + [Round(TimeVal(n * seconds, 999_999 - 999 * n), true)]
  }

  lemma LossesAddUp(n: int, seconds: int)
    ensures n * (THOUSAND * (THOUSAND * seconds) - 999) == n * seconds * MILLION - 999 * n
  {
  }

  lemma LossyRoundIsDue(last: Subscriber, seconds: int, n: nat)
    requires last.sysId != 0 && last.interval == THOUSAND * seconds && 1 <= n
    requires last.lastSent == TimeVal((n - 1) * seconds, 999_999 - 999 * (n - 1))
    ensures Due(last, TimeVal(n * seconds, 999_999 - 999 * n))
  {
  }

  lemma {:induction false} LossyDeliveries(s: Subscriber, seconds: int, n: nat)
    requires s.sysId != 0 && s.lastSent == TimeVal(0, 999_999) && s.interval == THOUSAND * seconds
    ensures |LossyRounds(seconds, n)| == n == |Deliveries(s, LossyRounds(seconds, n))|
    ensures AfterRounds(s, LossyRounds(seconds, n)).lastSent == TimeVal(n * seconds, 999_999 - 999 * n)
  {
    hide Due;
    if n > 0 {
      LossyDeliveries(s, seconds, n - 1);
      assert LossyRounds(seconds, n)[..n - 1] == LossyRounds(seconds, n - 1);
      LossyRoundIsDue(AfterRounds(s, LossyRounds(seconds, n - 1)), seconds, n);
    }
  }

  lemma PaceIsTightRepeatedly(s: Subscriber, seconds: int, n: nat)
    requires s.sysId != 0 && s.lastSent == TimeVal(0, 999_999) && s.interval == THOUSAND * seconds && 1 <= n <= 1001
    ensures |Deliveries(s, LossyRounds(seconds, n))| == n
    ensures var d := Deliveries(s, LossyRounds(seconds, n))[n - 1];
      Normalised(d) && Micros(d) == Micros(s.lastSent) + n * (THOUSAND * s.interval - 999)
  {
    hide Deliveries, AfterRounds, LossyRounds;
    LossyDeliveries(s, seconds, n);
    LastSentIsLastDelivery(s, LossyRounds(seconds, n));
    LossesAddUp(n, seconds);
  }
}

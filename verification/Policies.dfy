/** Lists of CPU policies: FreqSortByPolicy and MergeDuplicatePolicys of pwrapis/src/cpuservice.c. */
module Policies {

  datatype CurFreq = CurFreq(policyId: int, curFreq: real)

  // ---------------------------------------------------------------- order

  ghost predicate Sorted(s: seq<CurFreq>) { forall i, j :: 0 <= i < j < |s| ==> s[i].policyId <= s[j].policyId }

  /** The records of one policy, in the order they have in s. */
  function ByPolicy(s: seq<CurFreq>, id: int): seq<CurFreq> {
    if s == [] then []
    else (if s[0].policyId == id then [s[0]] else []) + ByPolicy(s[1..], id)
  }

  /** t is s rearranged so that records of the same policy keep their order. */
  ghost predicate StablyPermuted(s: seq<CurFreq>, t: seq<CurFreq>) { forall id :: ByPolicy(s, id) == ByPolicy(t, id) }

  lemma {:induction false} ByPolicyConcat(s: seq<CurFreq>, t: seq<CurFreq>, id: int)
    ensures ByPolicy(s + t, id) == ByPolicy(s, id) + ByPolicy(t, id)
  {
    if s == [] {
      assert s + t == t;
    } else {
      ByPolicyConcat(s[1..], t, id);
      assert (s + t)[1..] == s[1..] + t && (s + t)[0] == s[0];
      Regroup(if s[0].policyId == id then [s[0]] else [], ByPolicy(s[1..], id), ByPolicy(t, id));
    }
  }

  lemma Regroup(a: seq<CurFreq>, b: seq<CurFreq>, c: seq<CurFreq>)
    ensures a + (b + c) == a + b + c
  {
  }

  lemma SwapIsStable(s: seq<CurFreq>, j: nat)
    requires j + 1 < |s| && s[j].policyId != s[j + 1].policyId
    ensures StablyPermuted(s, s[j := s[j + 1]][j + 1 := s[j]])
  {
    var x, y, s' := s[j], s[j + 1], s[j := s[j + 1]][j + 1 := s[j]];
    forall id
      ensures ByPolicy(s, id) == ByPolicy(s', id)
    {
      assert s == s[..j] + ([x] + [y] + s[j + 2..]) && s' == s[..j] + ([y] + [x] + s[j + 2..]);
      ByPolicyConcat(s[..j], [x] + [y] + s[j + 2..], id);
      ByPolicyConcat(s[..j], [y] + [x] + s[j + 2..], id);
      ByPolicyConcat([x] + [y], s[j + 2..], id);
      ByPolicyConcat([y] + [x], s[j + 2..], id);
      ByPolicyConcat([x], [y], id);
      ByPolicyConcat([y], [x], id);
    }
  }

  /** From n on, every record is in its final position. */
  ghost predicate Settled(s: seq<CurFreq>, n: int) {
    forall k, l :: 0 <= k < l < |s| && n <= l ==> s[k].policyId <= s[l].policyId
  }

  ghost predicate LargestSoFar(s: seq<CurFreq>, j: nat) {
    j < |s| ==> forall k :: 0 <= k < j ==> s[k].policyId <= s[j].policyId
  }

  function Exchanged(s: seq<CurFreq>, j: nat): seq<CurFreq>
    requires j + 1 < |s|
  {
    if s[j].policyId > s[j + 1].policyId then s[j := s[j + 1]][j + 1 := s[j]] else s
  }

  lemma ExchangeBubbles(s: seq<CurFreq>, n: nat, j: nat)
    requires j + 1 < n <= |s| && Settled(s, n) && LargestSoFar(s, j)
    ensures Settled(Exchanged(s, j), n) && LargestSoFar(Exchanged(s, j), j + 1)
  {
  }

  lemma ExchangeIsStable(was: seq<CurFreq>, s: seq<CurFreq>, j: nat)
    requires j + 1 < |s| && StablyPermuted(was, s)
    ensures StablyPermuted(was, Exchanged(s, j))
  {
    if s[j].policyId > s[j + 1].policyId { SwapIsStable(s, j); }
  }

  lemma RoundSettles(s: seq<CurFreq>, n: nat)
    requires 0 < n <= |s| && Settled(s, n) && LargestSoFar(s, n - 1)
    ensures Settled(s, n - 1)
  {
  }

  /** Sorts the first len records by policy, in place, exchanging neighbours. */
  method FreqSortByPolicy(rstData: array<CurFreq>, len: nat)
    requires len <= rstData.Length
    modifies rstData
    ensures Sorted(rstData[..len])
    ensures StablyPermuted(old(rstData[..len]), rstData[..len])
    ensures rstData[len..] == old(rstData[len..])
  {
    hide Settled, LargestSoFar, StablyPermuted;
    ghost var was, rest := rstData[..len], rstData[len..];
    StartsUnsettled(was);
    for i := 0 to len
      invariant StablyPermuted(was, rstData[..len]) && rstData[len..] == rest
      invariant Settled(rstData[..len], len - i)
    {
      var j := 0;
      NoneSoFar(rstData[..len]);
      while j < len - i - 1
        invariant 0 <= j <= len - i - 1
        invariant StablyPermuted(was, rstData[..len]) && rstData[len..] == rest
        invariant Settled(rstData[..len], len - i) && LargestSoFar(rstData[..len], j)
      {
        ghost var before := rstData[..len];
        ExchangeBubbles(before, len - i, j);
        ExchangeIsStable(was, before, j);
        if rstData[j].policyId > rstData[j + 1].policyId {
          var temp := rstData[j + 1];
          rstData[j + 1] := rstData[j];
          rstData[j] := temp;
        }
        assert rstData[..len] == Exchanged(before, j);
        j := j + 1;
      }
      RoundSettles(rstData[..len], len - i);
    }
    SettledIsSorted(rstData[..len]);
  }

  lemma StartsUnsettled(s: seq<CurFreq>)
    ensures Settled(s, |s|) && StablyPermuted(s, s)
  {
  }

  lemma NoneSoFar(s: seq<CurFreq>)
    ensures LargestSoFar(s, 0)
  {
  }

  lemma SettledIsSorted(s: seq<CurFreq>)
    requires Settled(s, 0)
    ensures Sorted(s)
  {
  }

  lemma {:induction false} FirstOfItsPolicy(s: seq<CurFreq>, k: nat)
    requires k < |s|
    ensures ByPolicy(s, s[k].policyId) != [] && ByPolicy(s, s[0].policyId)[0] == s[0]
  {
    if k > 0 { FirstOfItsPolicy(s[1..], k - 1); }
  }

  lemma {:induction false} AllOfThePolicy(s: seq<CurFreq>, id: int)
    requires ByPolicy(s, id) != []
    ensures exists k :: 0 <= k < |s| && s[k].policyId == id
  {
    if s[0].policyId != id {
      AllOfThePolicy(s[1..], id);
      var k :| 0 <= k < |s[1..]| && s[1..][k].policyId == id;
      assert s[k + 1].policyId == id;
    }
  }

  /** The least policy comes first, with its first record. */
  lemma SameFirst(s: seq<CurFreq>, t: seq<CurFreq>)
    requires Sorted(s) && Sorted(t) && StablyPermuted(s, t) && s != []
    ensures t != [] && s[0] == t[0]
  {
    FirstOfItsPolicy(s, 0);
    AllOfThePolicy(t, s[0].policyId);
    FirstOfItsPolicy(t, 0);
    AllOfThePolicy(s, t[0].policyId);
  }

  /** There is only one stable sort, so it is what FreqSortByPolicy computes; a list in order stays as it is. */
  lemma {:induction false} StableSortIsUnique(s: seq<CurFreq>, t: seq<CurFreq>)
    requires Sorted(s) && Sorted(t) && StablyPermuted(s, t)
    ensures s == t
  {
    if s == [] {
      if t != [] { SameFirst(t, s); }
    } else {
      SameFirst(s, t);
      forall id
        ensures ByPolicy(s[1..], id) == ByPolicy(t[1..], id)
      {
        var first := if s[0].policyId == id then [s[0]] else [];
        assert ByPolicy(s, id) == first + ByPolicy(s[1..], id) && ByPolicy(t, id) == first + ByPolicy(t[1..], id);
        assert ByPolicy(s[1..], id) == ByPolicy(s, id)[|first|..];
      }
      StableSortIsUnique(s[1..], t[1..]);
    }
  }

  lemma {:induction false} CountByPolicy(s: seq<CurFreq>, x: CurFreq)
    ensures multiset(s)[x] == multiset(ByPolicy(s, x.policyId))[x]
  {
    if s != [] {
      CountByPolicy(s[1..], x);
      assert s == [s[0]] + s[1..];
    }
  }

  /** Nothing is lost or made up. */
  lemma StablyPermutedIsPermuted(s: seq<CurFreq>, t: seq<CurFreq>)
    requires StablyPermuted(s, t)
    ensures multiset(s) == multiset(t)
  {
    forall x
      ensures multiset(s)[x] == multiset(t)[x]
    {
      CountByPolicy(s, x);
      CountByPolicy(t, x);
    }
  }

  // ---------------------------------------------------------------- merging

  ghost function Ids(s: seq<CurFreq>): set<int> { set r | r in s :: r.policyId }

  ghost predicate Increasing(r: seq<int>) { forall i, j :: 0 <= i < j < |r| ==> r[i] < r[j] }

  /** The members of ids below n, in increasing order. */
  ghost function Ascending(ids: set<int>, n: nat): seq<int> {
    if n == 0 then [] else if n - 1 in ids then Ascending(ids, n - 1) + [n - 1] else Ascending(ids, n - 1)
  }

  lemma {:induction false} AscendingMembers(ids: set<int>, n: nat, x: int)
    ensures x in Ascending(ids, n) <==> x in ids && 0 <= x < n
  {
    if n > 0 {
      AscendingMembers(ids, n - 1, x);
      if n - 1 in ids { InSnoc(Ascending(ids, n - 1), n - 1, x); }
    }
  }

  lemma InSnoc(r: seq<int>, y: int, x: int)
    ensures x in r + [y] <==> x in r || x == y
  {
  }

  lemma {:induction false} AscendingIncreases(ids: set<int>, n: nat)
    ensures Increasing(Ascending(ids, n))
  {
    if n > 0 {
      var r := Ascending(ids, n - 1);
      AscendingIncreases(ids, n - 1);
      forall i | 0 <= i < |r|
        ensures r[i] < n - 1
      {
        AscendingMembers(ids, n - 1, r[i]);
      }
    }
  }

  lemma {:induction false} IncreasingFits(r: seq<int>, s: set<int>)
    requires Increasing(r) && forall x :: x in r ==> x in s
    ensures |r| <= |s|
  {
    if r != [] {
      var last := r[|r| - 1];
      forall x | x in r[..|r| - 1]
        ensures x in s - {last}
      {
        var i :| 0 <= i < |r| - 1 && r[i] == x;
      }
      IncreasingFits(r[..|r| - 1], s - {last});
    }
  }

  lemma {:induction false} FewIds(s: seq<CurFreq>)
    ensures |Ids(s)| <= |s|
  {
    if s == [] {
      assert Ids(s) == {};
    } else {
      var n := |s| - 1;
      assert s == s[..n] + [s[n]];
      assert Ids(s) == Ids(s[..n]) + {s[n].policyId};
      FewIds(s[..n]);
    }
  }

  /** No more ids are left than records came in. */
  lemma AscendingFits(s: seq<CurFreq>, n: nat)
    ensures |Ascending(Ids(s), n)| <= |s|
  {
    AscendingIncreases(Ids(s), n);
    forall x | x in Ascending(Ids(s), n)
      ensures x in Ids(s)
    {
      AscendingMembers(Ids(s), n, x);
    }
    IncreasingFits(Ascending(Ids(s), n), Ids(s));
    FewIds(s);
  }

  /** now is was with r as the ids of the first records; no frequency has moved. */
  ghost predicate Renamed(was: seq<CurFreq>, now: seq<CurFreq>, r: seq<int>) {
    && |r| <= |now| == |was|
    && (forall k :: 0 <= k < |r| ==> now[k] == CurFreq(r[k], was[k].curFreq))
    && (forall k :: |r| <= k < |was| ==> now[k] == was[k])
  }

  lemma RenameNext(was: seq<CurFreq>, now: seq<CurFreq>, r: seq<int>, id: int)
    requires Renamed(was, now, r) && |r| < |was|
    ensures Renamed(was, now[|r| := now[|r|].(policyId := id)], r + [id])
  {
  }

  lemma IdsSoFar(s: seq<CurFreq>, i: nat)
    requires i < |s|
    ensures Ids(s[..i + 1]) == Ids(s[..i]) + {s[i].policyId}
  {
  }

  /** Marks the ids below cpuNum that occur. */
  ghost predicate Marks(validId: seq<bool>, ids: set<int>) {
    forall v :: 0 <= v < |validId| ==> (validId[v] <==> v in ids)
  }

  /** The first loop of MergeDuplicatePolicys. A negative id marks a place outside the array of flags,
      which ends the call here. */
  method MarkIds(target: array<CurFreq>, length: nat, validId: array<bool>) returns (inside: bool)
    requires length <= target.Length
    requires Marks(validId[..], {})
    modifies validId
    ensures inside <==> forall i :: 0 <= i < length ==> target[i].policyId >= 0
    ensures inside ==> Marks(validId[..], Ids(target[..length]))
  {
    for i := 0 to length
      invariant Marks(validId[..], Ids(target[..i]))
      invariant forall j :: 0 <= j < i ==> target[j].policyId >= 0
    {
      IdsSoFar(target[..], i);
      assert target[..][..i] == target[..i] && target[..][..i + 1] == target[..i + 1];
      if target[i].policyId < validId.Length {
        if target[i].policyId < 0 { return false; }
        validId[target[i].policyId] := true;
      }
    }
    inside := true;
  }

  /** The second loop. */
  method WriteIds(target: array<CurFreq>, validId: array<bool>, ghost ids: set<int>, ghost length: nat)
    returns (len: nat)
    requires Marks(validId[..], ids) && length <= target.Length && ids == Ids(target[..length])
    modifies target
    ensures len == |Ascending(ids, validId.Length)| <= length
    ensures Renamed(old(target[..]), target[..], Ascending(ids, validId.Length))
  {
    ghost var was := target[..];
    len := 0;
    for i := 0 to validId.Length
      invariant len == |Ascending(ids, i)| <= length
      invariant Renamed(was, target[..], Ascending(ids, i))
    {
      AscendingFits(was[..length], i + 1);
      if validId[i] {
        RenameNext(was, target[..], Ascending(ids, i), i);
        target[len] := target[len].(policyId := i);
        len := len + 1;
      }
    }
  }

  /** Leaves each id below cpuNum once, in increasing order, in the first len records. */
  method MergeDuplicatePolicys(target: array<CurFreq>, length: nat, cpuNum: nat, memory: bool)
    returns (inside: bool, len: nat)
    requires length <= target.Length
    modifies target
    ensures inside <==> memory ==> forall i :: 0 <= i < length ==> old(target[i]).policyId >= 0
    ensures !memory || !inside ==> len == length && target[..] == old(target[..])
    ensures memory && inside ==> len == |Ascending(Ids(old(target[..length])), cpuNum)| <= length
    ensures memory && inside ==>
      Renamed(old(target[..]), target[..], Ascending(Ids(old(target[..length])), cpuNum))
  {
    if !memory { return true, length; }
    var validId := new bool[cpuNum](_ => false);
    inside := MarkIds(target, length, validId);
    if !inside { return false, length; }
    len := WriteIds(target, validId, Ids(target[..length]), length);
  }

  /** There is only one increasing list with given members. */
  lemma {:induction false} SameMembers(a: seq<int>, b: seq<int>)
    requires Increasing(a) && Increasing(b) && forall x :: x in a <==> x in b
    ensures a == b
  {
    if |b| > 0 {
      var x, y := b[|b| - 1], if a == [] then 0 else a[|a| - 1];
      assert x in b;
      assert x in a;
      assert y in a;
      assert x == y;
      var a', b' := a[..|a| - 1], b[..|b| - 1];
      forall z | z in a'
        ensures z in b'
      {
        LessThanLast(a, z);
        LessThanLast(b, z);
      }
      forall z | z in b'
        ensures z in a'
      {
        LessThanLast(a, z);
        LessThanLast(b, z);
      }
      SameMembers(a', b');
    } else {
      HasFirst(a);
    }
  }

  lemma HasFirst(a: seq<int>)
    ensures a != [] ==> a[0] in a
  {
  }

  lemma LessThanLast(a: seq<int>, z: int)
    requires a != [] && Increasing(a)
    ensures z in a[..|a| - 1] <==> z in a && z != a[|a| - 1]
  {
  }

  lemma IncreasingIsAscending(r: seq<int>, ids: set<int>, n: nat)
    requires Increasing(r) && forall x :: x in r <==> x in ids && 0 <= x < n
    ensures Ascending(ids, n) == r
  {
    AscendingIncreases(ids, n);
    forall x | x in Ascending(ids, n)
      ensures x in r
    {
      AscendingMembers(ids, n, x);
    }
    forall x | x in r
      ensures x in Ascending(ids, n)
    {
      AscendingMembers(ids, n, x);
    }
    SameMembers(Ascending(ids, n), r);
  }

  /** The frequency does not go with its policy: it is paired with another one as soon as ids move. */
  lemma FrequenciesStayBehind(slow: real, fast: real)
    ensures Ascending(Ids([CurFreq(2, fast), CurFreq(1, slow)]), 4) == [1, 2]
    ensures Renamed([CurFreq(2, fast), CurFreq(1, slow)], [CurFreq(1, fast), CurFreq(2, slow)], [1, 2])
    ensures CurFreq(1, fast) in [CurFreq(2, fast), CurFreq(1, slow)] <==> slow == fast
    ensures CurFreq(2, slow) in [CurFreq(2, fast), CurFreq(1, slow)] <==> slow == fast
  {
    var s := [CurFreq(2, fast), CurFreq(1, slow)];
    assert s[0] in s && s[1] in s;
    IncreasingIsAscending([1, 2], Ids(s), 4);
  }

  /** The first n records have increasing ids below cpuNum, and all other such ids are among those. */
  ghost predicate BeginsMerged(s: seq<CurFreq>, n: nat, cpuNum: nat) {
    && n <= |s|
    && (forall i, j :: 0 <= i < j < n ==> s[i].policyId < s[j].policyId)
    && (forall i :: 0 <= i < n ==> 0 <= s[i].policyId < cpuNum)
    && forall i :: n <= i < |s| && 0 <= s[i].policyId < cpuNum ==>
         exists j :: 0 <= j < n && s[j].policyId == s[i].policyId
  }

  /** Then the merge finds the ids where they are. */
  lemma MergedIdsAreFirst(s: seq<CurFreq>, n: nat, cpuNum: nat)
    requires BeginsMerged(s, n, cpuNum)
    ensures Ascending(Ids(s), cpuNum) == seq(n, k requires 0 <= k < n => s[k].policyId)
  {
    var r := seq(n, k requires 0 <= k < n => s[k].policyId);
    forall x
      ensures x in r <==> x in Ids(s) && 0 <= x < cpuNum
    {
      if x in Ids(s) && 0 <= x < cpuNum {
        var i :| 0 <= i < |s| && s[i].policyId == x;
        var j :| 0 <= j < n && s[j].policyId == x;
        assert r[j] == x;
      }
      if x in r {
        var k :| 0 <= k < |r| && r[k] == x;
        assert s[k] in s;
      }
    }
    IncreasingIsAscending(r, Ids(s), cpuNum);
  }

  lemma FoundFirstIsMerged(s: seq<CurFreq>, cpuNum: nat)
    requires var r := Ascending(Ids(s), cpuNum); |r| <= |s| && forall k :: 0 <= k < |r| ==> s[k].policyId == r[k]
    ensures BeginsMerged(s, |Ascending(Ids(s), cpuNum)|, cpuNum)
  {
    var r := Ascending(Ids(s), cpuNum);
    AscendingIncreases(Ids(s), cpuNum);
    forall k | 0 <= k < |r|
      ensures 0 <= s[k].policyId < cpuNum
    {
      AscendingMembers(Ids(s), cpuNum, r[k]);
    }
    forall i | |r| <= i < |s| && 0 <= s[i].policyId < cpuNum
      ensures exists j :: 0 <= j < |r| && s[j].policyId == s[i].policyId
    {
      assert s[i] in s;
      AscendingMembers(Ids(s), cpuNum, s[i].policyId);
      var j :| 0 <= j < |r| && r[j] == s[i].policyId;
    }
  }

  /** The merge leaves every record of the result as it was exactly when the list begins with increasing ids below
      cpuNum, and holds no other such ids behind. */
  lemma MergeKeepsRecordsIff(was: seq<CurFreq>, now: seq<CurFreq>, length: nat, cpuNum: nat)
    requires length <= |was| && (forall i :: 0 <= i < length ==> was[i].policyId >= 0)
    requires Renamed(was, now, Ascending(Ids(was[..length]), cpuNum))
    ensures now == was <==> exists n: nat :: BeginsMerged(was[..length], n, cpuNum)
  {
    var s := was[..length];
    AscendingFits(s, cpuNum);
    if now == was { FoundFirstIsMerged(s, cpuNum); }
    if n: nat :| BeginsMerged(s, n, cpuNum) { MergedIdsAreFirst(s, n, cpuNum); }
  }

  /** Every record of the result was there before: its frequency is one of its own policy. */
  ghost predicate PairsKept(was: seq<CurFreq>, now: seq<CurFreq>, length: nat, len: nat)
    requires length <= |was| && len <= |now|
  {
    forall k :: 0 <= k < len ==> now[k] in was[..length]
  }

  /** No two policies have the same frequency. */
  ghost predicate FrequencyTells(s: seq<CurFreq>) {
    forall i, j :: 0 <= i < |s| && 0 <= j < |s| && s[i].curFreq == s[j].curFreq ==> s[i].policyId == s[j].policyId
  }

  /** The frequencies stay with their policies exactly when each of the first records has a frequency of the policy
      that comes at its place in increasing order; where a frequency tells its policy, exactly when the list is left
      alone. */
  lemma PairsKeptIff(was: seq<CurFreq>, now: seq<CurFreq>, length: nat, cpuNum: nat)
    requires length <= |was| && (forall i :: 0 <= i < length ==> was[i].policyId >= 0)
    requires Renamed(was, now, Ascending(Ids(was[..length]), cpuNum))
    ensures var s, r := was[..length], Ascending(Ids(was[..length]), cpuNum);
      && (PairsKept(was, now, length, |r|) <==> forall k :: 0 <= k < |r| ==> CurFreq(r[k], was[k].curFreq) in s)
      && (FrequencyTells(s) ==>
            (PairsKept(was, now, length, |r|) <==> exists n: nat :: BeginsMerged(s, n, cpuNum)))
  {
    hide Ascending, BeginsMerged;
    var s, r := was[..length], Ascending(Ids(was[..length]), cpuNum);
    AscendingFits(s, cpuNum);
    MergeKeepsRecordsIff(was, now, length, cpuNum);
    if FrequencyTells(s) && PairsKept(was, now, length, |r|) {
      forall k | 0 <= k < |r|
        ensures now[k] == was[k]
      {
        var j :| 0 <= j < length && s[j] == now[k];
        assert s[k].curFreq == s[j].curFreq;
      }
      assert now == was;
    }
    if now == was {
      forall k | 0 <= k < |r|
        ensures now[k] in s
      {
        assert s[k] == now[k];
      }
    }
  }

  /** In particular, a strictly increasing list of ids below cpuNum is left alone. */
  lemma IncreasingStays(s: seq<CurFreq>, cpuNum: nat)
    requires forall i, j :: 0 <= i < j < |s| ==> s[i].policyId < s[j].policyId
    requires forall i :: 0 <= i < |s| ==> 0 <= s[i].policyId < cpuNum
    ensures |Ascending(Ids(s), cpuNum)| == |s|
    ensures forall k :: 0 <= k < |s| ==> Ascending(Ids(s), cpuNum)[k] == s[k].policyId
  {
    assert BeginsMerged(s, |s|, cpuNum);
    MergedIdsAreFirst(s, |s|, cpuNum);
  }
}

/** Fields of strings: GetNthField, StrSplit and StrJoin of pwrapis/src/utils.c. Strings are without their
    terminators, which stand in the buffers. */
module Fields {

  const MAX_LINE_LENGTH := 256
  const NUL: char := '\0'

  // ---------------------------------------------------------------- tokens

  /** strspn: how many leading characters are separators. */
  function Span(s: string, sep: string): (n: nat)
    ensures n <= |s|
    ensures forall i :: 0 <= i < n ==> s[i] in sep
    ensures n < |s| ==> s[n] !in sep
  {
    if s == [] || s[0] !in sep then 0 else 1 + Span(s[1..], sep)
  }

  /** strcspn: how many leading characters are not. */
  function Reach(s: string, sep: string): (n: nat)
    ensures n <= |s|
    ensures forall i :: 0 <= i < n ==> s[i] !in sep
    ensures n < |s| ==> s[n] in sep
  {
    if s == [] || s[0] in sep then 0 else 1 + Reach(s[1..], sep)
  }

  function Skipped(s: string, sep: string): string { s[Span(s, sep)..] }

  function Field(t: string, sep: string): string { t[..Reach(t, sep)] }

  function After(t: string, sep: string): string { t[Reach(t, sep)..] }

  /** The fields of s: its maximal pieces without separators. */
  function Tokens(s: string, sep: string): seq<string>
    decreases |s|
  {
    var t := Skipped(s, sep);
    if t == [] then [] else [Field(t, sep)] + Tokens(After(t, sep), sep)
  }

  predicate Clean(t: string, sep: string) { t != [] && forall i :: 0 <= i < |t| ==> t[i] !in sep }

  function Flatten(ts: seq<string>): string { if ts == [] then [] else ts[0] + Flatten(ts[1..]) }

  /** s without its separators. */
  function Text(s: string, sep: string): string {
    if s == [] then [] else (if s[0] in sep then [] else [s[0]]) + Text(s[1..], sep)
  }

  lemma {:induction false} TokensAreClean(s: string, sep: string, k: nat)
    requires k < |Tokens(s, sep)|
    ensures Clean(Tokens(s, sep)[k], sep)
    decreases |s|
  {
    if k > 0 { TokensAreClean(After(Skipped(s, sep), sep), sep, k - 1); }
  }

  lemma {:induction false} TextConcat(a: string, b: string, sep: string)
    ensures Text(a + b, sep) == Text(a, sep) + Text(b, sep)
  {
    if a == [] {
      assert a + b == b;
    } else {
      TextConcat(a[1..], b, sep);
      assert (a + b)[1..] == a[1..] + b && (a + b)[0] == a[0];
      Regroup(if a[0] in sep then [] else [a[0]], Text(a[1..], sep), Text(b, sep), []);
    }
  }

  lemma {:induction false} TextOfSeparators(a: string, sep: string)
    requires forall i :: 0 <= i < |a| ==> a[i] in sep
    ensures Text(a, sep) == []
  {
    if a != [] { TextOfSeparators(a[1..], sep); }
  }

  lemma {:induction false} TextOfToken(a: string, sep: string)
    requires forall i :: 0 <= i < |a| ==> a[i] !in sep
    ensures Text(a, sep) == a
  {
    if a != [] { TextOfToken(a[1..], sep); }
  }

  lemma TextSkipped(s: string, sep: string)
    ensures Text(Skipped(s, sep), sep) == Text(s, sep)
  {
    var n := Span(s, sep);
    assert s == s[..n] + s[n..];
    TextConcat(s[..n], s[n..], sep);
    TextOfSeparators(s[..n], sep);
  }

  lemma TextAfter(t: string, sep: string)
    ensures Text(t, sep) == Field(t, sep) + Text(After(t, sep), sep)
  {
    var n := Reach(t, sep);
    assert t == t[..n] + t[n..];
    TextConcat(t[..n], t[n..], sep);
    TextOfToken(t[..n], sep);
  }

  /** Splitting drops separators and nothing else. */
  lemma {:induction false} TokensKeepText(s: string, sep: string)
    ensures Flatten(Tokens(s, sep)) == Text(s, sep)
    decreases |s|
  {
    hide Text;
    var t := Skipped(s, sep);
    TextSkipped(s, sep);
    if t == [] {
      NoText(sep);
    } else {
      TextAfter(t, sep);
      TokensKeepText(After(t, sep), sep);
      assert Tokens(s, sep)[1..] == Tokens(After(t, sep), sep);
    }
  }

  lemma NoText(sep: string)
    ensures Text([], sep) == []
  {
  }

  /** The first done fields have been passed, and rest is what is left. */
  ghost predicate Passed(src: string, sep: string, done: nat, rest: string) {
    done <= |Tokens(src, sep)| && Tokens(src, sep)[done..] == Tokens(rest, sep)
  }

  lemma PassedNone(src: string, sep: string)
    ensures Passed(src, sep, 0, src)
  {
  }

  /** The next step: either no field is left, or the next one is the first piece of what is left. */
  lemma PassNext(src: string, sep: string, done: nat, rest: string)
    requires Passed(src, sep, done, rest)
    ensures var t := Skipped(rest, sep);
      && (t == [] ==> done == |Tokens(src, sep)|)
      && (t != [] ==> done < |Tokens(src, sep)| && Tokens(src, sep)[done] == Field(t, sep) && Field(t, sep) != []
                      && Passed(src, sep, done + 1, After(t, sep)))
  {
    var t, all := Skipped(rest, sep), Tokens(src, sep);
    if t != [] {
      assert all[done] == all[done..][0];
      assert all[done + 1..] == all[done..][1..];
    }
  }

  // ---------------------------------------------------------------- GetNthField

  /** The nth field is there and fits. */
  predicate HasField(src: string, sep: string, nth: int, bufLen: nat) {
    1 <= nth <= |Tokens(src, sep)| && |Tokens(src, sep)[nth - 1]| <= bufLen
  }

  /** Overrun: the terminator goes to the place after the buffer. */
  datatype Lookup = Found | Missing | Overrun

  /** Looks for a field and copies it out. A field that fills the whole buffer is not refused: its
      terminator is written behind the buffer. */
  method GetNthField(src: string, sep: string, nth: int, pField: array<char>, bufLen: nat) returns (r: Lookup)
    requires bufLen <= pField.Length
    modifies pField
    ensures r == Missing <==> !HasField(src, sep, nth, bufLen)
    ensures r == Overrun <==> HasField(src, sep, nth, bufLen) && |Tokens(src, sep)[nth - 1]| == pField.Length
    ensures r == Found ==> var t := Tokens(src, sep)[nth - 1];
      pField[..|t| + 1] == t + [NUL] && pField[|t| + 1..] == old(pField[|t| + 1..])
    ensures r == Overrun ==> pField[..] == Tokens(src, sep)[nth - 1]
    ensures r == Missing ==> pField[..] == old(pField[..])
  {
    hide Tokens, Passed, Skipped, Field, After;
    var tmpLen, ps, n := 0, 0, nth;
    if nth < 1 { return Missing; }
    PassedNone(src, sep);
    ghost var rest, field := src, [];
    assert src[0..] == src;
    while ps < |src| && n != 0
      invariant 0 <= n <= nth && 0 <= ps && 0 <= tmpLen && ps + tmpLen <= |src|
      invariant rest == src[ps + tmpLen..] && Passed(src, sep, nth - n, rest)
      invariant n == nth ==> ps == 0 == tmpLen
      invariant pField[..] == old(pField[..])
      invariant n < nth ==> ps < |src| && nth - n <= |Tokens(src, sep)|
      invariant n < nth ==> field == Tokens(src, sep)[nth - n - 1] && src[ps..ps + tmpLen] == field
    {
      PassNext(src, sep, nth - n, rest);
      n := n - 1;
      ps := ps + tmpLen;
      SkipFrom(src, sep, ps);
      tmpLen := Span(src[ps..], sep);
      ps := ps + tmpLen;
      if ps >= |src| {
        assert src[ps..] == [];
        return Missing;
      }
      ReachFrom(src, sep, ps);
      tmpLen := Reach(src[ps..], sep);
      rest, field := src[ps + tmpLen..], src[ps..ps + tmpLen];
    }
    if n != 0 {
      NoFields(sep);
      assert src == [];
      return Missing;
    }
    assert field == Tokens(src, sep)[nth - 1] && |field| == tmpLen;
    if bufLen < tmpLen { return Missing; }
    var fits := CopyString(src[ps..ps + tmpLen], pField);
    r := if fits then Found else Overrun;
  }

  /** A field of exactly the buffer's length: bufLen is compared with the field alone. */
  lemma FieldFillsBuffer()
    ensures HasField("ab", " ", 1, 2) && |Tokens("ab", " ")[0]| == 2
  {
    ReachIs("ab", "", " ");
    assert Skipped("ab", " ") == "ab" && "ab" + "" == "ab";
    assert Field("ab", " ") == "ab";
  }

  lemma NoFields(sep: string)
    ensures Tokens([], sep) == []
  {
  }

  lemma SkipFrom(src: string, sep: string, ps: nat)
    requires ps <= |src|
    ensures var n := Span(src[ps..], sep); ps + n <= |src| && src[ps + n..] == Skipped(src[ps..], sep)
  {
  }

  lemma ReachFrom(src: string, sep: string, ps: nat)
    requires ps <= |src|
    ensures var n := Reach(src[ps..], sep);
      ps + n <= |src| && src[ps + n..] == After(src[ps..], sep) && src[ps..ps + n] == Field(src[ps..], sep)
  {
  }

  /** Copies a string and then its terminator; reports whether that was still inside the buffer. */
  method CopyString(t: string, buf: array<char>) returns (fits: bool)
    requires |t| <= buf.Length
    modifies buf
    ensures fits <==> |t| < buf.Length
    ensures fits ==> buf[..|t| + 1] == t + [NUL] && buf[|t| + 1..] == old(buf[|t| + 1..])
    ensures !fits ==> buf[..] == t
  {
    forall i | 0 <= i < |t| { buf[i] := t[i]; }
    fits := |t| < buf.Length;
    if fits { buf[|t|] := NUL; }
  }

  // ---------------------------------------------------------------- StrSplit

  function Limit(itemNum: int, n: nat): nat { if itemNum < 0 then 0 else if itemNum < n then itemNum else n }

  /** Stores the first itemNum fields; count is how many there were. */
  method StrSplit(src: string, sep: string, res: array<string>, itemNum: int) returns (count: nat)
    requires itemNum <= res.Length
    modifies res
    ensures count == Limit(itemNum, |Tokens(src, sep)|)
    ensures res[..count] == Tokens(src, sep)[..count] && res[count..] == old(res[count..])
  {
    hide Tokens, Passed;
    PassedNone(src, sep);
    PassNext(src, sep, 0, src);
    ghost var left := src;
    var idx, rest := 0, Skipped(src, sep);
    while rest != [] && idx < itemNum
      invariant 0 <= idx <= |Tokens(src, sep)| && (idx <= itemNum || idx == 0)
      invariant Passed(src, sep, idx, left) && rest == Skipped(left, sep)
      invariant rest == [] ==> idx == |Tokens(src, sep)|
      invariant idx <= res.Length && res[..idx] == Tokens(src, sep)[..idx] && res[idx..] == old(res[idx..])
      decreases |Tokens(src, sep)| - idx
    {
      PassNext(src, sep, idx, left);
      res[idx] := Field(rest, sep);
      left := After(rest, sep);
      rest := Skipped(After(rest, sep), sep);
      idx := idx + 1;
      PassNext(src, sep, idx, left);
    }
    count := idx;
  }

  // ---------------------------------------------------------------- StrJoin

  /** Each string followed by the joining one. */
  function Heads(ts: seq<string>, join: string): string {
    if ts == [] then [] else Heads(ts[..|ts| - 1], join) + ts[|ts| - 1] + join
  }

  function Joined(ts: seq<string>, join: string): string {
    if ts == [] then [] else Heads(ts[..|ts| - 1], join) + ts[|ts| - 1]
  }

  predicate NoNul(s: string) { forall i :: 0 <= i < |s| ==> s[i] != NUL }

  /** sprintf: writes s and a terminator at position pos, if they are inside the buffer. */
  method PutString(buf: array<char>, pos: nat, s: string) returns (fits: bool)
    requires pos < buf.Length
    modifies buf
    ensures fits <==> pos + |s| < buf.Length
    ensures fits ==> buf[..pos + |s|] == old(buf[..pos]) + s && buf[pos + |s|] == NUL
  {
    fits := pos + |s| < buf.Length;
    if fits {
      forall i | 0 <= i < |s| { buf[pos + i] := s[i]; }
      buf[pos + |s|] := NUL;
    }
  }

  /** strlen */
  method Length(buf: array<char>) returns (n: nat)
    requires exists i :: 0 <= i < buf.Length && buf[i] == NUL
    ensures n < buf.Length && buf[n] == NUL && NoNul(buf[..n])
  {
    n := 0;
    while buf[n] != NUL
      invariant n < buf.Length && NoNul(buf[..n])
      invariant exists i :: n <= i < buf.Length && buf[i] == NUL
      decreases buf.Length - n
    {
      n := n + 1;
    }
  }

  lemma {:induction false} HeadsGrow(ts: seq<string>, join: string, k: nat)
    requires k < |ts|
    ensures Heads(ts[..k + 1], join) == Heads(ts[..k], join) + ts[k] + join
    ensures |Heads(ts[..k], join)| + |ts[k]| <= |Joined(ts, join)|
    ensures k < |ts| - 1 ==> |Heads(ts[..k], join)| + |ts[k]| + |join| <= |Joined(ts, join)|
    decreases |ts| - k
  {
    assert ts[..k + 1][..k] == ts[..k];
    if k < |ts| - 1 { HeadsGrow(ts, join, k + 1); }
  }

  lemma {:induction false} HeadsNoNul(ts: seq<string>, join: string)
    requires NoNul(join) && forall i :: 0 <= i < |ts| ==> NoNul(ts[i])
    ensures NoNul(Heads(ts, join))
  {
    if ts != [] { HeadsNoNul(ts[..|ts| - 1], join); }
  }

  /** The loop of StrJoin: the joined line, with its terminator, in the line buffer, if it is inside. */
  method FillLine(strArr: seq<string>, join: string, tmpBuf: array<char>) returns (fits: bool)
    requires strArr != [] && tmpBuf.Length > 0 && tmpBuf[0] == NUL
    modifies tmpBuf
    ensures fits <==> |Joined(strArr, join)| < tmpBuf.Length
    ensures fits ==> var line := Joined(strArr, join); tmpBuf[..|line|] == line && tmpBuf[|line|] == NUL
  {
    hide Heads;
    var n := |strArr| - 1;
    var pos := 0;
    NoHeads(strArr, join);
    for idx := 0 to n
      invariant pos == |Heads(strArr[..idx], join)| < tmpBuf.Length
      invariant tmpBuf[..pos] == Heads(strArr[..idx], join) && tmpBuf[pos] == NUL
    {
      HeadsGrow(strArr, join, idx);
      fits := PutString(tmpBuf, pos, strArr[idx] + join);
      if !fits { return; }
      pos := pos + (|strArr[idx]| + |join|);
    }
    HeadsGrow(strArr, join, n);
    fits := PutString(tmpBuf, pos, strArr[n]);
  }

  /** LineOverrun: the line is longer than the local buffer; BufOverrun: its terminator goes to the place
      after the caller's. */
  datatype Joining = Written | Refused | LineOverrun | BufOverrun

  /** Joins the strings in a local line buffer and copies the line out. */
  method StrJoin(strArr: seq<string>, join: string, buf: array<char>, bufLen: int) returns (r: Joining)
    requires NoNul(join) && forall i :: 0 <= i < |strArr| ==> NoNul(strArr[i])
    requires bufLen <= buf.Length
    modifies buf
    ensures var n := |Joined(strArr, join)|;
      r == if |strArr| < 1 || bufLen < 1 then Refused
           else if n >= MAX_LINE_LENGTH then LineOverrun
           else if n > bufLen then Refused
           else if n == buf.Length then BufOverrun
           else Written
    ensures r == Written ==>
      var line := Joined(strArr, join);
      buf[..|line| + 1] == line + [NUL] && buf[|line| + 1..] == old(buf[|line| + 1..])
    ensures r == BufOverrun ==> buf[..] == Joined(strArr, join)
    ensures r == Refused || r == LineOverrun ==> buf[..] == old(buf[..])
  {
    hide Joined, NoNul;
    if |strArr| < 1 || bufLen < 1 { return Refused; }
    var tmpBuf := new char[MAX_LINE_LENGTH](_ => NUL);
    var fits := FillLine(strArr, join, tmpBuf);
    if !fits { return LineOverrun; }
    ghost var line := Joined(strArr, join);
    JoinedNoNul(strArr, join);
    var len := Length(tmpBuf);
    SameLength(tmpBuf[..], line, len);
    if len > bufLen { return Refused; }
    fits := CopyString(tmpBuf[..len], buf);
    r := if fits then Written else BufOverrun;
  }

  lemma NoHeads(ts: seq<string>, join: string)
    ensures Heads(ts[..0], join) == []
  {
  }

  lemma JoinedNoNul(ts: seq<string>, join: string)
    requires ts != [] && NoNul(join) && forall i :: 0 <= i < |ts| ==> NoNul(ts[i])
    ensures NoNul(Joined(ts, join))
  {
    HeadsNoNul(ts[..|ts| - 1], join);
  }

  lemma SameLength(buf: string, s: string, n: nat)
    requires |s| < |buf| && buf[..|s|] == s && buf[|s|] == NUL && NoNul(s)
    requires n < |buf| && buf[n] == NUL && NoNul(buf[..n])
    ensures n == |s|
  {
  }

  // ---------------------------------------------------------------- splitting undoes joining

  lemma {:induction false} HeadsFront(ts: seq<string>, join: string)
    requires ts != []
    ensures Heads(ts, join) == ts[0] + join + Heads(ts[1..], join)
  {
    if |ts| > 1 {
      HeadsFront(ts[..|ts| - 1], join);
      assert ts[..|ts| - 1][1..] == ts[1..][..|ts| - 2];
    }
  }

  lemma Regroup(a: string, b: string, c: string, d: string)
    ensures a + b + c + d == a + (b + (c + d))
  {
  }

  lemma JoinedFront(ts: seq<string>, join: string)
    requires |ts| > 1
    ensures Joined(ts, join) == ts[0] + (join + Joined(ts[1..], join))
  {
    hide Heads;
    var init, last := ts[..|ts| - 1], ts[|ts| - 1];
    HeadsFront(init, join);
    assert init[1..] == ts[1..][..|ts| - 2];
    Regroup(ts[0], join, Heads(init[1..], join), last);
  }

  lemma {:induction false} SkipSeparators(a: string, s: string, sep: string)
    requires forall i :: 0 <= i < |a| ==> a[i] in sep
    ensures Tokens(a + s, sep) == Tokens(s, sep)
  {
    hide Tokens;
    SkippedIsSame(a, s, sep);
    TokensBySkipped(a + s, s, sep);
  }

  lemma {:induction false} SkippedIsSame(a: string, s: string, sep: string)
    requires forall i :: 0 <= i < |a| ==> a[i] in sep
    ensures Skipped(a + s, sep) == Skipped(s, sep)
  {
    if a == [] {
      assert a + s == s;
    } else {
      SkippedIsSame(a[1..], s, sep);
      assert (a + s)[1..] == a[1..] + s;
    }
  }

  lemma TokensBySkipped(s: string, t: string, sep: string)
    requires Skipped(s, sep) == Skipped(t, sep)
    ensures Tokens(s, sep) == Tokens(t, sep)
  {
  }

  lemma {:induction false} ReachIs(t: string, s: string, sep: string)
    requires (forall i :: 0 <= i < |t| ==> t[i] !in sep) && (s == [] || s[0] in sep)
    ensures Reach(t + s, sep) == |t|
  {
    if t == [] {
      assert t + s == s;
    } else {
      ReachIs(t[1..], s, sep);
      assert (t + s)[1..] == t[1..] + s;
    }
  }

  lemma FirstToken(t: string, s: string, sep: string)
    requires Clean(t, sep) && (s == [] || s[0] in sep)
    ensures Tokens(t + s, sep) == [t] + Tokens(s, sep)
  {
    ReachIs(t, s, sep);
    assert Skipped(t + s, sep) == t + s;
    assert Field(t + s, sep) == t && After(t + s, sep) == s;
  }

  lemma JoinedFew(ts: seq<string>, join: string, sep: string)
    ensures Joined([], join) == [] && Tokens([], sep) == []
    ensures |ts| == 1 ==> Joined(ts, join) == ts[0] + []
  {
  }

  /** Splitting a line that was joined by separators gives the parts back. */
  lemma {:induction false} SplitJoined(ts: seq<string>, join: string, sep: string)
    requires join != [] && forall i :: 0 <= i < |join| ==> join[i] in sep
    requires forall k :: 0 <= k < |ts| ==> Clean(ts[k], sep)
    ensures Tokens(Joined(ts, join), sep) == ts
  {
    hide Tokens, Joined, Clean;
    JoinedFew(ts, join, sep);
    if |ts| == 1 {
      FirstToken(ts[0], [], sep);
    } else if |ts| > 1 {
      var rest := Joined(ts[1..], join);
      JoinedFront(ts, join);
      FirstToken(ts[0], join + rest, sep);
      SkipSeparators(join, rest, sep);
      SplitJoined(ts[1..], join, sep);
    }
  }

  /** It does so exactly for parts that are not empty and hold no separator. */
  lemma SplitJoinedIff(ts: seq<string>, join: string, sep: string)
    requires join != [] && forall i :: 0 <= i < |join| ==> join[i] in sep
    ensures Tokens(Joined(ts, join), sep) == ts <==> forall k :: 0 <= k < |ts| ==> Clean(ts[k], sep)
  {
    if Tokens(Joined(ts, join), sep) == ts {
      forall k | 0 <= k < |ts|
        ensures Clean(ts[k], sep)
      {
        TokensAreClean(Joined(ts, join), sep, k);
      }
    } else if forall k :: 0 <= k < |ts| ==> Clean(ts[k], sep) {
      SplitJoined(ts, join, sep);
    }
  }
}

/** How many requests of a stream have their turn, by the bytes that each
    `readFd` delivers: one turn for each time the message callback is called.

    Nothing here looks at the parser. `Count` follows a connection that answers
    one request per turn and may be closed on the way; `Due` is how far one would
    come that is never closed; and `Due` is what the arrivals alone make it. */
module HttpArrivals {
  import opened HttpRoundTrip
  import opened NetBuffer

  /** What one `readFd` finds on the socket. */
  type Script = seq<Arrival>

  function Received(scripts: seq<Script>): string {
    if scripts == [] then "" else Received(scripts[..|scripts| - 1]) + Delivered(scripts[|scripts| - 1])
  }

  /** `handleRead` hands the buffer to the message callback. */
  predicate Calls(script: Script) {
    EndOf(script).Again? && Delivered(script) != ""
  }

  /** `handleRead` closes, whatever the same `readFd` has delivered before. */
  predicate Closes(script: Script) {
    EndOf(script).Closed?
  }

  lemma {:induction false} SomeBytes(s: Script)
    ensures Bytes(s) != "" <==> exists i :: 0 <= i < |s| && s[i].Data? && s[i].bytes != ""
    decreases |s|
  {
    if s != [] {
      SomeBytes(s[1..]);
      if i :| 0 <= i < |s[1..]| && s[1..][i].Data? && s[1..][i].bytes != "" {
        assert s[i + 1].Data? && s[i + 1].bytes != "";
      }
      if i :| 0 < i < |s| && s[i].Data? && s[i].bytes != "" {
        assert s[1..][i - 1].Data? && s[1..][i - 1].bytes != "";
      }
    }
  }

  /** The callback is called exactly when bytes come and the read then finds the
      socket empty; the connection is closed exactly when the read finds its end. */
  lemma TurnsIff(script: Script)
    ensures var k := Stop(script);
            && (Calls(script) <==>
                && (k == |script| || script[k].WouldBlock?)
                && exists i :: 0 <= i < k && script[i].Data? && script[i].bytes != "")
            && (Closes(script) <==> k < |script| && script[k].PeerClosed?)
  {
    var k := Stop(script);
    ScriptMeans(script);
    SomeBytes(script[..k]);
    hide Bytes, Stop, EndOf, Delivered;
    if i :| 0 <= i < k && script[i].Data? && script[i].bytes != "" {
      assert script[..k][i].Data? && script[..k][i].bytes != "";
    }
    if i :| 0 <= i < |script[..k]| && script[..k][i].Data? && script[..k][i].bytes != "" {
      assert script[i].Data? && script[i].bytes != "";
    }
  }

  function CallCount(scripts: seq<Script>): nat {
    if scripts == [] then 0
    else CallCount(scripts[..|scripts| - 1]) + if Calls(scripts[|scripts| - 1]) then 1 else 0
  }

  /** Where the request `n` begins. */
  function Offset(rs: seq<Request>, n: nat): nat
    requires n <= |rs|
  {
    |RenderAll(rs[..n])|
  }

  /** All of request `n` is among the first `t` bytes. */
  predicate Whole(rs: seq<Request>, n: nat, t: nat) {
    n < |rs| && Offset(rs, n + 1) <= t
  }

  /** The first `t` bytes end inside the method or the version of request `n`. */
  predicate Judged(rs: seq<Request>, n: nat, t: nat) {
    n < |rs| && Offset(rs, n) <= t < Offset(rs, n + 1) && JudgedCut(rs[n], t - Offset(rs, n))
  }

  // ---------------------------------------------------------------- counting turns

  /** Requests handled, and whether the connection is still up. */
  datatype Tally = Tally(n: nat, up: bool)

  /** `stays(n)`: the connection is kept after request `n`. */
  function Turn(rs: seq<Request>, stays: nat -> bool, y: Tally, script: Script, t: nat): Tally {
    if !y.up || (!Calls(script) && !Closes(script)) then y
    else if Closes(script) then y.(up := false)
    else if Whole(rs, y.n, t) then Tally(y.n + 1, stays(y.n))
    else y.(up := !Judged(rs, y.n, t))
  }

  function Count(rs: seq<Request>, stays: nat -> bool, scripts: seq<Script>): Tally {
    if scripts == [] then Tally(0, true)
    else
      var n := |scripts| - 1;
      Turn(rs, stays, Count(rs, stays, scripts[..n]), scripts[n], |Received(scripts)|)
  }

  function Due(rs: seq<Request>, scripts: seq<Script>): (d: nat)
    ensures d <= |rs|
  {
    if scripts == [] then 0
    else
      var n := |scripts| - 1;
      var before := Due(rs, scripts[..n]);
      if Calls(scripts[n]) && Whole(rs, before, |Received(scripts)|) then before + 1 else before
  }

  /** Arrival `i` ends a connection that has kept up so far. */
  predicate Halts(rs: seq<Request>, scripts: seq<Script>, i: nat)
    requires i < |scripts|
  {
    || Closes(scripts[i])
    || (Calls(scripts[i]) && Judged(rs, Due(rs, scripts[..i]), |Received(scripts[..i + 1])|))
  }

  ghost predicate Smooth(rs: seq<Request>, scripts: seq<Script>) {
    forall i :: 0 <= i < |scripts| ==> !Halts(rs, scripts, i)
  }

  /** No arrival halts before the last request has had its turn. */
  ghost predicate SmoothWhileDue(rs: seq<Request>, scripts: seq<Script>) {
    forall i :: 0 <= i < |scripts| && Due(rs, scripts[..i]) < |rs| ==> !Halts(rs, scripts, i)
  }

  predicate AllStay(stays: nat -> bool, n: int) {
    forall k :: 0 <= k < n ==> stays(k)
  }

  lemma JudgedIsPart(rs: seq<Request>, n: nat, t: nat)
    requires Judged(rs, n, t)
    ensures !Whole(rs, n, t)
  {
  }

  lemma {:induction false} RenderSplit(rs: seq<Request>, n: nat)
    requires n <= |rs|
    ensures RenderAll(rs) == RenderAll(rs[..n]) + RenderAll(rs[n..])
    decreases n
  {
    if n > 0 {
      RenderSplit(rs[1..], n - 1);
      assert rs[1..][..n - 1] == rs[..n][1..];
      assert rs[1..][n - 1..] == rs[n..];
    }
  }

  lemma RenderSnoc(rs: seq<Request>, n: nat)
    requires n < |rs|
    ensures RenderAll(rs[..n + 1]) == RenderAll(rs[..n]) + Render(rs[n])
  {
    RenderSplit(rs[..n + 1], n);
    assert rs[..n + 1][..n] == rs[..n] && rs[..n + 1][n..] == [rs[n]];
    assert RenderAll([rs[n]]) == Render(rs[n]) + RenderAll([]);
  }

  lemma OffsetNext(rs: seq<Request>, n: nat)
    requires n < |rs|
    ensures Offset(rs, n + 1) == Offset(rs, n) + |Render(rs[n])|
    ensures |RequestLine(rs[n])| + 2 <= |Render(rs[n])|
  {
    RenderSnoc(rs, n);
  }

  lemma SmoothSnoc(rs: seq<Request>, scripts: seq<Script>)
    requires scripts != []
    ensures var n := |scripts| - 1;
            Smooth(rs, scripts) <==> Smooth(rs, scripts[..n]) && !Halts(rs, scripts, n)
    ensures var n := |scripts| - 1;
            SmoothWhileDue(rs, scripts) <==>
            SmoothWhileDue(rs, scripts[..n]) && (Due(rs, scripts[..n]) < |rs| ==> !Halts(rs, scripts, n))
  {
    var n := |scripts| - 1;
    hide Due, Halts;
    forall i | 0 <= i < n
      ensures Halts(rs, scripts[..n], i) <==> Halts(rs, scripts, i)
      ensures Due(rs, scripts[..n][..i]) == Due(rs, scripts[..i])
    {
      HaltsPrefix(rs, scripts, n, i);
    }
  }

  lemma HaltsPrefix(rs: seq<Request>, scripts: seq<Script>, n: nat, i: nat)
    requires i < n <= |scripts|
    ensures Halts(rs, scripts[..n], i) <==> Halts(rs, scripts, i)
    ensures scripts[..n][..i] == scripts[..i]
  {
    hide Due, Closes, Calls, Judged, Received;
    assert scripts[..n][..i] == scripts[..i] && scripts[..n][..i + 1] == scripts[..i + 1];
  }

  /** The connection is up exactly when no arrival has halted it and every
      request that was due has left it open; and then all that is due is done. */
  lemma {:induction false} UpIff(rs: seq<Request>, stays: nat -> bool, scripts: seq<Script>)
    ensures var y := Count(rs, stays, scripts);
            && (y.up <==> Smooth(rs, scripts) && AllStay(stays, Due(rs, scripts)))
            && (y.up ==> y.n == Due(rs, scripts))
            && y.n <= Due(rs, scripts) <= |rs|
    decreases |scripts|
  {
    if scripts != [] {
      var n := |scripts| - 1;
      hide Whole, Judged, Calls, Closes, Received, Smooth, AllStay;
      StaySnoc(stays, Due(rs, scripts[..n]));
      UpIff(rs, stays, scripts[..n]);
      SmoothSnoc(rs, scripts);
      assert scripts[..n + 1] == scripts;
      var d, t := Due(rs, scripts[..n]), |Received(scripts)|;
      WholeIsNext(rs, d, t);
      NotBoth(scripts[n]);
      if Judged(rs, d, t) {
        JudgedIsPart(rs, d, t);
      }
    }
  }

  lemma StaySnoc(stays: nat -> bool, n: nat)
    ensures AllStay(stays, n + 1) <==> AllStay(stays, n) && stays(n)
  {
  }

  lemma WholeIsNext(rs: seq<Request>, n: nat, t: nat)
    ensures Whole(rs, n, t) ==> n < |rs|
  {
  }

  lemma NotBoth(script: Script)
    ensures !(Calls(script) && Closes(script))
  {
  }

  /** Every request has had its turn exactly when: every one but the last left
      the connection open, no arrival halted it before the end, and the turns
      were enough. */
  lemma {:induction false} AllDoneIff(rs: seq<Request>, stays: nat -> bool, scripts: seq<Script>)
    ensures Count(rs, stays, scripts).n == |rs| <==>
            && AllStay(stays, |rs| - 1) && SmoothWhileDue(rs, scripts) && Due(rs, scripts) == |rs|
    decreases |scripts|
  {
    if scripts != [] {
      var n := |scripts| - 1;
      UpIff(rs, stays, scripts);
      UpIff(rs, stays, scripts[..n]);
      AllDoneIff(rs, stays, scripts[..n]);
      SmoothSnoc(rs, scripts);
      var d, t := Due(rs, scripts[..n]), |Received(scripts)|;
      WholeIsNext(rs, d, t);
      NotBoth(scripts[n]);
      if Judged(rs, d, t) {
        JudgedIsPart(rs, d, t);
      }
      SmoothBoth(rs, scripts[..n]);
      assert scripts[..n + 1] == scripts;
      hide Whole, Judged, Calls, Closes, Received, Smooth, SmoothWhileDue;
    }
  }

  /** As long as something is due the two say the same. */
  lemma {:induction false} SmoothBoth(rs: seq<Request>, scripts: seq<Script>)
    ensures Due(rs, scripts) < |rs| ==> (Smooth(rs, scripts) <==> SmoothWhileDue(rs, scripts))
    decreases |scripts|
  {
    if scripts != [] {
      hide Whole, Judged, Calls, Closes, Received, Smooth, SmoothWhileDue;
      SmoothBoth(rs, scripts[..|scripts| - 1]);
      SmoothSnoc(rs, scripts);
    }
  }

  /** Nothing is handled behind a request after which the connection goes. */
  lemma {:induction false} NothingAfter(rs: seq<Request>, stays: nat -> bool, scripts: seq<Script>, k: nat)
    requires !stays(k)
    ensures Count(rs, stays, scripts).n <= k + 1
    ensures Count(rs, stays, scripts).n == k + 1 ==> !Count(rs, stays, scripts).up
    decreases |scripts|
  {
    hide Whole, Judged, Calls, Closes, Received;
    if scripts != [] {
      NothingAfter(rs, stays, scripts[..|scripts| - 1], k);
    }
  }

  // ---------------------------------------------------------------- what is due, in closed form

  /** How many requests are wholly among the first `t` bytes. */
  function Complete(rs: seq<Request>, t: nat): (k: nat)
    ensures k <= |rs|
  {
    if rs == [] || t < |Render(rs[0])| then 0 else 1 + Complete(rs[1..], t - |Render(rs[0])|)
  }

  lemma {:induction false} CompleteIs(rs: seq<Request>, t: nat, k: nat)
    requires k <= |rs|
    ensures k <= Complete(rs, t) <==> Offset(rs, k) <= t
    decreases |rs|
  {
    hide Render;
    if k == 0 {
      assert rs[..0] == [];
    } else {
      assert rs[..k][0] == rs[0] && rs[..k][1..] == rs[1..][..k - 1];
      if |Render(rs[0])| <= t {
        CompleteIs(rs[1..], t - |Render(rs[0])|, k - 1);
      }
    }
  }

  lemma CompleteMonotone(rs: seq<Request>, t: nat, u: nat)
    requires t <= u
    ensures Complete(rs, t) <= Complete(rs, u)
  {
    hide Complete, Offset;
    CompleteIs(rs, t, Complete(rs, t));
    CompleteIs(rs, u, Complete(rs, t));
  }

  lemma WholeIff(rs: seq<Request>, n: nat, t: nat)
    ensures Whole(rs, n, t) <==> n < Complete(rs, t)
  {
    hide Complete, Offset;
    if n < |rs| {
      CompleteIs(rs, t, n + 1);
    }
  }

  /** The requests wholly received after `j` arrivals. */
  function In(rs: seq<Request>, scripts: seq<Script>, j: nat): nat
    requires j <= |scripts|
  {
    Complete(rs, |Received(scripts[..j])|)
  }

  lemma InGrows(rs: seq<Request>, scripts: seq<Script>)
    requires scripts != []
    ensures In(rs, scripts, |scripts| - 1) <= In(rs, scripts, |scripts|)
  {
    hide Complete;
    assert scripts[..|scripts|] == scripts;
    CompleteMonotone(rs, |Received(scripts[..|scripts| - 1])|, |Received(scripts)|);
  }

  lemma InPrefix(rs: seq<Request>, scripts: seq<Script>, j: nat)
    requires j < |scripts|
    ensures In(rs, scripts[..|scripts| - 1], j) == In(rs, scripts, j)
    ensures scripts[j..][..|scripts[j..]| - 1] == scripts[..|scripts| - 1][j..]
    ensures CallCount(scripts[j..]) ==
            CallCount(scripts[..|scripts| - 1][j..]) + if Calls(scripts[|scripts| - 1]) then 1 else 0
  {
    hide Calls, Complete;
    assert scripts[..|scripts| - 1][..j] == scripts[..j];
    assert scripts[j..][..|scripts[j..]| - 1] == scripts[..|scripts| - 1][j..];
  }

  lemma DueStep(rs: seq<Request>, scripts: seq<Script>)
    requires scripts != []
    ensures var n := |scripts| - 1;
            var before := Due(rs, scripts[..n]);
            Due(rs, scripts) == if Calls(scripts[n]) && before < In(rs, scripts, |scripts|) then before + 1 else before
  {
    hide Whole, Complete, Calls, Received;
    assert scripts[..|scripts|] == scripts;
    WholeIff(rs, Due(rs, scripts[..|scripts| - 1]), |Received(scripts)|);
  }

  /** What is due is never more than what had come in at some moment and the
      turns since. */
  lemma {:induction false} DueAtMost(rs: seq<Request>, scripts: seq<Script>, j: nat)
    requires j <= |scripts|
    ensures Due(rs, scripts) <= In(rs, scripts, j) + CallCount(scripts[j..])
    decreases |scripts|
  {
    hide In, Due, Calls, CallCount;
    if scripts == [] {
      NothingDue(rs);
    } else {
      var n := |scripts| - 1;
      DueStep(rs, scripts);
      if j == |scripts| {
        DueAtMost(rs, scripts[..n], n);
        InLast(rs, scripts);
        InGrows(rs, scripts);
      } else {
        DueAtMost(rs, scripts[..n], j);
        InPrefix(rs, scripts, j);
      }
    }
  }

  lemma NothingDue(rs: seq<Request>)
    ensures Due(rs, []) == 0
  {
  }

  lemma InLast(rs: seq<Request>, scripts: seq<Script>)
    requires scripts != []
    ensures var n := |scripts| - 1;
            In(rs, scripts[..n], n) == In(rs, scripts, n) && CallCount(scripts[..n][n..]) == 0
  {
    hide Complete;
    var n := |scripts| - 1;
    assert scripts[..n][..n] == scripts[..n] && scripts[..n][n..] == [];
  }

  /** And at some moment it is exactly that. */
  lemma {:induction false} DueReached(rs: seq<Request>, scripts: seq<Script>) returns (j: nat)
    ensures j <= |scripts| && Due(rs, scripts) == In(rs, scripts, j) + CallCount(scripts[j..])
    decreases |scripts|
  {
    hide In, Due, Calls, CallCount;
    if scripts == [] {
      j := 0;
      NothingDue(rs);
      NothingIn(rs);
    } else {
      var n := |scripts| - 1;
      DueStep(rs, scripts);
      DueAtMost(rs, scripts, |scripts|);
      if Calls(scripts[n]) && Due(rs, scripts) == Due(rs, scripts[..n]) {
        j := |scripts|;
        NoCalls(scripts[j..]);
      } else {
        j := DueReached(rs, scripts[..n]);
        InPrefix(rs, scripts, j);
      }
    }
  }

  lemma NothingIn(rs: seq<Request>)
    ensures In(rs, [], 0) == 0 && CallCount([]) == 0
  {
    hide Render;
    if rs != [] {
      RenderPositive(rs[0]);
    }
  }

  lemma RenderPositive(r: Request)
    ensures 0 < |Render(r)|
  {
  }

  lemma NoCalls(scripts: seq<Script>)
    requires scripts == []
    ensures CallCount(scripts) == 0
  {
  }

  /** All that has come in has had its turn exactly when in no stretch up to now
      more requests were completed than turns were given. */
  lemma CaughtUpIff(rs: seq<Request>, scripts: seq<Script>)
    ensures Due(rs, scripts) == In(rs, scripts, |scripts|) <==>
            forall j :: 0 <= j <= |scripts| ==> In(rs, scripts, |scripts|) <= In(rs, scripts, j) + CallCount(scripts[j..])
  {
    hide In, Due, CallCount;
    var m := |scripts|;
    forall j | 0 <= j <= m ensures Due(rs, scripts) <= In(rs, scripts, j) + CallCount(scripts[j..]) {
      DueAtMost(rs, scripts, j);
    }
    NoCalls(scripts[m..]);
    var j := DueReached(rs, scripts);
    assert Due(rs, scripts) <= In(rs, scripts, m) + CallCount(scripts[m..]);
  }
}

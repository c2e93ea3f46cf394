/** The 401 ladder while heartbeats, progress reports and uploads of other goroutines ask the same token source for
    bearer tokens between its rungs (internal/runtime/scheduler.go, internal/sync/client.go). */
module ContendedLadder {
  import opened Collections
  import opened Auth
  import opened ClaimLadder

  /** BearerToken calls of other goroutines, one after the other: each holds the mutex for its whole length. */
  function Others(s: Tokens, calls: seq<World>): Tokens
    decreases |calls|
  {
    if calls == [] then s else Others(Bearer(s, calls[0]).after, calls[1..])
  }

  /** The calls that fall before Invalidate, before the second claim, before ForceRefresh and before the third claim. */
  datatype Between = Between(reload: seq<World>, second: seq<World>, force: seq<World>, third: seq<World>)

  function Contended(s: Tokens, o: Between, c1: ClaimWorld, c2: ClaimWorld, f: World, c3: ClaimWorld): Ladder {
    var r1 := Claim(s, c1);
    if r1.outcome != Unauthorized then r1
    else
      var r2 := Claim(Others(Forget(Others(r1.after, o.reload)), o.second), c2);
      if r2.outcome != Unauthorized then r2.(trace := r1.trace + r2.trace)
      else
        var r3 := Force(Others(r2.after, o.force), f);
        var upToHere := r1.trace + r2.trace + Refreshes(r3.sent, f, true);
        match r3.token
        case NoToken(error) => Ladder(r3.after, if error.RefreshRejected? then Unauthorized else Failed, upToHere)
        case Jwt(_) =>
          var r4 := Claim(Others(r3.after, o.third), c3);
          r4.(trace := upToHere + r4.trace)
  }

  /** Alone, it is the ladder of ClaimLadder. */
  lemma AloneItIsTheLadder(s: Tokens, c1: ClaimWorld, c2: ClaimWorld, f: World, c3: ClaimWorld)
    ensures Contended(s, Between([], [], [], []), c1, c2, f, c3) == ClaimWithReauth(s, true, c1, c2, f, c3)
  {
  }

  /** The same calls as a sequence. */
  function Bearers(calls: seq<World>): seq<Call> {
    seq(|calls|, i requires 0 <= i < |calls| => BearerCall(calls[i]))
  }

  lemma {:induction false} OthersAreBearers(s: Tokens, calls: seq<World>)
    ensures Others(s, calls) == AfterCalls(s, Bearers(calls))
    decreases |calls|
  {
    if calls == [] {
    } else {
      OthersAreBearers(Bearer(s, calls[0]).after, calls[1..]);
      assert Bearers(calls)[1..] == Bearers(calls[1..]);
    }
  }

  lemma {:induction false} OneCall(s: Tokens, c: Call)
    ensures AfterCalls(s, [c]) == Auth.Apply(s, c)
  {
    assert [c][1..] == [];
  }

  /** One rung: the others' calls, then the ladder's own. */
  lemma {:induction false} RungIsItsCalls(s: Tokens, before: seq<World>, own: Call)
    ensures AfterCalls(s, Bearers(before) + [own]) == Auth.Apply(Others(s, before), own)
  {
    OthersAreBearers(s, before);
    AfterCallsAppend(s, Bearers(before), [own]);
    OneCall(AfterCalls(s, Bearers(before)), own);
  }

  /** What a ladder that gets to its third claim does to the token source is exactly the sequence of the calls made: its
      own and, where they fall, everybody else's. */
  lemma FullLadderIsItsCalls(s: Tokens, o: Between, c1: ClaimWorld, c2: ClaimWorld, f: World, c3: ClaimWorld)
    requires Claim(s, c1).outcome.Unauthorized?
    requires var s2 := AfterCalls(Claim(s, c1).after, Bearers(o.reload) + [InvalidateCall]);
             var r2 := Claim(AfterCalls(s2, Bearers(o.second)), c2);
             r2.outcome.Unauthorized? && Force(AfterCalls(r2.after, Bearers(o.force)), f).token.Jwt?
    ensures var rungs := (Bearers(o.reload) + [InvalidateCall]) + (Bearers(o.second) + [BearerCall(c2.world)])
                         + (Bearers(o.force) + [ForceCall(f)]) + (Bearers(o.third) + [BearerCall(c3.world)]);
            Contended(s, o, c1, c2, f, c3).after == AfterCalls(Bearer(s, c1.world).after, rungs)
  {
    var a := Bearers(o.reload) + [InvalidateCall];
    var b := Bearers(o.second) + [BearerCall(c2.world)];
    var c := Bearers(o.force) + [ForceCall(f)];
    var d := Bearers(o.third) + [BearerCall(c3.world)];
    var s1 := Bearer(s, c1.world).after;
    RungIsItsCalls(s1, o.reload, InvalidateCall);
    var s2 := AfterCalls(s1, a);
    OthersAreBearers(s2, o.second);
    RungIsItsCalls(s2, o.second, BearerCall(c2.world));
    var s3 := AfterCalls(s2, b);
    OthersAreBearers(s3, o.force);
    RungIsItsCalls(s3, o.force, ForceCall(f));
    var s4 := AfterCalls(s3, c);
    RungIsItsCalls(s4, o.third, BearerCall(c3.world));
    AfterCallsAppend(s1, a, b);
    AfterCallsAppend(s1, a + b, c);
    AfterCallsAppend(s1, a + b + c, d);
  }

  // ---------- where credentials come from ----------

  /** Session and refresh token are those of bundle b, or were issued together by the cloud in one of the calls. */
  ghost predicate Descends(session: nat, refresh: nat, b: Bundle, calls: seq<World>) {
    || (session == b.session && refresh == b.refresh)
    || (exists w :: w in calls && w.reply.Rotated? && w.reply.session == session && w.reply.refresh == refresh)
  }

  ghost predicate IsSessionOf(session: nat, b: Bundle, calls: seq<World>) {
    exists refresh :: Descends(session, refresh, b, calls)
  }

  ghost predicate IsRefreshOf(refresh: nat, b: Bundle, calls: seq<World>) {
    exists session :: Descends(session, refresh, b, calls)
  }

  /** Everything the token source holds descends from b. */
  ghost predicate AllFrom(s: Tokens, b: Bundle, calls: seq<World>) {
    && (s.cache.Some? ==> Descends(s.cache.value.session, s.cache.value.refresh, b, calls))
    && (s.keystore.Some? ==> Descends(s.keystore.value.session, s.keystore.value.refresh, b, calls))
  }

  lemma AllFromStep(s: Tokens, b: Bundle, calls: seq<World>, w: World, forced: bool)
    requires AllFrom(s, b, calls)
    ensures var r := if forced then Force(s, w) else Bearer(s, w);
            && AllFrom(r.after, b, calls + [w])
            && (r.token.Jwt? ==> IsSessionOf(r.token.session, b, calls + [w]))
            && (r.sent.Some? ==> IsRefreshOf(r.sent.value, b, calls))
  {
    forall session, refresh | Descends(session, refresh, b, calls) ensures Descends(session, refresh, b, calls + [w]) {
    }
    if w.reply.Rotated? {
      assert w in calls + [w];
      assert Descends(w.reply.session, w.reply.refresh, b, calls + [w]);
    }
  }

  lemma {:induction false} AllFromOthers(s: Tokens, b: Bundle, calls: seq<World>, more: seq<World>)
    requires AllFrom(s, b, calls)
    ensures AllFrom(Others(s, more), b, calls + more)
    decreases |more|
  {
    if more == [] {
      assert calls + more == calls;
    } else {
      AllFromStep(s, b, calls, more[0], false);
      AllFromOthers(Bearer(s, more[0]).after, b, calls + [more[0]], more[1..]);
      assert calls + [more[0]] + more[1..] == calls + more;
    }
  }

  /** With nothing stored and nothing cached, token calls find and leave nothing. */
  lemma {:induction false} NothingStaysNothing(calls: seq<World>)
    ensures Others(Tokens(None, None), calls) == Tokens(None, None)
    decreases |calls|
  {
    if calls == [] {
    } else {
      NothingStaysNothing(calls[1..]);
    }
  }

  /** Every request carries credentials that descend from b. */
  ghost predicate TrafficFrom(t: seq<Request>, b: Bundle, calls: seq<World>) {
    && (forall i :: 0 <= i < |t| && t[i].ClaimSent? ==> IsSessionOf(t[i].session, b, calls))
    && (forall i :: 0 <= i < |t| && t[i].RefreshSent? ==> IsRefreshOf(t[i].token, b, calls))
  }

  lemma ClaimFrom(s: Tokens, b: Bundle, calls: seq<World>, c: ClaimWorld)
    requires AllFrom(s, b, calls)
    ensures AllFrom(Claim(s, c).after, b, calls + [c.world])
    ensures TrafficFrom(Claim(s, c).trace, b, calls + [c.world])
  {
    AllFromStep(s, b, calls, c.world, false);
    RefreshesGrow(b, calls, c.world);
  }

  lemma RefreshesGrow(b: Bundle, calls: seq<World>, w: World)
    ensures forall refresh :: IsRefreshOf(refresh, b, calls) ==> IsRefreshOf(refresh, b, calls + [w])
  {
    forall refresh | IsRefreshOf(refresh, b, calls) ensures IsRefreshOf(refresh, b, calls + [w]) {
      var session :| Descends(session, refresh, b, calls);
      assert Descends(session, refresh, b, calls + [w]);
    }
  }

  // ---------- bounds, parking, pickup ----------

  /** The stored bundle when the cache is dropped. */
  function StoredWhenDropped(s: Tokens, o: Between, c1: ClaimWorld): Option<Bundle> {
    Others(Claim(s, c1).after, o.reload).keystore
  }

  /** All the token calls from the drop of the cache to the second claim, and to the forced refresh. */
  function UntilSecond(o: Between, c2: ClaimWorld): seq<World> {
    o.second + [c2.world]
  }

  function UntilForce(o: Between, c2: ClaimWorld): seq<World> {
    UntilSecond(o, c2) + o.force
  }

  lemma ContendedTellsTheAnswer(s: Tokens, o: Between, c1: ClaimWorld, c2: ClaimWorld, f: World, c3: ClaimWorld)
    ensures var l := Contended(s, o, c1, c2, f, c3); OutcomeTellsTheAnswer(l.outcome, l.trace)
  {
    var r1 := Claim(s, c1);
    ClaimTellsTheAnswer(s, c1);
    if r1.outcome.Unauthorized? {
      var s2 := Others(Forget(Others(r1.after, o.reload)), o.second);
      var r2 := Claim(s2, c2);
      ClaimTellsTheAnswer(s2, c2);
      AnswerAfter(r1.trace, r2.outcome, r2.trace);
      if r2.outcome.Unauthorized? {
        var r3 := Force(Others(r2.after, o.force), f);
        var before := r1.trace + r2.trace + Refreshes(r3.sent, f, true);
        ClaimTellsTheAnswer(Others(r3.after, o.third), c3);
        var r4 := Claim(Others(r3.after, o.third), c3);
        AnswerAfter(before, r4.outcome, r4.trace);
      }
    }
  }

  /** Whatever token calls fall between its rungs, the ladder keeps its bounds and parks exactly after two 401 claims
      followed by a rejected refresh token or a third 401; and the second claim, like the forced refresh, is made with
      credentials that descend from the bundle stored when the cache was dropped.  With nothing stored, nothing is sent
      after the first claim. */
  lemma ContendedLadderParksSoundly(s: Tokens, o: Between, c1: ClaimWorld, c2: ClaimWorld, f: World, c3: ClaimWorld)
    returns (first: seq<Request>, second: seq<Request>, forced: seq<Request>, third: seq<Request>)
    ensures Contended(s, o, c1, c2, f, c3).trace == first + second + forced + third
    ensures IsClaimTraffic(first) && IsClaimTraffic(second) && IsClaimTraffic(third)
    ensures second != [] || forced != [] || third != [] ==> Denied(first) && StoredWhenDropped(s, o, c1).Some?
    ensures second != [] ==> TrafficFrom(second, StoredWhenDropped(s, o, c1).value, UntilSecond(o, c2))
    ensures forced != [] || third != [] ==> Denied(second)
    ensures |forced| <= 1 && (forced != [] ==> forced[0].RefreshSent? && forced[0].forced)
    ensures forced != [] ==> IsRefreshOf(forced[0].token, StoredWhenDropped(s, o, c1).value, UntilForce(o, c2))
    ensures third != [] ==> forced != [] && forced[0].accepted
    ensures Contended(s, o, c1, c2, f, c3).outcome.Unauthorized? <==>
              Denied(first) && Denied(second) && (Denied(third) || (forced != [] && forced[0].rejected))
    ensures var l := Contended(s, o, c1, c2, f, c3); OutcomeTellsTheAnswer(l.outcome, l.trace)
  {
    ContendedTellsTheAnswer(s, o, c1, c2, f, c3);
    var r1 := Claim(s, c1);
    ClaimIsClaimTraffic(s, c1);
    first, second, forced, third := r1.trace, [], [], [];
    if r1.outcome.Unauthorized? {
      var s1 := Forget(Others(r1.after, o.reload));
      var s2 := Others(s1, o.second);
      var r2 := Claim(s2, c2);
      ClaimIsClaimTraffic(s2, c2);
      second := r2.trace;
      if s1.keystore.None? {
        NothingStaysNothing(o.second);
      } else {
        var b := s1.keystore.value;
        AllFromOthers(s1, b, [], o.second);
        assert [] + o.second == o.second;
        ClaimFrom(s2, b, o.second, c2);
        if r2.outcome.Unauthorized? {
          AllFromOthers(r2.after, b, UntilSecond(o, c2), o.force);
          var s3 := Others(r2.after, o.force);
          AllFromStep(s3, b, UntilForce(o, c2), f, true);
          var r3 := Force(s3, f);
          forced := Refreshes(r3.sent, f, true);
          if r3.token.Jwt? {
            ClaimIsClaimTraffic(Others(r3.after, o.third), c3);
            third := Claim(Others(r3.after, o.third), c3).trace;
          }
        }
      }
    }
  }

  lemma {:induction false} OthersStayDropped(s: Tokens, calls: seq<World>, token: nat)
    requires Dropped(s, token) && forall w :: w in calls ==> NeverIssues(w, token)
    ensures Dropped(Others(s, calls), token)
    decreases |calls|
  {
    if calls == [] {
    } else {
      DroppedStaysDropped(s, calls[0], token, false);
      OthersStayDropped(Bearer(s, calls[0]).after, calls[1..], token);
    }
  }

  /** Calls whose refreshes the cloud refuses leave the keystore alone. */
  lemma {:induction false} RefusedCallsKeepKeystore(s: Tokens, calls: seq<World>)
    requires forall w :: w in calls ==> !w.reply.Rotated?
    ensures Others(s, calls).keystore == s.keystore
    decreases |calls|
  {
    if calls == [] {
    } else {
      RefusedCallsKeepKeystore(Bearer(s, calls[0]).after, calls[1..]);
    }
  }

  /** The world never hands the token out, in any call after the cache is dropped. */
  ghost predicate NeverIssued(o: Between, c2: ClaimWorld, f: World, c3: ClaimWorld, token: nat) {
    && (forall w :: w in o.second + o.force + o.third ==> NeverIssues(w, token))
    && NeverIssues(c2.world, token) && NeverIssues(f, token) && NeverIssues(c3.world, token)
  }

  /** Re-pair pickup under contention: while the cloud refuses the revoked bundle, other goroutines' calls cannot undo
      the pickup.  The cache is reloaded from the newly stored bundle, so by the previous lemma the second claim is made
      with credentials descending from it; the ladder never sends the revoked refresh token, and in the end neither
      cache nor keystore holds it. */
  lemma RePairIsPickedUpUnderContention(
    s: Tokens, o: Between, c1: ClaimWorld, c2: ClaimWorld, f: World, c3: ClaimWorld)
    requires s.cache.Some? && Fresh(s.cache.value, c1.world.now) && c1.status.Http401?
    requires s.keystore.Some? && s.keystore.value.refresh != s.cache.value.refresh
    requires forall w :: w in o.reload ==> !w.reply.Rotated?
    requires NeverIssued(o, c2, f, c3, s.cache.value.refresh)
    ensures StoredWhenDropped(s, o, c1) == s.keystore
    ensures var l := Contended(s, o, c1, c2, f, c3);
            Dropped(l.after, s.cache.value.refresh) && !SendsRefresh(l.trace, s.cache.value.refresh)
  {
    var token, r1 := s.cache.value.refresh, Claim(s, c1);
    assert r1.trace == [ClaimSent(s.cache.value.session, Http401)] && r1.after == s;
    RefusedCallsKeepKeystore(s, o.reload);
    var s1 := Forget(Others(s, o.reload));
    OthersStayDropped(s1, o.second, token);
    var s2 := Others(s1, o.second);
    ClaimDropped(s2, c2, token);
    var r2 := Claim(s2, c2);
    SendsAppend(r1.trace, r2.trace, token);
    if r2.outcome.Unauthorized? {
      OthersStayDropped(r2.after, o.force, token);
      AfterSecond(Others(r2.after, o.force), o, f, c3, r1.trace + r2.trace, token);
    }
  }

  /** The forced refresh and the third claim do not bring the token back. */
  lemma AfterSecond(s: Tokens, o: Between, f: World, c3: ClaimWorld, before: seq<Request>, token: nat)
    requires Dropped(s, token) && NeverIssues(f, token) && NeverIssues(c3.world, token)
    requires (forall w :: w in o.third ==> NeverIssues(w, token)) && !SendsRefresh(before, token)
    ensures var r3 := Force(s, f); var upToHere := before + Refreshes(r3.sent, f, true);
            var r4 := Claim(Others(r3.after, o.third), c3);
            && Dropped(r3.after, token) && !SendsRefresh(upToHere, token)
            && (r3.token.Jwt? ==> Dropped(r4.after, token) && !SendsRefresh(upToHere + r4.trace, token))
  {
    var r3 := Force(s, f);
    DroppedStaysDropped(s, f, token, true);
    SendsAppend(before, Refreshes(r3.sent, f, true), token);
    OthersStayDropped(r3.after, o.third, token);
    ClaimDropped(Others(r3.after, o.third), c3, token);
    SendsAppend(before + Refreshes(r3.sent, f, true), Claim(Others(r3.after, o.third), c3).trace, token);
  }
}

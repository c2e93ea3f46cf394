/** The bounded 401 recovery of claimWithReauth (internal/runtime/scheduler.go). */
module ClaimLadder {
  import opened Collections
  import opened Auth

  datatype HttpStatus = Work | NoContent | Http401 | OtherStatus

  /** The result classes the tick branches on. Only the sync client's own 401 sentinel is `Unauthorized`;
      a refresh rejected inside BearerToken is an ordinary `Failed`. */
  datatype ClaimOutcome = Won | NoWork | Unauthorized | Failed

  /** The cloud traffic of a ladder, in order. */
  datatype Request =
    | ClaimSent(session: nat, status: HttpStatus)
    | RefreshSent(token: nat, accepted: bool, rejected: bool, forced: bool)

  datatype Ladder = Ladder(after: Tokens, outcome: ClaimOutcome, trace: seq<Request>)

  /** What the environment decides about one claim: the token call and the HTTP answer. */
  datatype ClaimWorld = ClaimWorld(world: World, status: HttpStatus)

  function OutcomeOf(s: HttpStatus): ClaimOutcome {
    match s
    case Work => Won
    case NoContent => NoWork
    case Http401 => Unauthorized
    case OtherStatus => Failed
  }

  function Refreshes(sent: Option<nat>, w: World, forced: bool): seq<Request> {
    if sent.None? then [] else [RefreshSent(sent.value, w.reply.Rotated?, w.reply.Rejected?, forced)]
  }

  /** Cloud.Claim: obtain a bearer token, then one HTTP request. */
  function Claim(s: Tokens, c: ClaimWorld): Ladder {
    var r := Bearer(s, c.world);
    match r.token
    case NoToken(_) => Ladder(r.after, Failed, Refreshes(r.sent, c.world, false))
    case Jwt(session) =>
      Ladder(r.after, OutcomeOf(c.status), Refreshes(r.sent, c.world, false) + [ClaimSent(session, c.status)])
  }

  function ClaimWithReauth(s: Tokens, auth: bool, c1: ClaimWorld, c2: ClaimWorld, f: World, c3: ClaimWorld): Ladder {
    var r1 := Claim(s, c1);
    if r1.outcome != Unauthorized || !auth then r1
    else
      var r2 := Claim(Forget(r1.after), c2);
      if r2.outcome != Unauthorized then r2.(trace := r1.trace + r2.trace)
      else
        var r3 := Force(r2.after, f);
        var upToHere := r1.trace + r2.trace + Refreshes(r3.sent, f, true);
        match r3.token
        case NoToken(error) => Ladder(r3.after, if error.RefreshRejected? then Unauthorized else Failed, upToHere)
        case Jwt(_) =>
          var r4 := Claim(r3.after, c3);
          r4.(trace := upToHere + r4.trace)
  }

  /** The traffic ends in a claim with this answer. */
  predicate EndsIn(t: seq<Request>, status: HttpStatus) {
    t != [] && t[|t| - 1].ClaimSent? && t[|t| - 1].status == status
  }

  /** Work was won exactly when the last thing the cloud saw is a claim it answered with work, and there was none
      exactly when that answer was 204; a last answer of any other kind is a failure. */
  predicate OutcomeTellsTheAnswer(o: ClaimOutcome, t: seq<Request>) {
    && (o.Won? <==> EndsIn(t, Work))
    && (o.NoWork? <==> EndsIn(t, NoContent))
    && (EndsIn(t, OtherStatus) ==> o.Failed?)
  }

  lemma EndsInLast(a: seq<Request>, b: seq<Request>, status: HttpStatus)
    ensures EndsIn(a + b, status) <==> if b == [] then EndsIn(a, status) else EndsIn(b, status)
  {
    if b == [] { assert a + b == a; }
  }

  lemma ClaimTellsTheAnswer(s: Tokens, c: ClaimWorld)
    ensures OutcomeTellsTheAnswer(Claim(s, c).outcome, Claim(s, c).trace)
    ensures Claim(s, c).outcome.Unauthorized? <==> EndsIn(Claim(s, c).trace, Http401)
  {
  }

  /** Requests before the last claim do not matter. */
  lemma AnswerAfter(before: seq<Request>, o: ClaimOutcome, t: seq<Request>)
    requires OutcomeTellsTheAnswer(o, t)
    requires t == [] ==> !EndsIn(before, Work) && !EndsIn(before, NoContent) && !EndsIn(before, OtherStatus)
    ensures OutcomeTellsTheAnswer(o, before + t)
  {
    EndsInLast(before, t, Work);
    EndsInLast(before, t, NoContent);
    EndsInLast(before, t, OtherStatus);
  }

  /** So it is for a claim and for a whole ladder, with or without recovery. */
  lemma LadderTellsTheAnswer(s: Tokens, auth: bool, c1: ClaimWorld, c2: ClaimWorld, f: World, c3: ClaimWorld)
    ensures OutcomeTellsTheAnswer(Claim(s, c1).outcome, Claim(s, c1).trace)
    ensures var l := ClaimWithReauth(s, auth, c1, c2, f, c3); OutcomeTellsTheAnswer(l.outcome, l.trace)
  {
    var r1 := Claim(s, c1);
    ClaimTellsTheAnswer(s, c1);
    if r1.outcome.Unauthorized? && auth {
      var r2 := Claim(Forget(r1.after), c2);
      ClaimTellsTheAnswer(Forget(r1.after), c2);
      AnswerAfter(r1.trace, r2.outcome, r2.trace);
      if r2.outcome.Unauthorized? {
        AfterForce(r1.trace + r2.trace, r2.after, f, c3);
      }
    }
  }

  /** The forced refresh and the third claim, after a second claim answered 401. */
  lemma AfterForce(before: seq<Request>, s: Tokens, f: World, c3: ClaimWorld)
    requires EndsIn(before, Http401)
    ensures var r3 := Force(s, f); var upToHere := before + Refreshes(r3.sent, f, true);
            var r4 := Claim(r3.after, c3);
            && (r3.token.NoToken? ==> forall o: ClaimOutcome ::
                  o.Unauthorized? || o.Failed? ==> OutcomeTellsTheAnswer(o, upToHere))
            && (r3.token.Jwt? ==> OutcomeTellsTheAnswer(r4.outcome, upToHere + r4.trace))
  {
    var r3 := Force(s, f);
    ClaimTellsTheAnswer(r3.after, c3);
    AnswerAfter(before + Refreshes(r3.sent, f, true), Claim(r3.after, c3).outcome, Claim(r3.after, c3).trace);
  }

  method ClaimOnce(src: TokenSource, c: ClaimWorld) returns (r: ClaimOutcome, trace: seq<Request>)
    modifies src, src.store
    ensures Ladder(src.View(), r, trace) == Claim(old(src.View()), c)
    ensures OutcomeTellsTheAnswer(r, trace)
  {
    var t, sent := src.BearerToken(c.world);
    trace := Refreshes(sent, c.world, false);
    if t.NoToken? {
      return Failed, trace;
    }
    trace := trace + [ClaimSent(t.session, c.status)];
    return OutcomeOf(c.status), trace;
  }

  method RunLadder(src: TokenSource, auth: bool, c1: ClaimWorld, c2: ClaimWorld, f: World, c3: ClaimWorld)
    returns (r: ClaimOutcome, trace: seq<Request>)
    modifies src, src.store
    ensures Ladder(src.View(), r, trace) == ClaimWithReauth(old(src.View()), auth, c1, c2, f, c3)
    ensures OutcomeTellsTheAnswer(r, trace)
  {
    LadderTellsTheAnswer(src.View(), auth, c1, c2, f, c3);
    r, trace := ClaimOnce(src, c1);
    if r != Unauthorized || !auth {
      return;
    }
    src.Invalidate();
    var more: seq<Request>;
    r, more := ClaimOnce(src, c2);
    trace := trace + more;
    if r != Unauthorized {
      return;
    }
    var t, sent := src.ForceRefresh(f);
    trace := trace + Refreshes(sent, f, true);
    if t.NoToken? {
      return if t.error.RefreshRejected? then Unauthorized else Failed, trace;
    }
    r, more := ClaimOnce(src, c3);
    trace := trace + more;
  }

  // ---------- bounds and sound parking ----------

  /** The traffic of one Cloud.Claim: at most one ordinary refresh, then at most one claim. */
  predicate IsClaimTraffic(t: seq<Request>) {
    && |t| <= 2
    && (forall i :: 0 <= i < |t| && t[i].RefreshSent? ==> i == 0 && !t[i].forced)
    && (forall i :: 0 <= i < |t| && t[i].ClaimSent? ==> i == |t| - 1)
  }

  /** ... whose claim was answered 401. */
  predicate Denied(t: seq<Request>) {
    t != [] && t[|t| - 1].ClaimSent? && t[|t| - 1].status.Http401?
  }

  lemma ClaimIsClaimTraffic(s: Tokens, c: ClaimWorld)
    ensures IsClaimTraffic(Claim(s, c).trace)
    ensures Claim(s, c).outcome.Unauthorized? <==> Denied(Claim(s, c).trace)
  {
  }

  function IsClaim(): Request -> bool { (q: Request) => q.ClaimSent? }
  function IsRefresh(): Request -> bool { (q: Request) => q.RefreshSent? }
  function IsForced(): Request -> bool { (q: Request) => q.RefreshSent? && q.forced }

  /** The keystore when the cache is reloaded: what the first claim left there. */
  function StoredAtReload(s: Tokens, c1: ClaimWorld): Option<Bundle> {
    Bearer(s, c1.world).after.keystore
  }

  /** A claim made with bundle b: with its session, or with one refreshed from it in the same call; without either,
      no claim is sent. */
  predicate UsesBundle(t: seq<Request>, b: Bundle, c: ClaimWorld) {
    var w := c.world;
    if Fresh(b, w.now) then t == [ClaimSent(b.session, c.status)]
    else if w.reply.Rotated? && w.saveOk
    then t == [RefreshSent(b.refresh, true, false, false), ClaimSent(w.reply.session, c.status)]
    else t == [RefreshSent(b.refresh, w.reply.Rotated?, w.reply.Rejected?, false)]
  }

  /** The refresh token of bundle b after such a claim was sent. */
  function RefreshAfter(b: Bundle, c: ClaimWorld): nat {
    if !Fresh(b, c.world.now) && c.world.reply.Rotated? then c.world.reply.refresh else b.refresh
  }

  /** The second claim reloads the cache from the keystore and uses what it finds there; without a stored bundle
      nothing is sent. */
  predicate SecondReloads(s: Tokens, c1: ClaimWorld, c2: ClaimWorld, second: seq<Request>) {
    var b := StoredAtReload(s, c1);
    if c2.world.loadOk && b.Some? then UsesBundle(second, b.value, c2) else second == []
  }

  lemma ReloadedClaim(s: Tokens, c: ClaimWorld)
    requires s.cache.None?
    ensures var b := s.keystore; var r := Claim(s, c);
            if c.world.loadOk && b.Some?
            then && UsesBundle(r.trace, b.value, c)
                 && r.after.cache.Some? && r.after.cache.value.refresh == RefreshAfter(b.value, c)
            else r.trace == []
  {
  }

  /** A ladder is at most three claims with one forced refresh before the third: hence at most three claims,
      one forced refresh and four refresh round trips.  Each rung is reached only after the previous claim was
      answered 401; the second claim reloads the cache and uses the stored bundle, the forced refresh sends the refresh
      token then cached, and the third claim is made only after it was accepted.  The ladder ends in Unauthorized,
      which parks the scheduler, exactly after two 401 claims followed by a rejected refresh token or a third 401; so
      a park means that the stored credentials were tried. */
  lemma LadderIsBoundedAndParksSoundly(s: Tokens, c1: ClaimWorld, c2: ClaimWorld, f: World, c3: ClaimWorld)
    returns (first: seq<Request>, second: seq<Request>, forced: seq<Request>, third: seq<Request>)
    ensures ClaimWithReauth(s, true, c1, c2, f, c3).trace == first + second + forced + third
    ensures IsClaimTraffic(first) && IsClaimTraffic(second) && IsClaimTraffic(third)
    ensures second != [] || forced != [] || third != [] ==> Denied(first)
    ensures Denied(first) ==> SecondReloads(s, c1, c2, second)
    ensures forced != [] || third != [] ==> Denied(second)
    ensures |forced| <= 1 && (forced != [] ==> forced[0].RefreshSent? && forced[0].forced)
    ensures forced != [] ==>
              StoredAtReload(s, c1).Some? && forced[0].token == RefreshAfter(StoredAtReload(s, c1).value, c2)
    ensures third != [] ==> forced != [] && forced[0].accepted
    ensures ClaimWithReauth(s, true, c1, c2, f, c3).outcome.Unauthorized? <==>
              Denied(first) && Denied(second) && (Denied(third) || (forced != [] && forced[0].rejected))
  {
    var r1 := Claim(s, c1);
    ClaimIsClaimTraffic(s, c1);
    first, second, forced, third := r1.trace, [], [], [];
    if r1.outcome.Unauthorized? {
      var s1 := Forget(r1.after);
      var r2 := Claim(s1, c2);
      ClaimIsClaimTraffic(s1, c2);
      ReloadedClaim(s1, c2);
      second := r2.trace;
      if r2.outcome.Unauthorized? {
        var r3 := Force(r2.after, f);
        forced := Refreshes(r3.sent, f, true);
        if r3.token.Jwt? {
          ClaimIsClaimTraffic(r3.after, c3);
          third := Claim(r3.after, c3).trace;
        }
      }
    }
  }

  lemma {:induction false} ClaimTrafficCounts(t: seq<Request>)
    requires IsClaimTraffic(t)
    ensures Count(t, IsClaim()) <= 1 && Count(t, IsRefresh()) <= 1 && Count(t, IsForced()) == 0
  {
    if |t| == 2 {
      assert t[..1] == [t[0]] && [t[0]][..0] == [];
    } else if |t| == 1 {
      assert t[..0] == [];
    }
  }

  lemma {:induction false} CountFour(
    a: seq<Request>, b: seq<Request>, c: seq<Request>, d: seq<Request>, p: Request -> bool)
    ensures Count(a + b + c + d, p) == Count(a, p) + Count(b, p) + Count(c, p) + Count(d, p)
  {
    CountAppend(a + b + c, d, p);
    CountAppend(a + b, c, p);
    CountAppend(a, b, p);
  }

  /** The same as numbers of requests. */
  lemma LadderBounds(s: Tokens, c1: ClaimWorld, c2: ClaimWorld, f: World, c3: ClaimWorld)
    ensures var trace := ClaimWithReauth(s, true, c1, c2, f, c3).trace;
            Count(trace, IsClaim()) <= 3 && Count(trace, IsForced()) <= 1 && Count(trace, IsRefresh()) <= 4
  {
    var first, second, forced, third := LadderIsBoundedAndParksSoundly(s, c1, c2, f, c3);
    ClaimTrafficCounts(first);
    ClaimTrafficCounts(second);
    ClaimTrafficCounts(third);
    assert forced == [] || (forced == [forced[0]] && forced[..0] == []);
    CountFour(first, second, forced, third, IsClaim());
    CountFour(first, second, forced, third, IsForced());
    CountFour(first, second, forced, third, IsRefresh());
  }

  /** Without recovery (no Auth) a single claim is made and its 401 parks at once. */
  lemma WithoutAuthOneClaim(s: Tokens, c1: ClaimWorld, c2: ClaimWorld, f: World, c3: ClaimWorld)
    ensures IsClaimTraffic(ClaimWithReauth(s, false, c1, c2, f, c3).trace)
    ensures ClaimWithReauth(s, false, c1, c2, f, c3).outcome.Unauthorized? <==>
              Denied(ClaimWithReauth(s, false, c1, c2, f, c3).trace)
  {
    ClaimIsClaimTraffic(s, c1);
  }

  // ---------- re-pair pickup ----------

  predicate SendsRefresh(trace: seq<Request>, token: nat) {
    exists i :: 0 <= i < |trace| && trace[i].RefreshSent? && trace[i].token == token
  }

  /** Neither the cache nor the keystore holds the refresh token. */
  predicate Dropped(s: Tokens, token: nat) {
    (s.cache.Some? ==> s.cache.value.refresh != token) && (s.keystore.Some? ==> s.keystore.value.refresh != token)
  }

  /** The cloud never hands out the token (again). */
  predicate NeverIssues(w: World, token: nat) {
    w.reply.Rotated? ==> w.reply.refresh != token
  }

  lemma DroppedStaysDropped(s: Tokens, w: World, token: nat, forced: bool)
    requires Dropped(s, token) && NeverIssues(w, token)
    ensures var r := if forced then Force(s, w) else Bearer(s, w);
            Dropped(r.after, token) && r.sent != Some(token)
  {
  }

  lemma ClaimDropped(s: Tokens, c: ClaimWorld, token: nat)
    requires Dropped(s, token) && NeverIssues(c.world, token)
    ensures Dropped(Claim(s, c).after, token) && !SendsRefresh(Claim(s, c).trace, token)
  {
    DroppedStaysDropped(s, c.world, token, false);
  }

  /** After a re-pair behind the cache's back the next ladder recovers: its first claim still uses the revoked
      session, its second claim (if the keystore can be read) uses the new bundle's session, or one refreshed from the
      new bundle, and the revoked refresh token is not sent and is gone from cache and keystore. */
  lemma RePairIsPickedUp(s: Tokens, c1: ClaimWorld, c2: ClaimWorld, f: World, c3: ClaimWorld)
    requires s.cache.Some? && Fresh(s.cache.value, c1.world.now) && c1.status.Http401?
    requires s.keystore.Some? && s.keystore.value.refresh != s.cache.value.refresh
    requires NeverIssues(c2.world, s.cache.value.refresh) && NeverIssues(f, s.cache.value.refresh)
    requires NeverIssues(c3.world, s.cache.value.refresh)
    ensures var revoked, bundle := s.cache.value, s.keystore.value;
            var l := ClaimWithReauth(s, true, c1, c2, f, c3);
            && l.trace != [] && l.trace[0] == ClaimSent(revoked.session, Http401)
            && (c2.world.loadOk ==>
                  if Fresh(bundle, c2.world.now)
                  then |l.trace| >= 2 && l.trace[1] == ClaimSent(bundle.session, c2.status)
                  else
                    && |l.trace| >= 2 && l.trace[1].RefreshSent? && l.trace[1].token == bundle.refresh
                    && (c2.world.reply.Rotated? && c2.world.saveOk ==>
                          |l.trace| >= 3 && l.trace[2] == ClaimSent(c2.world.reply.session, c2.status)))
            && Dropped(l.after, revoked.refresh)
            && !SendsRefresh(l.trace, revoked.refresh)
  {
    SecondClaimUsesNewBundle(s, c1, c2, f, c3);
    RevokedIsDropped(s, c1, c2, f, c3);
  }

  /** The trace of a ladder starts with the traffic of its first two claims. */
  lemma SecondRung(s: Tokens, c1: ClaimWorld, c2: ClaimWorld, f: World, c3: ClaimWorld)
    requires Claim(s, c1).outcome.Unauthorized?
    ensures Claim(s, c1).trace + Claim(Forget(Claim(s, c1).after), c2).trace
              <= ClaimWithReauth(s, true, c1, c2, f, c3).trace
  {
  }

  lemma SecondClaimUsesNewBundle(s: Tokens, c1: ClaimWorld, c2: ClaimWorld, f: World, c3: ClaimWorld)
    requires s.cache.Some? && Fresh(s.cache.value, c1.world.now) && c1.status.Http401?
    requires s.keystore.Some?
    ensures var revoked, bundle := s.cache.value, s.keystore.value;
            var l := ClaimWithReauth(s, true, c1, c2, f, c3);
            && l.trace != [] && l.trace[0] == ClaimSent(revoked.session, Http401)
            && (c2.world.loadOk ==>
                  if Fresh(bundle, c2.world.now)
                  then |l.trace| >= 2 && l.trace[1] == ClaimSent(bundle.session, c2.status)
                  else
                    && |l.trace| >= 2 && l.trace[1].RefreshSent? && l.trace[1].token == bundle.refresh
                    && (c2.world.reply.Rotated? && c2.world.saveOk ==>
                          |l.trace| >= 3 && l.trace[2] == ClaimSent(c2.world.reply.session, c2.status)))
  {
    assert Claim(s, c1).trace == [ClaimSent(s.cache.value.session, Http401)];
    SecondRung(s, c1, c2, f, c3);
  }

  lemma RevokedIsDropped(s: Tokens, c1: ClaimWorld, c2: ClaimWorld, f: World, c3: ClaimWorld)
    requires s.cache.Some? && Fresh(s.cache.value, c1.world.now) && c1.status.Http401?
    requires s.keystore.Some? && s.keystore.value.refresh != s.cache.value.refresh
    requires NeverIssues(c2.world, s.cache.value.refresh) && NeverIssues(f, s.cache.value.refresh)
    requires NeverIssues(c3.world, s.cache.value.refresh)
    ensures var l := ClaimWithReauth(s, true, c1, c2, f, c3);
            Dropped(l.after, s.cache.value.refresh) && !SendsRefresh(l.trace, s.cache.value.refresh)
  {
    var token := s.cache.value.refresh;
    var r1 := Claim(s, c1);
    assert r1.trace == [ClaimSent(s.cache.value.session, Http401)];
    var s1 := Forget(r1.after);
    ClaimDropped(s1, c2, token);
    var r2 := Claim(s1, c2);
    SendsAppend(r1.trace, r2.trace, token);
    if r2.outcome.Unauthorized? {
      var r3 := Force(r2.after, f);
      DroppedStaysDropped(r2.after, f, token, true);
      SendsAppend(r1.trace + r2.trace, Refreshes(r3.sent, f, true), token);
      if r3.token.Jwt? {
        ClaimDropped(r3.after, c3, token);
        SendsAppend(r1.trace + r2.trace + Refreshes(r3.sent, f, true), Claim(r3.after, c3).trace, token);
      }
    }
  }

  lemma SendsAppend(a: seq<Request>, b: seq<Request>, token: nat)
    ensures SendsRefresh(a + b, token) ==> SendsRefresh(a, token) || SendsRefresh(b, token)
  {
    if SendsRefresh(a + b, token) {
      var i :| 0 <= i < |a + b| && (a + b)[i].RefreshSent? && (a + b)[i].token == token;
      if i < |a| { assert a[i] == (a + b)[i]; } else { assert b[i - |a|] == (a + b)[i]; }
    }
  }
}

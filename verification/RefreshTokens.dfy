/** Which refresh token goes over the wire, over any sequence of token calls, cache invalidations and
    restarts with failing loads and saves (no pairing in between). */
module RefreshTokens {
  import opened Collections
  import opened Auth
  import opened ClaimLadder
  import opened ContendedLadder

  function ReplyTo(s: Tokens, op: Call): Reply
    requires op.BearerCall? || op.ForceCall?
  {
    if op.BearerCall? then Bearer(s, op.w) else Force(s, op.w)
  }

  predicate IsCall(op: Call) {
    op.BearerCall? || op.ForceCall?
  }

  /** The token an operation sends to the refresh endpoint, if it does. */
  function Sent(s: Tokens, op: Call): Option<nat> {
    if IsCall(op) then ReplyTo(s, op).sent else None
  }

  /** The token the cloud delivers in answer, if it does. */
  function Delivered(s: Tokens, op: Call): Option<nat> {
    if Sent(s, op).Some? && op.w.reply.Rotated? then Some(op.w.reply.refresh) else None
  }

  /** What can be told from the history alone: the newest token delivered, whether saving it failed, whether the
      cache has been dropped since, and every token seen so far. */
  datatype History = History(newest: nat, unsaved: bool, dropped: bool, seen: set<nat>)

  function Record(h: History, s: Tokens, op: Call): History {
    var d := Delivered(s, op);
    if d.Some? then History(d.value, !op.w.saveOk, false, h.seen + {d.value})
    else if IsCall(op) then h
    else h.(dropped := true)
  }

  /** The cloud rotates: every token it delivers is new. */
  predicate Rotates(h: History, s: Tokens, op: Call) {
    Delivered(s, op).Some? ==> Delivered(s, op).value !in h.seen
  }

  /** Saving the newest token failed and the cache was dropped afterwards. */
  predicate Forgotten(h: History) {
    h.unsaved && h.dropped
  }

  predicate Tracks(h: History, s: Tokens) {
    && s.keystore.Some? && s.keystore.value.refresh in h.seen && h.newest in h.seen
    && (h.unsaved <==> s.keystore.value.refresh != h.newest)
    && (s.cache.None? ==> h.dropped)
    && (s.cache.Some? ==> s.cache.value.refresh == if h.dropped then s.keystore.value.refresh else h.newest)
  }

  lemma TracksStep(h: History, s: Tokens, op: Call)
    requires Tracks(h, s) && Rotates(h, s, op)
    ensures Tracks(Record(h, s, op), Apply(s, op))
    ensures Sent(s, op).Some? ==> (Sent(s, op).value == h.newest <==> !Forgotten(h))
  {
  }

  predicate AllRotate(h: History, s: Tokens, ops: seq<Call>)
    decreases |ops|
  {
    ops == [] || (Rotates(h, s, ops[0]) && AllRotate(Record(h, s, ops[0]), Apply(s, ops[0]), ops[1..]))
  }

  /** At every request of the run: it carries the newest token delivered so far if and only if that token is not
      forgotten. */
  predicate AllSendNewest(h: History, s: Tokens, ops: seq<Call>)
    decreases |ops|
  {
    ops == [] ||
    (&& (Sent(s, ops[0]).Some? ==> (Sent(s, ops[0]).value == h.newest <==> !Forgotten(h)))
     && AllSendNewest(Record(h, s, ops[0]), Apply(s, ops[0]), ops[1..]))
  }

  lemma {:induction false} NewestAlong(h: History, s: Tokens, ops: seq<Call>)
    requires Tracks(h, s) && AllRotate(h, s, ops)
    ensures AllSendNewest(h, s, ops)
    decreases |ops|
  {
    if ops == [] {
    } else {
      TracksStep(h, s, ops[0]);
      NewestAlong(Record(h, s, ops[0]), Apply(s, ops[0]), ops[1..]);
    }
  }

  /** A daemon just started with a stored session, loaded into the cache or not. */
  function StartTokens(b: Bundle, cached: bool): Tokens {
    Tokens(Some(b), if cached then Some(b) else None)
  }

  function StartHistory(b: Bundle): History {
    History(b.refresh, false, true, {b.refresh})
  }

  /** From a freshly started daemon with a stored session: every refresh request carries the newest refresh token
      delivered to the daemon, except exactly when saving that token failed and an Invalidate or a restart then
      dropped it from the cache. */
  lemma {:induction false} NewestRefreshToken(b: Bundle, cached: bool, ops: seq<Call>)
    requires AllRotate(StartHistory(b), StartTokens(b, cached), ops)
    ensures AllSendNewest(StartHistory(b), StartTokens(b, cached), ops)
  {
    NewestAlong(StartHistory(b), StartTokens(b, cached), ops);
  }

  /** The exception does occur, for every stored bundle: a rotation that cannot be saved, an Invalidate, and the next
      refresh sends the token the cloud has already replaced. */
  lemma OldTokenIsSentAfterFailedSave(b: Bundle, issued: nat)
    requires issued != b.refresh
    ensures exists lost: Call, again: Call ::
              var s, h := Tokens(Some(b), Some(b)), History(b.refresh, false, true, {b.refresh});
              var s1, h1 := Apply(s, lost), Record(h, s, lost);
              var s2, h2 := Apply(s1, InvalidateCall), Record(h1, s1, InvalidateCall);
              && Delivered(s, lost) == Some(issued) && h2.newest == issued && Forgotten(h2)
              && Sent(s2, again) == Some(b.refresh)
  {
    var lost := ForceCall(World(0, true, Rotated(0, 0, issued), false));
    var again := ForceCall(World(0, true, Unavailable, true));
    var s := Tokens(Some(b), Some(b));
    assert Apply(s, lost) == Tokens(Some(b), Some(Rotate(b, lost.w.reply)));
    assert Sent(Apply(Apply(s, lost), InvalidateCall), again) == Some(b.refresh);
  }

  /** A refresh token that is in neither cache nor keystore is never sent again. */
  lemma {:induction false} DroppedNeverSent(s: Tokens, ops: seq<Call>, token: nat)
    requires Dropped(s, token)
    requires forall i :: 0 <= i < |ops| && IsCall(ops[i]) ==> NeverIssues(ops[i].w, token)
    ensures NeverSent(s, ops, token)
    decreases |ops|
  {
    if ops == [] {
    } else {
      if IsCall(ops[0]) { DroppedStaysDropped(s, ops[0].w, token, ops[0].ForceCall?); }
      DroppedNeverSent(Apply(s, ops[0]), ops[1..], token);
    }
  }

  predicate NeverSent(s: Tokens, ops: seq<Call>, token: nat)
    decreases |ops|
  {
    ops == [] || (Sent(s, ops[0]) != Some(token) && NeverSent(Apply(s, ops[0]), ops[1..], token))
  }

  /** Re-pair pickup, to the end: after the ladder that follows a re-pair, whatever token calls come later, the
      revoked refresh token is never sent again. */
  lemma {:induction false} RevokedTokenIsNeverSentAgain(
    s: Tokens, c1: ClaimWorld, c2: ClaimWorld, f: World, c3: ClaimWorld, ops: seq<Call>)
    requires s.cache.Some? && Fresh(s.cache.value, c1.world.now) && c1.status.Http401?
    requires s.keystore.Some? && s.keystore.value.refresh != s.cache.value.refresh
    requires NeverIssues(c2.world, s.cache.value.refresh) && NeverIssues(f, s.cache.value.refresh)
    requires NeverIssues(c3.world, s.cache.value.refresh)
    requires forall i :: 0 <= i < |ops| && IsCall(ops[i]) ==> NeverIssues(ops[i].w, s.cache.value.refresh)
    ensures NeverSent(ClaimWithReauth(s, true, c1, c2, f, c3).after, ops, s.cache.value.refresh)
  {
    RePairIsPickedUp(s, c1, c2, f, c3);
    DroppedNeverSent(ClaimWithReauth(s, true, c1, c2, f, c3).after, ops, s.cache.value.refresh);
  }

  /** And under contention: after a ladder with any token calls of other goroutines between its rungs, whatever calls
      come later, the revoked refresh token is never sent again. */
  lemma {:induction false} RevokedTokenIsNeverSentAgainUnderContention(
    s: Tokens, o: Between, c1: ClaimWorld, c2: ClaimWorld, f: World, c3: ClaimWorld, ops: seq<Call>)
    requires s.cache.Some? && Fresh(s.cache.value, c1.world.now) && c1.status.Http401?
    requires s.keystore.Some? && s.keystore.value.refresh != s.cache.value.refresh
    requires forall w :: w in o.reload ==> !w.reply.Rotated?
    requires NeverIssued(o, c2, f, c3, s.cache.value.refresh)
    requires forall i :: 0 <= i < |ops| && IsCall(ops[i]) ==> NeverIssues(ops[i].w, s.cache.value.refresh)
    ensures !SendsRefresh(Contended(s, o, c1, c2, f, c3).trace, s.cache.value.refresh)
    ensures NeverSent(Contended(s, o, c1, c2, f, c3).after, ops, s.cache.value.refresh)
  {
    RePairIsPickedUpUnderContention(s, o, c1, c2, f, c3);
    DroppedNeverSent(Contended(s, o, c1, c2, f, c3).after, ops, s.cache.value.refresh);
  }
}

/** The write-through token cache of internal/auth/source.go over a keystore cell. */
module Auth {
  import opened Collections

  /** A persisted session: which device it belongs to, the bearer token with its expiry, and the
      rotating refresh token. Tokens are opaque numbers; times are seconds. */
  datatype Bundle = Bundle(device: nat, session: nat, expires: int, refresh: nat)

  /** Refresh proactively when no more than this much session time remains. */
  const GRACE: int := 300

  datatype RefreshReply = Rotated(session: nat, expires: int, refresh: nat) | Rejected | Unavailable

  datatype AuthError = CannotLoad | RefreshRejected | RefreshUnavailable | CannotSave

  datatype Token = Jwt(session: nat) | NoToken(error: AuthError)

  /** What the environment decides during one call: the clock, the keystore's health and the cloud's reply. */
  datatype World = World(now: int, loadOk: bool, reply: RefreshReply, saveOk: bool)

  /** The keystore cell, and the cache: None when `cachedKnown` is false. */
  datatype Tokens = Tokens(keystore: Option<Bundle>, cache: Option<Bundle>)

  /** The outcome of a call; `sent` holds the refresh token of the request it made, if any. */
  datatype Reply = Reply(after: Tokens, token: Token, sent: Option<nat>)

  /** The bundle a call works with: the cached one, or else the stored one. */
  function Current(s: Tokens, w: World): Option<Bundle> {
    if s.cache.Some? then s.cache else if w.loadOk then s.keystore else None
  }

  predicate Fresh(b: Bundle, now: int) {
    b.expires - now > GRACE
  }

  function Rotate(b: Bundle, r: RefreshReply): Bundle
    requires r.Rotated?
  {
    b.(session := r.session, expires := r.expires, refresh := r.refresh)
  }

  /** One refresh round trip; the rotated bundle reaches the cache even when it cannot be saved. */
  function RoundTrip(s: Tokens, b: Bundle, w: World): Reply {
    match w.reply
    case Rejected => Reply(s.(cache := Some(b)), NoToken(RefreshRejected), Some(b.refresh))
    case Unavailable => Reply(s.(cache := Some(b)), NoToken(RefreshUnavailable), Some(b.refresh))
    case Rotated(session, _, _) =>
      var b' := Some(Rotate(b, w.reply));
      if w.saveOk then Reply(Tokens(b', b'), Jwt(session), Some(b.refresh))
      else Reply(Tokens(s.keystore, b'), NoToken(CannotSave), Some(b.refresh))
  }

  function Bearer(s: Tokens, w: World): Reply {
    match Current(s, w)
    case None => Reply(s, NoToken(CannotLoad), None)
    case Some(b) => if Fresh(b, w.now) then Reply(s.(cache := Some(b)), Jwt(b.session), None) else RoundTrip(s, b, w)
  }

  function Force(s: Tokens, w: World): Reply {
    match Current(s, w)
    case None => Reply(s, NoToken(CannotLoad), None)
    case Some(b) => RoundTrip(s, b, w)
  }

  function Forget(s: Tokens): Tokens {
    s.(cache := None)
  }

  /** What may happen to the token source without pairing: its calls, and a restart of the daemon, which loads the
      keystore into a new cache (saving it again unchanged). */
  datatype Call = BearerCall(w: World) | ForceCall(w: World) | InvalidateCall | Restart(loadOk: bool)

  function Apply(s: Tokens, c: Call): Tokens {
    match c
    case BearerCall(w) => Bearer(s, w).after
    case ForceCall(w) => Force(s, w).after
    case InvalidateCall => Forget(s)
    case Restart(loadOk) => Tokens(s.keystore, if loadOk then s.keystore else None)
  }

  function AfterCalls(s: Tokens, calls: seq<Call>): Tokens
    decreases |calls|
  {
    if calls == [] then s else AfterCalls(Apply(s, calls[0]), calls[1..])
  }

  lemma {:induction false} AfterCallsAppend(s: Tokens, a: seq<Call>, b: seq<Call>)
    ensures AfterCalls(s, a + b) == AfterCalls(AfterCalls(s, a), b)
    decreases |a|
  {
    if a == [] {
      assert a + b == b;
    } else {
      AfterCallsAppend(Apply(s, a[0]), a[1..], b);
      assert (a + b)[1..] == a[1..] + b;
    }
  }

  /** A bundle is handed out only as the cache holds it: a returned token is the cached session, and a
      successful round trip leaves cache and keystore equal. */
  lemma TokenIsCached(s: Tokens, w: World, forced: bool)
    ensures var r := if forced then Force(s, w) else Bearer(s, w);
            && (r.token.Jwt? ==> r.after.cache.Some? && r.after.cache.value.session == r.token.session)
            && (r.token.Jwt? && r.sent.Some? ==> r.after.keystore == r.after.cache)
            && (r.sent.None? ==> r.after.keystore == s.keystore)
            && (r.sent.Some? ==> Current(s, w).Some? && r.sent.value == Current(s, w).value.refresh)
  {
  }

  /** What a token call promises, in terms of the bundle it finds: a session with more than five minutes left is
      handed out as it is, unless a refresh is forced; otherwise the refresh token goes to the cloud, and a rotated
      bundle keeps its device, takes session, expiry and refresh token from the reply, and is handed out once it is
      saved. */
  predicate CallKeepsPromise(s: Tokens, w: World, forced: bool, after: Tokens, t: Token, sent: Option<nat>) {
    var found := if s.cache.Some? then s.cache else if w.loadOk then s.keystore else None;
    if found.None? then after == s && t == NoToken(CannotLoad) && sent.None?
    else
      var b := found.value;
      if !forced && b.expires - w.now > 300 then
        after == Tokens(s.keystore, found) && t == Jwt(b.session) && sent.None?
      else
        && sent == Some(b.refresh)
        && (w.reply.Rejected? ==> after == Tokens(s.keystore, found) && t == NoToken(RefreshRejected))
        && (w.reply.Unavailable? ==> after == Tokens(s.keystore, found) && t == NoToken(RefreshUnavailable))
        && (w.reply.Rotated? ==>
              var rotated := Some(Bundle(b.device, w.reply.session, w.reply.expires, w.reply.refresh));
              && after == Tokens(if w.saveOk then rotated else s.keystore, rotated)
              && t == if w.saveOk then Jwt(w.reply.session) else NoToken(CannotSave))
  }

  lemma TokenCallsKeepPromise(s: Tokens, w: World)
    ensures var r := Bearer(s, w); CallKeepsPromise(s, w, false, r.after, r.token, r.sent)
    ensures var r := Force(s, w); CallKeepsPromise(s, w, true, r.after, r.token, r.sent)
  {
  }

  /** A restarted daemon starts from the keystore. */
  lemma RestartReloads(s: Tokens, loadOk: bool)
    ensures Apply(s, Restart(loadOk)).keystore == s.keystore
    ensures Apply(s, Restart(loadOk)).cache == if loadOk then s.keystore else None
  {
  }

  class Keystore {
    var cell: Option<Bundle>

    constructor (b: Option<Bundle>)
      ensures cell == b
    {
      cell := b;
    }

    method Load(ok: bool) returns (b: Option<Bundle>)
      ensures b == if ok then cell else None
    {
      b := if ok then cell else None;
    }

    method Save(b: Bundle, ok: bool)
      modifies this
      ensures cell == if ok then Some(b) else old(cell)
    {
      if ok {
        cell := Some(b);
      }
    }

    method Clear(ok: bool)
      modifies this
      ensures cell == if ok then None else old(cell)
    {
      if ok {
        cell := None;
      }
    }
  }

  class TokenSource {
    const store: Keystore
    var cached: Bundle
    var cachedKnown: bool

    constructor (store: Keystore)
      ensures this.store == store && View() == Tokens(store.cell, None)
    {
      this.store := store;
      cached := Bundle(0, 0, 0, 0);
      cachedKnown := false;
    }

    function View(): Tokens
      reads this, store
    {
      Tokens(store.cell, if cachedKnown then Some(cached) else None)
    }

    method BearerToken(w: World) returns (t: Token, sent: Option<nat>)
      modifies this, store
      ensures Reply(View(), t, sent) == Bearer(old(View()), w)
      ensures CallKeepsPromise(old(View()), w, false, View(), t, sent)
    {
      if !cachedKnown {
        var b := store.Load(w.loadOk);
        if b.None? {
          return NoToken(CannotLoad), None;
        }
        cached := b.value;
        cachedKnown := true;
      }
      if cached.expires - w.now > GRACE {
        return Jwt(cached.session), None;
      }
      sent := Some(cached.refresh);
      if w.reply.Rejected? {
        return NoToken(RefreshRejected), sent;
      }
      if w.reply.Unavailable? {
        return NoToken(RefreshUnavailable), sent;
      }
      cached := cached.(session := w.reply.session, expires := w.reply.expires, refresh := w.reply.refresh);
      store.Save(cached, w.saveOk);
      if !w.saveOk {
        return NoToken(CannotSave), sent;
      }
      return Jwt(cached.session), sent;
    }

    method ForceRefresh(w: World) returns (t: Token, sent: Option<nat>)
      modifies this, store
      ensures Reply(View(), t, sent) == Force(old(View()), w)
      ensures CallKeepsPromise(old(View()), w, true, View(), t, sent)
    {
      if !cachedKnown {
        var b := store.Load(w.loadOk);
        if b.None? {
          return NoToken(CannotLoad), None;
        }
        cached := b.value;
        cachedKnown := true;
      }
      sent := Some(cached.refresh);
      if w.reply.Rejected? {
        return NoToken(RefreshRejected), sent;
      }
      if w.reply.Unavailable? {
        return NoToken(RefreshUnavailable), sent;
      }
      cached := cached.(session := w.reply.session, expires := w.reply.expires, refresh := w.reply.refresh);
      store.Save(cached, w.saveOk);
      if !w.saveOk {
        return NoToken(CannotSave), sent;
      }
      return Jwt(cached.session), sent;
    }

    method Invalidate()
      modifies this
      ensures View() == Forget(old(View())) == Tokens(old(store.cell), None)
    {
      cached := Bundle(0, 0, 0, 0);
      cachedKnown := false;
    }

    method Set(b: Bundle, saveOk: bool)
      modifies this, store
      ensures View() == Tokens(if saveOk then Some(b) else old(store.cell), Some(b))
    {
      cached := b;
      cachedKnown := true;
      store.Save(b, saveOk);
    }

    method Reset(clearOk: bool)
      modifies this, store
      ensures View() == Tokens(if clearOk then None else old(store.cell), None)
    {
      cached := Bundle(0, 0, 0, 0);
      cachedKnown := false;
      store.Clear(clearOk);
    }
  }
}

/** Pairing over time: token calls, pair and unpair handlers and restarts, against a cloud that knows which devices
    exist.  The handlers write the keystore behind the cache's back, without the token source's mutex and without
    excluding each other; so a refresh is three steps (the request, the cloud's answer, the reply saved), an unpair
    three (load, DELETE, Clear) and a pair two (the exchange behind its guard, the save), all interleaved. */
module Pairing {
  import opened Collections
  import opened Auth

  /** The cloud's answer to DELETE /v1/desktop/devices/self. A transport error may hide a deletion. */
  datatype Delete = Deleted | Expired | Unreachable(gone: bool) | Refused

  datatype Exchange = Issued(session: nat, expires: int, refresh: nat) | InvalidCode | NoExchange

  /** The refresh under way: sent, or answered by the cloud. Its bundle is the cached one; the mutex lets no other token
      call in before it is over. */
  datatype Flight = Asked | Answered(reply: RefreshReply)

  datatype Op =
    | Ask(now: int, loadOk: bool, forced: bool)
    | Answer(reply: RefreshReply)
    | Land(saveOk: bool)
    | Invalidate
    | Restart(loadOk: bool)
    | PairExchange(h: nat, loadOk: bool, exchange: Exchange)
    | PairSave(h: nat, saveOk: bool)
    | UnpairLoad(h: nat, loadOk: bool)
    | UnpairDelete(h: nat, delete: Delete, force: bool)
    | UnpairClear(h: nat, clearOk: bool)
    | Revoke(device: nat)

  /** A handler under way: a pair about to save its bundle, an unpair before its DELETE, an unpair before its Clear. */
  datatype Handler = Saving(bundle: Bundle) | Deleting(device: nat) | Clearing(device: nat)

  /** `live` are the devices the cloud has not deleted; device numbers are issued in order. */
  datatype State = State(
    tokens: Tokens, live: set<nat>, nextDevice: nat, flight: Option<Flight>, handlers: map<nat, Handler>)

  function At(s: State, h: nat): Option<Handler> {
    if h in s.handlers then Some(s.handlers[h]) else None
  }

  /** A refresh is answered with new tokens only for a device that exists at that moment; DELETE succeeds only for an
      existing device, identified by the session the handler loaded. */
  predicate Possible(s: State, op: Op) {
    match op
    case Ask(_, _, _) | Invalidate => s.flight.None?
    case Answer(reply) =>
      && s.flight == Some(Asked)
      && (reply.Rotated? ==> s.tokens.cache.Some? && s.tokens.cache.value.device in s.live)
    case Land(_) => s.flight.Some? && s.flight.value.Answered?
    case PairExchange(h, _, _) => At(s, h).None?
    case PairSave(h, _) => At(s, h).Some? && At(s, h).value.Saving?
    case UnpairLoad(h, _) => At(s, h).None?
    case UnpairDelete(h, delete, _) =>
      At(s, h).Some? && At(s, h).value.Deleting? && (delete.Deleted? ==> At(s, h).value.device in s.live)
    case UnpairClear(h, _) => At(s, h).Some? && At(s, h).value.Clearing?
    case Restart(_) | Revoke(_) => true
  }

  /** The bundle a token call works with. */
  function Working(t: Tokens, loadOk: bool): Option<Bundle> {
    if t.cache.Some? then t.cache else if loadOk then t.keystore else None
  }

  /** An accepted refresh has been answered and its tokens are about to be saved. */
  predicate Arriving(s: State) {
    s.flight.Some? && s.flight.value.Answered? && s.flight.value.reply.Rotated?
  }

  /** The reply of an accepted refresh reaches the cache, and the keystore if the save succeeds. */
  function LandTokens(s: State, saveOk: bool): Tokens {
    if Arriving(s) && s.tokens.cache.Some? then
      var b := Some(Rotate(s.tokens.cache.value, s.flight.value.reply));
      Tokens(if saveOk then b else s.tokens.keystore, b)
    else s.tokens
  }

  predicate AlreadyPaired(s: State, loadOk: bool) {
    loadOk && s.tokens.keystore.Some?
  }

  /** The bundle of a newly paired device. */
  function NewBundle(device: nat, x: Exchange): Bundle
    requires x.Issued?
  {
    Bundle(device, x.session, x.expires, x.refresh)
  }

  /** The guard passes and the cloud issues a device. */
  predicate Issues(s: State, loadOk: bool, x: Exchange) {
    !AlreadyPaired(s, loadOk) && x.Issued?
  }

  datatype PairAnswer =
    | Paired(device: nat)   // 200
    | PairedBefore          // 409
    | WrongCode             // 401
    | ExchangeFailed        // 502
    | SaveFailed            // 500

  method HandlePair(keystore: Keystore, device: nat, loadOk: bool, x: Exchange, saveOk: bool) returns (a: PairAnswer)
    modifies keystore
    ensures keystore.cell == if !(loadOk && old(keystore.cell).Some?) && x.Issued? && saveOk
                             then Some(Bundle(device, x.session, x.expires, x.refresh)) else old(keystore.cell)
    ensures a == if loadOk && old(keystore.cell).Some? then PairedBefore
                 else if x.InvalidCode? then WrongCode
                 else if x.NoExchange? then ExchangeFailed
                 else if saveOk then Paired(device) else SaveFailed
    ensures a.Paired? ==> keystore.cell.Some? && keystore.cell.value.device == a.device == device
    ensures !a.Paired? ==> keystore.cell == old(keystore.cell)
  {
    var stored := keystore.Load(loadOk);
    if stored.Some? {
      return PairedBefore;
    }
    match x
    case InvalidCode => return WrongCode;
    case NoExchange => return ExchangeFailed;
    case Issued(session, expires, refresh) =>
      keystore.Save(Bundle(device, session, expires, refresh), saveOk);
      return if saveOk then Paired(device) else SaveFailed;
  }

  /** handleUnpair gets past the cloud call: deleted, already expired, or unreachable and forced. */
  predicate CloudLetsGo(delete: Delete, force: bool) {
    delete.Deleted? || delete.Expired? || (delete.Unreachable? && force)
  }

  /** The pair answered 200. */
  predicate SuccessfulPair(s: State, op: Op) {
    op.PairSave? && op.saveOk
  }

  /** Clear removes whatever is stored by then, and neither handler touches the cache. */
  function TokensAfter(s: State, op: Op): Tokens {
    match op
    case Ask(_, loadOk, _) => s.tokens.(cache := Working(s.tokens, loadOk))
    case Land(saveOk) => LandTokens(s, saveOk)
    case Invalidate => Forget(s.tokens)
    case Restart(loadOk) => Auth.Apply(s.tokens, Auth.Restart(loadOk))
    case PairSave(h, saveOk) =>
      if saveOk && At(s, h).Some? && At(s, h).value.Saving? then s.tokens.(keystore := Some(At(s, h).value.bundle))
      else s.tokens
    case UnpairClear(_, clearOk) => if clearOk then s.tokens.(keystore := None) else s.tokens
    case _ => s.tokens
  }

  function LiveAfter(s: State, op: Op): set<nat> {
    match op
    case PairExchange(_, loadOk, x) => if Issues(s, loadOk, x) then s.live + {s.nextDevice} else s.live
    case UnpairDelete(h, delete, _) =>
      if At(s, h).Some? && At(s, h).value.Deleting? && (delete.Deleted? || (delete.Unreachable? && delete.gone))
      then s.live - {At(s, h).value.device} else s.live
    case Revoke(device) => s.live - {device}
    case _ => s.live
  }

  /** A fresh session needs no refresh. */
  function FlightAfter(s: State, op: Op): Option<Flight> {
    match op
    case Ask(now, loadOk, forced) =>
      var b := Working(s.tokens, loadOk);
      if b.None? || (!forced && Fresh(b.value, now)) then s.flight else Some(Asked)
    case Answer(reply) => Some(Answered(reply))
    case Land(_) | Restart(_) => None
    case _ => s.flight
  }

  /** A handler that ends leaves; a restart ends all. */
  function HandlersAfter(s: State, op: Op): map<nat, Handler> {
    match op
    case PairExchange(h, loadOk, x) =>
      if Issues(s, loadOk, x) then s.handlers[h := Saving(NewBundle(s.nextDevice, x))] else s.handlers
    case PairSave(h, _) => s.handlers - {h}
    case UnpairLoad(h, loadOk) =>
      if loadOk && s.tokens.keystore.Some? then s.handlers[h := Deleting(s.tokens.keystore.value.device)]
      else s.handlers
    case UnpairDelete(h, delete, force) =>
      if At(s, h).Some? && At(s, h).value.Deleting? && CloudLetsGo(delete, force)
      then s.handlers[h := Clearing(At(s, h).value.device)] else s.handlers - {h}
    case UnpairClear(h, _) => s.handlers - {h}
    case Restart(_) => map[]
    case _ => s.handlers
  }

  function Apply(s: State, op: Op): State {
    State(TokensAfter(s, op), LiveAfter(s, op),
          if op.PairExchange? && Issues(s, op.loadOk, op.exchange) then s.nextDevice + 1 else s.nextDevice,
          FlightAfter(s, op), HandlersAfter(s, op))
  }

  /** handlePair by handler h, with nothing in between: the steps it gets to. */
  function PairSteps(s: State, h: nat, loadOk: bool, x: Exchange, saveOk: bool): seq<Op> {
    [PairExchange(h, loadOk, x)] + if Issues(s, loadOk, x) then [PairSave(h, saveOk)] else []
  }

  /** handleUnpair by handler h, with nothing in between: the steps it gets to. */
  function UnpairSteps(s: State, h: nat, loadOk: bool, delete: Delete, force: bool, clearOk: bool): seq<Op> {
    [UnpairLoad(h, loadOk)] +
    if !loadOk || s.tokens.keystore.None? then []
    else [UnpairDelete(h, delete, force)] + if CloudLetsGo(delete, force) then [UnpairClear(h, clearOk)] else []
  }

  predicate AllPossible(s: State, ops: seq<Op>)
    decreases |ops|
  {
    ops == [] || (Possible(s, ops[0]) && AllPossible(Apply(s, ops[0]), ops[1..]))
  }

  function After(s: State, ops: seq<Op>): State
    decreases |ops|
  {
    if ops == [] then s else After(Apply(s, ops[0]), ops[1..])
  }

  /** No pair succeeds along the run. */
  predicate NoPair(s: State, ops: seq<Op>)
    decreases |ops|
  {
    ops == [] || (!SuccessfulPair(s, ops[0]) && NoPair(Apply(s, ops[0]), ops[1..]))
  }

  /** Without a handler in between the three steps are the token call of the cache's own specification. */
  lemma {:induction false} CallIsThreeSteps(s: State, w: World, forced: bool)
    requires s.flight.None?
    ensures var r := if forced then Force(s.tokens, w) else Bearer(s.tokens, w);
            var s1 := Apply(s, Ask(w.now, w.loadOk, forced));
            if s1.flight.None? then s1 == s.(tokens := r.after) && r.sent.None?
            else
              && s1.tokens.cache.Some? && r.sent == Some(s1.tokens.cache.value.refresh)
              && After(s1, [Answer(w.reply), Land(w.saveOk)]) == s.(tokens := r.after)
  {
    TwoSteps(Apply(s, Ask(w.now, w.loadOk, forced)), Answer(w.reply), Land(w.saveOk));
  }

  // ---------- unpaired stays unpaired ----------

  /** The cache cannot bring a session back: it is empty or belongs to a deleted device. */
  predicate CacheIsDead(s: State) {
    s.tokens.cache.Some? ==> s.tokens.cache.value.device !in s.live
  }

  function DeviceOf(h: Handler): nat {
    if h.Saving? then h.bundle.device else h.device
  }

  ghost predicate WellNumbered(s: State) {
    && (forall d :: d in s.live ==> d < s.nextDevice)
    && (s.tokens.cache.Some? ==> s.tokens.cache.value.device < s.nextDevice)
    && (s.tokens.keystore.Some? ==> s.tokens.keystore.value.device < s.nextDevice)
    && (s.flight.Some? ==> s.tokens.cache.Some?)
    && (forall h :: h in s.handlers ==> DeviceOf(s.handlers[h]) < s.nextDevice)
  }

  lemma WellNumberedStep(s: State, op: Op)
    requires WellNumbered(s) && Possible(s, op)
    ensures WellNumbered(Apply(s, op))
  {
  }

  /** Nothing in the daemon can bring a session back. */
  predicate Gone(s: State) {
    CacheIsDead(s) && !Arriving(s)
  }

  lemma UnpairedStep(s: State, op: Op)
    requires WellNumbered(s) && s.tokens.keystore.None? && Gone(s)
    requires Possible(s, op) && !SuccessfulPair(s, op)
    ensures Apply(s, op).tokens.keystore.None? && Gone(Apply(s, op))
  {
  }

  lemma {:induction false} UnpairedRun(s: State, ops: seq<Op>)
    requires WellNumbered(s) && s.tokens.keystore.None? && Gone(s)
    requires AllPossible(s, ops) && NoPair(s, ops)
    ensures After(s, ops).tokens.keystore.None?
    decreases |ops|
  {
    if ops == [] {
    } else {
      UnpairedStep(s, ops[0]);
      WellNumberedStep(s, ops[0]);
      UnpairedRun(Apply(s, ops[0]), ops[1..]);
    }
  }

  lemma {:induction false} Prepend(s: State, op: Op, ops: seq<Op>)
    requires Possible(s, op) && !SuccessfulPair(s, op) && AllPossible(Apply(s, op), ops) && NoPair(Apply(s, op), ops)
    ensures AllPossible(s, [op] + ops) && NoPair(s, [op] + ops) && After(s, [op] + ops) == After(Apply(s, op), ops)
  {
    assert ([op] + ops)[1..] == ops;
  }

  /** Steps, at most, until a refresh lands. */
  function Rank(f: Option<Flight>): nat {
    match f
    case None => 2
    case Some(Asked) => 1
    case Some(Answered(reply)) => if reply.Rotated? then 0 else 3
  }

  /** The run of token calls alone that fills the keystore again. */
  lemma {:induction false} Refill(s: State) returns (ops: seq<Op>)
    requires WellNumbered(s) && s.tokens.keystore.None? && !Gone(s)
    ensures AllPossible(s, ops) && NoPair(s, ops) && After(s, ops).tokens.keystore.Some?
    decreases Rank(s.flight)
  {
    var op := if s.flight.None? then Ask(0, true, true)
              else if s.flight.value.Asked? then Answer(Rotated(0, 0, 0)) else Land(true);
    var s' := Apply(s, op);
    WellNumberedStep(s, op);
    if s'.tokens.keystore.Some? {
      ops := [];
    } else {
      ops := Refill(s');
    }
    Prepend(s, op, ops);
    ops := [op] + ops;
  }

  /** The keystore stays empty over every run without a successful pair, restarts included. */
  ghost predicate FinallyUnpaired(s: State) {
    forall ops :: AllPossible(s, ops) && NoPair(s, ops) ==> After(s, ops).tokens.keystore.None?
  }

  /** An empty keystore stays empty if and only if the cached bundle, if any, belongs to a device the cloud has deleted,
      and no accepted refresh is in flight. */
  lemma {:induction false} StaysUnpairedIff(s: State)
    requires WellNumbered(s) && s.tokens.keystore.None?
    ensures CacheIsDead(s) && !Arriving(s) <==> FinallyUnpaired(s)
  {
    if Gone(s) {
      forall ops | AllPossible(s, ops) && NoPair(s, ops) ensures After(s, ops).tokens.keystore.None? {
        UnpairedRun(s, ops);
      }
    } else {
      var ops := Refill(s);
    }
  }

  // ---------- after a confirmed unpair ----------

  lemma {:induction false} WellNumberedRun(s: State, ops: seq<Op>)
    requires WellNumbered(s) && AllPossible(s, ops)
    ensures WellNumbered(After(s, ops))
    decreases |ops|
  {
    if ops == [] {
    } else {
      WellNumberedStep(s, ops[0]);
      WellNumberedRun(Apply(s, ops[0]), ops[1..]);
    }
  }

  /** A deleted device never exists again. */
  lemma {:induction false} DeletedForGood(s: State, ops: seq<Op>, d: nat)
    requires WellNumbered(s) && AllPossible(s, ops) && d < s.nextDevice && d !in s.live
    ensures d !in After(s, ops).live
    decreases |ops|
  {
    if ops == [] {
    } else {
      WellNumberedStep(s, ops[0]);
      DeletedForGood(Apply(s, ops[0]), ops[1..], d);
    }
  }

  /** The cloud answers the handler's DELETE of device d with 200 or 204. */
  predicate Confirms(s: State, op: Op, d: nat) {
    Possible(s, op) && op.UnpairDelete? && op.delete.Deleted? && At(s, op.h) == Some(Deleting(d))
  }

  /** The Clear by which an unpair answers 200, any steps of others after its confirmed DELETE: although the token cache
      is not cleared, the keystore stays empty until a successful pair, if and only if the cache then holds nothing, the
      unpaired device's bundle or that of a device deleted otherwise, and no accepted refresh is in flight. */
  lemma {:induction false} CleanUnpairIsFinalIff(s0: State, delete: Op, d: nat, between: seq<Op>)
    requires WellNumbered(s0) && Confirms(s0, delete, d) && AllPossible(Apply(s0, delete), between)
    requires At(After(Apply(s0, delete), between), delete.h) == Some(Clearing(d))
    ensures var s := After(Apply(s0, delete), between);
            (&& !Arriving(s)
             && (s.tokens.cache.Some? ==> s.tokens.cache.value.device == d || s.tokens.cache.value.device !in s.live))
            <==> FinallyUnpaired(Apply(s, UnpairClear(delete.h, true)))
  {
    var s1 := Apply(s0, delete);
    WellNumberedStep(s0, delete);
    WellNumberedRun(s1, between);
    DeletedForGood(s1, between, d);
    var s := After(s1, between);
    WellNumberedStep(s, UnpairClear(delete.h, true));
    StaysUnpairedIff(Apply(s, UnpairClear(delete.h, true)));
  }

  /** A cloud that issues no second device to an installation while the first one exists. */
  predicate OneDevice(s: State, op: Op) {
    op.PairExchange? && op.exchange.Issued? && !AlreadyPaired(s, op.loadOk) ==> s.live == {}
  }

  predicate AllOneDevice(s: State, ops: seq<Op>)
    decreases |ops|
  {
    ops == [] || (OneDevice(s, ops[0]) && AllOneDevice(Apply(s, ops[0]), ops[1..]))
  }

  predicate AtMostOneLive(s: State) {
    forall d, d' :: d in s.live && d' in s.live ==> d == d'
  }

  lemma {:induction false} OneDeviceRun(s: State, ops: seq<Op>)
    requires WellNumbered(s) && AtMostOneLive(s) && AllPossible(s, ops) && AllOneDevice(s, ops)
    ensures WellNumbered(After(s, ops)) && AtMostOneLive(After(s, ops))
    decreases |ops|
  {
    if ops == [] {
    } else {
      WellNumberedStep(s, ops[0]);
      OneDeviceRun(Apply(s, ops[0]), ops[1..]);
    }
  }

  /** Nothing stored or cached belongs to a device that exists. */
  predicate AllDead(s: State) {
    CacheIsDead(s) && (s.tokens.keystore.Some? ==> s.tokens.keystore.value.device !in s.live)
  }

  lemma AllDeadStep(s: State, op: Op)
    requires WellNumbered(s) && AllDead(s) && Possible(s, op) && !SuccessfulPair(s, op)
    ensures AllDead(Apply(s, op))
  {
  }

  lemma {:induction false} AllDeadRun(s: State, ops: seq<Op>)
    requires WellNumbered(s) && AllDead(s) && AllPossible(s, ops) && NoPair(s, ops)
    ensures AllDead(After(s, ops))
    decreases |ops|
  {
    if ops == [] {
    } else {
      AllDeadStep(s, ops[0]);
      WellNumberedStep(s, ops[0]);
      AllDeadRun(Apply(s, ops[0]), ops[1..]);
    }
  }

  /** With such a cloud, and no pair between its DELETE and its Clear, a confirmed unpair wipes no living pairing, and
      it is final if and only if no accepted refresh is in flight at its Clear. */
  lemma {:induction false} WithOneDeviceUnpairIsFinalIff(
    s0: State, before: seq<Op>, delete: Op, d: nat, between: seq<Op>)
    requires WellNumbered(s0) && AtMostOneLive(s0) && AllPossible(s0, before) && AllOneDevice(s0, before)
    requires Confirms(After(s0, before), delete, d)
    requires var s1 := Apply(After(s0, before), delete);
             && AllPossible(s1, between) && NoPair(s1, between)
             && At(After(s1, between), delete.h) == Some(Clearing(d))
    ensures var s := After(Apply(After(s0, before), delete), between);
            AllDead(s) && (!Arriving(s) <==> FinallyUnpaired(Apply(s, UnpairClear(delete.h, true))))
  {
    OneDeviceRun(s0, before);
    var s := After(s0, before);
    var s1 := Apply(s, delete);
    assert s1.live == {};
    WellNumberedStep(s, delete);
    AllDeadRun(s1, between);
    CleanUnpairIsFinalIff(s, delete, d, between);
  }

  // ---------- handlers with nothing in between ----------

  lemma {:induction false} OneStep(s: State, a: Op)
    ensures After(s, [a]) == Apply(s, a)
    ensures AllPossible(s, [a]) <==> Possible(s, a)
  {
    assert [a][1..] == [] && AllPossible(Apply(s, a), []) && After(Apply(s, a), []) == Apply(s, a);
  }

  /** The steps of handlePair, one after the other, store the new bundle exactly when the handler answers 200. */
  lemma {:induction false} PairStepsAreThePair(s: State, h: nat, loadOk: bool, x: Exchange, saveOk: bool)
    requires At(s, h).None?
    ensures var ops := PairSteps(s, h, loadOk, x, saveOk);
            && AllPossible(s, ops)
            && After(s, ops).tokens.keystore ==
                 if !(loadOk && s.tokens.keystore.Some?) && x.Issued? && saveOk
                 then Some(Bundle(s.nextDevice, x.session, x.expires, x.refresh))
                 else s.tokens.keystore
  {
    OneStep(s, PairExchange(h, loadOk, x));
    TwoSteps(s, PairExchange(h, loadOk, x), PairSave(h, saveOk));
    assert PairSteps(s, h, loadOk, x, saveOk)
        == if Issues(s, loadOk, x) then [PairExchange(h, loadOk, x), PairSave(h, saveOk)]
           else [PairExchange(h, loadOk, x)];
  }

  /** What a pair is for: the next token call that reads the keystore hands out the issued session, or, if it has no
      more than five minutes left, sends the issued refresh token. */
  lemma {:induction false} TokenAfterPair(s: State, h: nat, x: Exchange, w: World)
    requires At(s, h).None? && s.tokens == Tokens(None, None) && x.Issued? && w.loadOk
    ensures var t := After(s, PairSteps(s, h, true, x, true)).tokens; var r := Bearer(t, w);
            if x.expires - w.now > 300 then r.token == Jwt(x.session) && r.sent.None? else r.sent == Some(x.refresh)
  {
    AlonePair(s, h, x);
  }

  /** A device revoked in the cloud, the keystore being empty: its cached bundle brings nothing back. */
  lemma {:induction false} RevokedCacheIsHarmless(s: State, d: nat)
    requires WellNumbered(s) && s.tokens.keystore.None? && !Arriving(s)
    requires s.tokens.cache.Some? ==> s.tokens.cache.value.device == d
    ensures FinallyUnpaired(Apply(s, Revoke(d)))
  {
    WellNumberedStep(s, Revoke(d));
    StaysUnpairedIff(Apply(s, Revoke(d)));
  }

  /** The steps of handleUnpair, one after the other, clear the keystore exactly when the handler answers 200. */
  lemma {:induction false} UnpairStepsAreTheUnpair(
    s: State, h: nat, loadOk: bool, delete: Delete, force: bool, clearOk: bool)
    requires At(s, h).None?
    requires s.tokens.keystore.Some? && delete.Deleted? ==> s.tokens.keystore.value.device in s.live
    ensures var ops := UnpairSteps(s, h, loadOk, delete, force, clearOk);
            && AllPossible(s, ops)
            && After(s, ops).tokens.keystore ==
                 if loadOk && CloudLetsGo(delete, force) && clearOk then None else s.tokens.keystore
  {
    var load, del, clear := UnpairLoad(h, loadOk), UnpairDelete(h, delete, force), UnpairClear(h, clearOk);
    OneStep(s, load);
    TwoSteps(s, load, del);
    ThreeSteps(s, load, del, clear);
    assert UnpairSteps(s, h, loadOk, delete, force, clearOk)
        == if !loadOk || s.tokens.keystore.None? then [load]
           else if CloudLetsGo(delete, force) then [load, del, clear] else [load, del];
  }

  // ---------- how it fails ----------

  /** A device paired, its bundle stored and cached, no handler at work. */
  function PairedWith(a: Bundle): State {
    State(Tokens(Some(a), Some(a)), {a.device}, a.device + 1, None, map[])
  }

  lemma {:induction false} Chain(s: State, op: Op, ops: seq<Op>)
    ensures After(s, [op] + ops) == After(Apply(s, op), ops)
    ensures AllPossible(s, [op] + ops) <==> Possible(s, op) && AllPossible(Apply(s, op), ops)
    ensures NoPair(s, [op] + ops) <==> !SuccessfulPair(s, op) && NoPair(Apply(s, op), ops)
    ensures AllOneDevice(s, [op] + ops) <==> OneDevice(s, op) && AllOneDevice(Apply(s, op), ops)
  {
    assert ([op] + ops)[1..] == ops;
  }

  lemma {:induction false} ThreeSteps(s: State, a: Op, b: Op, c: Op)
    ensures After(s, [a, b, c]) == Apply(Apply(Apply(s, a), b), c)
    ensures AllPossible(s, [a, b, c]) <==>
              Possible(s, a) && Possible(Apply(s, a), b) && Possible(Apply(Apply(s, a), b), c)
    ensures NoPair(s, [a, b, c]) <==>
              && !SuccessfulPair(s, a) && !SuccessfulPair(Apply(s, a), b)
              && !SuccessfulPair(Apply(Apply(s, a), b), c)
    ensures AllOneDevice(s, [a, b, c]) <==>
              OneDevice(s, a) && OneDevice(Apply(s, a), b) && OneDevice(Apply(Apply(s, a), b), c)
  {
    var s3 := Apply(Apply(Apply(s, a), b), c);
    assert After(s3, []) == s3 && AllPossible(s3, []) && NoPair(s3, []) && AllOneDevice(s3, []);
    Chain(Apply(Apply(s, a), b), c, []);
    Chain(Apply(s, a), b, [c] + []);
    Chain(s, a, [b] + ([c] + []));
    assert [a] + ([b] + ([c] + [])) == [a, b, c];
  }

  /** What an unpair alone does. */
  lemma {:induction false} AloneUnpair(s: State, h: nat, delete: Delete, force: bool)
    requires At(s, h).None? && s.tokens.keystore.Some? && CloudLetsGo(delete, force)
    requires delete.Deleted? ==> s.tokens.keystore.value.device in s.live
    ensures var d := s.tokens.keystore.value.device; var ops := UnpairSteps(s, h, true, delete, force, true);
            var gone := delete.Deleted? || (delete.Unreachable? && delete.gone);
            && AllPossible(s, ops) && AllOneDevice(s, ops)
            && After(s, ops) == s.(tokens := s.tokens.(keystore := None), live := if gone then s.live - {d} else s.live)
  {
    ThreeSteps(s, UnpairLoad(h, true), UnpairDelete(h, delete, force), UnpairClear(h, true));
    assert UnpairSteps(s, h, true, delete, force, true)
        == [UnpairLoad(h, true), UnpairDelete(h, delete, force), UnpairClear(h, true)];
    var d := s.tokens.keystore.value.device;
    assert s.handlers[h := Deleting(d)][h := Clearing(d)] - {h} == s.handlers;
  }

  /** What a successful pair alone does. */
  lemma {:induction false} AlonePair(s: State, h: nat, x: Exchange)
    requires At(s, h).None? && s.tokens.keystore.None? && x.Issued?
    ensures var ops := PairSteps(s, h, true, x, true);
            && AllPossible(s, ops)
            && After(s, ops) == s.(tokens := s.tokens.(keystore := Some(NewBundle(s.nextDevice, x))),
                                   live := s.live + {s.nextDevice}, nextDevice := s.nextDevice + 1)
  {
    TwoSteps(s, PairExchange(h, true, x), PairSave(h, true));
    assert PairSteps(s, h, true, x, true) == [PairExchange(h, true, x), PairSave(h, true)];
    assert s.handlers[h := Saving(NewBundle(s.nextDevice, x))] - {h} == s.handlers;
  }

  /** What an unforced token call on a session about to expire does, alone and accepted. */
  lemma {:induction false} AloneRefresh(s: State, now: int, reply: RefreshReply)
    requires s.flight.None? && s.tokens.cache.Some? && !Fresh(s.tokens.cache.value, now)
    requires s.tokens.cache.value.device in s.live && reply.Rotated?
    ensures var ops := [Ask(now, true, false), Answer(reply), Land(true)];
            && AllPossible(s, ops) && NoPair(s, ops)
            && After(s, ops).tokens.keystore == Some(Rotate(s.tokens.cache.value, reply))
  {
    ThreeSteps(s, Ask(now, true, false), Answer(reply), Land(true));
  }

  /** The refresh that overtakes an unpair, with one device, for every bundle: a session about to expire is refreshed,
      the cloud accepts, the unpair is confirmed and answers 200, and the reply is saved into the cleared keystore. */
  lemma {:induction false} RefreshOvertakesUnpair(a: Bundle, now: int, reply: RefreshReply)
    requires !Fresh(a, now) && reply.Rotated?
    ensures var s := PairedWith(a); var refresh := [Ask(now, true, false), Answer(reply)];
            var s1 := After(s, refresh); var unpair := UnpairSteps(s1, 0, true, Deleted, false, true);
            var s2 := After(s1, unpair);
            && WellNumbered(s) && AtMostOneLive(s) && AllPossible(s, refresh)
            && AllPossible(s1, unpair) && AllOneDevice(s1, unpair)
            && s2.tokens.keystore.None? && s2.live == {} && Possible(s2, Land(true))
            && Apply(s2, Land(true)).tokens.keystore == Some(Rotate(a, reply))
  {
    var s := PairedWith(a);
    TwoSteps(s, Ask(now, true, false), Answer(reply));
    AloneUnpair(After(s, [Ask(now, true, false), Answer(reply)]), 0, Deleted, false);
  }

  /** With a second device issued it can fail without any race, for every bundle `a` and whatever the cloud issues:
      unpair a by force while the cloud is unreachable, pair, unpair cleanly, and when the uncleared cache's session
      runs out the next token call fills the keystore again. */
  lemma {:induction false} ForcedUnpairCanComeBack(a: Bundle, x: Exchange, now: int, reply: RefreshReply)
    requires x.Issued? && !Fresh(a, now) && reply.Rotated?
    ensures var s := PairedWith(a); var forced := UnpairSteps(s, 0, true, Unreachable(false), true, true);
            var s1 := After(s, forced); var pair := PairSteps(s1, 0, true, x, true);
            var s2 := After(s1, pair); var clean := UnpairSteps(s2, 0, true, Deleted, false, true);
            var s3 := After(s2, clean); var refresh := [Ask(now, true, false), Answer(reply), Land(true)];
            && WellNumbered(s) && AllPossible(s, forced) && AllPossible(s1, pair) && AllPossible(s2, clean)
            && s1.tokens.keystore.None? && s2.tokens.keystore.Some? && s3.tokens.keystore.None?
            && AllPossible(s3, refresh) && NoPair(s3, refresh)
            && After(s3, refresh).tokens.keystore == Some(Rotate(a, reply))
  {
    var s := PairedWith(a);
    AloneUnpair(s, 0, Unreachable(false), true);
    var s1 := After(s, UnpairSteps(s, 0, true, Unreachable(false), true, true));
    AlonePair(s1, 0, x);
    var s2 := After(s1, PairSteps(s1, 0, true, x, true));
    AloneUnpair(s2, 0, Deleted, false);
    AloneRefresh(After(s2, UnpairSteps(s2, 0, true, Deleted, false, true)), now, reply);
  }

  /** Two unpairs overlap and a pair falls between them, with one device at a time, for every bundle and every new one:
      handler 1 loads the old session and deletes the device; a whole unpair by handler 2, to whose DELETE the cloud
      answers 401, clears and answers 200; the user pairs again; and handler 1's Clear wipes the new pairing, whose
      device exists, and answers 200 as well. */
  lemma {:induction false} ClearWipesNewPairing(a: Bundle, x: Exchange)
    requires x.Issued?
    ensures var s, b := PairedWith(a), NewBundle(a.device + 1, x);
            var first := [UnpairLoad(1, true), UnpairDelete(1, Deleted, false)];
            var s1 := After(s, first); var second := UnpairSteps(s1, 2, true, Expired, false, true);
            var s2 := After(s1, second); var pair := PairSteps(s2, 3, true, x, true);
            var s3 := After(s2, pair);
            && AllPossible(s, first) && AllPossible(s1, second) && AllPossible(s2, pair) && s2.live == {}
            && s3.tokens.keystore == Some(b) && s3.live == {b.device} && Possible(s3, UnpairClear(1, true))
            && Apply(s3, UnpairClear(1, true)).tokens.keystore.None?
  {
    var s := PairedWith(a);
    TwoSteps(s, UnpairLoad(1, true), UnpairDelete(1, Deleted, false));
    var s1 := After(s, [UnpairLoad(1, true), UnpairDelete(1, Deleted, false)]);
    AloneUnpair(s1, 2, Expired, false);
    AlonePair(After(s1, UnpairSteps(s1, 2, true, Expired, false, true)), 3, x);
  }

  lemma {:induction false} TwoSteps(s: State, a: Op, b: Op)
    ensures After(s, [a, b]) == Apply(Apply(s, a), b)
    ensures AllPossible(s, [a, b]) <==> Possible(s, a) && Possible(Apply(s, a), b)
  {
    var s2 := Apply(Apply(s, a), b);
    assert After(s2, []) == s2 && AllPossible(s2, []);
    Chain(Apply(s, a), b, []);
    Chain(s, a, [b] + []);
    assert [a] + ([b] + []) == [a, b];
  }
}

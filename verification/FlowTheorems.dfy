/** What every run of the provider flows guarantees, from any initial content of the token
    stores and for any interleaving of calls, callbacks, submissions, declines, refreshes,
    invalidations, timeouts, expiries and store errors. */
module FlowTheorems {
  import opened Values
  import opened Flows
  import opened FlowInvariant
  import T = Tokens
  import C = Credentials

  // ----- provenance -----

  /** The entry of `slot` written at `origin` can be traced, through the log before `n`, to a
      code exchange or form submission on a state that a call of the slot's own subject had
      opened, or through refreshes of earlier entries of the same slot to one of those or to
      an entry that was there at the start. */
  ghost predicate Lineage(h: History, n: nat, slot: Slot, entry: Fields, origin: Option<nat>)
    requires n <= |h.log|
    decreases n
  {
    match origin
    case None => slot in h.initial && h.initial[slot] == entry
    case Some(i) =>
      && i < n && h.log[i].Stored? && (h.log[i].p, h.log[i].sub) == slot && h.log[i].entry == entry
      && match h.log[i].src
         case FromCode(st, t, x) =>
           && x < i && h.log[x].Exchanged? && h.log[x].p == slot.0 && h.log[x].st == st && h.log[x].t == t
           && entry == T.NormalizeTokenData(h.log[x].raw, h.log[x].at.Floor)
           && WonFor(h, x, h.log[x].popped, st, slot.1, t)
         case FromForm(st, t, pop) =>
           slot.0.Form? && C.WellFormed(slot.0.vars, entry) && WonFor(h, i, pop, st, slot.1, t)
         case FromRefresh(_, prior, from, raw, at) =>
           entry == T.RefreshedEntry(raw, T.RefreshToken(prior), at.Floor) && Lineage(h, i, slot, prior, from)
  }

  /** At `pop`, before `n`, thread `t` won state `st`, which an earlier call of `sub` had
      opened. */
  ghost predicate WonFor(h: History, n: nat, pop: nat, st: string, sub: string, t: nat)
    requires n <= |h.log|
  {
    && pop < n && h.log[pop].Popped? && !h.log[pop].declined && h.log[pop].st == st && h.log[pop].t == t
    && var open := h.log[pop].created;
       open < pop && h.log[open].Created? && h.log[open].st == st && h.log[open].sub == sub
  }

  lemma WinningPopIsForSubject(h: History, n: nat, pop: nat, st: string, sub: string, t: nat)
    requires EventsOk(h) && n <= |h.log| && WinningPop(h, n, pop, st, sub, t)
    ensures WonFor(h, n, pop, st, sub, t)
  {
  }

  lemma {:induction false} WrittenHasLineage(h: History, n: nat, slot: Slot, entry: Fields, origin: Option<nat>)
    requires EventsOk(h) && n <= |h.log| && EntryAt(h, n, slot, origin) == Some(entry)
    ensures Lineage(h, n, slot, entry, origin)
    decreases n
  {
    match origin
    case None =>
    case Some(i) =>
      assert EventOk(h, i, h.log[i]);
      match h.log[i].src
      case FromCode(st, t, x) =>
        assert EventOk(h, x, h.log[x]);
        WinningPopIsForSubject(h, x, h.log[x].popped, st, slot.1, t);
      case FromForm(st, t, pop) => WinningPopIsForSubject(h, i, pop, st, slot.1, t);
      case FromRefresh(_, prior, from, _, _) => WrittenHasLineage(h, i, slot, prior, from);
  }

  /** Every entry in a token store was obtained for the subject it is stored under. */
  lemma StoredTokensHaveProvenance(now: real, tokens: map<Slot, Fields>, acts: seq<Action>, w: World, slot: Slot)
    requires Run(Begin(now, tokens), acts) == Some(w) && slot in w.tokens
    ensures Lineage(w.h, |w.h.log|, slot, w.tokens[slot], Origin(w.h, slot))
  {
    Reachable(now, tokens, acts, w);
    assert TokenOk(w.h, w.tokens, slot);
    WrittenHasLineage(w.h, |w.h.log|, slot, w.tokens[slot], Origin(w.h, slot));
  }

  /** Whenever a wrapped handler runs, it is given something, and what it is given is the token
      or the credentials of an entry obtained for its own caller. */
  lemma HandlersSeeTheirOwnGrant(now: real, tokens: map<Slot, Fields>, acts: seq<Action>, w: World, i: nat)
    requires Run(Begin(now, tokens), acts) == Some(w) && i < |w.h.log| && w.h.log[i].Served?
    ensures var e := w.h.log[i];
            && !e.g.Nothing?
            && exists entry :: Lineage(w.h, i, (e.p, e.sub), entry, e.origin) && e.g == GrantOf(e.p, entry)
  {
    hide StoresOk, SessionsOk, SlotsOk, PcOk, Run;
    Reachable(now, tokens, acts, w);
    var e := w.h.log[i];
    assert EventOk(w.h, i, e);
    WrittenHasLineage(w.h, i, (e.p, e.sub), EntryAt(w.h, i, (e.p, e.sub), e.origin).value, e.origin);
  }

  /** The expires_in of the response that an entry was stored for, and when it was received. */
  function Issue(h: History, i: nat): Option<(Fields, real)>
    requires i < |h.log| && h.log[i].Stored?
  {
    match h.log[i].src
    case FromCode(_, _, x) => if x < |h.log| && h.log[x].Exchanged? then Some((h.log[x].raw, h.log[x].at)) else None
    case FromForm(_, _, _) => None
    case FromRefresh(_, _, _, raw, at) => Some((raw, at))
  }

  /** A handler is never given a token that, when the call resolved it, had 29 seconds or less
      left of its issuer's expires_in, counted in real time from the response; the one
      exception is a token that the same call has just obtained by a refresh. */
  lemma ServedTokensAreFresh(now: real, tokens: map<Slot, Fields>, acts: seq<Action>, w: World,
                             i: nat, k: nat, lifetime: real)
    requires Run(Begin(now, tokens), acts) == Some(w) && i < |w.h.log| && w.h.log[i].Served? && w.h.log[i].p.OAuth?
    requires w.h.log[i].origin == Some(k)
    ensures k < i && w.h.log[k].Stored? && Issue(w.h, k).Some?
    ensures var (raw, issued) := Issue(w.h, k).value;
            var e := w.h.log[i];
            && e.g == Token(AsString(Lookup(raw, "access_token")))
            && (T.ToFloat(Lookup(raw, "expires_in")) == Some(lifetime) ==>
                  lifetime - (e.at - issued) > 29.0 || (w.h.log[k].src.FromRefresh? && w.h.log[k].src.t == e.t))
  {
    hide StoresOk, SessionsOk, SlotsOk, IndexOk, PcOk, Run;
    Reachable(now, tokens, acts, w);
    assert EventOk(w.h, i, w.h.log[i]) && EventOk(w.h, k, w.h.log[k]);
    StoredResponseIsFresh(w.h.log[k], Issue(w.h, k).value, w.h.log[i].p, w.h.log[i].at, lifetime);
  }

  /** The stored entry of a response: its access token, and the freshness that the expiry check
      leaves it. */
  lemma StoredResponseIsFresh(e: Event, issue: (Fields, real), p: Provider, at: real, lifetime: real)
    requires e.Stored? && p.OAuth?
    requires e.entry == if e.src.FromRefresh? then T.RefreshedEntry(issue.0, T.RefreshToken(e.src.prior), issue.1.Floor)
                        else T.NormalizeTokenData(issue.0, issue.1.Floor)
    ensures T.AccessToken(e.entry) == AsString(Lookup(issue.0, "access_token"))
    ensures T.ToFloat(Lookup(issue.0, "expires_in")) == Some(lifetime)
            && T.Decide(e.entry, at.Floor, p.canRefresh).Serve? ==>
              lifetime - (at - issue.1) > 29.0
  {
    if T.ToFloat(Lookup(issue.0, "expires_in")) == Some(lifetime) {
      T.ToFloatReadsNumbers(Lookup(issue.0, "expires_in"), lifetime);
      var used := if e.src.FromRefresh? then T.RefreshToken(e.src.prior) else "";
      T.FreshnessSandwich(issue.0, lifetime, issue.1, at, used, p.canRefresh);
    }
  }

  // ----- one winner per state -----

  /** At most one pop of a state succeeds, at most one code is exchanged for it and at most
      one entry is saved for it, over all callbacks, duplicate submissions and declines. */
  lemma OneWinnerPerState(now: real, tokens: map<Slot, Fields>, acts: seq<Action>, w: World, i: nat, j: nat)
    requires Run(Begin(now, tokens), acts) == Some(w) && i < |w.h.log| && j < |w.h.log|
    requires MarkOf(w.h.log[i]).Some? && MarkOf(w.h.log[i]) == MarkOf(w.h.log[j])
    ensures i == j
  {
    Reachable(now, tokens, acts, w);
  }

  /** An exchange or save for a state is by the thread that won the state's only successful
      pop, and came after it; so after a winning decline there is none. */
  lemma NothingAfterADecline(now: real, tokens: map<Slot, Fields>, acts: seq<Action>, w: World, i: nat, j: nat)
    requires Run(Begin(now, tokens), acts) == Some(w) && i < |w.h.log| && j < |w.h.log|
    requires w.h.log[i].Popped?
    requires || MarkOf(w.h.log[j]) == Some(ExchangedMark(w.h.log[i].st))
             || MarkOf(w.h.log[j]) == Some(SavedMark(w.h.log[i].st))
    ensures i < j && !w.h.log[i].declined && Spender(w.h.log[j]) == Some(w.h.log[i].t)
  {
    hide StoresOk, SessionsOk, SlotsOk, PcOk, Run;
    Reachable(now, tokens, acts, w);
    var e := w.h.log[j];
    assert EventOk(w.h, j, e);
    if e.Stored? && e.src.FromCode? {
      assert EventOk(w.h, e.src.exchanged, w.h.log[e.src.exchanged]);
    }
  }

  // ----- store before signal -----

  /** Position of the entry that a success signal announces. */
  function Announced(h: History, i: nat): Option<nat>
    requires i < |h.log| && h.log[i].Received?
  {
    var j := h.log[i].signalled;
    if j < |h.log| && h.log[j].Signalled? then h.log[j].why else None
  }

  /** When a waiting call receives a success signal, then earlier in the run its own state
      was won with its own subject, and after that an entry was stored for this subject; any
      other signal it receives is an error. */
  lemma StoredBeforeSignalled(now: real, tokens: map<Slot, Fields>, acts: seq<Action>, w: World, i: nat)
    requires Run(Begin(now, tokens), acts) == Some(w) && i < |w.h.log| && w.h.log[i].Received?
    ensures match Announced(w.h, i)
            case None => "error" in w.h.log[i].doc
            case Some(k) =>
              && k < i && w.h.log[k].Stored? && w.h.log[k].sub == w.h.log[i].sub && !w.h.log[k].src.FromRefresh?
              && w.h.log[k].src.st == w.h.log[i].st && w.h.log[i].doc == Success(w.h.log[i].sub)
              && exists pop :: WonFor(w.h, k, pop, w.h.log[i].st, w.h.log[i].sub, w.h.log[k].src.t)
  {
    hide StoresOk, SessionsOk, SlotsOk, PcOk, Run;
    Reachable(now, tokens, acts, w);
    var h, e := w.h, w.h.log[i];
    assert EventOk(h, i, e);
    assert EventOk(h, e.signalled, h.log[e.signalled]);
    match Announced(h, i)
    case None =>
    case Some(k) =>
      assert EventOk(h, k, h.log[k]);
      var src := h.log[k].src;
      var pop := if src.FromCode? then h.log[src.exchanged].popped else src.popped;
      if src.FromCode? {
        assert EventOk(h, src.exchanged, h.log[src.exchanged]);
      }
      WinningPopIsForSubject(h, k, pop, e.st, h.log[k].sub, src.t);
      // the state was opened once, so the opener's subject is the waiter's
      assert h.log[h.log[pop].created] == h.log[e.created];
  }

  /** The write of `slot` at position `j` was not followed by a deletion. */
  ghost predicate Stands(h: History, slot: Slot, j: nat) {
    && j < |h.log| && h.log[j].Stored? && (h.log[j].p, h.log[j].sub) == slot
    && forall d | j < d < |h.log| :: h.log[d] != Deleted(slot.0, slot.1)
  }

  /** `slot` holds an entry that was written at position `k` or later. */
  predicate HeldSince(h: History, tokens: map<Slot, Fields>, slot: Slot, k: nat) {
    slot in tokens && slot in h.written && k <= h.written[slot]
  }

  lemma HeldIffWriteStands(h: History, tokens: map<Slot, Fields>, slot: Slot, k: nat)
    requires SlotsOk(h) && TokenOk(h, tokens, slot)
    ensures HeldSince(h, tokens, slot, k) <==> exists j :: k <= j && Stands(h, slot, j)
  {
    if slot in h.deleted {
      assert h.log[h.deleted[slot]] == Deleted(slot.0, slot.1);
    }
    if HeldSince(h, tokens, slot, k) {
      assert Stands(h, slot, h.written[slot]);
    }
  }

  /** After a success signal that announces the entry stored at `k`, the call's re-read finds an
      entry at least as new if and only if some write of the call's slot from `k` on was not
      followed by a deletion.  That is so in particular if the call's own provider stored that
      entry and nothing has deleted it. */
  lemma SignalledCallFindsItsEntry(now: real, tokens: map<Slot, Fields>, acts: seq<Action>, w: World, i: nat, k: nat)
    requires Run(Begin(now, tokens), acts) == Some(w) && i < |w.h.log| && w.h.log[i].Received?
    requires Announced(w.h, i) == Some(k)
    ensures var slot := (w.h.log[i].p, w.h.log[i].sub);
            && (HeldSince(w.h, w.tokens, slot, k) <==> exists j :: k <= j && Stands(w.h, slot, j))
            && (HeldSince(w.h, w.tokens, slot, k) ==>
                  EntryAt(w.h, |w.h.log|, slot, Origin(w.h, slot)) == Some(w.tokens[slot]))
    ensures k < |w.h.log| && w.h.log[k].Stored?
    ensures w.h.log[k].p == w.h.log[i].p
            && (forall d | k < d < |w.h.log| :: w.h.log[d] != Deleted(w.h.log[i].p, w.h.log[i].sub)) ==>
              HeldSince(w.h, w.tokens, (w.h.log[i].p, w.h.log[i].sub), k)
  {
    hide EventsOk, IndexOk, PendingsOk, SignalsOk, SessionsOk, PcOk, Run;
    StoredBeforeSignalled(now, tokens, acts, w, i);
    Reachable(now, tokens, acts, w);
    var slot := (w.h.log[i].p, w.h.log[i].sub);
    assert TokenOk(w.h, w.tokens, slot);
    HeldIffWriteStands(w.h, w.tokens, slot, k);
    assert w.h.log[k].p == w.h.log[i].p
           && (forall d | k < d < |w.h.log| :: w.h.log[d] != Deleted(w.h.log[i].p, w.h.log[i].sub)) ==>
             Stands(w.h, slot, k);
  }

  /** At time `now`, the expiry check lets a token pass whose response came at `issued`. */
  predicate PassesExpiry(raw: Fields, issued: real, now: real) {
    match T.ToFloat(Lookup(raw, "expires_in"))
    case None => true
    case Some(lifetime) => (now.Floor + T.EXPIRY_BUFFER) as real < issued.Floor as real + lifetime
  }

  /** What a call is given when the entry of a token response is read for it after its signal:
      the access token if it is non-empty text and passes the expiry check; nothing if it
      passes but is not; otherwise a refresh if there is a refresh token and a refresh
      function, and nothing if not. */
  function AfterReading(c: Call, st: string, raw: Fields, issued: real, entry: Fields, k: nat, now: real): Pc {
    if PassesExpiry(raw, issued, now) then
      Leaving(c, st, TokenGrant(AsString(Lookup(raw, "access_token"))), Some(k), now)
    else if AsString(Lookup(raw, "refresh_token")) != "" && c.p.OAuth? && c.p.canRefresh then
      Refreshing(c, Final(st), entry, Some(k))
    else
      Leaving(c, st, Nothing, None, now)
  }

  lemma DecisionOnResponse(raw: Fields, issued: real, now: real, canRefresh: bool)
    ensures T.Decide(T.NormalizeTokenData(raw, issued.Floor), now.Floor, canRefresh)
         == if PassesExpiry(raw, issued, now) then T.Serve(AsString(Lookup(raw, "access_token")))
            else if AsString(Lookup(raw, "refresh_token")) != "" && canRefresh
                 then T.Refresh(AsString(Lookup(raw, "refresh_token")))
            else T.Reauthorise
  {
  }

  /** The write at `k` is the last that touched `slot`. */
  ghost predicate LastTouch(h: History, slot: Slot, k: nat) {
    && k < |h.log| && h.log[k].Stored? && (h.log[k].p, h.log[k].sub) == slot
    && forall j | k < j < |h.log| ::
         h.log[j] != Deleted(slot.0, slot.1) && !(h.log[j].Stored? && (h.log[j].p, h.log[j].sub) == slot)
  }

  lemma LastTouchIsHeld(h: History, tokens: map<Slot, Fields>, slot: Slot, k: nat)
    requires SlotsOk(h) && TokenOk(h, tokens, slot) && LastTouch(h, slot, k)
    ensures slot in tokens && tokens[slot] == h.log[k].entry && Origin(h, slot) == Some(k)
  {
    assert Stands(h, slot, k);
    HeldIffWriteStands(h, tokens, slot, k);
  }

  /** What the woken call's re-read yields, if its own provider stored the announced entry and
      nothing has touched its slot since: credentials as they were saved; for a token response
      as `AfterReading` says, so the call is given a token if and only if the response has a
      non-empty text as access_token and passes the expiry check. */
  lemma SignalledCallReads(now: real, tokens: map<Slot, Fields>, acts: seq<Action>, w: World,
                           t: nat, c: Call, st: string, i: nat, k: nat)
    requires Run(Begin(now, tokens), acts) == Some(w)
    requires t in w.threads && w.threads[t] == Reading(c, Final(st))
    requires i < |w.h.log| && w.h.log[i].Received? && w.h.log[i].st == st && Announced(w.h, i) == Some(k)
    requires LastTouch(w.h, (c.p, c.sub), k)
    ensures Issue(w.h, k).Some? == c.p.OAuth?
    ensures c.p.Form? ==> Next(w, Read(t)).threads[t] == Leaving(c, st, Secrets(w.h.log[k].entry), Some(k), w.now)
    ensures c.p.OAuth? ==>
              var (raw, issued) := Issue(w.h, k).value;
              var pc := Next(w, Read(t)).threads[t];
              && pc == AfterReading(c, st, raw, issued, w.h.log[k].entry, k, w.now)
              && (pc.Leaving? && pc.g.Token? <==>
                    AsString(Lookup(raw, "access_token")) != "" && PassesExpiry(raw, issued, w.now))
  {
    hide EventsOk, IndexOk, PendingsOk, SignalsOk, SessionsOk, PcOk, Run, SlotsOk, T.Decide, PassesExpiry, Stands;
    Reachable(now, tokens, acts, w);
    AnnouncedEntry(now, tokens, acts, w, i, k);
    assert TokenOk(w.h, w.tokens, (c.p, c.sub));
    LastTouchIsHeld(w.h, w.tokens, (c.p, c.sub), k);
    if c.p.OAuth? {
      DecisionOnResponse(Issue(w.h, k).value.0, Issue(w.h, k).value.1, w.now, c.p.canRefresh);
    }
  }

  /** The announced entry is the saved form or the normalised response of a code exchange. */
  lemma AnnouncedEntry(now: real, tokens: map<Slot, Fields>, acts: seq<Action>, w: World, i: nat, k: nat)
    requires Run(Begin(now, tokens), acts) == Some(w) && i < |w.h.log| && w.h.log[i].Received?
    requires Announced(w.h, i) == Some(k)
    ensures k < |w.h.log| && w.h.log[k].Stored? && Issue(w.h, k).Some? == w.h.log[k].p.OAuth?
    ensures w.h.log[k].p.OAuth? ==>
              var (raw, issued) := Issue(w.h, k).value; w.h.log[k].entry == T.NormalizeTokenData(raw, issued.Floor)
  {
    hide StoresOk, SessionsOk, SlotsOk, IndexOk, PcOk, Run;
    StoredBeforeSignalled(now, tokens, acts, w, i);
    Reachable(now, tokens, acts, w);
    assert EventOk(w.h, k, w.h.log[k]);
    if w.h.log[k].src.FromCode? {
      assert EventOk(w.h, w.h.log[k].src.exchanged, w.h.log[w.h.log[k].src.exchanged]);
    }
  }

  /** One more action at the end of a run. */
  lemma Then(start: World, acts: seq<Action>, w: World, a: Action) returns (longer: seq<Action>, v: World)
    requires Run(start, acts) == Some(w) && Enabled(w, a)
    ensures longer == acts + [a] && v == Next(w, a) && Run(start, longer) == Some(v)
  {
    longer, v := acts + [a], Next(w, a);
    assert longer[..|acts|] == acts;
  }

  lemma NoActions(start: World)
    ensures Run(start, []) == Some(start)
  {
  }

  /** The world of one call whose state is open, with nothing stored or signalled. */
  predicate Alone(w: World, now: real, pc: Pc, p: Provider, sub: string, st: string) {
    && w.now == now && w.threads == map[0 := pc] && w.tokens == map[] && w.signals == map[]
    && w.pending == map[st := Pending(Metadata(sub), Lifetime(p) as real)] && w.h.log == [Created(st, p, sub, 0, 0.0)]
    && w.h.marks == map[CreatedMark(st) := 0]
  }

  lemma ACallOpens(p: Provider, sub: string, st: string) returns (acts: seq<Action>, w: World)
    ensures Run(Begin(0.0, map[]), acts) == Some(w)
    ensures Alone(w, 0.0, Registering(Call(p, sub, false), st), p, sub, st)
  {
    hide Run;
    var start := Begin(0.0, map[]);
    NoActions(start);
    acts, w := Then(start, [], start, StartCall(0, Call(p, sub, false)));
    acts, w := Then(start, acts, w, Read(0));
    assert w.threads == map[0 := Opening(Call(p, sub, false))] && w.h.log == [];
    acts, w := Then(start, acts, w, Open(0, st));
  }

  /** A call opens `st` at time 0 and, its prompt answered after `delay`, waits. */
  lemma ACallWaits(p: Provider, sub: string, st: string, delay: real) returns (acts: seq<Action>, w: World)
    requires delay >= 0.0
    ensures Run(Begin(0.0, map[]), acts) == Some(w)
    ensures Alone(w, delay, Waiting(Call(p, sub, false), st, delay), p, sub, st)
  {
    hide Run;
    var start := Begin(0.0, map[]);
    acts, w := ACallOpens(p, sub, st);
    acts, w := Then(start, acts, w, Register(0));
    acts, w := Then(start, acts, w, Tick(delay));
    acts, w := Then(start, acts, w, ElicitReply(0, Accept));
  }

  lemma AProviderPops(p: Provider, q: Provider, sub: string, st: string, acts: seq<Action>, w: World)
    returns (longer: seq<Action>, v: World)
    requires q.OAuth? && st != "" && Lifetime(p) >= 0
    requires Run(Begin(0.0, map[]), acts) == Some(w)
    requires Alone(w, 0.0, Waiting(Call(p, sub, false), st, 0.0), p, sub, st)
    ensures Run(Begin(0.0, map[]), longer) == Some(v) && v.now == 0.0 && v.tokens == map[]
    ensures v.threads == map[0 := Waiting(Call(p, sub, false), st, 0.0), 1 := Exchanging(q, st, sub)]
  {
    hide Run;
    var start := Begin(0.0, map[]);
    longer, v := Then(start, acts, w, StartRequest(1, q, Redirect("", "code", st)));
    longer, v := Then(start, longer, v, Pop(1));
  }

  lemma AProviderSaves(p: Provider, q: Provider, sub: string, st: string, acts: seq<Action>, w: World, raw: Fields)
    returns (longer: seq<Action>, v: World)
    requires Run(Begin(0.0, map[]), acts) == Some(w) && w.now == 0.0 && w.tokens == map[]
    requires w.threads == map[0 := Waiting(Call(p, sub, false), st, 0.0), 1 := Exchanging(q, st, sub)]
    ensures Run(Begin(0.0, map[]), longer) == Some(v) && v.now == 0.0
    ensures v.tokens == map[(q, sub) := T.NormalizeTokenData(raw, 0)]
    ensures 0 in v.threads && v.threads[0] == Waiting(Call(p, sub, false), st, 0.0)
    ensures 1 in v.threads && v.threads[1].Signalling? && v.threads[1].st == st && v.threads[1].doc == Success(sub)
  {
    hide Run, T.NormalizeTokenData;
    var start := Begin(0.0, map[]);
    longer, v := Then(start, acts, w, ExchangeReply(1, Some(raw)));
    longer, v := Then(start, longer, v, Save(1));
  }

  /** The last event is a success signal that call 0 has received. */
  predicate JustWoken(w: World, sub: string) {
    |w.h.log| > 0 && var e := w.h.log[|w.h.log| - 1]; e.Received? && e.t == 0 && e.doc == Success(sub)
  }

  lemma TheSignalIsSent(p: Provider, sub: string, st: string, acts: seq<Action>, w: World)
    returns (longer: seq<Action>, v: World)
    requires Run(Begin(0.0, map[]), acts) == Some(w) && 0 in w.threads
    requires w.threads[0] == Waiting(Call(p, sub, false), st, 0.0)
    requires 1 in w.threads && w.threads[1].Signalling? && w.threads[1].st == st && w.threads[1].doc == Success(sub)
    ensures Run(Begin(0.0, map[]), longer) == Some(v) && v.now == w.now && v.tokens == w.tokens
    ensures 0 in v.threads && v.threads[0] == w.threads[0] && st in v.signals && v.signals[st] == Success(sub)
  {
    hide Run, Success;
    longer, v := Then(Begin(0.0, map[]), acts, w, SendSignal(1, true));
  }

  lemma TheCallWakes(p: Provider, sub: string, st: string, acts: seq<Action>, w: World)
    returns (longer: seq<Action>, v: World)
    requires Run(Begin(0.0, map[]), acts) == Some(w) && 0 in w.threads
    requires w.threads[0] == Waiting(Call(p, sub, false), st, 0.0) && st in w.signals && w.signals[st] == Success(sub)
    ensures Run(Begin(0.0, map[]), longer) == Some(v) && v.now == w.now && v.tokens == w.tokens
    ensures 0 in v.threads && v.threads[0] == Reading(Call(p, sub, false), Final(st)) && JustWoken(v, sub)
  {
    hide Run, Success;
    longer, v := Then(Begin(0.0, map[]), acts, w, EndWait(0, Signal));
  }

  /** A call of provider `p` is woken by the callback that provider `q` handles for its state
      with token response `raw`. */
  lemma ACallIsAnswered(p: Provider, q: Provider, sub: string, st: string, raw: Fields)
    returns (acts: seq<Action>, w: World)
    requires q.OAuth? && st != "" && Lifetime(p) >= 0
    ensures Run(Begin(0.0, map[]), acts) == Some(w) && w.now == 0.0 && JustWoken(w, sub)
    ensures w.tokens == map[(q, sub) := T.NormalizeTokenData(raw, 0)]
    ensures 0 in w.threads && w.threads[0] == Reading(Call(p, sub, false), Final(st))
  {
    hide Run, Alone, JustWoken, T.NormalizeTokenData;
    acts, w := ACallWaits(p, sub, st, 0.0);
    acts, w := AProviderPops(p, q, sub, st, acts, w);
    acts, w := AProviderSaves(p, q, sub, st, acts, w, raw);
    acts, w := TheSignalIsSent(p, sub, st, acts, w);
    acts, w := TheCallWakes(p, sub, st, acts, w);
  }

  /** The condition that the callback is of the call's own provider is needed, because the
      pending store is shared: a callback that another provider handles wakes the call with a
      success signal, yet leaves nothing for it to read. */
  lemma ForeignCallbackLeavesNothingToRead(p: Provider, q: Provider, sub: string, st: string, raw: Fields)
    returns (acts: seq<Action>, w: World)
    requires p.OAuth? && q.OAuth? && p != q && p.timeout >= 0.0 && st != ""
    ensures Run(Begin(0.0, map[]), acts) == Some(w) && JustWoken(w, sub)
    ensures 0 in w.threads && w.threads[0] == Reading(Call(p, sub, false), Final(st)) && (p, sub) !in w.tokens
  {
    hide Run, JustWoken;
    acts, w := ACallIsAnswered(p, q, sub, st, raw);
  }

  /** Nor is the call's own provider enough: a response that is about to expire, without a
      refresh token, is stored and signalled as a success, and the call comes away with
      nothing. */
  lemma ShortLivedTokenIsNotServed(p: Provider, sub: string, st: string) returns (acts: seq<Action>, w: World)
    requires p.OAuth? && p.timeout >= 0.0 && st != ""
    ensures Run(Begin(0.0, map[]), acts) == Some(w) && JustWoken(w, sub)
    ensures (p, sub) in w.tokens && T.AccessToken(w.tokens[(p, sub)]) == "a"
    ensures 0 in w.threads && w.threads[0] == Leaving(Call(p, sub, false), st, Nothing, None, 0.0)
  {
    hide Run, JustWoken;
    var raw: Fields := map["access_token" := Str("a"), "expires_in" := Float(10.0)];
    acts, w := ACallIsAnswered(p, p, sub, st, raw);
    var entry := T.NormalizeTokenData(raw, 0);
    assert Lookup(entry, "expires_at") == Float(10.0) && Lookup(entry, "refresh_token") == Null;
    assert Lookup(entry, "access_token") == Str("a");
    ghost var before := w;
    acts, w := Then(Begin(0.0, map[]), acts, w, Read(0));
    assert JustWoken(w, sub) by { ReadingKeepsLog(before, 0, sub); }
  }

  lemma ReadingKeepsLog(w: World, t: nat, sub: string)
    requires Enabled(w, Read(t)) && JustWoken(w, sub)
    ensures JustWoken(Next(w, Read(t)), sub)
  {
  }

  // ----- sessions -----

  /** The registered sessions are exactly those of the blocking calls between registration
      and return, whichever way those calls end. */
  lemma SessionsAreTheBlockedCalls(now: real, tokens: map<Slot, Fields>, acts: seq<Action>, w: World)
    requires Run(Begin(now, tokens), acts) == Some(w)
    ensures forall key :: key in w.sessions <==> exists t :: t in w.threads && SessionKey(w.threads[t]) == Some(key)
    ensures forall t | t in w.threads && SessionKey(w.threads[t]).Some? ::
              SessionKey(w.threads[t]).value in w.sessions && w.sessions[SessionKey(w.threads[t]).value] == t
  {
    Reachable(now, tokens, acts, w);
  }

  /** A fail-fast call never registers, prompts or waits. */
  lemma FailFastCallsNeverBlock(now: real, tokens: map<Slot, Fields>, acts: seq<Action>, w: World, t: nat)
    requires Run(Begin(now, tokens), acts) == Some(w) && t in w.threads && SessionKey(w.threads[t]).Some?
    ensures !w.threads[t].c.failFast
  {
    hide HistoryOk, StoresOk, SessionsOk, Run;
    Reachable(now, tokens, acts, w);
    assert PcOk(w.h, t, w.threads[t]);
  }

  // ----- credentials -----

  /** Every credentials entry saved during a run has exactly the declared names, with no
      required value blank. */
  lemma SavedCredentialsAreWellFormed(now: real, tokens: map<Slot, Fields>, acts: seq<Action>, w: World, i: nat)
    requires Run(Begin(now, tokens), acts) == Some(w) && i < |w.h.log|
    requires w.h.log[i].Stored? && w.h.log[i].p.Form?
    ensures C.WellFormed(w.h.log[i].p.vars, w.h.log[i].entry)
  {
    hide StoresOk, SessionsOk, SlotsOk, PcOk, Run;
    Reachable(now, tokens, acts, w);
    assert EventOk(w.h, i, w.h.log[i]);
    assert forall x | 0 <= x < |w.h.log| && w.h.log[x].Exchanged? :: EventOk(w.h, x, w.h.log[x]);
  }

  /** A form that does not parse, or leaves a required field blank. */
  predicate Rejected(pc: Pc) {
    && pc.Popping? && pc.p.Form? && pc.req.Post?
    && (pc.req.form.None? || !C.Acceptable(pc.p.vars, pc.req.form.value))
  }

  /** One step of others leaves an ended thread ended and silent. */
  lemma EndedStaysSilent(w: World, a: Action, t: nat)
    requires Inv(w) && Enabled(w, a) && t in w.threads && w.threads[t].Ended?
    ensures var v := Next(w, a);
            && t in v.threads && v.threads[t].Ended? && w.h.log <= v.h.log
            && forall j | |w.h.log| <= j < |v.h.log| :: Author(v.h.log[j]) != Some(t)
  {
    hide Inv, Next, Core, SessionsOk, PcOk, Addable;
    assert Actor(a) != Some(t);
    ActionOk(w, a);
  }

  lemma {:induction false} EndedThreadsStaySilent(w: World, acts: seq<Action>, v: World, t: nat)
    requires Inv(w) && Run(w, acts) == Some(v) && t in w.threads && w.threads[t].Ended?
    ensures t in v.threads && v.threads[t].Ended? && w.h.log <= v.h.log
    ensures forall j | |w.h.log| <= j < |v.h.log| :: Author(v.h.log[j]) != Some(t)
  {
    hide Inv, Next, Enabled, Author;
    if acts != [] {
      var n := |acts| - 1;
      var mid := Run(w, acts[..n]).value;
      EndedThreadsStaySilent(w, acts[..n], mid, t);
      RunKeepsInv(w, acts[..n]);
      EndedStaysSilent(mid, acts[n], t);
    }
  }

  /** A thread that has not begun, or is about to make its pop. */
  predicate Untouched(w: World, t: nat) {
    t !in w.threads || w.threads[t].Popping?
  }

  /** No step of a call leads to a pop. */
  lemma CallsNeverPop(w: World, a: Action)
    requires Enabled(w, a) && Actor(a).Some?
    requires !(a.StartRequest? || a.Pop? || a.ExchangeReply? || a.Save? || a.SendSignal? || a.Fail?)
    ensures a.t in Next(w, a).threads && !Next(w, a).threads[a.t].Popping?
  {
    hide PutToken, DropToken, CreatePending, PopPending, TakeSignal, Log;
  }

  /** Nor does a step of a request that has begun. */
  lemma RequestsPopOnce(w: World, a: Action)
    requires Enabled(w, a) && (a.Pop? || a.ExchangeReply? || a.Save? || a.SendSignal? || a.Fail?)
    ensures a.t in Next(w, a).threads && !Next(w, a).threads[a.t].Popping?
  {
    hide PutToken, PopPending, PutSignal, Log;
  }

  lemma StartIsQuiet(w: World, a: Action)
    requires Enabled(w, a) && a.StartRequest?
    ensures Untouched(w, a.t) && Next(w, a).h == w.h && a.t in Next(w, a).threads
  {
  }

  /** Only the start of a request leads to a pop. */
  lemma PoppingIsFirst(w: World, a: Action, t: nat)
    requires Inv(w) && Enabled(w, a) && Untouched(Next(w, a), t)
    ensures Untouched(w, t)
    ensures forall j | |w.h.log| <= j < |Next(w, a).h.log| :: Author(Next(w, a).h.log[j]) != Some(t)
    ensures w.h.log <= Next(w, a).h.log
  {
    hide Inv, Enabled, Next, Core, SessionsOk, PcOk, Addable;
    ActionOk(w, a);
    if Actor(a) == Some(t) {
      if a.StartRequest? {
        StartIsQuiet(w, a);
      } else if a.Pop? || a.ExchangeReply? || a.Save? || a.SendSignal? || a.Fail? {
        RequestsPopOnce(w, a);
      } else {
        CallsNeverPop(w, a);
      }
    }
  }

  lemma {:induction false} UntouchedThreadsAreSilent(start: World, acts: seq<Action>, w: World, t: nat)
    requires Inv(start) && start.h.log == [] && Run(start, acts) == Some(w) && Untouched(w, t)
    ensures forall j | 0 <= j < |w.h.log| :: Author(w.h.log[j]) != Some(t)
  {
    hide Inv, Next, Enabled, Author, Untouched;
    if acts != [] {
      var n := |acts| - 1;
      var mid := Run(start, acts[..n]).value;
      RunKeepsInv(start, acts[..n]);
      PoppingIsFirst(mid, acts[n], t);
      UntouchedThreadsAreSilent(start, acts[..n], mid, t);
    }
  }

  lemma RejectionStep(w: World, t: nat)
    requires Enabled(w, Pop(t)) && Rejected(w.threads[t])
    ensures var v := Next(w, Pop(t));
            && v.tokens == w.tokens && v.signals == w.signals && t in v.threads && v.threads[t] == Ended
            && w.h.log <= v.h.log && forall j | |w.h.log| <= j < |v.h.log| :: v.h.log[j].Popped?
  {
  }

  /** A rejected submission changes no credentials and no signal when it pops, and in no
      continuation of the run does the log hold anything of its thread but that pop: it has
      stored nothing and signalled nobody, and never will. */
  lemma RejectedSubmissionChangesNothing(now: real, tokens: map<Slot, Fields>, acts: seq<Action>, w: World, t: nat,
                                         more: seq<Action>, v: World)
    requires Run(Begin(now, tokens), acts) == Some(w) && Enabled(w, Pop(t)) && Rejected(w.threads[t])
    requires Run(Next(w, Pop(t)), more) == Some(v)
    ensures Next(w, Pop(t)).tokens == w.tokens && Next(w, Pop(t)).signals == w.signals
    ensures t in v.threads && v.threads[t] == Ended
    ensures forall j | 0 <= j < |v.h.log| && Author(v.h.log[j]) == Some(t) :: v.h.log[j].Popped?
  {
    hide Run, Inv, Next, Author;
    Reachable(now, tokens, acts, w);
    NoActions(Begin(now, tokens));
    Reachable(now, tokens, [], Begin(now, tokens));
    UntouchedThreadsAreSilent(Begin(now, tokens), acts, w, t);
    RejectionStep(w, t);
    var popped := Next(w, Pop(t));
    ActionOk(w, Pop(t));
    StepOkKeepsInv(w, popped, Some(t));
    EndedThreadsStaySilent(popped, more, v, t);
  }

  // ----- closed states -----

  /** A state that was created and is no longer pending. */
  predicate Closed(w: World, st: string) {
    CreatedMark(st) in w.h.marks && st !in w.pending
  }

  /** Between `w` and `v` the state stays closed and nobody wins it. */
  ghost predicate StaysClosed(w: World, v: World, st: string) {
    Closed(v, st) && (PoppedMark(st) in v.h.marks ==> PoppedMark(st) in w.h.marks)
  }

  lemma PendingStepKeepsClosed(w: World, a: Action, st: string)
    requires Enabled(w, a) && Closed(w, st) && (a.Open? || a.Pop? || a.DeclinePop?)
    ensures StaysClosed(w, Next(w, a), st)
  {
  }

  lemma CallStepKeepsClosed(w: World, a: Action, st: string)
    requires Enabled(w, a) && Closed(w, st)
    requires a.SaveRefreshed? || a.DropStale? || a.EndWait? || a.Serve? || a.Invalidate?
    ensures StaysClosed(w, Next(w, a), st)
  {
  }

  /** Logging anything but a creation or a pop keeps a state closed. */
  lemma PlainLogKeepsClosed(w: World, u: World, e: Event, st: string)
    requires Closed(w, st) && !e.Created? && !e.Popped? && u.h == Extend(w.h, e) && u.pending == w.pending
    ensures StaysClosed(w, u, st)
  {
  }

  lemma ExchangeKeepsClosed(w: World, t: nat, reply: Option<Fields>, st: string)
    requires Enabled(w, ExchangeReply(t, reply)) && Closed(w, st)
    ensures StaysClosed(w, Next(w, ExchangeReply(t, reply)), st)
  {
    hide Extend, StaysClosed, T.NormalizeTokenData;
    var pc := w.threads[t];
    if reply.Some? {
      var e := Exchanged(pc.p, pc.st, pc.sub, t, reply.value, w.now, Position(w.h, PoppedMark(pc.st)));
      PlainLogKeepsClosed(w, Next(w, ExchangeReply(t, reply)), e, st);
    } else {
      UnloggedKeepsClosed(w, Next(w, ExchangeReply(t, reply)), st);
    }
  }

  lemma UnloggedKeepsClosed(w: World, u: World, st: string)
    requires Closed(w, st) && u.h == w.h && u.pending == w.pending
    ensures StaysClosed(w, u, st)
  {
  }

  lemma RequestStepKeepsClosed(w: World, a: Action, st: string)
    requires Enabled(w, a) && Closed(w, st) && (a.Save? || a.SendSignal?)
    ensures StaysClosed(w, Next(w, a), st)
  {
    hide Extend, StaysClosed;
    var pc := w.threads[a.t];
    if a.Save? {
      PlainLogKeepsClosed(w, Next(w, a), Stored(pc.p, pc.sub, pc.entry, pc.src), st);
    } else if a.kept {
      PlainLogKeepsClosed(w, Next(w, a), Signalled(pc.st, pc.doc, a.t, pc.why), st);
    } else {
      UnloggedKeepsClosed(w, Next(w, a), st);
    }
  }

  /** A step that neither logs anything nor adds a pending entry. */
  predicate Quiet(a: Action) {
    || a.Tick? || a.StartCall? || a.StartRequest? || a.LoseSignal? || a.Purge? || a.Read? || a.RefreshReply?
    || a.Register? || a.ElicitReply? || a.Leave? || a.Fail?
  }

  lemma QuietStepKeepsClosed(w: World, a: Action, st: string)
    requires Enabled(w, a) && Closed(w, st) && Quiet(a)
    ensures StaysClosed(w, Next(w, a), st)
  {
    hide Looked, FirstPc, Failed;
  }

  /** A closed state stays closed, whatever follows, and nobody wins it any more. */
  lemma {:induction false} ClosedStatesStayClosed(w: World, acts: seq<Action>, v: World, st: string)
    requires Run(w, acts) == Some(v) && Closed(w, st)
    ensures StaysClosed(w, v, st)
  {
    hide Enabled, Next;
    if acts != [] {
      var n := |acts| - 1;
      var mid := Run(w, acts[..n]).value;
      ClosedStatesStayClosed(w, acts[..n], mid, st);
      var a := acts[n];
      if a.Open? || a.Pop? || a.DeclinePop? {
        PendingStepKeepsClosed(mid, a, st);
      } else if a.SaveRefreshed? || a.DropStale? || a.EndWait? || a.Serve? || a.Invalidate? {
        CallStepKeepsClosed(mid, a, st);
      } else if a.ExchangeReply? {
        ExchangeKeepsClosed(mid, a.t, a.reply, st);
      } else if a.Save? || a.SendSignal? {
        RequestStepKeepsClosed(mid, a, st);
      } else {
        QuietStepKeepsClosed(mid, a, st);
      }
    }
  }

  lemma PopPendingCloses(w: World, st: string, t: nat, declined: bool)
    ensures st !in PopPending(w, st, t, declined).pending
    ensures CreatedMark(st) in w.h.marks ==> CreatedMark(st) in PopPending(w, st, t, declined).h.marks
  {
  }

  lemma PopCloses(w: World, a: Action, st: string)
    requires Enabled(w, a) && (a.Pop? || a.DeclinePop?) && w.threads[a.t].st == st
    ensures st !in Next(w, a).pending
    ensures CreatedMark(st) in w.h.marks ==> Closed(Next(w, a), st)
  {
    hide Won, PopPending, Poppable;
    PopPendingCloses(w, st, a.t, a.DeclinePop?);
  }

  /** A pop closes its state, win or lose: a callback or submission, also one that is rejected
      afterwards, and a decline each use up the state for good. */
  lemma PopsCloseTheirState(now: real, tokens: map<Slot, Fields>, acts: seq<Action>, w: World, a: Action)
    requires Run(Begin(now, tokens), acts) == Some(w) && Enabled(w, a) && (a.Pop? || a.DeclinePop?)
    ensures w.threads[a.t].st !in Next(w, a).pending
    ensures a.DeclinePop? || Poppable(w, w.threads[a.t].st) ==> Closed(Next(w, a), w.threads[a.t].st)
  {
    hide HistoryOk, TokensOk, SignalsOk, SessionsOk, Run, Next, Closed;
    Reachable(now, tokens, acts, w);
    var st := w.threads[a.t].st;
    PopCloses(w, a, st);
    assert PcOk(w.h, a.t, w.threads[a.t]);
    assert st in w.pending ==> PendingOk(w.h, w.pending, st);
  }

  // ----- the wait against the lifetime of the pending entry -----

  /** The part of a second that int(timeout) cuts off. */
  function CutOff(p: Provider): real {
    p.timeout - Truncated(p.timeout) as real
  }

  /** `now` is not past the deadline of a wait begun at `since`. */
  predicate InTime(p: Provider, since: real, now: real) {
    now <= since + p.timeout
  }

  /** An entry opened at `start` can still be popped at `now`. */
  predicate Unexpired(p: Provider, start: real, now: real) {
    now <= start + Lifetime(p) as real
  }

  /** For an entry opened at `start` and a wait begun at `since`, every moment up to the wait
      deadline finds the entry unexpired if and only if the time to answer the prompt and the
      cut-off fraction of the timeout fit in the slack. */
  lemma WindowCoveredIff(p: Provider, start: real, since: real)
    ensures (forall now | InTime(p, since, now) :: Unexpired(p, start, now))
       <==> (since - start) + CutOff(p) <= Slack(p) as real
  {
    assert InTime(p, since, since + p.timeout);
  }

  /** In a run: while a call waits and nobody has won its state, a callback or submission that
      pops now succeeds if and only if the entry's lifetime, counted from its creation, has not
      run out. */
  lemma WaitingStateIsPoppableIff(now: real, tokens: map<Slot, Fields>, acts: seq<Action>, w: World,
                                  t: nat, open: Event)
    requires Run(Begin(now, tokens), acts) == Some(w) && t in w.threads && w.threads[t].Waiting?
    requires PoppedMark(w.threads[t].st) !in w.h.marks
    requires open in w.h.log && open.Created? && open.st == w.threads[t].st
    ensures open.p == w.threads[t].c.p && open.t == t
    ensures Poppable(w, w.threads[t].st) <==> Unexpired(open.p, open.at, w.now)
  {
    hide SlotsOk, EventsOk, TokensOk, SignalsOk, SessionsOk, Run;
    Reachable(now, tokens, acts, w);
    var pc := w.threads[t];
    assert PcOk(w.h, t, pc);
    var i :| 0 <= i < |w.h.log| && w.h.log[i] == open;
    assert MarkOf(w.h.log[i]) == Some(CreatedMark(pc.st));
    assert StillPending(w.h, w.pending, w.now, i);
    assert pc.st in w.pending ==> PendingOk(w.h, w.pending, pc.st);
  }

  lemma TickKeepsWaiting(w: World, t: nat, d: real)
    requires t in w.threads && w.threads[t].Waiting? && d >= 0.0
    ensures Enabled(w, Tick(d)) && Next(w, Tick(d)).threads == w.threads
    ensures Next(w, Tick(d)).h == w.h && Next(w, Tick(d)).now == w.now + d
  {
  }

  /** In a run: from any moment of a wait, with nobody having won its state yet, a callback is
      accepted at every later moment up to the deadline, if nobody comes before it, if and
      only if the time to answer the prompt and the cut-off fraction fit in the slack. */
  lemma InTimePopsSucceedIff(now: real, tokens: map<Slot, Fields>, acts: seq<Action>, w: World, t: nat, open: Event)
    requires Run(Begin(now, tokens), acts) == Some(w) && t in w.threads && w.threads[t].Waiting?
    requires PoppedMark(w.threads[t].st) !in w.h.marks && InTime(w.threads[t].c.p, w.threads[t].since, w.now)
    requires open in w.h.log && open.Created? && open.st == w.threads[t].st
    ensures (forall d | d >= 0.0 && InTime(w.threads[t].c.p, w.threads[t].since, w.now + d) ::
               Poppable(Next(w, Tick(d)), w.threads[t].st))
       <==> (w.threads[t].since - open.at) + CutOff(open.p) <= Slack(open.p) as real
  {
    hide Run, Next, Poppable;
    var pc := w.threads[t];
    forall d | d >= 0.0
      ensures Poppable(Next(w, Tick(d)), pc.st) <==> Unexpired(open.p, open.at, w.now + d)
      ensures open.p == pc.c.p
    {
      TickKeepsWaiting(w, t, d);
      var longer, v := Then(Begin(now, tokens), acts, w, Tick(d));
      WaitingStateIsPoppableIff(now, tokens, longer, v, t, open);
    }
    var rest := pc.since + pc.c.p.timeout - w.now;
    assert Poppable(Next(w, Tick(rest)), pc.st) <==> Unexpired(open.p, open.at, w.now + rest);
  }

  /** OAuth entries outlive the wait whenever the prompt is answered within 59 seconds,
      whatever the timeout and its fraction. */
  lemma OAuthWindowHolds(p: Provider, start: real, since: real)
    requires p.OAuth? && since - start <= 59.0
    ensures forall now | InTime(p, since, now) :: Unexpired(p, start, now)
  {
  }

  lemma ASubmissionArrives(p: Provider, sub: string, st: string, since: real, d: real, form: Option<C.Form>,
                           acts: seq<Action>, w: World) returns (longer: seq<Action>, v: World)
    requires Run(Begin(0.0, map[]), acts) == Some(w) && p.Form? && d >= 0.0 && st != ""
    requires Alone(w, since, Waiting(Call(p, sub, false), st, since), p, sub, st)
    ensures Run(Begin(0.0, map[]), longer) == Some(v) && v.now == since + d && v.pending == w.pending && v.h == w.h
    ensures v.threads == map[0 := Waiting(Call(p, sub, false), st, since), 1 := Popping(p, st, Post(st, form))]
  {
    hide Run;
    var start := Begin(0.0, map[]);
    longer, v := Then(start, acts, w, Tick(d));
    longer, v := Then(start, longer, v, StartRequest(1, p, Post(st, form)));
  }

  /** Credentials entries have no slack: as soon as the prompt takes any time at all, there is a
      run in which a submission comes before the wait's deadline, with nobody before it, and is
      refused. */
  lemma FormWindowFallsShort(p: Provider, sub: string, st: string, delay: real, form: Option<C.Form>)
    returns (acts: seq<Action>, w: World)
    requires p.Form? && p.timeout > 0.0 && delay > 0.0 && st != ""
    ensures Run(Begin(0.0, map[]), acts) == Some(w) && w.h.log == [Created(st, p, sub, 0, 0.0)]
    ensures w.threads == map[0 := Waiting(Call(p, sub, false), st, delay), 1 := Popping(p, st, Post(st, form))]
    ensures w.now < delay + p.timeout && !Poppable(w, st)
  {
    hide Run;
    acts, w := ACallWaits(p, sub, st, delay);
    var rest := if p.timeout >= delay / 2.0 then p.timeout - delay / 2.0 else 0.0;
    acts, w := ASubmissionArrives(p, sub, st, delay, rest, form, acts, w);
  }
}

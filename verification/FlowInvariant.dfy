/** The invariant of the provider flows and its preservation by every step. */
module FlowInvariant {
  import opened Values
  import opened Flows
  import T = Tokens
  import C = Credentials

  // ----- the log justifies itself -----

  function GrantOf(p: Provider, entry: Fields): Grant {
    if p.Form? then Secrets(entry) else TokenGrant(T.AccessToken(entry))
  }

  /** The entry written to `slot` at a position before `n`, or the one held at the start. */
  function EntryAt(h: History, n: nat, slot: Slot, origin: Option<nat>): Option<Fields> {
    match origin
    case None => if slot in h.initial then Some(h.initial[slot]) else None
    case Some(i) =>
      if i < n <= |h.log| && h.log[i].Stored? && (h.log[i].p, h.log[i].sub) == slot then Some(h.log[i].entry) else None
  }

  /** The entry at `origin` was fit to be served at time `at`: by the expiry check, or because
      thread `t` had just obtained it by a refresh. */
  predicate Timely(h: History, slot: Slot, entry: Fields, origin: Option<nat>, t: nat, at: real) {
    || slot.0.Form?
    || T.Decide(entry, at.Floor, slot.0.canRefresh).Serve?
    || (origin.Some? && origin.value < |h.log| && h.log[origin.value].Stored?
        && h.log[origin.value].src.FromRefresh? && h.log[origin.value].src.t == t)
  }

  predicate GrantOk(h: History, n: nat, slot: Slot, g: Grant, origin: Option<nat>, t: nat, at: real) {
    g.Nothing? ||
    (&& EntryAt(h, n, slot, origin).Some?
     && g == GrantOf(slot.0, EntryAt(h, n, slot, origin).value)
     && Timely(h, slot, EntryAt(h, n, slot, origin).value, origin, t, at))
  }

  /** A success signal points at the entry stored before it by the same thread for the same
      state; any other signal is an error. */
  predicate Announces(h: History, n: nat, st: string, doc: Fields, t: nat, why: Option<nat>) {
    match why
    case None => "error" in doc
    case Some(i) =>
      && i < n <= |h.log| && h.log[i].Stored? && !h.log[i].src.FromRefresh?
      && h.log[i].src.st == st && h.log[i].src.t == t && doc == Success(h.log[i].sub)
  }

  predicate WinningPop(h: History, n: nat, i: nat, st: string, sub: string, t: nat) {
    && i < n <= |h.log| && h.log[i].Popped?
    && h.log[i].st == st && h.log[i].sub == sub && h.log[i].t == t && !h.log[i].declined
  }

  predicate SourceOk(h: History, n: nat, p: Provider, sub: string, entry: Fields, src: Source) {
    match src
    case FromCode(st, t, x) =>
      && x < n <= |h.log| && h.log[x].Exchanged?
      && h.log[x].p == p && h.log[x].st == st && h.log[x].sub == sub && h.log[x].t == t
      && entry == T.NormalizeTokenData(h.log[x].raw, h.log[x].at.Floor)
    case FromForm(st, t, i) =>
      WinningPop(h, n, i, st, sub, t) && p.Form? && C.WellFormed(p.vars, entry)
    case FromRefresh(_, prior, from, raw, at) =>
      && p.OAuth? && EntryAt(h, n, (p, sub), from) == Some(prior)
      && entry == T.RefreshedEntry(raw, T.RefreshToken(prior), at.Floor)
  }

  /** Event `e` at position `n` has its causes at earlier positions. */
  predicate EventOk(h: History, n: nat, e: Event)
    requires n <= |h.log|
  {
    match e
    case Popped(st, sub, _, _, i) =>
      i < n && h.log[i].Created? && h.log[i].st == st && h.log[i].sub == sub
    case Exchanged(p, st, sub, t, _, _, i) => p.OAuth? && WinningPop(h, n, i, st, sub, t)
    case Stored(p, sub, entry, src) => SourceOk(h, n, p, sub, entry, src)
    case Signalled(st, doc, t, why) => Announces(h, n, st, doc, t, why)
    case Received(st, p, sub, t, doc, i, j) =>
      && i < n && h.log[i].Created? && h.log[i].st == st && h.log[i].p == p && h.log[i].sub == sub && h.log[i].t == t
      && j < n && h.log[j].Signalled? && h.log[j].st == st && h.log[j].doc == doc
    case Served(p, sub, t, g, origin, at) => !g.Nothing? && GrantOk(h, n, (p, sub), g, origin, t, at)
    case _ => true
  }

  /** The index is exact: each mark names the one event that bears it, and each slot's
      positions are the last ones. */
  ghost predicate IndexOk(h: History) {
    && (forall i | 0 <= i < |h.log| && MarkOf(h.log[i]).Some? ::
          MarkOf(h.log[i]).value in h.marks && h.marks[MarkOf(h.log[i]).value] == i)
    && (forall m | m in h.marks :: h.marks[m] < |h.log| && MarkOf(h.log[h.marks[m]]) == Some(m))
    && (forall st | st in h.signalled ::
          h.signalled[st] < |h.log| && h.log[h.signalled[st]].Signalled? && h.log[h.signalled[st]].st == st)
  }

  ghost predicate WrittenOk(h: History) {
    && (forall i | 0 <= i < |h.log| && h.log[i].Stored? ::
          (h.log[i].p, h.log[i].sub) in h.written && i <= h.written[(h.log[i].p, h.log[i].sub)])
    && (forall slot | slot in h.written ::
          h.written[slot] < |h.log| && h.log[h.written[slot]].Stored?
          && (h.log[h.written[slot]].p, h.log[h.written[slot]].sub) == slot)
  }

  ghost predicate DeletedOk(h: History) {
    && (forall i | 0 <= i < |h.log| && h.log[i].Deleted? ::
          (h.log[i].p, h.log[i].sub) in h.deleted && i <= h.deleted[(h.log[i].p, h.log[i].sub)])
    && (forall slot | slot in h.deleted ::
          h.deleted[slot] < |h.log| && h.log[h.deleted[slot]].Deleted?
          && (h.log[h.deleted[slot]].p, h.log[h.deleted[slot]].sub) == slot)
  }

  ghost predicate SlotsOk(h: History) {
    WrittenOk(h) && DeletedOk(h)
  }

  ghost predicate EventsOk(h: History) {
    forall i | 0 <= i < |h.log| :: EventOk(h, i, h.log[i])
  }

  ghost predicate HistoryOk(h: History) {
    IndexOk(h) && SlotsOk(h) && EventsOk(h)
  }

  /** An event that may be added: its mark is new and its causes are there. */
  ghost predicate Addable(h: History, e: Event) {
    && (MarkOf(e).Some? ==> MarkOf(e).value !in h.marks)
    && EventOk(h, |h.log|, e)
  }

  lemma EventStaysOk(h: History, e: Event, n: nat, f: Event)
    requires n <= |h.log| && EventOk(h, n, f)
    ensures EventOk(Extend(h, e), n, f)
  {
  }

  lemma IndexGrows(h: History, e: Event)
    requires IndexOk(h) && (MarkOf(e).Some? ==> MarkOf(e).value !in h.marks)
    ensures IndexOk(Extend(h, e))
  {
  }

  lemma WrittenGrows(h: History, e: Event)
    requires WrittenOk(h)
    ensures WrittenOk(Extend(h, e))
  {
  }

  lemma DeletedGrows(h: History, e: Event)
    requires DeletedOk(h)
    ensures DeletedOk(Extend(h, e))
  {
  }

  lemma EventsGrow(h: History, e: Event)
    requires EventsOk(h) && EventOk(h, |h.log|, e)
    ensures EventsOk(Extend(h, e))
  {
    var k := Extend(h, e);
    forall i | 0 <= i < |k.log|
      ensures EventOk(k, i, k.log[i])
    {
      EventStaysOk(h, e, i, k.log[i]);
    }
  }

  lemma HistoryGrows(h: History, e: Event)
    requires HistoryOk(h) && Addable(h, e)
    ensures HistoryOk(Extend(h, e))
  {
    IndexGrows(h, e);
    WrittenGrows(h, e);
    DeletedGrows(h, e);
    EventsGrow(h, e);
  }

  // ----- threads -----

  /** Thread `t` opened state `st` for its call, which is a blocking one. */
  ghost predicate Owns(h: History, t: nat, c: Call, st: string) {
    && CreatedMark(st) in h.marks && h.marks[CreatedMark(st)] < |h.log|
    && var e := h.log[h.marks[CreatedMark(st)]];
       e.Created? && e.st == st && e.p == c.p && e.sub == c.sub && e.t == t && !c.failFast
  }

  ghost predicate StageOk(h: History, t: nat, c: Call, stage: Stage) {
    stage.Final? ==> Owns(h, t, c, stage.st)
  }

  /** Thread `t` won the pop of `st`. */
  ghost predicate WonBy(h: History, t: nat, st: string, sub: string) {
    PoppedMark(st) in h.marks && WinningPop(h, |h.log|, h.marks[PoppedMark(st)], st, sub, t)
  }

  /** What a tool call knows at each of its points. */
  ghost predicate CallOk(h: History, t: nat, pc: Pc) {
    var n := |h.log|;
    match pc
    case Reading(c, stage) => StageOk(h, t, c, stage)
    case Refreshing(c, stage, prior, from) =>
      StageOk(h, t, c, stage) && c.p.OAuth? && EntryAt(h, n, (c.p, c.sub), from) == Some(prior)
    case Saving(c, stage, entry, src) =>
      StageOk(h, t, c, stage) && src.FromRefresh? && src.t == t && SourceOk(h, n, c.p, c.sub, entry, src)
    case Dropping(c, stage) => StageOk(h, t, c, stage)
    case Registering(c, st) => Owns(h, t, c, st)
    case Eliciting(c, st) => Owns(h, t, c, st)
    case Declining(c, st) => Owns(h, t, c, st)
    case Waiting(c, st, _) => Owns(h, t, c, st)
    case Leaving(c, st, g, origin, at) => Owns(h, t, c, st) && GrantOk(h, n, (c.p, c.sub), g, origin, t, at)
    case Serving(c, g, origin, at) => !g.Nothing? && GrantOk(h, n, (c.p, c.sub), g, origin, t, at)
    case _ => true
  }

  /** What a callback or submission knows at each of its points. */
  ghost predicate RequestOk(h: History, t: nat, pc: Pc) {
    match pc
    case Popping(p, _, req) => p.OAuth? == req.Redirect?
    case Exchanging(p, st, sub) =>
      p.OAuth? && WonBy(h, t, st, sub) && ExchangedMark(st) !in h.marks && SavedMark(st) !in h.marks
    case Storing(p, st, sub, entry, src) =>
      && WonBy(h, t, st, sub) && SavedMark(st) !in h.marks
      && !src.FromRefresh? && src.st == st && src.t == t && SourceOk(h, |h.log|, p, sub, entry, src)
    case Signalling(st, doc, why) => Announces(h, |h.log|, st, doc, t, why)
    case _ => true
  }

  ghost predicate PcOk(h: History, t: nat, pc: Pc) {
    CallOk(h, t, pc) && RequestOk(h, t, pc)
  }

  /** The thread that an exchange or a save for a state belongs to. */
  function Spender(e: Event): Option<nat> {
    match e
    case Exchanged(_, _, _, t, _, _, _) => Some(t)
    case Stored(_, _, _, FromCode(_, t, _)) => Some(t)
    case Stored(_, _, _, FromForm(_, t, _)) => Some(t)
    case _ => None
  }

  /** The thread whose step an event is. */
  function Author(e: Event): Option<nat> {
    match e
    case Deleted(_, _) => None
    case Stored(_, _, _, src) => Some(src.t)
    case _ => Some(e.t)
  }

  /** An exchange or save for `st` is by the thread that won the pop of `st`. */
  lemma SpenderWon(h: History, e: Event, st: string)
    requires HistoryOk(h) && Addable(h, e)
    requires MarkOf(e) == Some(ExchangedMark(st)) || MarkOf(e) == Some(SavedMark(st))
    ensures PoppedMark(st) in h.marks && h.log[h.marks[PoppedMark(st)]].Popped?
    ensures Spender(e) == Some(h.log[h.marks[PoppedMark(st)]].t)
  {
    if e.Stored? && e.src.FromCode? {
      assert EventOk(h, e.src.exchanged, h.log[e.src.exchanged]);
    }
  }

  lemma FactsStay(h: History, e: Event, slot: Slot, origin: Option<nat>)
    ensures EntryAt(h, |h.log|, slot, origin).Some? ==>
              EntryAt(Extend(h, e), |h.log| + 1, slot, origin) == EntryAt(h, |h.log|, slot, origin)
  {
  }

  lemma SourceStaysOk(h: History, e: Event, p: Provider, sub: string, entry: Fields, src: Source)
    requires SourceOk(h, |h.log|, p, sub, entry, src)
    ensures SourceOk(Extend(h, e), |h.log| + 1, p, sub, entry, src)
  {
    if src.FromRefresh? {
      FactsStay(h, e, (p, sub), src.from);
    }
  }

  lemma OwnsStays(h: History, e: Event, t: nat, c: Call, st: string)
    requires Addable(h, e) && Owns(h, t, c, st)
    ensures Owns(Extend(h, e), t, c, st)
  {
  }

  lemma WonByStays(h: History, e: Event, t: nat, st: string, sub: string)
    requires Addable(h, e) && WonBy(h, t, st, sub)
    ensures WonBy(Extend(h, e), t, st, sub)
  {
  }

  lemma GrantStaysOk(h: History, e: Event, slot: Slot, g: Grant, origin: Option<nat>, t: nat, at: real)
    requires GrantOk(h, |h.log|, slot, g, origin, t, at)
    ensures GrantOk(Extend(h, e), |h.log| + 1, slot, g, origin, t, at)
  {
    FactsStay(h, e, slot, origin);
  }

  lemma StageStaysOk(h: History, e: Event, t: nat, c: Call, stage: Stage)
    requires Addable(h, e) && StageOk(h, t, c, stage)
    ensures StageOk(Extend(h, e), t, c, stage)
  {
    if stage.Final? {
      OwnsStays(h, e, t, c, stage.st);
    }
  }

  lemma CallStaysOk(h: History, e: Event, t: nat, pc: Pc)
    requires Addable(h, e) && CallOk(h, t, pc)
    ensures CallOk(Extend(h, e), t, pc)
  {
    hide Owns, StageOk, SourceOk, GrantOk, EntryAt, Addable;
    match pc
    case Reading(c, stage) => StageStaysOk(h, e, t, c, stage);
    case Refreshing(c, stage, prior, from) =>
      StageStaysOk(h, e, t, c, stage);
      FactsStay(h, e, (c.p, c.sub), from);
    case Saving(c, stage, entry, src) =>
      StageStaysOk(h, e, t, c, stage);
      SourceStaysOk(h, e, c.p, c.sub, entry, src);
    case Dropping(c, stage) => StageStaysOk(h, e, t, c, stage);
    case Registering(c, st) => OwnsStays(h, e, t, c, st);
    case Eliciting(c, st) => OwnsStays(h, e, t, c, st);
    case Declining(c, st) => OwnsStays(h, e, t, c, st);
    case Waiting(c, st, _) => OwnsStays(h, e, t, c, st);
    case Leaving(c, st, g, origin, at) =>
      OwnsStays(h, e, t, c, st);
      GrantStaysOk(h, e, (c.p, c.sub), g, origin, t, at);
    case Serving(c, g, origin, at) => GrantStaysOk(h, e, (c.p, c.sub), g, origin, t, at);
    case _ =>
  }

  /** An exchange or save by another thread cannot be for the state this thread won. */
  lemma RequestStaysOk(h: History, e: Event, t: nat, pc: Pc)
    requires HistoryOk(h) && Addable(h, e) && RequestOk(h, t, pc)
    requires Spender(e) != Some(t)
    ensures RequestOk(Extend(h, e), t, pc)
  {
    hide HistoryOk, EventOk;
    match pc
    case Exchanging(p, st, sub) =>
      WonByStays(h, e, t, st, sub);
      if MarkOf(e) == Some(ExchangedMark(st)) || MarkOf(e) == Some(SavedMark(st)) {
        SpenderWon(h, e, st);
      }
    case Storing(p, st, sub, entry, src) =>
      WonByStays(h, e, t, st, sub);
      SourceStaysOk(h, e, p, sub, entry, src);
      if MarkOf(e) == Some(SavedMark(st)) {
        SpenderWon(h, e, st);
      }
    case _ =>
  }

  // ----- the stores and the sessions -----

  /** A slot holds its last write, unless it was deleted since. */
  ghost predicate TokenOk(h: History, tokens: map<Slot, Fields>, slot: Slot) {
    && (slot in tokens <==>
          if slot in h.written then slot in h.deleted ==> h.deleted[slot] < h.written[slot]
          else slot in h.initial && slot !in h.deleted)
    && (slot in tokens ==> EntryAt(h, |h.log|, slot, Origin(h, slot)) == Some(tokens[slot]))
  }

  ghost predicate TokensOk(h: History, tokens: map<Slot, Fields>) {
    forall slot :: TokenOk(h, tokens, slot)
  }

  /** When the pending entry that `e` created ends. */
  function Expiry(e: Event): real
    requires e.Created?
  {
    e.at + Lifetime(e.p) as real
  }

  ghost predicate PendingOk(h: History, pending: map<string, Pending>, st: string)
    requires st in pending
  {
    && CreatedMark(st) in h.marks && h.marks[CreatedMark(st)] < |h.log|
    && var e := h.log[h.marks[CreatedMark(st)]];
       && e.Created? && pending[st] == Pending(Metadata(e.sub), Expiry(e))
       && PoppedMark(st) !in h.marks
  }

  /** An entry that was created, not won and not yet expired is still there. */
  ghost predicate StillPending(h: History, pending: map<string, Pending>, now: real, i: nat)
    requires i < |h.log|
  {
    var e := h.log[i];
    e.Created? && PoppedMark(e.st) !in h.marks && now <= Expiry(e) ==> e.st in pending
  }

  ghost predicate PendingsOk(h: History, pending: map<string, Pending>, now: real) {
    && (forall st | st in pending :: PendingOk(h, pending, st))
    && (forall i | 0 <= i < |h.log| :: StillPending(h, pending, now, i))
  }

  ghost predicate SignalsOk(h: History, signals: map<string, Fields>) {
    forall st | st in signals ::
      && st in h.signalled && h.signalled[st] < |h.log|
      && h.log[h.signalled[st]].Signalled? && h.log[h.signalled[st]].doc == signals[st]
  }

  ghost predicate StoresOk(w: World) {
    TokensOk(w.h, w.tokens) && PendingsOk(w.h, w.pending, w.now) && SignalsOk(w.h, w.signals)
  }

  /** The session key of a call that is between registration and return. */
  function SessionKey(pc: Pc): Option<(Provider, string)> {
    match pc
    case Reading(c, Final(st)) => Some((c.p, st))
    case Refreshing(c, Final(st), _, _) => Some((c.p, st))
    case Saving(c, Final(st), _, _) => Some((c.p, st))
    case Dropping(c, Final(st)) => Some((c.p, st))
    case Eliciting(c, st) => Some((c.p, st))
    case Declining(c, st) => Some((c.p, st))
    case Waiting(c, st, _) => Some((c.p, st))
    case Leaving(c, st, _, _, _) => Some((c.p, st))
    case _ => None
  }

  ghost predicate SessionsOk(w: World) {
    && (forall t | t in w.threads && SessionKey(w.threads[t]).Some? ::
          SessionKey(w.threads[t]).value in w.sessions && w.sessions[SessionKey(w.threads[t]).value] == t)
    && (forall key | key in w.sessions ::
          w.sessions[key] in w.threads && SessionKey(w.threads[w.sessions[key]]) == Some(key))
  }

  ghost predicate Inv(w: World) {
    && HistoryOk(w.h)
    && (forall t | t in w.threads :: PcOk(w.h, t, w.threads[t]))
    && StoresOk(w)
    && SessionsOk(w)
  }

  // ----- the store operations -----

  ghost predicate Core(w: World) {
    HistoryOk(w.h) && StoresOk(w)
  }

  /** From history `h` to `k`: nothing logged, or one event that may be added and is a step of
      `actor`. */
  ghost predicate Logs(h: History, k: History, actor: Option<nat>) {
    || k == h
    || (|k.log| > 0 && var e := k.log[|k.log| - 1];
        k == Extend(h, e) && Addable(h, e) && (Author(e).Some? ==> Author(e) == actor))
  }

  lemma LogsAdded(h: History, e: Event, t: nat)
    requires Addable(h, e) && (Author(e).Some? ==> Author(e) == Some(t))
    ensures Logs(h, Extend(h, e), Some(t))
  {
  }

  lemma TokensStayOk(h: History, e: Event, tokens: map<Slot, Fields>)
    requires TokensOk(h, tokens) && !e.Stored? && !e.Deleted?
    ensures TokensOk(Extend(h, e), tokens)
  {
    forall slot
      ensures TokenOk(Extend(h, e), tokens, slot)
    {
      assert TokenOk(h, tokens, slot);
      FactsStay(h, e, slot, Origin(h, slot));
    }
  }

  lemma PendingsStayOk(h: History, e: Event, pending: map<string, Pending>, now: real)
    requires PendingsOk(h, pending, now) && !e.Created? && !e.Popped?
    ensures PendingsOk(Extend(h, e), pending, now)
  {
    var k := Extend(h, e);
    forall st | st in pending ensures PendingOk(k, pending, st) { assert PendingOk(h, pending, st); }
    forall i | 0 <= i < |k.log| ensures StillPending(k, pending, now, i) {
      assert i < |h.log| ==> StillPending(h, pending, now, i);
    }
  }

  lemma SignalsStayOk(h: History, e: Event, signals: map<string, Fields>)
    requires SignalsOk(h, signals) && !e.Signalled?
    ensures SignalsOk(Extend(h, e), signals)
  {
  }

  /** An event that changes no store leaves the stores right. */
  lemma PlainEventOk(w: World, e: Event)
    requires Core(w) && Addable(w.h, e)
    requires e.Exchanged? || e.Received? || e.Served?
    ensures Core(Log(w, e))
  {
    HistoryGrows(w.h, e);
    TokensStayOk(w.h, e, w.tokens);
    PendingsStayOk(w.h, e, w.pending, w.now);
    SignalsStayOk(w.h, e, w.signals);
  }

  lemma PutTokenOk(w: World, p: Provider, sub: string, entry: Fields, src: Source)
    requires Core(w) && Addable(w.h, Stored(p, sub, entry, src))
    ensures Core(PutToken(w, p, sub, entry, src))
  {
    var e := Stored(p, sub, entry, src);
    HistoryGrows(w.h, e);
    TokenPut(w.h, w.tokens, p, sub, entry, src);
    PendingsStayOk(w.h, e, w.pending, w.now);
    SignalsStayOk(w.h, e, w.signals);
  }

  lemma TokenPut(h: History, tokens: map<Slot, Fields>, p: Provider, sub: string, entry: Fields, src: Source)
    requires SlotsOk(h) && TokensOk(h, tokens)
    ensures TokensOk(Extend(h, Stored(p, sub, entry, src)), tokens[(p, sub) := entry])
  {
    var e := Stored(p, sub, entry, src);
    var k, after := Extend(h, e), tokens[(p, sub) := entry];
    forall slot
      ensures TokenOk(k, after, slot)
    {
      assert TokenOk(h, tokens, slot);
      FactsStay(h, e, slot, Origin(h, slot));
    }
  }

  lemma DropTokenOk(w: World, p: Provider, sub: string)
    requires Core(w)
    ensures Core(DropToken(w, p, sub)) && Addable(w.h, Deleted(p, sub))
  {
    var e := Deleted(p, sub);
    HistoryGrows(w.h, e);
    TokenDropped(w.h, w.tokens, p, sub);
    PendingsStayOk(w.h, e, w.pending, w.now);
    SignalsStayOk(w.h, e, w.signals);
  }

  lemma TokenDropped(h: History, tokens: map<Slot, Fields>, p: Provider, sub: string)
    requires SlotsOk(h) && TokensOk(h, tokens)
    ensures TokensOk(Extend(h, Deleted(p, sub)), tokens - {(p, sub)})
  {
    var e := Deleted(p, sub);
    var k, after := Extend(h, e), tokens - {(p, sub)};
    forall slot
      ensures TokenOk(k, after, slot)
    {
      assert TokenOk(h, tokens, slot);
      FactsStay(h, e, slot, Origin(h, slot));
    }
  }

  /** Only a created state is ever popped. */
  lemma PoppedWasCreated(h: History, st: string)
    requires HistoryOk(h)
    ensures PoppedMark(st) in h.marks ==> CreatedMark(st) in h.marks
  {
    if PoppedMark(st) in h.marks {
      assert EventOk(h, h.marks[PoppedMark(st)], h.log[h.marks[PoppedMark(st)]]);
    }
  }

  lemma CreatePendingOk(w: World, st: string, c: Call, t: nat)
    requires Core(w) && CreatedMark(st) !in w.h.marks
    ensures Core(CreatePending(w, st, c, t)) && Addable(w.h, Created(st, c.p, c.sub, t, w.now))
  {
    hide TokensOk, PendingsOk, SignalsOk, IndexOk, SlotsOk, EventsOk;
    var e := Created(st, c.p, c.sub, t, w.now);
    HistoryGrows(w.h, e);
    TokensStayOk(w.h, e, w.tokens);
    SignalsStayOk(w.h, e, w.signals);
    PoppedWasCreated(w.h, st);
    PendingCreated(w.h, w.pending, w.now, e);
    assert CreatePending(w, st, c, t) ==
           w.(h := Extend(w.h, e), pending := w.pending[st := Pending(Metadata(c.sub), Expiry(e))]);
  }

  lemma PendingCreated(h: History, pending: map<string, Pending>, now: real, e: Event)
    requires PendingsOk(h, pending, now) && e.Created?
    requires CreatedMark(e.st) !in h.marks && PoppedMark(e.st) !in h.marks
    ensures PendingsOk(Extend(h, e), pending[e.st := Pending(Metadata(e.sub), Expiry(e))], now)
  {
    var k, after := Extend(h, e), pending[e.st := Pending(Metadata(e.sub), Expiry(e))];
    forall s | s in after ensures PendingOk(k, after, s) { assert s != e.st ==> PendingOk(h, pending, s); }
    forall i | 0 <= i < |k.log| ensures StillPending(k, after, now, i) {
      assert i < |h.log| ==> StillPending(h, pending, now, i);
    }
  }

  lemma PopAddable(w: World, st: string, t: nat, declined: bool)
    requires Core(w) && Poppable(w, st)
    ensures Addable(w.h, Popped(st, SubjectOf(w, st), t, declined, Position(w.h, CreatedMark(st))))
  {
  }

  lemma PendingPopped(h: History, pending: map<string, Pending>, now: real, e: Event)
    requires PendingsOk(h, pending, now) && e.Popped? && PoppedMark(e.st) !in h.marks
    ensures PendingsOk(Extend(h, e), pending - {e.st}, now)
  {
    var k, after := Extend(h, e), pending - {e.st};
    forall s | s in after ensures PendingOk(k, after, s) { assert PendingOk(h, pending, s); }
    forall i | 0 <= i < |k.log| ensures StillPending(k, after, now, i) {
      assert i < |h.log| ==> StillPending(h, pending, now, i);
    }
  }

  lemma PopPendingOk(w: World, st: string, t: nat, declined: bool)
    requires Core(w)
    ensures Core(PopPending(w, st, t, declined))
    ensures Logs(w.h, PopPending(w, st, t, declined).h, Some(t))
  {
    hide TokensOk, SignalsOk, SlotsOk, EventsOk, IndexOk;
    if Poppable(w, st) {
      PopAddable(w, st, t, declined);
      var e := Popped(st, SubjectOf(w, st), t, declined, Position(w.h, CreatedMark(st)));
      HistoryGrows(w.h, e);
      TokensStayOk(w.h, e, w.tokens);
      SignalsStayOk(w.h, e, w.signals);
      PendingPopped(w.h, w.pending, w.now, e);
    } else {
      QuietChangeOk(w, PopPending(w, st, t, declined));
    }
  }

  lemma PutSignalOk(w: World, st: string, doc: Fields, t: nat, why: Option<nat>)
    requires Core(w) && Announces(w.h, |w.h.log|, st, doc, t, why)
    ensures Core(PutSignal(w, st, doc, t, why)) && Addable(w.h, Signalled(st, doc, t, why))
  {
    hide TokensOk, PendingsOk, SlotsOk, EventsOk;
    var e := Signalled(st, doc, t, why);
    HistoryGrows(w.h, e);
    TokensStayOk(w.h, e, w.tokens);
    PendingsStayOk(w.h, e, w.pending, w.now);
  }

  lemma TakeSignalOk(w: World, st: string, c: Call, t: nat)
    requires Core(w) && st in w.signals && Owns(w.h, t, c, st)
    ensures Core(TakeSignal(w, st, c, t))
    ensures Logs(w.h, TakeSignal(w, st, c, t).h, Some(t))
  {
    hide TokensOk, PendingsOk, SlotsOk, EventsOk;
    var e := Received(st, c.p, c.sub, t, w.signals[st], Position(w.h, CreatedMark(st)), w.h.signalled[st]);
    PlainEventOk(w, e);
  }

  /** Time passes, a signal expires, or an expired entry is cleared away. */
  lemma QuietChangeOk(w: World, v: World)
    requires Core(w) && v.h == w.h && v.tokens == w.tokens && v.now >= w.now
    requires v.signals.Keys <= w.signals.Keys && forall st | st in v.signals :: v.signals[st] == w.signals[st]
    requires v.pending.Keys <= w.pending.Keys && forall st | st in v.pending :: v.pending[st] == w.pending[st]
    requires forall st | st in w.pending && st !in v.pending :: v.now > w.pending[st].expires
    ensures Core(v)
  {
    forall st | st in v.pending ensures PendingOk(v.h, v.pending, st) { assert PendingOk(w.h, w.pending, st); }
    forall i | 0 <= i < |v.h.log| ensures StillPending(v.h, v.pending, v.now, i) {
      assert StillPending(w.h, w.pending, w.now, i);
      var e := w.h.log[i];
      assert e.Created? && e.st in w.pending ==> PendingOk(w.h, w.pending, e.st);
    }
  }

  // ----- the steps -----

  function Actor(a: Action): Option<nat> {
    match a
    case Tick(_) => None
    case Invalidate(_, _) => None
    case LoseSignal(_) => None
    case Purge(_) => None
    case _ => Some(a.t)
  }

  /** A step from `w` to `v` by `actor` that is right in every part it touches. */
  ghost predicate StepOk(w: World, v: World, actor: Option<nat>) {
    && Core(v) && Logs(w.h, v.h, actor) && SessionsOk(v)
    && match actor
       case None => v.threads == w.threads
       case Some(t) => t in v.threads && v.threads == w.threads[t := v.threads[t]] && PcOk(v.h, t, v.threads[t])
  }

  lemma OthersStayOk(h: History, k: History, actor: Option<nat>, t: nat, pc: Pc)
    requires HistoryOk(h) && Logs(h, k, actor) && PcOk(h, t, pc) && actor != Some(t)
    ensures PcOk(k, t, pc)
  {
    if k != h {
      var e := k.log[|k.log| - 1];
      CallStaysOk(h, e, t, pc);
      RequestStaysOk(h, e, t, pc);
    }
  }

  lemma StepOkKeepsInv(w: World, v: World, actor: Option<nat>)
    requires Inv(w) && StepOk(w, v, actor)
    ensures Inv(v)
  {
    forall t | t in v.threads
      ensures PcOk(v.h, t, v.threads[t])
    {
      if actor != Some(t) {
        OthersStayOk(w.h, v.h, actor, t, v.threads[t]);
      }
    }
  }

  function KeyOf(w: World, t: nat): Option<(Provider, string)> {
    if t in w.threads then SessionKey(w.threads[t]) else None
  }

  lemma SessionsStayOk(w: World, v: World, t: nat, pc: Pc)
    requires SessionsOk(w) && v.sessions == w.sessions && v.threads == w.threads[t := pc]
    requires SessionKey(pc) == KeyOf(w, t)
    ensures SessionsOk(v)
  {
  }

  /** A step that only moves thread `t`. */
  lemma MoveOk(w: World, t: nat, pc: Pc)
    requires Inv(w) && PcOk(w.h, t, pc) && SessionKey(pc) == KeyOf(w, t)
    ensures StepOk(w, At(w, t, pc), Some(t))
  {
    SessionsStayOk(w, At(w, t, pc), t, pc);
  }

  /** A step that changes the stores as `u` does and moves thread `t`. */
  lemma StoreStepOk(w: World, u: World, t: nat, pc: Pc)
    requires Inv(w) && Core(u) && Logs(w.h, u.h, Some(t)) && u.threads == w.threads && u.sessions == w.sessions
    requires PcOk(u.h, t, pc) && SessionKey(pc) == KeyOf(w, t)
    ensures StepOk(w, At(u, t, pc), Some(t))
  {
    hide HistoryOk, TokensOk, PendingsOk, SignalsOk, PcOk, SessionsOk, Logs, SessionKey;
    SessionsStayOk(w, At(u, t, pc), t, pc);
  }

  /** A step that changes the sessions and moves thread `t`. */
  lemma SessionStepOk(w: World, sessions: map<(Provider, string), nat>, t: nat, pc: Pc)
    requires Inv(w) && PcOk(w.h, t, pc) && SessionsOk(At(w.(sessions := sessions), t, pc))
    ensures StepOk(w, At(w.(sessions := sessions), t, pc), Some(t))
  {
    hide HistoryOk, TokensOk, PendingsOk, SignalsOk, SessionsOk, PcOk;
  }

  lemma ResolvedOk(h: History, t: nat, c: Call, stage: Stage, g: Grant, origin: Option<nat>, at: real)
    requires StageOk(h, t, c, stage) && GrantOk(h, |h.log|, (c.p, c.sub), g, origin, t, at)
    ensures PcOk(h, t, Resolved(c, stage, g, origin, at))
    ensures SessionKey(Resolved(c, stage, g, origin, at)) == if stage.Final? then Some((c.p, stage.st)) else None
  {
  }

  lemma LookedOk(w: World, t: nat, c: Call, stage: Stage)
    requires StageOk(w.h, t, c, stage) && TokenOk(w.h, w.tokens, (c.p, c.sub))
    ensures PcOk(w.h, t, Looked(w, c, stage))
    ensures SessionKey(Looked(w, c, stage)) == if stage.Final? then Some((c.p, stage.st)) else None
  {
    var slot := (c.p, c.sub);
    ResolvedOk(w.h, t, c, stage, Nothing, None, w.now);
    if slot in w.tokens && (c.p.Form? || T.Decide(w.tokens[slot], w.now.Floor, c.p.canRefresh).Serve?) {
      ResolvedOk(w.h, t, c, stage, GrantOf(c.p, w.tokens[slot]), Origin(w.h, slot), w.now);
    }
  }

  lemma ReadOk(w: World, t: nat)
    requires Inv(w) && Enabled(w, Read(t))
    ensures StepOk(w, Next(w, Read(t)), Some(t))
  {
    hide HistoryOk, SessionsOk, StepOk;
    var pc := w.threads[t];
    assert PcOk(w.h, t, pc);
    LookedOk(w, t, pc.c, pc.stage);
    MoveOk(w, t, Looked(w, pc.c, pc.stage));
  }

  lemma RefreshReplyOk(w: World, t: nat, reply: Option<Fields>)
    requires Inv(w) && Enabled(w, RefreshReply(t, reply))
    ensures StepOk(w, Next(w, RefreshReply(t, reply)), Some(t))
  {
    hide HistoryOk, StoresOk, SessionsOk, StepOk;
    assert PcOk(w.h, t, w.threads[t]);
    MoveOk(w, t, Next(w, RefreshReply(t, reply)).threads[t]);
  }

  /** What a thread has just refreshed it may be given, whatever the expiry check says. */
  lemma RefreshedGrantOk(h: History, t: nat, c: Call, entry: Fields, src: Source, at: real)
    requires c.p.OAuth? && src.FromRefresh? && src.t == t
    ensures GrantOk(Extend(h, Stored(c.p, c.sub, entry, src)), |h.log| + 1, (c.p, c.sub),
                    TokenGrant(T.AccessToken(entry)), Some(|h.log|), t, at)
  {
  }

  lemma RefreshAddable(h: History, t: nat, pc: Pc)
    requires pc.Saving? && CallOk(h, t, pc)
    ensures Addable(h, Stored(pc.c.p, pc.c.sub, pc.entry, pc.src))
    ensures Author(Stored(pc.c.p, pc.c.sub, pc.entry, pc.src)) == Some(t) && StageOk(h, t, pc.c, pc.stage)
    ensures pc.src.FromRefresh? && pc.src.t == t && pc.c.p.OAuth?
  {
  }

  lemma RefreshStoredOk(w: World, t: nat, pc: Pc, g: Grant)
    requires Inv(w) && pc.Saving? && CallOk(w.h, t, pc) && SessionKey(pc) == KeyOf(w, t)
    requires g == TokenGrant(T.AccessToken(pc.entry))
    ensures StepOk(w, At(PutToken(w, pc.c.p, pc.c.sub, pc.entry, pc.src),
                         t, Resolved(pc.c, pc.stage, g, Some(|w.h.log|), w.now)), Some(t))
  {
    hide HistoryOk, StoresOk, SessionsOk, StepOk, Logs, GrantOk, CallOk, PcOk, Addable, Author, StageOk, Resolved;
    RefreshAddable(w.h, t, pc);
    RefreshedGrantOk(w.h, t, pc.c, pc.entry, pc.src, w.now);
    var e := Stored(pc.c.p, pc.c.sub, pc.entry, pc.src);
    LogsAdded(w.h, e, t);
    PutTokenOk(w, pc.c.p, pc.c.sub, pc.entry, pc.src);
    var u := PutToken(w, pc.c.p, pc.c.sub, pc.entry, pc.src);
    StageStaysOk(w.h, e, t, pc.c, pc.stage);
    ResolvedOk(u.h, t, pc.c, pc.stage, g, Some(|w.h.log|), w.now);
    StoreStepOk(w, u, t, Resolved(pc.c, pc.stage, g, Some(|w.h.log|), w.now));
  }

  lemma SaveRefreshedOk(w: World, t: nat)
    requires Inv(w) && Enabled(w, SaveRefreshed(t))
    ensures StepOk(w, Next(w, SaveRefreshed(t)), Some(t))
  {
    hide HistoryOk, StoresOk, SessionsOk, StepOk, CallOk, RequestOk, T.AccessToken;
    var pc := w.threads[t];
    assert PcOk(w.h, t, pc);
    RefreshStoredOk(w, t, pc, TokenGrant(T.AccessToken(pc.entry)));
  }

  lemma DroppedOk(w: World, t: nat, c: Call, stage: Stage)
    requires Inv(w) && StageOk(w.h, t, c, stage) && SessionKey(Dropping(c, stage)) == KeyOf(w, t)
    ensures StepOk(w, At(DropToken(w, c.p, c.sub), t, Resolved(c, stage, Nothing, None, w.now)), Some(t))
  {
    hide HistoryOk, StoresOk, SessionsOk, StepOk, Logs, PcOk, Addable, StageOk, Resolved;
    var u := DropToken(w, c.p, c.sub);
    DropTokenOk(w, c.p, c.sub);
    LogsAdded(w.h, Deleted(c.p, c.sub), t);
    StageStaysOk(w.h, Deleted(c.p, c.sub), t, c, stage);
    ResolvedOk(u.h, t, c, stage, Nothing, None, w.now);
    StoreStepOk(w, u, t, Resolved(c, stage, Nothing, None, w.now));
  }

  lemma DropStaleOk(w: World, t: nat)
    requires Inv(w) && Enabled(w, DropStale(t))
    ensures StepOk(w, Next(w, DropStale(t)), Some(t))
  {
    hide HistoryOk, StoresOk, SessionsOk, StepOk, RequestOk, StageOk;
    var pc := w.threads[t];
    assert PcOk(w.h, t, pc);
    DroppedOk(w, t, pc.c, pc.stage);
  }

  lemma OpenerOwns(w: World, t: nat, c: Call, st: string)
    requires CreatedMark(st) !in w.h.marks
    ensures PcOk(CreatePending(w, st, c, t).h, t, if c.failFast then Ended else Registering(c, st))
  {
  }

  lemma OpenedOk(w: World, t: nat, c: Call, st: string)
    requires Inv(w) && CreatedMark(st) !in w.h.marks && KeyOf(w, t).None?
    ensures StepOk(w, At(CreatePending(w, st, c, t), t, if c.failFast then Ended else Registering(c, st)), Some(t))
  {
    hide HistoryOk, StoresOk, SessionsOk, StepOk, Logs, PcOk, Addable, Lifetime;
    CreatePendingOk(w, st, c, t);
    LogsAdded(w.h, Created(st, c.p, c.sub, t, w.now), t);
    OpenerOwns(w, t, c, st);
    StoreStepOk(w, CreatePending(w, st, c, t), t, if c.failFast then Ended else Registering(c, st));
  }

  lemma OpenOk(w: World, t: nat, st: string)
    requires Inv(w) && Enabled(w, Open(t, st))
    ensures StepOk(w, Next(w, Open(t, st)), Some(t))
  {
    hide HistoryOk, StoresOk, SessionsOk, StepOk, PcOk, CreatePending;
    OpenedOk(w, t, w.threads[t].c, st);
  }

  /** A registered session belongs to the thread that opened its state. */
  lemma HolderOpened(w: World, key: (Provider, string))
    requires Inv(w) && key in w.sessions
    ensures CreatedMark(key.1) in w.h.marks && w.h.marks[CreatedMark(key.1)] < |w.h.log|
    ensures var e := w.h.log[w.h.marks[CreatedMark(key.1)]]; e.Created? && e.t == w.sessions[key]
  {
    hide HistoryOk, StoresOk;
    assert PcOk(w.h, w.sessions[key], w.threads[w.sessions[key]]);
  }

  lemma SessionsGain(w: World, t: nat, key: (Provider, string), pc: Pc)
    requires SessionsOk(w) && t in w.threads && KeyOf(w, t).None? && SessionKey(pc) == Some(key)
    requires key in w.sessions ==> w.sessions[key] == t
    ensures SessionsOk(At(w.(sessions := w.sessions[key := t]), t, pc))
  {
  }

  lemma RegisterOk(w: World, t: nat)
    requires Inv(w) && Enabled(w, Register(t))
    ensures StepOk(w, Next(w, Register(t)), Some(t))
  {
    hide HistoryOk, StoresOk, SessionsOk, StepOk;
    var pc := w.threads[t];
    var key := (pc.c.p, pc.st);
    assert PcOk(w.h, t, pc);
    if key in w.sessions {
      HolderOpened(w, key);
    }
    SessionsGain(w, t, key, Eliciting(pc.c, pc.st));
    SessionStepOk(w, w.sessions[key := t], t, Eliciting(pc.c, pc.st));
  }

  /** A call that owns its state may stand at any point between prompt and return. */
  lemma OwnerPcOk(h: History, t: nat, c: Call, st: string, pc: Pc, now: real)
    requires Owns(h, t, c, st)
    requires pc == Waiting(c, st, now) || pc == Declining(c, st) || pc == Leaving(c, st, Nothing, None, now)
    ensures PcOk(h, t, pc) && SessionKey(pc) == Some((c.p, st))
  {
  }

  lemma ElicitReplyOk(w: World, t: nat, answer: Flows.Answer)
    requires Inv(w) && Enabled(w, ElicitReply(t, answer))
    ensures StepOk(w, Next(w, ElicitReply(t, answer)), Some(t))
  {
    hide HistoryOk, StoresOk, SessionsOk, StepOk, RequestOk;
    var pc := w.threads[t];
    assert PcOk(w.h, t, pc);
    var after := match answer
                 case Accept => Waiting(pc.c, pc.st, w.now)
                 case Decline => Declining(pc.c, pc.st)
                 case Broken => Leaving(pc.c, pc.st, Nothing, None, w.now);
    OwnerPcOk(w.h, t, pc.c, pc.st, after, w.now);
    MoveOk(w, t, after);
  }

  lemma OwnsStaysThrough(h: History, k: History, actor: Option<nat>, t: nat, c: Call, st: string)
    requires Logs(h, k, actor) && Owns(h, t, c, st)
    ensures Owns(k, t, c, st)
  {
    if k != h {
      OwnsStays(h, k.log[|k.log| - 1], t, c, st);
    }
  }

  /** A store step of a call, after which the call still owns its state. */
  lemma OwnerStepOk(w: World, u: World, t: nat, c: Call, st: string, pc: Pc)
    requires Inv(w) && Core(u) && Logs(w.h, u.h, Some(t)) && u.threads == w.threads && u.sessions == w.sessions
    requires Owns(w.h, t, c, st) && KeyOf(w, t) == Some((c.p, st))
    requires pc == Reading(c, Final(st)) || pc == Leaving(c, st, Nothing, None, w.now)
    ensures StepOk(w, At(u, t, pc), Some(t))
  {
    hide HistoryOk, StoresOk, SessionsOk, StepOk, Logs;
    OwnsStaysThrough(w.h, u.h, Some(t), t, c, st);
    StoreStepOk(w, u, t, pc);
  }

  lemma DeclinePopOk(w: World, t: nat)
    requires Inv(w) && Enabled(w, DeclinePop(t))
    ensures StepOk(w, Next(w, DeclinePop(t)), Some(t))
  {
    hide HistoryOk, StoresOk, SessionsOk, StepOk, Logs;
    var pc := w.threads[t];
    assert PcOk(w.h, t, pc);
    PopPendingOk(w, pc.st, t, true);
    OwnerStepOk(w, PopPending(w, pc.st, t, true), t, pc.c, pc.st, Leaving(pc.c, pc.st, Nothing, None, w.now));
  }

  lemma EndWaitOk(w: World, t: nat, how: WaitEnd)
    requires Inv(w) && Enabled(w, EndWait(t, how))
    ensures StepOk(w, Next(w, EndWait(t, how)), Some(t))
  {
    hide HistoryOk, StoresOk, SessionsOk, StepOk, Logs;
    var pc := w.threads[t];
    assert PcOk(w.h, t, pc);
    if how.Signal? {
      TakeSignalOk(w, pc.st, pc.c, t);
      OwnerStepOk(w, TakeSignal(w, pc.st, pc.c, t), t, pc.c, pc.st, Reading(pc.c, Final(pc.st)));
    } else {
      MoveOk(w, t, Leaving(pc.c, pc.st, Nothing, None, w.now));
    }
  }

  lemma SessionsLose(w: World, t: nat, key: (Provider, string), pc: Pc)
    requires SessionsOk(w) && KeyOf(w, t) == Some(key) && SessionKey(pc).None?
    ensures SessionsOk(At(w.(sessions := w.sessions - {key}), t, pc))
  {
  }

  function AfterLeaving(pc: Pc): Pc
    requires pc.Leaving?
  {
    if pc.g.Nothing? then Ended else Serving(pc.c, pc.g, pc.origin, pc.at)
  }

  lemma AfterLeavingOk(h: History, t: nat, pc: Pc)
    requires pc.Leaving? && CallOk(h, t, pc)
    ensures PcOk(h, t, AfterLeaving(pc)) && SessionKey(AfterLeaving(pc)).None?
  {
  }

  lemma LeftOk(w: World, t: nat, pc: Pc, key: (Provider, string))
    requires Inv(w) && pc.Leaving? && CallOk(w.h, t, pc) && KeyOf(w, t) == Some(key)
    ensures StepOk(w, At(w.(sessions := w.sessions - {key}), t, AfterLeaving(pc)), Some(t))
  {
    hide HistoryOk, StoresOk, SessionsOk, StepOk, CallOk, PcOk, AfterLeaving;
    AfterLeavingOk(w.h, t, pc);
    SessionsLose(w, t, key, AfterLeaving(pc));
    SessionStepOk(w, w.sessions - {key}, t, AfterLeaving(pc));
  }

  lemma LeaveOk(w: World, t: nat)
    requires Inv(w) && Enabled(w, Leave(t))
    ensures StepOk(w, Next(w, Leave(t)), Some(t))
  {
    hide HistoryOk, StoresOk, SessionsOk, StepOk, CallOk, RequestOk;
    var pc := w.threads[t];
    assert PcOk(w.h, t, pc);
    LeftOk(w, t, pc, (pc.c.p, pc.st));
  }

  lemma ServedOk(w: World, t: nat, e: Event)
    requires Inv(w) && e.Served? && e.t == t && EventOk(w.h, |w.h.log|, e) && KeyOf(w, t).None?
    ensures StepOk(w, At(Log(w, e), t, Ended), Some(t))
  {
    hide HistoryOk, StoresOk, SessionsOk, StepOk, Logs, EventOk;
    LogsAdded(w.h, e, t);
    PlainEventOk(w, e);
    StoreStepOk(w, Log(w, e), t, Ended);
  }

  lemma ServeOk(w: World, t: nat)
    requires Inv(w) && Enabled(w, Serve(t))
    ensures StepOk(w, Next(w, Serve(t)), Some(t))
  {
    hide HistoryOk, StoresOk, SessionsOk, StepOk, RequestOk, GrantOk;
    var pc := w.threads[t];
    assert PcOk(w.h, t, pc);
    ServedOk(w, t, Served(pc.c.p, pc.c.sub, t, pc.g, pc.origin, pc.at));
  }

  /** A state that has an exchange or a save was won by somebody. */
  lemma SpentWasWon(h: History, st: string)
    requires HistoryOk(h)
    ensures ExchangedMark(st) in h.marks || SavedMark(st) in h.marks ==> PoppedMark(st) in h.marks
  {
    if ExchangedMark(st) in h.marks {
      assert EventOk(h, h.marks[ExchangedMark(st)], h.log[h.marks[ExchangedMark(st)]]);
    }
    if SavedMark(st) in h.marks {
      var e := h.log[h.marks[SavedMark(st)]];
      assert EventOk(h, h.marks[SavedMark(st)], e);
      if e.src.FromCode? {
        assert EventOk(h, e.src.exchanged, h.log[e.src.exchanged]);
      }
    }
  }

  lemma CollectedIsWellFormed(vars: C.Variables, form: C.Form)
    requires C.Acceptable(vars, form)
    ensures C.WellFormed(vars, C.Collected(vars, form))
  {
  }

  lemma WonOk(h: History, t: nat, p: Provider, st: string, sub: string, req: Request, created: nat)
    requires HistoryOk(h) && PoppedMark(st) !in h.marks && p.OAuth? == req.Redirect?
    ensures var k := Extend(h, Popped(st, sub, t, false, created));
            PcOk(k, t, Won(p, st, sub, req, t, |h.log|))
  {
    SpentWasWon(h, st);
    if p.Form? && req.form.Some? && C.Acceptable(p.vars, req.form.value) {
      CollectedIsWellFormed(p.vars, req.form.value);
    }
  }

  lemma WinOk(w: World, t: nat, u: World, pc: Pc)
    requires Inv(w) && pc.Popping? && KeyOf(w, t).None? && RequestOk(w.h, t, pc)
    requires Poppable(w, pc.st) && u == PopPending(w, pc.st, t, false)
    ensures StepOk(w, At(u, t, Won(pc.p, pc.st, SubjectOf(w, pc.st), pc.req, t, |w.h.log|)), Some(t))
  {
    hide IndexOk, SlotsOk, EventsOk, StoresOk, SessionsOk, StepOk, Logs, PcOk, EventOk;
    PopPendingOk(w, pc.st, t, false);
    PopAddable(w, pc.st, t, false);
    WonOk(w.h, t, pc.p, pc.st, SubjectOf(w, pc.st), pc.req, Position(w.h, CreatedMark(pc.st)));
    StoreStepOk(w, u, t, Won(pc.p, pc.st, SubjectOf(w, pc.st), pc.req, t, |w.h.log|));
  }

  lemma PopOk(w: World, t: nat)
    requires Inv(w) && Enabled(w, Pop(t))
    ensures StepOk(w, Next(w, Pop(t)), Some(t))
  {
    hide HistoryOk, StoresOk, SessionsOk, StepOk, Logs, CallOk;
    var pc := w.threads[t];
    assert PcOk(w.h, t, pc);
    var u := PopPending(w, pc.st, t, false);
    if Poppable(w, pc.st) {
      WinOk(w, t, u, pc);
    } else {
      PopPendingOk(w, pc.st, t, false);
      RequestPcOk(u.h, t, Ended);
      StoreStepOk(w, u, t, Ended);
    }
  }

  /** A callback or submission holds no session and is no tool call. */
  lemma RequestPcOk(h: History, t: nat, pc: Pc)
    requires RequestOk(h, t, pc) && (pc.Storing? || pc.Signalling? || pc.Ended?)
    ensures PcOk(h, t, pc) && SessionKey(pc).None?
  {
  }

  /** The event of a successful exchange, and where it takes the thread. */
  function ExchangeEvent(w: World, t: nat, pc: Pc, raw: Fields): Event
    requires pc.Exchanging?
  {
    Exchanged(pc.p, pc.st, pc.sub, t, raw, w.now, Position(w.h, PoppedMark(pc.st)))
  }

  function AfterExchange(w: World, t: nat, pc: Pc, raw: Fields): Pc
    requires pc.Exchanging?
  {
    Storing(pc.p, pc.st, pc.sub, T.NormalizeTokenData(raw, w.now.Floor), FromCode(pc.st, t, |w.h.log|))
  }

  lemma AfterExchangeOk(w: World, t: nat, pc: Pc, raw: Fields)
    requires pc.Exchanging? && RequestOk(w.h, t, pc)
    ensures Addable(w.h, ExchangeEvent(w, t, pc, raw))
    ensures PcOk(Extend(w.h, ExchangeEvent(w, t, pc, raw)), t, AfterExchange(w, t, pc, raw))
  {
    hide T.NormalizeTokenData;
    WonByStays(w.h, ExchangeEvent(w, t, pc, raw), t, pc.st, pc.sub);
  }

  lemma ExchangedOk(w: World, t: nat, pc: Pc, raw: Fields)
    requires Inv(w) && pc.Exchanging? && RequestOk(w.h, t, pc) && KeyOf(w, t).None?
    ensures StepOk(w, At(Log(w, ExchangeEvent(w, t, pc, raw)), t, AfterExchange(w, t, pc, raw)), Some(t))
  {
    hide HistoryOk, StoresOk, SessionsOk, StepOk, Logs, PcOk, RequestOk, Addable, T.NormalizeTokenData;
    var e := ExchangeEvent(w, t, pc, raw);
    AfterExchangeOk(w, t, pc, raw);
    LogsAdded(w.h, e, t);
    PlainEventOk(w, e);
    StoreStepOk(w, Log(w, e), t, AfterExchange(w, t, pc, raw));
  }

  lemma ExchangeReplyOk(w: World, t: nat, reply: Option<Fields>)
    requires Inv(w) && Enabled(w, ExchangeReply(t, reply))
    ensures StepOk(w, Next(w, ExchangeReply(t, reply)), Some(t))
  {
    hide HistoryOk, StoresOk, SessionsOk, StepOk, CallOk;
    var pc := w.threads[t];
    assert PcOk(w.h, t, pc);
    match reply
    case None =>
      RequestPcOk(w.h, t, Signalling(pc.st, Failure("exchange_failed"), None));
      MoveOk(w, t, Signalling(pc.st, Failure("exchange_failed"), None));
    case Some(raw) => ExchangedOk(w, t, pc, raw);
  }

  lemma SavedOk(w: World, t: nat, pc: Pc)
    requires Inv(w) && pc.Storing? && RequestOk(w.h, t, pc) && KeyOf(w, t).None?
    ensures StepOk(w, At(PutToken(w, pc.p, pc.sub, pc.entry, pc.src),
                         t, Signalling(pc.st, Success(pc.sub), Some(|w.h.log|))), Some(t))
  {
    hide HistoryOk, StoresOk, SessionsOk, StepOk, Logs, CallOk, PcOk;
    var u := PutToken(w, pc.p, pc.sub, pc.entry, pc.src);
    LogsAdded(w.h, Stored(pc.p, pc.sub, pc.entry, pc.src), t);
    PutTokenOk(w, pc.p, pc.sub, pc.entry, pc.src);
    RequestPcOk(u.h, t, Signalling(pc.st, Success(pc.sub), Some(|w.h.log|)));
    StoreStepOk(w, u, t, Signalling(pc.st, Success(pc.sub), Some(|w.h.log|)));
  }

  lemma SaveOk(w: World, t: nat)
    requires Inv(w) && Enabled(w, Save(t))
    ensures StepOk(w, Next(w, Save(t)), Some(t))
  {
    hide HistoryOk, StoresOk, SessionsOk, StepOk, CallOk, RequestOk, PutToken;
    var pc := w.threads[t];
    assert PcOk(w.h, t, pc);
    SavedOk(w, t, pc);
  }

  lemma SentOk(w: World, t: nat, pc: Pc)
    requires Inv(w) && pc.Signalling? && RequestOk(w.h, t, pc) && KeyOf(w, t).None?
    ensures StepOk(w, At(PutSignal(w, pc.st, pc.doc, t, pc.why), t, Ended), Some(t))
  {
    hide HistoryOk, StoresOk, SessionsOk, StepOk, Logs, PcOk, Addable;
    var u := PutSignal(w, pc.st, pc.doc, t, pc.why);
    PutSignalOk(w, pc.st, pc.doc, t, pc.why);
    LogsAdded(w.h, Signalled(pc.st, pc.doc, t, pc.why), t);
    RequestPcOk(u.h, t, Ended);
    StoreStepOk(w, u, t, Ended);
  }

  lemma SendSignalOk(w: World, t: nat, kept: bool)
    requires Inv(w) && Enabled(w, SendSignal(t, kept))
    ensures StepOk(w, Next(w, SendSignal(t, kept)), Some(t))
  {
    hide HistoryOk, StoresOk, SessionsOk, StepOk, CallOk, RequestOk, PutSignal;
    var pc := w.threads[t];
    assert PcOk(w.h, t, pc);
    if kept {
      SentOk(w, t, pc);
    } else {
      EndedPcOk(w.h, t);
      MoveOk(w, t, Ended);
    }
  }

  lemma EndedPcOk(h: History, t: nat)
    ensures PcOk(h, t, Ended)
  {
  }

  lemma FailedOk(w: World, t: nat)
    requires Enabled(w, Fail(t)) && PcOk(w.h, t, w.threads[t])
    ensures PcOk(w.h, t, Failed(w.threads[t], w.now))
    ensures SessionKey(Failed(w.threads[t], w.now)) == SessionKey(w.threads[t])
  {
  }

  lemma FailOk(w: World, t: nat)
    requires Inv(w) && Enabled(w, Fail(t))
    ensures StepOk(w, Next(w, Fail(t)), Some(t))
  {
    hide HistoryOk, StoresOk, SessionsOk, StepOk, PcOk, Failed;
    FailedOk(w, t);
    MoveOk(w, t, Failed(w.threads[t], w.now));
  }

  lemma EnvironmentOk(w: World, a: Action)
    requires Inv(w) && Enabled(w, a) && (a.Tick? || a.LoseSignal? || a.Purge? || a.Invalidate?)
    ensures StepOk(w, Next(w, a), None)
  {
    hide HistoryOk, TokensOk, PendingsOk, SignalsOk;
    if a.Invalidate? {
      DropTokenOk(w, a.p, a.sub);
    } else {
      QuietChangeOk(w, Next(w, a));
    }
  }

  lemma StartOk(w: World, a: Action)
    requires Inv(w) && Enabled(w, a) && (a.StartCall? || a.StartRequest?)
    ensures StepOk(w, Next(w, a), Some(a.t))
  {
    hide HistoryOk, StoresOk, SessionsOk, StepOk;
    MoveOk(w, a.t, Next(w, a).threads[a.t]);
  }

  lemma ActionOk(w: World, a: Action)
    requires Inv(w) && Enabled(w, a)
    ensures StepOk(w, Next(w, a), Actor(a))
  {
    hide Inv, StepOk, Next, Enabled;
    match a
    case Read(t) => ReadOk(w, t);
    case RefreshReply(t, reply) => RefreshReplyOk(w, t, reply);
    case SaveRefreshed(t) => SaveRefreshedOk(w, t);
    case DropStale(t) => DropStaleOk(w, t);
    case Open(t, st) => OpenOk(w, t, st);
    case Register(t) => RegisterOk(w, t);
    case ElicitReply(t, answer) => ElicitReplyOk(w, t, answer);
    case DeclinePop(t) => DeclinePopOk(w, t);
    case EndWait(t, how) => EndWaitOk(w, t, how);
    case Leave(t) => LeaveOk(w, t);
    case Serve(t) => ServeOk(w, t);
    case Pop(t) => PopOk(w, t);
    case ExchangeReply(t, reply) => ExchangeReplyOk(w, t, reply);
    case Save(t) => SaveOk(w, t);
    case SendSignal(t, kept) => SendSignalOk(w, t, kept);
    case Fail(t) => FailOk(w, t);
    case StartCall(_, _) => StartOk(w, a);
    case StartRequest(_, _, _) => StartOk(w, a);
    case _ => EnvironmentOk(w, a);
  }

  /** The invariant holds after every run from every initial token store. */
  lemma {:induction false} RunKeepsInv(w: World, acts: seq<Action>)
    requires Inv(w) && Run(w, acts).Some?
    ensures Inv(Run(w, acts).value)
  {
    if acts != [] {
      var n := |acts| - 1;
      RunKeepsInv(w, acts[..n]);
      var mid := Run(w, acts[..n]).value;
      ActionOk(mid, acts[n]);
      StepOkKeepsInv(mid, Next(mid, acts[n]), Actor(acts[n]));
    }
  }

  lemma Reachable(now: real, tokens: map<Slot, Fields>, acts: seq<Action>, w: World)
    requires Run(Begin(now, tokens), acts) == Some(w)
    ensures Inv(w)
  {
    RunKeepsInv(Begin(now, tokens), acts);
  }
}

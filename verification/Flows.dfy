/** The provider flows as threads: tool calls that may block for an authorization, and the
    HTTP callbacks and form submissions that complete it, over one shared pending store and
    one token store per provider (oauthprovider.go, credentialsprovider.go).

    A step is one store operation, one outside reply or one lock region; steps of different
    threads interleave freely.  The pending store is shared by all providers, as it is with
    the file and Redis backends.  Its signals are slots that a SetResult may fill or leave
    (memory keeps the first result, the others the last) and that may expire. */
module Flows {
  import opened Values
  import T = Tokens
  import C = Credentials

  // ----- providers, calls and requests -----

  datatype Provider =
    | OAuth(name: string, timeout: real, canRefresh: bool)
    | Form(name: string, timeout: real, vars: C.Variables)

  /** Go's int(x) for a float: rounds toward zero. */
  function Truncated(x: real): int {
    if x >= 0.0 then x.Floor else -((-x).Floor)
  }

  /** Seconds added to the timeout when a pending entry is created. */
  function Slack(p: Provider): int {
    if p.OAuth? then 60 else 0
  }

  function Lifetime(p: Provider): int {
    Truncated(p.timeout) + Slack(p)
  }

  /** Where a provider keeps what belongs to a subject. */
  type Slot = (Provider, string)

  datatype Call = Call(p: Provider, sub: string, failFast: bool)

  /** What the wrapped handler is given: nothing, an access token, or credentials. */
  datatype Grant = Nothing | Token(token: string) | Secrets(creds: Fields)

  function TokenGrant(token: string): Grant {
    if token == "" then Nothing else Token(token)
  }

  /** The query of an OAuth redirect, or a posted form (None if it does not parse). */
  datatype Request =
    | Redirect(error: string, code: string, state: string)
    | Post(entryToken: string, form: Option<C.Form>)

  function Metadata(sub: string): Fields { map["sub" := Str(sub)] }

  function Success(sub: string): Fields { map["sub" := Str(sub), "_elicit_sent" := Bool(false)] }

  function Failure(reason: string): Fields { map["error" := Str(reason)] }

  // ----- threads -----

  /** Which reading of the token store a call is at: before asking the user, or after the
      signal for `st`. */
  datatype Stage = First | Final(st: string)

  /** Program points.  Positions in the log (`from`, `origin`, `why`) and the time `at` which a
      grant was resolved are bookkeeping. */
  datatype Pc =
    | Reading(c: Call, stage: Stage)
    | Refreshing(c: Call, stage: Stage, prior: Fields, from: Option<nat>)
    | Saving(c: Call, stage: Stage, entry: Fields, src: Source)
    | Dropping(c: Call, stage: Stage)
    | Opening(c: Call)
    | Registering(c: Call, st: string)
    | Eliciting(c: Call, st: string)
    | Declining(c: Call, st: string)
    | Waiting(c: Call, st: string, since: real)
    | Leaving(c: Call, st: string, g: Grant, origin: Option<nat>, at: real)
    | Serving(c: Call, g: Grant, origin: Option<nat>, at: real)
    | Popping(p: Provider, st: string, req: Request)
    | Exchanging(p: Provider, st: string, sub: string)
    | Storing(p: Provider, st: string, sub: string, entry: Fields, src: Source)
    | Signalling(st: string, doc: Fields, why: Option<nat>)
    | Ended

  // ----- the log -----

  /** Where a stored entry comes from, with the log position of the cause. */
  datatype Source =
    | FromCode(st: string, t: nat, exchanged: nat)
    | FromForm(st: string, t: nat, popped: nat)
    | FromRefresh(t: nat, prior: Fields, from: Option<nat>, raw: Fields, at: real)

  datatype Event =
    | Created(st: string, p: Provider, sub: string, t: nat, at: real)
    | Popped(st: string, sub: string, t: nat, declined: bool, created: nat)
    | Exchanged(p: Provider, st: string, sub: string, t: nat, raw: Fields, at: real, popped: nat)
    | Stored(p: Provider, sub: string, entry: Fields, src: Source)
    | Deleted(p: Provider, sub: string)
    | Signalled(st: string, doc: Fields, t: nat, why: Option<nat>)
    | Received(st: string, p: Provider, sub: string, t: nat, doc: Fields, created: nat, signalled: nat)
    | Served(p: Provider, sub: string, t: nat, g: Grant, origin: Option<nat>, at: real)

  /** What can happen once to a state. */
  datatype Mark =
    | CreatedMark(st: string)
    | PoppedMark(st: string)
    | ExchangedMark(st: string)
    | SavedMark(st: string)

  function MarkOf(e: Event): Option<Mark> {
    match e
    case Created(st, _, _, _, _) => Some(CreatedMark(st))
    case Popped(st, _, _, _, _) => Some(PoppedMark(st))
    case Exchanged(_, st, _, _, _, _, _) => Some(ExchangedMark(st))
    case Stored(_, _, _, FromCode(st, _, _)) => Some(SavedMark(st))
    case Stored(_, _, _, FromForm(st, _, _)) => Some(SavedMark(st))
    case _ => None
  }

  /** The token stores as they were at the start, the log, and an index of it: the position
      of each mark, of each state's last signal, and of each slot's last write and deletion. */
  datatype History = History(
    initial: map<Slot, Fields>,
    log: seq<Event>,
    marks: map<Mark, nat>,
    signalled: map<string, nat>,
    written: map<Slot, nat>,
    deleted: map<Slot, nat>)

  function Extend(h: History, e: Event): History {
    var n := |h.log|;
    History(
      h.initial,
      h.log + [e],
      if MarkOf(e).Some? then h.marks[MarkOf(e).value := n] else h.marks,
      if e.Signalled? then h.signalled[e.st := n] else h.signalled,
      if e.Stored? then h.written[(e.p, e.sub) := n] else h.written,
      if e.Deleted? then h.deleted[(e.p, e.sub) := n] else h.deleted)
  }

  // ----- the world -----

  datatype Pending = Pending(metadata: Fields, expires: real)

  datatype World = World(
    now: real,
    pending: map<string, Pending>,
    signals: map<string, Fields>,
    tokens: map<Slot, Fields>,
    sessions: map<(Provider, string), nat>,
    threads: map<nat, Pc>,
    h: History)

  function Begin(now: real, tokens: map<Slot, Fields>): World {
    World(now, map[], map[], tokens, map[], map[], History(tokens, [], map[], map[], map[], map[]))
  }

  function Log(w: World, e: Event): World {
    w.(h := Extend(w.h, e))
  }

  function At(w: World, t: nat, pc: Pc): World {
    w.(threads := w.threads[t := pc])
  }

  /** Position of the entry now held in a slot; None if it was there at the start. */
  function Origin(h: History, slot: Slot): Option<nat> {
    if slot in h.written then Some(h.written[slot]) else None
  }

  function Position(h: History, m: Mark): nat {
    if m in h.marks then h.marks[m] else 0
  }

  // ----- actions -----

  datatype Answer = Accept | Decline | Broken

  datatype WaitEnd = Signal | Timeout | Cancelled

  datatype Action =
    // the environment
    | Tick(d: real)
    | StartCall(t: nat, c: Call)
    | StartRequest(t: nat, p: Provider, req: Request)
    | Invalidate(p: Provider, sub: string)
    | LoseSignal(st: string)
    | Purge(st: string)
    // a tool call
    | Read(t: nat)
    | RefreshReply(t: nat, reply: Option<Fields>)
    | SaveRefreshed(t: nat)
    | DropStale(t: nat)
    | Open(t: nat, st: string)
    | Register(t: nat)
    | ElicitReply(t: nat, answer: Answer)
    | DeclinePop(t: nat)
    | EndWait(t: nat, how: WaitEnd)
    | Leave(t: nat)
    | Serve(t: nat)
    // a callback or submission
    | Pop(t: nat)
    | ExchangeReply(t: nat, reply: Option<Fields>)
    | Save(t: nat)
    | SendSignal(t: nat, kept: bool)
    // a store operation that reports an error and did nothing
    | Fail(t: nat)


  predicate Enabled(w: World, a: Action) {
    match a
    case Tick(d) => d >= 0.0
    case StartCall(t, _) => t !in w.threads
    case StartRequest(t, p, req) => t !in w.threads && p.OAuth? == req.Redirect?
    case Invalidate(_, _) => true
    case LoseSignal(_) => true
    case Purge(st) => st in w.pending && w.now > w.pending[st].expires
    case Read(t) => t in w.threads && w.threads[t].Reading?
    case RefreshReply(t, _) => t in w.threads && w.threads[t].Refreshing?
    case SaveRefreshed(t) => t in w.threads && w.threads[t].Saving?
    case DropStale(t) => t in w.threads && w.threads[t].Dropping?
    // generateID: an identifier never used before
    case Open(t, st) => t in w.threads && w.threads[t].Opening? && CreatedMark(st) !in w.h.marks
    case Register(t) => t in w.threads && w.threads[t].Registering?
    case ElicitReply(t, _) => t in w.threads && w.threads[t].Eliciting?
    case DeclinePop(t) => t in w.threads && w.threads[t].Declining?
    case EndWait(t, how) =>
      && t in w.threads && w.threads[t].Waiting?
      && (how.Signal? ==> w.threads[t].st in w.signals)
      && (how.Timeout? ==> w.now >= w.threads[t].since + w.threads[t].c.p.timeout)
    case Leave(t) => t in w.threads && w.threads[t].Leaving?
    case Serve(t) => t in w.threads && w.threads[t].Serving?
    case Pop(t) => t in w.threads && w.threads[t].Popping?
    case ExchangeReply(t, _) => t in w.threads && w.threads[t].Exchanging?
    case Save(t) => t in w.threads && w.threads[t].Storing?
    case SendSignal(t, _) => t in w.threads && w.threads[t].Signalling?
    case Fail(t) =>
      && t in w.threads
      && var pc := w.threads[t];
         pc.Reading? || pc.Saving? || pc.Dropping? || pc.Opening? || pc.Declining? || pc.Popping? || pc.Storing?
  }

  // ----- the store operations, with what they leave in the log -----

  function PutToken(w: World, p: Provider, sub: string, entry: Fields, src: Source): World {
    Log(w.(tokens := w.tokens[(p, sub) := entry]), Stored(p, sub, entry, src))
  }

  function DropToken(w: World, p: Provider, sub: string): World {
    Log(w.(tokens := w.tokens - {(p, sub)}), Deleted(p, sub))
  }

  function CreatePending(w: World, st: string, c: Call, t: nat): World {
    Log(w.(pending := w.pending[st := Pending(Metadata(c.sub), w.now + Lifetime(c.p) as real)]),
        Created(st, c.p, c.sub, t, w.now))
  }

  predicate Poppable(w: World, st: string) {
    st in w.pending && w.now <= w.pending[st].expires
  }

  function SubjectOf(w: World, st: string): string
    requires st in w.pending
  {
    AsString(Lookup(w.pending[st].metadata, "sub"))
  }

  /** An atomic pop: the entry goes in any case, and only a live one is a win. */
  function PopPending(w: World, st: string, t: nat, declined: bool): World {
    var v := w.(pending := w.pending - {st});
    if Poppable(w, st) then
      Log(v, Popped(st, SubjectOf(w, st), t, declined, Position(w.h, CreatedMark(st))))
    else
      v
  }

  function PutSignal(w: World, st: string, doc: Fields, t: nat, why: Option<nat>): World {
    Log(w.(signals := w.signals[st := doc]), Signalled(st, doc, t, why))
  }

  function TakeSignal(w: World, st: string, c: Call, t: nat): World
    requires st in w.signals
  {
    Log(w.(signals := w.signals - {st}),
        Received(st, c.p, c.sub, t, w.signals[st], Position(w.h, CreatedMark(st)),
                 if st in w.h.signalled then w.h.signalled[st] else 0))
  }

  // ----- steps -----

  /** The end of a reading: serve what was found, or go on to ask the user, or (after the
      signal) return through the deferred clean-up. */
  function Resolved(c: Call, stage: Stage, g: Grant, origin: Option<nat>, at: real): Pc {
    match stage
    case First => if g.Nothing? then Opening(c) else Serving(c, g, origin, at)
    case Final(st) => Leaving(c, st, g, origin, at)
  }

  /** One reading of the store and the decision on what it holds. */
  function Looked(w: World, c: Call, stage: Stage): Pc {
    var slot := (c.p, c.sub);
    if slot !in w.tokens then
      Resolved(c, stage, Nothing, None, w.now)
    else
      var entry, origin := w.tokens[slot], Origin(w.h, slot);
      if c.p.Form? then
        Resolved(c, stage, Secrets(entry), origin, w.now)
      else
        match T.Decide(entry, w.now.Floor, c.p.canRefresh)
        case Serve(token) => Resolved(c, stage, TokenGrant(token), origin, w.now)
        case Refresh(_) => Refreshing(c, stage, entry, origin)
        case Reauthorise => Resolved(c, stage, Nothing, None, w.now)
  }

  /** What the handlers do before they touch a store. */
  function FirstPc(p: Provider, req: Request): Pc {
    match req
    case Redirect(error, code, state) =>
      if error != "" then
        if state != "" then Signalling(state, Failure("oauth_error"), None) else Ended
      else if code == "" || state == "" then Ended
      else Popping(p, state, req)
    case Post(entryToken, _) =>
      if entryToken == "" then Ended else Popping(p, entryToken, req)
  }

  /** After a winning pop: exchange the code, or check the form and save it. */
  function Won(p: Provider, st: string, sub: string, req: Request, t: nat, popped: nat): Pc {
    match req
    case Redirect(_, _, _) => Exchanging(p, st, sub)
    case Post(_, form) =>
      if p.Form? && form.Some? && C.Acceptable(p.vars, form.value) then
        Storing(p, st, sub, C.Collected(p.vars, form.value), FromForm(st, t, popped))
      else
        Ended
  }

  /** Where a thread goes when its store operation reports an error. */
  function Failed(pc: Pc, now: real): Pc {
    match pc
    case Reading(c, Final(st)) => Leaving(c, st, Nothing, None, now)
    case Saving(c, Final(st), _, _) => Leaving(c, st, Nothing, None, now)
    case Dropping(c, stage) => Resolved(c, stage, Nothing, None, now)
    case Declining(c, st) => Leaving(c, st, Nothing, None, now)
    case _ => Ended
  }

  function Next(w: World, a: Action): World
    requires Enabled(w, a)
  {
    match a
    case Tick(d) => w.(now := w.now + d)
    case StartCall(t, c) => At(w, t, Reading(c, First))
    case StartRequest(t, p, req) => At(w, t, FirstPc(p, req))
    case Invalidate(p, sub) => DropToken(w, p, sub)
    case LoseSignal(st) => w.(signals := w.signals - {st})
    case Purge(st) => w.(pending := w.pending - {st})

    case Read(t) => At(w, t, Looked(w, w.threads[t].c, w.threads[t].stage))
    case RefreshReply(t, reply) =>
      var pc := w.threads[t];
      At(w, t, match reply
               case None => Dropping(pc.c, pc.stage)
               case Some(raw) =>
                 Saving(pc.c, pc.stage, T.RefreshedEntry(raw, T.RefreshToken(pc.prior), w.now.Floor),
                        FromRefresh(t, pc.prior, pc.from, raw, w.now)))
    case SaveRefreshed(t) =>
      var pc := w.threads[t];
      At(PutToken(w, pc.c.p, pc.c.sub, pc.entry, pc.src),
         t, Resolved(pc.c, pc.stage, TokenGrant(T.AccessToken(pc.entry)), Some(|w.h.log|), w.now))
    case DropStale(t) =>
      var pc := w.threads[t];
      At(DropToken(w, pc.c.p, pc.c.sub), t, Resolved(pc.c, pc.stage, Nothing, None, w.now))
    case Open(t, st) =>
      var c := w.threads[t].c;
      At(CreatePending(w, st, c, t), t, if c.failFast then Ended else Registering(c, st))
    case Register(t) =>
      var pc := w.threads[t];
      At(w.(sessions := w.sessions[(pc.c.p, pc.st) := t]), t, Eliciting(pc.c, pc.st))
    case ElicitReply(t, answer) =>
      var pc := w.threads[t];
      At(w, t, match answer
               case Accept => Waiting(pc.c, pc.st, w.now)
               case Decline => Declining(pc.c, pc.st)
               case Broken => Leaving(pc.c, pc.st, Nothing, None, w.now))
    case DeclinePop(t) =>
      var pc := w.threads[t];
      At(PopPending(w, pc.st, t, true), t, Leaving(pc.c, pc.st, Nothing, None, w.now))
    case EndWait(t, how) =>
      var pc := w.threads[t];
      if how.Signal? then At(TakeSignal(w, pc.st, pc.c, t), t, Reading(pc.c, Final(pc.st)))
      else At(w, t, Leaving(pc.c, pc.st, Nothing, None, w.now))
    case Leave(t) =>
      var pc := w.threads[t];
      At(w.(sessions := w.sessions - {(pc.c.p, pc.st)}),
         t, if pc.g.Nothing? then Ended else Serving(pc.c, pc.g, pc.origin, pc.at))
    case Serve(t) =>
      var pc := w.threads[t];
      At(Log(w, Served(pc.c.p, pc.c.sub, t, pc.g, pc.origin, pc.at)), t, Ended)

    case Pop(t) =>
      var pc := w.threads[t];
      At(PopPending(w, pc.st, t, false), t,
         if Poppable(w, pc.st) then Won(pc.p, pc.st, SubjectOf(w, pc.st), pc.req, t, |w.h.log|) else Ended)
    case ExchangeReply(t, reply) =>
      var pc := w.threads[t];
      (match reply
       case None => At(w, t, Signalling(pc.st, Failure("exchange_failed"), None))
       case Some(raw) =>
         At(Log(w, Exchanged(pc.p, pc.st, pc.sub, t, raw, w.now, Position(w.h, PoppedMark(pc.st)))),
            t, Storing(pc.p, pc.st, pc.sub, T.NormalizeTokenData(raw, w.now.Floor), FromCode(pc.st, t, |w.h.log|))))
    case Save(t) =>
      var pc := w.threads[t];
      At(PutToken(w, pc.p, pc.sub, pc.entry, pc.src), t, Signalling(pc.st, Success(pc.sub), Some(|w.h.log|)))
    case SendSignal(t, kept) =>
      var pc := w.threads[t];
      At(if kept then PutSignal(w, pc.st, pc.doc, t, pc.why) else w, t, Ended)

    case Fail(t) => At(w, t, Failed(w.threads[t], w.now))
  }

  /** The world after a run, if every action was enabled in its turn. */
  function Run(w: World, acts: seq<Action>): Option<World> {
    if acts == [] then
      Some(w)
    else
      var n := |acts| - 1;
      match Run(w, acts[..n])
      case None => None
      case Some(mid) => if Enabled(mid, acts[n]) then Some(Next(mid, acts[n])) else None
  }
}

/** What the calls and requests of the provider flows do when they are let to: from any world, the
    steps of one thread, which are the only ones open to it, lead to the outcome that the source
    gives its branch.  Each outcome is stated on the stores, the log and the posted data
    themselves.  Where other threads may come in between, they leave the thread where it is. */
module FlowOutcomes {
  import opened Values
  import opened Flows
  import opened FlowInvariant
  import opened FlowTheorems
  import T = Tokens
  import C = Credentials

  // ----- runs -----

  lemma {:induction false} RunAppend(w: World, acts: seq<Action>, mid: World, more: seq<Action>, v: World)
    requires Run(w, acts) == Some(mid) && Run(mid, more) == Some(v)
    ensures Run(w, acts + more) == Some(v)
  {
    hide Enabled, Next;
    if more == [] {
      assert acts + more == acts;
    } else {
      var n := |more| - 1;
      RunAppend(w, acts, mid, more[..n], Run(mid, more[..n]).value);
      assert (acts + more)[..|acts| + n] == acts + more[..n];
    }
  }

  /** `acts` are steps of other threads than `t`. */
  ghost predicate NoneBy(acts: seq<Action>, t: nat) {
    forall i | 0 <= i < |acts| :: Actor(acts[i]) != Some(t)
  }

  /** Others leave a thread where it is and what was logged as it was. */
  lemma {:induction false} OthersPass(w: World, acts: seq<Action>, v: World, t: nat)
    requires Inv(w) && Run(w, acts) == Some(v) && t in w.threads
    ensures w.h.log <= v.h.log && (NoneBy(acts, t) ==> t in v.threads && v.threads[t] == w.threads[t])
  {
    hide Inv, Enabled, Next, Core, SessionsOk, PcOk, Addable, Author;
    if acts != [] {
      var n := |acts| - 1;
      var mid := Run(w, acts[..n]).value;
      OthersPass(w, acts[..n], mid, t);
      RunKeepsInv(w, acts[..n]);
      ActionOk(mid, acts[n]);
      assert NoneBy(acts, t) ==> NoneBy(acts[..n], t);
    }
  }

  /** No step is open to thread `t`. */
  ghost predicate Done(w: World, t: nat) {
    t in w.threads && forall a | Actor(a) == Some(t) :: !Enabled(w, a)
  }

  /** Two actions of one kind: the same step with possibly another outside answer. */
  predicate SameKind(a: Action, b: Action) {
    match a
    case StartCall(_, _) => b.StartCall? || b.StartRequest?
    case StartRequest(_, _, _) => b.StartCall? || b.StartRequest?
    case Read(_) => b.Read?
    case RefreshReply(_, _) => b.RefreshReply?
    case SaveRefreshed(_) => b.SaveRefreshed?
    case DropStale(_) => b.DropStale?
    case Open(_, _) => b.Open?
    case Register(_) => b.Register?
    case ElicitReply(_, _) => b.ElicitReply?
    case DeclinePop(_) => b.DeclinePop?
    case EndWait(_, _) => b.EndWait?
    case Leave(_) => b.Leave?
    case Serve(_) => b.Serve?
    case Pop(_) => b.Pop?
    case ExchangeReply(_, _) => b.ExchangeReply?
    case Save(_) => b.Save?
    case SendSignal(_, _) => b.SendSignal?
    case _ => false
  }

  /** A thread never has a choice: apart from an error report of the store, all steps open to it
      are of one kind. */
  lemma OneKindOfStep(w: World, t: nat, a: Action, b: Action)
    requires Enabled(w, a) && Enabled(w, b) && Actor(a) == Actor(b) == Some(t) && !a.Fail? && !b.Fail?
    ensures SameKind(a, b)
  {
  }

  // ----- what a stored entry is good for -----

  predicate Text(entry: Fields, key: string, text: string) {
    key in entry && entry[key] == Str(text)
  }

  /** The entry has an expiry, and at most 30 seconds are left of it by whole seconds. */
  predicate Expiring(entry: Fields, now: real) {
    "expires_at" in entry && entry["expires_at"].Float? && entry["expires_at"].r <= now.Floor as real + 30.0
  }

  /** The entry is good for serving `g` at `now`: credentials as they are, or a non-empty access
      token that is not about to expire. */
  predicate GoodFor(p: Provider, entry: Fields, now: real, g: Grant) {
    if p.Form? then g == Secrets(entry)
    else g.Token? && g.token != "" && Text(entry, "access_token", g.token) && !Expiring(entry, now)
  }

  /** The entry is about to expire, but can be refreshed with `used`. */
  predicate Refreshable(p: Provider, entry: Fields, now: real, used: string) {
    p.OAuth? && p.canRefresh && used != "" && Text(entry, "refresh_token", used) && Expiring(entry, now)
  }

  lemma LookedServes(w: World, c: Call, stage: Stage, g: Grant)
    requires (c.p, c.sub) in w.tokens && GoodFor(c.p, w.tokens[(c.p, c.sub)], w.now, g)
    ensures var origin := Origin(w.h, (c.p, c.sub));
            Looked(w, c, stage) == if stage.First? then Serving(c, g, origin, w.now)
                                   else Leaving(c, stage.st, g, origin, w.now)
    ensures !g.Nothing?
  {
  }

  lemma LookedRefreshes(w: World, c: Call, stage: Stage, used: string)
    requires (c.p, c.sub) in w.tokens && Refreshable(c.p, w.tokens[(c.p, c.sub)], w.now, used)
    ensures Looked(w, c, stage) == Refreshing(c, stage, w.tokens[(c.p, c.sub)], Origin(w.h, (c.p, c.sub)))
    ensures T.RefreshToken(w.tokens[(c.p, c.sub)]) == used
  {
  }

  /** Neither served nor refreshed: there is no entry, or it is good for neither. */
  ghost predicate Useless(w: World, c: Call) {
    (c.p, c.sub) in w.tokens ==>
      && (forall g :: !GoodFor(c.p, w.tokens[(c.p, c.sub)], w.now, g))
      && (forall used :: !Refreshable(c.p, w.tokens[(c.p, c.sub)], w.now, used))
  }

  lemma LookedFindsNothing(w: World, c: Call, stage: Stage)
    requires Useless(w, c)
    ensures stage.First? ==> Looked(w, c, stage) == Opening(c)
    ensures stage.Final? ==> Looked(w, c, stage).Leaving? && Looked(w, c, stage).g.Nothing?
    ensures stage.Final? ==> Looked(w, c, stage).c == c && Looked(w, c, stage).st == stage.st
  {
    var slot := (c.p, c.sub);
    if slot in w.tokens {
      var entry := w.tokens[slot];
      assert !GoodFor(c.p, entry, w.now, if c.p.Form? then Secrets(entry) else Token(T.AccessToken(entry)));
      assert !Refreshable(c.p, entry, w.now, T.RefreshToken(entry));
    }
  }

  /** The first reading of a call decides between serving, refreshing and asking the user, each if
      and only if the stored entry is good for it; it changes no store. */
  lemma FirstReadDecides(w: World, t: nat, c: Call)
    requires t in w.threads && w.threads[t] == Reading(c, First)
    ensures var v := Next(w, Read(t));
            var slot := (c.p, c.sub);
            && v == w.(threads := v.threads)
            && (Enabled(v, Serve(t)) <==> slot in w.tokens && exists g :: GoodFor(c.p, w.tokens[slot], w.now, g))
            && (Enabled(v, RefreshReply(t, None)) <==>
                  slot in w.tokens && exists used :: Refreshable(c.p, w.tokens[slot], w.now, used))
            && (forall st | CreatedMark(st) !in w.h.marks :: Enabled(v, Open(t, st)) <==> Useless(w, c))
  {
    hide Enabled, Next, Looked, GoodFor, Refreshable;
    var slot := (c.p, c.sub);
    ReadStep(w, t, c, First);
    OpenStepsOfCall(Next(w, Read(t)), t);
    if slot in w.tokens && exists g :: GoodFor(c.p, w.tokens[slot], w.now, g) {
      var g :| GoodFor(c.p, w.tokens[slot], w.now, g);
      LookedServes(w, c, First, g);
      GoodIsNotRefreshable(c.p, w.tokens[slot], w.now, g);
    } else if slot in w.tokens && exists used :: Refreshable(c.p, w.tokens[slot], w.now, used) {
      var used :| Refreshable(c.p, w.tokens[slot], w.now, used);
      LookedRefreshes(w, c, First, used);
    } else {
      LookedFindsNothing(w, c, First);
    }
  }

  lemma OpenStepsOfCall(w: World, t: nat)
    requires t in w.threads
    ensures Enabled(w, Serve(t)) <==> w.threads[t].Serving?
    ensures Enabled(w, RefreshReply(t, None)) <==> w.threads[t].Refreshing?
    ensures forall st | CreatedMark(st) !in w.h.marks :: Enabled(w, Open(t, st)) <==> w.threads[t].Opening?
  {
  }

  lemma GoodIsNotRefreshable(p: Provider, entry: Fields, now: real, g: Grant)
    requires GoodFor(p, entry, now, g)
    ensures forall used :: !Refreshable(p, entry, now, used)
  {
  }

  // ----- single steps -----

  lemma StartCallStep(w: World, t: nat, c: Call)
    requires t !in w.threads
    ensures Enabled(w, StartCall(t, c)) && Next(w, StartCall(t, c)) == At(w, t, Reading(c, First))
  {
  }

  lemma ReadStep(w: World, t: nat, c: Call, stage: Stage)
    requires t in w.threads && w.threads[t] == Reading(c, stage)
    ensures Enabled(w, Read(t)) && Next(w, Read(t)) == At(w, t, Looked(w, c, stage))
  {
    hide Looked;
  }

  lemma RefreshReplyStep(w: World, t: nat, c: Call, stage: Stage, prior: Fields, from: Option<nat>,
                         reply: Option<Fields>)
    requires t in w.threads && w.threads[t] == Refreshing(c, stage, prior, from)
    ensures Enabled(w, RefreshReply(t, reply))
    ensures Next(w, RefreshReply(t, reply)) ==
            At(w, t, match reply
                     case None => Dropping(c, stage)
                     case Some(raw) => Saving(c, stage, T.RefreshedEntry(raw, T.RefreshToken(prior), w.now.Floor),
                                              FromRefresh(t, prior, from, raw, w.now)))
  {
    hide T.RefreshedEntry;
  }

  lemma SaveRefreshedStep(w: World, t: nat, c: Call, stage: Stage, entry: Fields, src: Source, token: string)
    requires t in w.threads && w.threads[t] == Saving(c, stage, entry, src)
    requires Text(entry, "access_token", token) && token != ""
    ensures Enabled(w, SaveRefreshed(t))
    ensures Next(w, SaveRefreshed(t)) ==
            At(PutToken(w, c.p, c.sub, entry, src), t,
               match stage
               case First => Serving(c, Token(token), Some(|w.h.log|), w.now)
               case Final(st) => Leaving(c, st, Token(token), Some(|w.h.log|), w.now))
  {
    hide PutToken;
  }

  lemma SaveTokenlessStep(w: World, t: nat, c: Call, entry: Fields, src: Source)
    requires t in w.threads && w.threads[t] == Saving(c, First, entry, src)
    requires forall token | Text(entry, "access_token", token) :: token == ""
    ensures Enabled(w, SaveRefreshed(t))
    ensures Next(w, SaveRefreshed(t)) == At(PutToken(w, c.p, c.sub, entry, src), t, Opening(c))
  {
    hide PutToken;
    assert Text(entry, "access_token", T.AccessToken(entry)) || T.AccessToken(entry) == "";
  }

  lemma DropStep(w: World, t: nat, c: Call, stage: Stage, deleted: bool)
    requires t in w.threads && w.threads[t] == Dropping(c, stage)
    ensures var a := if deleted then DropStale(t) else Fail(t);
            && Enabled(w, a)
            && Next(w, a) == At(if deleted then DropToken(w, c.p, c.sub) else w, t,
                                match stage
                                case First => Opening(c)
                                case Final(st) => Leaving(c, st, Nothing, None, w.now))
  {
    hide DropToken;
  }

  lemma OpenStep(w: World, t: nat, c: Call, st: string)
    requires t in w.threads && w.threads[t] == Opening(c) && CreatedMark(st) !in w.h.marks
    ensures Enabled(w, Open(t, st))
    ensures Next(w, Open(t, st)) == At(CreatePending(w, st, c, t), t, if c.failFast then Ended else Registering(c, st))
  {
    hide CreatePending;
  }

  lemma RegisterStep(w: World, t: nat, c: Call, st: string)
    requires t in w.threads && w.threads[t] == Registering(c, st)
    ensures Enabled(w, Register(t))
    ensures Next(w, Register(t)) == At(w.(sessions := w.sessions[(c.p, st) := t]), t, Eliciting(c, st))
  {
  }

  lemma AnswerStep(w: World, t: nat, c: Call, st: string, answer: Flows.Answer)
    requires t in w.threads && w.threads[t] == Eliciting(c, st)
    ensures Enabled(w, ElicitReply(t, answer))
    ensures Next(w, ElicitReply(t, answer)) ==
            At(w, t, match answer
                     case Accept => Waiting(c, st, w.now)
                     case Decline => Declining(c, st)
                     case Broken => Leaving(c, st, Nothing, None, w.now))
  {
  }

  lemma DeclinePopStep(w: World, t: nat, c: Call, st: string)
    requires t in w.threads && w.threads[t] == Declining(c, st)
    ensures Enabled(w, DeclinePop(t))
    ensures Next(w, DeclinePop(t)) == At(PopPending(w, st, t, true), t, Leaving(c, st, Nothing, None, w.now))
  {
    hide PopPending;
  }

  lemma SignalStep(w: World, t: nat, c: Call, st: string, since: real)
    requires t in w.threads && w.threads[t] == Waiting(c, st, since) && st in w.signals
    ensures Enabled(w, EndWait(t, Signal))
    ensures Next(w, EndWait(t, Signal)) == At(TakeSignal(w, st, c, t), t, Reading(c, Final(st)))
  {
    hide TakeSignal;
  }

  lemma LeaveStep(w: World, t: nat, c: Call, st: string, g: Grant, origin: Option<nat>, at: real)
    requires t in w.threads && w.threads[t] == Leaving(c, st, g, origin, at)
    ensures Enabled(w, Leave(t))
    ensures Next(w, Leave(t)) == At(w.(sessions := w.sessions - {(c.p, st)}), t,
                                    if g.Nothing? then Ended else Serving(c, g, origin, at))
  {
  }

  lemma ServeStep(w: World, t: nat, c: Call, g: Grant, origin: Option<nat>, at: real)
    requires t in w.threads && w.threads[t] == Serving(c, g, origin, at)
    ensures Enabled(w, Serve(t)) && Next(w, Serve(t)) == At(Log(w, Served(c.p, c.sub, t, g, origin, at)), t, Ended)
  {
    hide Log;
  }

  lemma StartRequestStep(w: World, t: nat, p: Provider, req: Request)
    requires t !in w.threads && p.OAuth? == req.Redirect?
    ensures Enabled(w, StartRequest(t, p, req)) && Next(w, StartRequest(t, p, req)) == At(w, t, FirstPc(p, req))
  {
    hide FirstPc;
  }

  lemma PopStep(w: World, t: nat, p: Provider, st: string, req: Request)
    requires t in w.threads && w.threads[t] == Popping(p, st, req)
    ensures Enabled(w, Pop(t))
    ensures Next(w, Pop(t)) ==
            At(PopPending(w, st, t, false), t,
               if Poppable(w, st) then Won(p, st, SubjectOf(w, st), req, t, |w.h.log|) else Ended)
  {
    hide PopPending, Won;
  }

  lemma ExchangeFailStep(w: World, t: nat, p: Provider, st: string, sub: string)
    requires t in w.threads && w.threads[t] == Exchanging(p, st, sub)
    ensures Enabled(w, ExchangeReply(t, None))
    ensures Next(w, ExchangeReply(t, None)) ==
            At(w, t, Signalling(st, map["error" := Str("exchange_failed")], None))
  {
  }

  lemma SaveStep(w: World, t: nat, p: Provider, st: string, sub: string, entry: Fields, src: Source)
    requires t in w.threads && w.threads[t] == Storing(p, st, sub, entry, src)
    ensures Enabled(w, Save(t))
    ensures Next(w, Save(t)) ==
            At(PutToken(w, p, sub, entry, src), t,
               Signalling(st, map["sub" := Str(sub), "_elicit_sent" := Bool(false)], Some(|w.h.log|)))
  {
    hide PutToken;
  }

  lemma SendStep(w: World, t: nat, st: string, doc: Fields, why: Option<nat>)
    requires t in w.threads && w.threads[t] == Signalling(st, doc, why)
    ensures Enabled(w, SendSignal(t, true))
    ensures Next(w, SendSignal(t, true)) == At(PutSignal(w, st, doc, t, why), t, Ended)
  {
    hide PutSignal;
  }

  lemma EndedIsDone(w: World, t: nat)
    requires t in w.threads && w.threads[t] == Ended
    ensures Done(w, t)
  {
  }

  // ----- a call that needs no prompt -----

  /** A call for whose slot a good entry is stored is served it, and nothing else happens. */
  lemma StoredEntryIsServed(w: World, t: nat, c: Call, g: Grant) returns (v: World)
    requires t !in w.threads && (c.p, c.sub) in w.tokens && GoodFor(c.p, w.tokens[(c.p, c.sub)], w.now, g)
    ensures Run(w, [StartCall(t, c), Read(t), Serve(t)]) == Some(v)
    ensures v.h.log == w.h.log + [Served(c.p, c.sub, t, g, Origin(w.h, (c.p, c.sub)), w.now)]
    ensures v.pending == w.pending && v.signals == w.signals && v.tokens == w.tokens && v.sessions == w.sessions
    ensures Done(v, t)
  {
    hide Run, Next, Enabled, Looked, GoodFor, Done;
    var origin := Origin(w.h, (c.p, c.sub));
    NoActions(w);
    StartCallStep(w, t, c);
    var acts, x := Then(w, [], w, StartCall(t, c));
    LookedServes(x, c, First, g);
    ReadStep(x, t, c, First);
    acts, x := Then(w, acts, x, Read(t));
    ServeStep(x, t, c, g, origin, w.now);
    acts, v := Then(w, acts, x, Serve(t));
    EndedIsDone(v, t);
    assert acts == [StartCall(t, c), Read(t), Serve(t)];
  }

  /** A call whose entry can be refreshed asks for that. */
  lemma CallRefreshes(w: World, t: nat, c: Call, used: string) returns (acts: seq<Action>, x: World)
    requires t !in w.threads && (c.p, c.sub) in w.tokens && Refreshable(c.p, w.tokens[(c.p, c.sub)], w.now, used)
    ensures acts == [StartCall(t, c), Read(t)] && Run(w, acts) == Some(x)
    ensures x == At(w, t, Refreshing(c, First, w.tokens[(c.p, c.sub)], Origin(w.h, (c.p, c.sub))))
  {
    hide Run, Next, Enabled, Looked, Refreshable;
    NoActions(w);
    StartCallStep(w, t, c);
    acts, x := Then(w, [], w, StartCall(t, c));
    LookedRefreshes(x, c, First, used);
    ReadStep(x, t, c, First);
    acts, x := Then(w, acts, x, Read(t));
    assert x.threads == w.threads[t := x.threads[t]];
  }

  /** The answer to a refresh is about to be saved as an entry that keeps it. */
  lemma RefreshIsAnswered(w: World, acts: seq<Action>, x: World, t: nat, c: Call, stage: Stage, prior: Fields,
                          from: Option<nat>, raw: Fields) returns (longer: seq<Action>, v: World, entry: Fields)
    requires Run(w, acts) == Some(x) && t in x.threads && x.threads[t] == Refreshing(c, stage, prior, from)
    ensures longer == acts + [RefreshReply(t, Some(raw))] && Run(w, longer) == Some(v)
    ensures v == At(x, t, Saving(c, stage, entry, FromRefresh(t, prior, from, raw, x.now)))
    ensures T.KeepsResponse(entry, raw, x.now.Floor) && T.CarriesRefreshToken(entry, raw, T.RefreshToken(prior))
    ensures forall token :: Text(entry, "access_token", token) <==> Text(raw, "access_token", token)
  {
    hide Run, Next, Enabled, T.RefreshedEntry, T.CarriesRefreshToken;
    entry := T.RefreshedEntry(raw, T.RefreshToken(prior), x.now.Floor);
    T.EntryKeepsResponse(raw, T.RefreshToken(prior), x.now.Floor);
    RefreshReplyStep(x, t, c, stage, prior, from, Some(raw));
    longer, v := Then(w, acts, x, RefreshReply(t, Some(raw)));
  }

  /** A call whose token is about to expire is served the token of the refresh response, and what
      is stored keeps that response and the refresh token to use next. */
  lemma RefreshedTokenIsServed(w: World, t: nat, c: Call, used: string, raw: Fields, token: string)
    returns (v: World, entry: Fields)
    requires t !in w.threads && (c.p, c.sub) in w.tokens
    requires Refreshable(c.p, w.tokens[(c.p, c.sub)], w.now, used) && Text(raw, "access_token", token) && token != ""
    ensures Run(w, [StartCall(t, c), Read(t), RefreshReply(t, Some(raw)), SaveRefreshed(t), Serve(t)]) == Some(v)
    ensures v.tokens == w.tokens[(c.p, c.sub) := entry]
    ensures T.KeepsResponse(entry, raw, w.now.Floor) && T.CarriesRefreshToken(entry, raw, used)
    ensures |v.h.log| == |w.h.log| + 2
    ensures v.h.log[|w.h.log| + 1] == Served(c.p, c.sub, t, Token(token), Some(|w.h.log|), w.now)
    ensures v.pending == w.pending && v.signals == w.signals && v.sessions == w.sessions && Done(v, t)
  {
    hide Run, Next, Enabled, Done, Looked, Refreshable, T.KeepsResponse, T.CarriesRefreshToken, Extend;
    var prior, origin := w.tokens[(c.p, c.sub)], Origin(w.h, (c.p, c.sub));
    LookedRefreshes(w, c, First, used);
    var acts, x := CallRefreshes(w, t, c, used);
    acts, x, entry := RefreshIsAnswered(w, acts, x, t, c, First, prior, origin, raw);
    acts, v := RefreshIsSaved(w, acts, x, t, c, entry, FromRefresh(t, prior, origin, raw, w.now), token);
    assert acts == [StartCall(t, c), Read(t), RefreshReply(t, Some(raw)), SaveRefreshed(t), Serve(t)];
  }

  lemma RefreshIsSaved(w: World, acts: seq<Action>, x: World, t: nat, c: Call, entry: Fields, src: Source,
                       token: string) returns (longer: seq<Action>, v: World)
    requires Run(w, acts) == Some(x) && t in x.threads && x.threads[t] == Saving(c, First, entry, src)
    requires Text(entry, "access_token", token) && token != ""
    ensures longer == acts + [SaveRefreshed(t), Serve(t)] && Run(w, longer) == Some(v)
    ensures v.tokens == x.tokens[(c.p, c.sub) := entry] && Done(v, t)
    ensures v.h.log == x.h.log + [Stored(c.p, c.sub, entry, src),
                                  Served(c.p, c.sub, t, Token(token), Some(|x.h.log|), x.now)]
    ensures v.pending == x.pending && v.signals == x.signals && v.sessions == x.sessions
  {
    hide Run, Next, Enabled, Done;
    SaveRefreshedStep(x, t, c, First, entry, src, token);
    var y: World;
    longer, y := Then(w, acts, x, SaveRefreshed(t));
    ServeStep(y, t, c, Token(token), Some(|x.h.log|), x.now);
    longer, v := Then(w, longer, y, Serve(t));
    EndedIsDone(v, t);
  }

  lemma StaleIsDropped(w: World, acts: seq<Action>, x: World, t: nat, c: Call, stage: Stage, prior: Fields,
                       from: Option<nat>, deleted: bool) returns (longer: seq<Action>, v: World)
    requires Run(w, acts) == Some(x) && t in x.threads && x.threads[t] == Refreshing(c, stage, prior, from)
    ensures longer == acts + [RefreshReply(t, None), if deleted then DropStale(t) else Fail(t)]
    ensures Run(w, longer) == Some(v)
    ensures v.tokens == if deleted then x.tokens - {(c.p, c.sub)} else x.tokens
    ensures v.pending == x.pending && v.signals == x.signals && v.sessions == x.sessions && v.h.marks == x.h.marks
    ensures v.threads == x.threads[t := match stage
                                        case First => Opening(c)
                                        case Final(st) => Leaving(c, st, Nothing, None, x.now)]
  {
    hide Run, Next, Enabled;
    RefreshReplyStep(x, t, c, stage, prior, from, None);
    var y: World;
    longer, y := Then(w, acts, x, RefreshReply(t, None));
    DropStep(y, t, c, stage, deleted);
    longer, v := Then(w, longer, y, if deleted then DropStale(t) else Fail(t));
  }

  /** A failed refresh deletes the entry, and the call goes on to ask the user; so it does if even
      the deletion fails, except that the entry stays. */
  lemma FailedRefreshDeletes(w: World, t: nat, c: Call, used: string, deleted: bool) returns (v: World)
    requires t !in w.threads && (c.p, c.sub) in w.tokens && Refreshable(c.p, w.tokens[(c.p, c.sub)], w.now, used)
    ensures Run(w, [StartCall(t, c), Read(t), RefreshReply(t, None), if deleted then DropStale(t) else Fail(t)])
         == Some(v)
    ensures v.tokens == if deleted then w.tokens - {(c.p, c.sub)} else w.tokens
    ensures v.pending == w.pending && v.signals == w.signals && v.sessions == w.sessions
    ensures forall st | CreatedMark(st) !in w.h.marks :: Enabled(v, Open(t, st))
  {
    hide Run, Next, Enabled, Looked, Refreshable;
    var acts, x := CallRefreshes(w, t, c, used);
    acts, v := StaleIsDropped(w, acts, x, t, c, First, w.tokens[(c.p, c.sub)], Origin(w.h, (c.p, c.sub)), deleted);
    forall st | CreatedMark(st) !in w.h.marks
      ensures Enabled(v, Open(t, st))
    {
      OpenStep(v, t, c, st);
    }
    assert acts == [StartCall(t, c), Read(t), RefreshReply(t, None), if deleted then DropStale(t) else Fail(t)];
  }

  /** A refresh response without a usable access token is stored all the same, and the call goes on
      to ask the user. */
  lemma TokenlessRefreshAsks(w: World, t: nat, c: Call, used: string, raw: Fields) returns (v: World, entry: Fields)
    requires t !in w.threads && (c.p, c.sub) in w.tokens && Refreshable(c.p, w.tokens[(c.p, c.sub)], w.now, used)
    requires forall token | Text(raw, "access_token", token) :: token == ""
    ensures Run(w, [StartCall(t, c), Read(t), RefreshReply(t, Some(raw)), SaveRefreshed(t)]) == Some(v)
    ensures v.tokens == w.tokens[(c.p, c.sub) := entry]
    ensures T.KeepsResponse(entry, raw, w.now.Floor) && T.CarriesRefreshToken(entry, raw, used)
    ensures v.pending == w.pending && v.signals == w.signals && v.sessions == w.sessions
    ensures forall st | CreatedMark(st) !in w.h.marks :: Enabled(v, Open(t, st))
  {
    hide Run, Next, Enabled, Looked, Refreshable, T.KeepsResponse, T.CarriesRefreshToken, Text;
    var prior, origin := w.tokens[(c.p, c.sub)], Origin(w.h, (c.p, c.sub));
    LookedRefreshes(w, c, First, used);
    var acts, x := CallRefreshes(w, t, c, used);
    acts, x, entry := RefreshIsAnswered(w, acts, x, t, c, First, prior, origin, raw);
    acts, v := TokenlessIsSaved(w, acts, x, t, c, entry, FromRefresh(t, prior, origin, raw, w.now));
    assert acts == [StartCall(t, c), Read(t), RefreshReply(t, Some(raw)), SaveRefreshed(t)];
  }

  lemma TokenlessIsSaved(w: World, acts: seq<Action>, x: World, t: nat, c: Call, entry: Fields, src: Source)
    returns (longer: seq<Action>, v: World)
    requires Run(w, acts) == Some(x) && t in x.threads && x.threads[t] == Saving(c, First, entry, src)
    requires src.FromRefresh? && forall token | Text(entry, "access_token", token) :: token == ""
    ensures longer == acts + [SaveRefreshed(t)] && Run(w, longer) == Some(v)
    ensures v.tokens == x.tokens[(c.p, c.sub) := entry]
    ensures v.pending == x.pending && v.signals == x.signals && v.sessions == x.sessions
    ensures forall st | CreatedMark(st) !in x.h.marks :: Enabled(v, Open(t, st))
  {
    hide Run, Next, Enabled;
    SaveTokenlessStep(x, t, c, entry, src);
    longer, v := Then(w, acts, x, SaveRefreshed(t));
    forall st | CreatedMark(st) !in x.h.marks
      ensures Enabled(v, Open(t, st))
    {
      OpenStep(v, t, c, st);
    }
  }

  /** After an invalidation there is nothing to serve: the next call for the subject asks the user.
      Nothing else changes. */
  lemma InvalidatedTokenIsGone(w: World, c: Call)
    ensures Enabled(w, Invalidate(c.p, c.sub))
    ensures var v := Next(w, Invalidate(c.p, c.sub));
            && Useless(v, c) && v.tokens == w.tokens - {(c.p, c.sub)}
            && v == w.(tokens := v.tokens, h := v.h)
  {
  }

  /** A store operation that reports an error ends the request or call without touching a store; a
      call that had registered its session returns through the clean-up, with nothing.  (For the
      deletion after a failed refresh see FailedRefreshDeletes.) */
  lemma StoreErrorReturns(w: World, t: nat)
    requires Enabled(w, Fail(t)) && !w.threads[t].Dropping?
    ensures var x, pc := Next(w, Fail(t)), w.threads[t];
            var registered := pc.Declining? || ((pc.Reading? || pc.Saving?) && pc.stage.Final?);
            && x == w.(threads := x.threads)
            && if registered then
                 var key := (pc.c.p, if pc.Declining? then pc.st else pc.stage.st);
                 && Enabled(x, Leave(t)) && Done(Next(x, Leave(t)), t)
                 && Next(x, Leave(t)) == x.(threads := Next(x, Leave(t)).threads, sessions := w.sessions - {key})
               else Done(x, t)
  {
    var x := Next(w, Fail(t));
    hide Next, Enabled, Done;
    if x.threads[t].Leaving? {
      LeaveStep(x, t, x.threads[t].c, x.threads[t].st, Nothing, None, w.now);
      EndedIsDone(Next(x, Leave(t)), t);
    } else {
      EndedIsDone(x, t);
    }
  }

  // ----- asking the user -----

  /** The pending entry of a call: its subject, until the timeout in whole seconds and, for OAuth,
      another minute have passed. */
  predicate Opened(w: World, v: World, c: Call, st: string) {
    v.pending == w.pending[st := Pending(map["sub" := Str(c.sub)],
                                         w.now + Truncated(c.p.timeout) as real + if c.p.OAuth? then 60.0 else 0.0)]
  }

  /** A call that finds nothing to serve or refresh is about to open a state. */
  lemma CallFindsNothing(w: World, t: nat, c: Call) returns (acts: seq<Action>, x: World)
    requires t !in w.threads && Useless(w, c)
    ensures acts == [StartCall(t, c), Read(t)] && Run(w, acts) == Some(x) && x == At(w, t, Opening(c))
  {
    hide Run, Next, Enabled, Looked, GoodFor, Refreshable;
    NoActions(w);
    StartCallStep(w, t, c);
    acts, x := Then(w, [], w, StartCall(t, c));
    LookedFindsNothing(x, c, First);
    ReadStep(x, t, c, First);
    acts, x := Then(w, acts, x, Read(t));
    assert x.threads == w.threads[t := x.threads[t]];
  }

  lemma UnservedCallOpens(w: World, t: nat, c: Call, st: string) returns (acts: seq<Action>, v: World)
    requires t !in w.threads && Useless(w, c) && CreatedMark(st) !in w.h.marks
    ensures acts == [StartCall(t, c), Read(t), Open(t, st)] && Run(w, acts) == Some(v) && Opened(w, v, c, st)
    ensures v.h == Extend(w.h, Created(st, c.p, c.sub, t, w.now)) && v.sessions == w.sessions
    ensures v.tokens == w.tokens && v.signals == w.signals && v.now == w.now
    ensures v.threads == w.threads[t := if c.failFast then Ended else Registering(c, st)]
  {
    hide Run, Next, Enabled, Useless, Truncated, Extend;
    var x: World;
    acts, x := CallFindsNothing(w, t, c);
    OpenStep(x, t, c, st);
    acts, v := Then(w, acts, x, Open(t, st));
  }

  lemma OpenedCallWaits(w: World, acts: seq<Action>, x: World, t: nat, c: Call, st: string)
    returns (longer: seq<Action>, v: World)
    requires Run(w, acts) == Some(x) && t in x.threads && x.threads[t] == Registering(c, st)
    ensures longer == acts + [Register(t), ElicitReply(t, Accept)] && Run(w, longer) == Some(v)
    ensures v == x.(threads := x.threads[t := Waiting(c, st, x.now)], sessions := x.sessions[(c.p, st) := t])
  {
    hide Run, Next, Enabled;
    RegisterStep(x, t, c, st);
    var y: World;
    longer, y := Then(w, acts, x, Register(t));
    AnswerStep(y, t, c, st, Accept);
    longer, v := Then(w, longer, y, ElicitReply(t, Accept));
    assert v.threads == x.threads[t := Waiting(c, st, x.now)];
  }

  /** A call with nothing to serve opens a state for its subject.  A fail-fast call is then done; a
      blocking one registers its session, prompts and, when the prompt is accepted, waits. */
  lemma UnservedCallPrompts(w: World, t: nat, c: Call, st: string) returns (v: World, acts: seq<Action>)
    requires t !in w.threads && Useless(w, c) && CreatedMark(st) !in w.h.marks
    ensures acts == [StartCall(t, c), Read(t), Open(t, st)] +
                    if c.failFast then [] else [Register(t), ElicitReply(t, Accept)]
    ensures Run(w, acts) == Some(v) && Opened(w, v, c, st)
    ensures v.h == Extend(w.h, Created(st, c.p, c.sub, t, w.now))
    ensures v.tokens == w.tokens && v.signals == w.signals && v.now == w.now
    ensures if c.failFast then Done(v, t) && v.sessions == w.sessions
            else v.threads == w.threads[t := Waiting(c, st, w.now)] && v.sessions == w.sessions[(c.p, st) := t]
  {
    hide Run, Next, Enabled, Done, Useless, Extend;
    acts, v := UnservedCallOpens(w, t, c, st);
    if c.failFast {
      EndedIsDone(v, t);
    } else {
      acts, v := OpenedCallWaits(w, acts, v, t, c, st);
    }
  }

  /** A waiting call can leave by its signal if and only if there is one, by its timeout if and
      only if the deadline has come, and when its context is cancelled; in no other way. */
  lemma WaitEndsIff(w: World, t: nat, c: Call, st: string, since: real, a: Action)
    requires t in w.threads && w.threads[t] == Waiting(c, st, since) && Actor(a) == Some(t)
    ensures Enabled(w, a) <==> || (a == EndWait(t, Signal) && st in w.signals)
                               || (a == EndWait(t, Timeout) && since + c.p.timeout <= w.now)
                               || a == EndWait(t, Cancelled)
  {
  }

  /** A call whose prompt could not be shown, whose wait timed out or was cancelled returns with
      nothing: its session is gone, no store has changed, and its state stays open. */
  lemma UnansweredCallReturns(w: World, t: nat, c: Call, st: string, a: Action) returns (v: World)
    requires t in w.threads && Enabled(w, a)
    requires || (w.threads[t] == Eliciting(c, st) && a == ElicitReply(t, Broken))
             || (w.threads[t].Waiting? && w.threads[t].c == c && w.threads[t].st == st
                 && (a == EndWait(t, Timeout) || a == EndWait(t, Cancelled)))
    ensures Run(w, [a, Leave(t)]) == Some(v) && Done(v, t)
    ensures v.sessions == w.sessions - {(c.p, st)} && v.h == w.h
    ensures v.tokens == w.tokens && v.pending == w.pending && v.signals == w.signals
  {
    hide Run, Done;
    NoActions(w);
    var acts, x := Then(w, [], w, a);
    assert x == At(w, t, Leaving(c, st, Nothing, None, w.now));
    LeaveStep(x, t, c, st, Nothing, None, w.now);
    acts, v := Then(w, acts, x, Leave(t));
    EndedIsDone(v, t);
    assert acts == [a, Leave(t)];
  }

  // ----- declined prompts -----

  /** A declined prompt pops its state and the call returns with nothing. */
  lemma DeclinedCallPops(w: World, t: nat, c: Call, st: string) returns (v: World)
    requires t in w.threads && w.threads[t] == Eliciting(c, st)
    ensures Run(w, [ElicitReply(t, Decline), DeclinePop(t), Leave(t)]) == Some(v) && Done(v, t)
    ensures v.pending == w.pending - {st} && v.sessions == w.sessions - {(c.p, st)}
    ensures v.tokens == w.tokens && v.signals == w.signals
    ensures Poppable(w, st) ==> |v.h.log| == |w.h.log| + 1 && v.h.log[|w.h.log|].Popped? && v.h.log[|w.h.log|].declined
  {
    hide Run, Next, Enabled, Done;
    NoActions(w);
    AnswerStep(w, t, c, st, Decline);
    var acts, x := Then(w, [], w, ElicitReply(t, Decline));
    DeclinePopStep(x, t, c, st);
    acts, x := Then(w, acts, x, DeclinePop(t));
    LeaveStep(x, t, c, st, Nothing, None, w.now);
    acts, v := Then(w, acts, x, Leave(t));
    EndedIsDone(v, t);
    assert acts == [ElicitReply(t, Decline), DeclinePop(t), Leave(t)];
  }

  /** However long others take after a decline, the call can then only pop its state, unless the
      store reports an error. */
  lemma DeclinedCallCanOnlyPop(now: real, tokens: map<Slot, Fields>, acts: seq<Action>, w: World, t: nat,
                               between: seq<Action>, x: World, a: Action)
    requires Run(Begin(now, tokens), acts) == Some(w) && Enabled(w, ElicitReply(t, Decline))
    requires Run(Next(w, ElicitReply(t, Decline)), between) == Some(x) && NoneBy(between, t)
    requires Actor(a) == Some(t)
    ensures Enabled(x, a) <==> a == DeclinePop(t) || a == Fail(t)
    ensures t in x.threads && x.threads[t] == Declining(w.threads[t].c, w.threads[t].st)
  {
    hide Inv, Run, Next, StepOk;
    Reachable(now, tokens, acts, w);
    ActionOk(w, ElicitReply(t, Decline));
    StepOkKeepsInv(w, Next(w, ElicitReply(t, Decline)), Some(t));
    AnswerStep(w, t, w.threads[t].c, w.threads[t].st, Decline);
    OthersPass(Next(w, ElicitReply(t, Decline)), between, x, t);
  }

  lemma DeclinePopLogs(x: World, t: nat)
    requires Enabled(x, DeclinePop(t))
    ensures var y := Next(x, DeclinePop(t));
            var st := x.threads[t].st;
            PoppedMark(st) in y.h.marks && PoppedMark(st) !in x.h.marks ==>
              && y.h.marks[PoppedMark(st)] == |x.h.log| < |y.h.log|
              && y.h.log[|x.h.log|].Popped? && y.h.log[|x.h.log|].st == st && y.h.log[|x.h.log|].declined
  {
  }

  /** In every run: once the pop of a declined call has run, its state is never pending again, and
      there is an exchange or save for it only if a callback had won the state before that pop. */
  lemma DeclinedStateIsNotSpent(now: real, tokens: map<Slot, Fields>, acts: seq<Action>, x: World, t: nat,
                                after: seq<Action>, u: World, j: nat)
    requires Run(Begin(now, tokens), acts) == Some(x) && Enabled(x, DeclinePop(t))
    requires Run(Next(x, DeclinePop(t)), after) == Some(u)
    ensures x.threads[t].st !in u.pending
    ensures j < |u.h.log| && (|| MarkOf(u.h.log[j]) == Some(ExchangedMark(x.threads[t].st))
                              || MarkOf(u.h.log[j]) == Some(SavedMark(x.threads[t].st))) ==>
              PoppedMark(x.threads[t].st) in x.h.marks
  {
    hide Inv, Run, Next, Closed;
    var st, y := x.threads[t].st, Next(x, DeclinePop(t));
    PopsCloseTheirState(now, tokens, acts, x, DeclinePop(t));
    ClosedStatesStayClosed(y, after, u, st);
    var all, _ := Then(Begin(now, tokens), acts, x, DeclinePop(t));
    RunAppend(Begin(now, tokens), all, y, after, u);
    assert st !in u.pending by { ClosedIsNotPending(u, st); }
    if j < |u.h.log| && (MarkOf(u.h.log[j]) == Some(ExchangedMark(st)) || MarkOf(u.h.log[j]) == Some(SavedMark(st))) {
      Reachable(now, tokens, all, y);
      Reachable(now, tokens, all + after, u);
      DeclinePopThread(x, t);
      OthersPass(y, after, u, t);
      DeclinePopLogs(x, t);
      var i := WinnerOf(u, st, j);
      NothingAfterADecline(now, tokens, all + after, u, i, j);
      MarkIsOldest(y, u, st);
    }
  }

  lemma ClosedIsNotPending(w: World, st: string)
    requires Closed(w, st)
    ensures st !in w.pending
  {
  }

  lemma DeclinePopThread(x: World, t: nat)
    requires Enabled(x, DeclinePop(t))
    ensures t in Next(x, DeclinePop(t)).threads
  {
  }

  /** An exchange or save has a winning pop behind it. */
  lemma WinnerOf(u: World, st: string, j: nat) returns (i: nat)
    requires Inv(u) && j < |u.h.log|
    requires MarkOf(u.h.log[j]) == Some(ExchangedMark(st)) || MarkOf(u.h.log[j]) == Some(SavedMark(st))
    ensures PoppedMark(st) in u.h.marks && u.h.marks[PoppedMark(st)] == i < |u.h.log|
    ensures u.h.log[i].Popped? && u.h.log[i].st == st
  {
    hide StoresOk, SessionsOk, PcOk, EventsOk, SlotsOk;
    SpentWasWon(u.h, st);
    i := u.h.marks[PoppedMark(st)];
  }

  /** A mark keeps its position as the log grows. */
  lemma MarkIsOldest(y: World, u: World, st: string)
    requires Inv(y) && Inv(u) && y.h.log <= u.h.log && PoppedMark(st) in y.h.marks
    ensures PoppedMark(st) in u.h.marks && u.h.marks[PoppedMark(st)] == y.h.marks[PoppedMark(st)] < |y.h.log|
  {
    hide StoresOk, SessionsOk, PcOk, EventsOk, SlotsOk;
    var i := y.h.marks[PoppedMark(st)];
    assert MarkOf(y.h.log[i]) == Some(PoppedMark(st)) && u.h.log[i] == y.h.log[i];
  }

  // ----- a call that is woken -----

  /** A waiting call takes the signal of its state, and if its entry is then good it is served it:
      the grant reaches the handler. */
  lemma WokenCallIsServed(w: World, t: nat, c: Call, st: string, since: real, g: Grant) returns (v: World)
    requires t in w.threads && w.threads[t] == Waiting(c, st, since) && st in w.signals
    requires (c.p, c.sub) in w.tokens && GoodFor(c.p, w.tokens[(c.p, c.sub)], w.now, g)
    ensures Run(w, [EndWait(t, Signal), Read(t), Leave(t), Serve(t)]) == Some(v) && Done(v, t)
    ensures v.signals == w.signals - {st} && v.sessions == w.sessions - {(c.p, st)}
    ensures v.tokens == w.tokens && v.pending == w.pending && |v.h.log| == |w.h.log| + 2
    ensures v.h.log[|w.h.log|].Received? && v.h.log[|w.h.log|].t == t && v.h.log[|w.h.log|].doc == w.signals[st]
    ensures v.h.log[|w.h.log| + 1] == Served(c.p, c.sub, t, g, Origin(w.h, (c.p, c.sub)), w.now)
  {
    hide Run, Next, Enabled, Done, Looked, GoodFor;
    NoActions(w);
    SignalStep(w, t, c, st, since);
    var acts, x := Then(w, [], w, EndWait(t, Signal));
    LookedServes(x, c, Final(st), g);
    ReadStep(x, t, c, Final(st));
    acts, x := Then(w, acts, x, Read(t));
    acts, v := GrantIsServed(w, acts, x, t, c, st, g, Origin(w.h, (c.p, c.sub)), w.now);
    assert acts == [EndWait(t, Signal), Read(t), Leave(t), Serve(t)];
  }

  lemma GrantIsServed(w: World, acts: seq<Action>, x: World, t: nat, c: Call, st: string, g: Grant,
                      origin: Option<nat>, at: real) returns (longer: seq<Action>, v: World)
    requires Run(w, acts) == Some(x) && t in x.threads && x.threads[t] == Leaving(c, st, g, origin, at) && !g.Nothing?
    ensures longer == acts + [Leave(t), Serve(t)] && Run(w, longer) == Some(v) && Done(v, t)
    ensures v.sessions == x.sessions - {(c.p, st)} && v.h.log == x.h.log + [Served(c.p, c.sub, t, g, origin, at)]
    ensures v.tokens == x.tokens && v.pending == x.pending && v.signals == x.signals
  {
    hide Run, Next, Enabled, Done;
    LeaveStep(x, t, c, st, g, origin, at);
    var y: World;
    longer, y := Then(w, acts, x, Leave(t));
    ServeStep(y, t, c, g, origin, at);
    longer, v := Then(w, longer, y, Serve(t));
    EndedIsDone(v, t);
  }

  /** If there is nothing good or refreshable for it, the woken call returns with nothing. */
  lemma WokenCallReturnsEmpty(w: World, t: nat, c: Call, st: string, since: real) returns (v: World)
    requires t in w.threads && w.threads[t] == Waiting(c, st, since) && st in w.signals && Useless(w, c)
    ensures Run(w, [EndWait(t, Signal), Read(t), Leave(t)]) == Some(v) && Done(v, t)
    ensures v.signals == w.signals - {st} && v.sessions == w.sessions - {(c.p, st)}
    ensures v.tokens == w.tokens && v.pending == w.pending && |v.h.log| == |w.h.log| + 1
  {
    hide Run, Next, Enabled, Done, Looked, GoodFor, Refreshable;
    NoActions(w);
    SignalStep(w, t, c, st, since);
    var acts, x := Then(w, [], w, EndWait(t, Signal));
    LookedFindsNothing(x, c, Final(st));
    var pc := Looked(x, c, Final(st));
    ReadStep(x, t, c, Final(st));
    acts, x := Then(w, acts, x, Read(t));
    LeaveStep(x, t, c, st, Nothing, pc.origin, pc.at);
    acts, v := Then(w, acts, x, Leave(t));
    EndedIsDone(v, t);
    assert acts == [EndWait(t, Signal), Read(t), Leave(t)];
  }

  lemma WokenCallRefreshes(w: World, t: nat, c: Call, st: string, since: real, used: string)
    returns (acts: seq<Action>, x: World)
    requires t in w.threads && w.threads[t] == Waiting(c, st, since) && st in w.signals
    requires (c.p, c.sub) in w.tokens && Refreshable(c.p, w.tokens[(c.p, c.sub)], w.now, used)
    ensures acts == [EndWait(t, Signal), Read(t)] && Run(w, acts) == Some(x)
    ensures x == At(TakeSignal(w, st, c, t), t,
                    Refreshing(c, Final(st), w.tokens[(c.p, c.sub)], Origin(w.h, (c.p, c.sub))))
  {
    hide Run, Next, Enabled, Looked, Refreshable;
    NoActions(w);
    SignalStep(w, t, c, st, since);
    acts, x := Then(w, [], w, EndWait(t, Signal));
    LookedRefreshes(x, c, Final(st), used);
    ReadStep(x, t, c, Final(st));
    acts, x := Then(w, acts, x, Read(t));
    assert x.threads == w.threads[t := x.threads[t]];
  }

  /** A woken call refreshes an expiring token as a starting one does, and is served the new one. */
  lemma WokenCallServesRefreshed(w: World, t: nat, c: Call, st: string, since: real, used: string, raw: Fields,
                                 token: string) returns (v: World, entry: Fields)
    requires t in w.threads && w.threads[t] == Waiting(c, st, since) && st in w.signals
    requires (c.p, c.sub) in w.tokens && Refreshable(c.p, w.tokens[(c.p, c.sub)], w.now, used)
    requires Text(raw, "access_token", token) && token != ""
    ensures Run(w, [EndWait(t, Signal), Read(t), RefreshReply(t, Some(raw)), SaveRefreshed(t), Leave(t), Serve(t)])
         == Some(v)
    ensures v.tokens == w.tokens[(c.p, c.sub) := entry]
    ensures T.KeepsResponse(entry, raw, w.now.Floor) && T.CarriesRefreshToken(entry, raw, used)
    ensures |v.h.log| > 0 && var e := v.h.log[|v.h.log| - 1];
            e.Served? && e.p == c.p && e.sub == c.sub && e.t == t && e.g == Token(token)
    ensures v.sessions == w.sessions - {(c.p, st)} && v.pending == w.pending && Done(v, t)
  {
    hide Run, Next, Enabled, Done, Looked, Refreshable, T.KeepsResponse, T.CarriesRefreshToken, Extend, Text;
    var prior, origin := w.tokens[(c.p, c.sub)], Origin(w.h, (c.p, c.sub));
    LookedRefreshes(w, c, Final(st), used);
    var acts, x := WokenCallRefreshes(w, t, c, st, since, used);
    acts, x, entry := RefreshIsAnswered(w, acts, x, t, c, Final(st), prior, origin, raw);
    acts, v := FinalRefreshIsServed(w, acts, x, t, c, st, entry, FromRefresh(t, prior, origin, raw, w.now), token);
    assert acts == [EndWait(t, Signal), Read(t), RefreshReply(t, Some(raw)), SaveRefreshed(t), Leave(t), Serve(t)];
  }

  lemma FinalRefreshIsServed(w: World, acts: seq<Action>, x: World, t: nat, c: Call, st: string, entry: Fields,
                             src: Source, token: string) returns (longer: seq<Action>, v: World)
    requires Run(w, acts) == Some(x) && t in x.threads && x.threads[t] == Saving(c, Final(st), entry, src)
    requires Text(entry, "access_token", token) && token != ""
    ensures longer == acts + [SaveRefreshed(t), Leave(t), Serve(t)] && Run(w, longer) == Some(v) && Done(v, t)
    ensures v.tokens == x.tokens[(c.p, c.sub) := entry] && v.pending == x.pending
    ensures v.sessions == x.sessions - {(c.p, st)}
    ensures |v.h.log| > 0 && v.h.log[|v.h.log| - 1] == Served(c.p, c.sub, t, Token(token), Some(|x.h.log|), x.now)
  {
    hide Run, Next, Enabled, Done;
    SaveRefreshedStep(x, t, c, Final(st), entry, src, token);
    var y: World;
    longer, y := Then(w, acts, x, SaveRefreshed(t));
    longer, v := GrantIsServed(w, longer, y, t, c, st, Token(token), Some(|x.h.log|), x.now);
  }

  /** A woken call whose refresh fails deletes the entry and returns with nothing. */
  lemma WokenCallDropsStale(w: World, t: nat, c: Call, st: string, since: real, used: string) returns (v: World)
    requires t in w.threads && w.threads[t] == Waiting(c, st, since) && st in w.signals
    requires (c.p, c.sub) in w.tokens && Refreshable(c.p, w.tokens[(c.p, c.sub)], w.now, used)
    ensures Run(w, [EndWait(t, Signal), Read(t), RefreshReply(t, None), DropStale(t), Leave(t)]) == Some(v)
    ensures v.tokens == w.tokens - {(c.p, c.sub)} && v.sessions == w.sessions - {(c.p, st)} && v.pending == w.pending
    ensures Done(v, t)
  {
    hide Run, Next, Enabled, Done, Looked, Refreshable, Extend;
    var prior, origin := w.tokens[(c.p, c.sub)], Origin(w.h, (c.p, c.sub));
    var acts, x := WokenCallRefreshes(w, t, c, st, since, used);
    acts, x := StaleIsDropped(w, acts, x, t, c, Final(st), prior, origin, true);
    LeaveStep(x, t, c, st, Nothing, None, w.now);
    acts, v := Then(w, acts, x, Leave(t));
    EndedIsDone(v, t);
    assert acts == [EndWait(t, Signal), Read(t), RefreshReply(t, None), DropStale(t), Leave(t)];
  }

  // ----- callbacks -----

  /** An error redirect with a state signals an error for it, whatever else it carries, and touches
      no other store. */
  lemma ErrorRedirectSignals(w: World, t: nat, p: Provider, error: string, code: string, st: string)
    returns (v: World)
    requires t !in w.threads && p.OAuth? && error != "" && st != ""
    ensures Run(w, [StartRequest(t, p, Redirect(error, code, st)), SendSignal(t, true)]) == Some(v) && Done(v, t)
    ensures v.signals == w.signals[st := map["error" := Str("oauth_error")]]
    ensures v.tokens == w.tokens && v.pending == w.pending && v.sessions == w.sessions
  {
    hide Run, Next, Enabled, Done;
    NoActions(w);
    StartRequestStep(w, t, p, Redirect(error, code, st));
    var acts, x := Then(w, [], w, StartRequest(t, p, Redirect(error, code, st)));
    SendStep(x, t, st, map["error" := Str("oauth_error")], None);
    acts, v := Then(w, acts, x, SendSignal(t, true));
    EndedIsDone(v, t);
    assert acts == [StartRequest(t, p, Redirect(error, code, st)), SendSignal(t, true)];
  }

  /** A redirect with neither a code nor an error, or without a state, and a form post without a
      token change nothing at all. */
  lemma MalformedRequestEnds(w: World, t: nat, p: Provider, req: Request) returns (v: World)
    requires t !in w.threads && p.OAuth? == req.Redirect?
    requires match req
             case Redirect(error, code, st) => st == "" || (error == "" && code == "")
             case Post(entryToken, _) => entryToken == ""
    ensures Run(w, [StartRequest(t, p, req)]) == Some(v) && Done(v, t) && v == At(w, t, v.threads[t])
  {
    hide Run;
    NoActions(w);
    var acts;
    acts, v := Then(w, [], w, StartRequest(t, p, req));
    assert acts == [StartRequest(t, p, req)];
  }

  lemma RequestPops(w: World, t: nat, p: Provider, req: Request, st: string) returns (acts: seq<Action>, v: World)
    requires t !in w.threads && p.OAuth? == req.Redirect? && FirstPc(p, req) == Popping(p, st, req)
    ensures acts == [StartRequest(t, p, req), Pop(t)] && Run(w, acts) == Some(v)
    ensures v == At(PopPending(w, st, t, false), t,
                    if Poppable(w, st) then Won(p, st, SubjectOf(w, st), req, t, |w.h.log|) else Ended)
  {
    hide Run, Next, Enabled, Won, FirstPc;
    NoActions(w);
    StartRequestStep(w, t, p, req);
    var x: World;
    acts, x := Then(w, [], w, StartRequest(t, p, req));
    PopStep(x, t, p, st, req);
    acts, v := Then(w, acts, x, Pop(t));
    assert v.threads == w.threads[t := v.threads[t]];
  }

  /** A request for a state that is unknown, used up or expired is refused: nothing is exchanged,
      saved or signalled. */
  lemma UnknownStateIsRefused(w: World, t: nat, p: Provider, req: Request, st: string) returns (v: World)
    requires t !in w.threads && p.OAuth? == req.Redirect? && st != "" && !Poppable(w, st)
    requires match req
             case Redirect(error, code, state) => error == "" && code != "" && state == st
             case Post(entryToken, _) => entryToken == st
    ensures Run(w, [StartRequest(t, p, req), Pop(t)]) == Some(v) && Done(v, t)
    ensures v.tokens == w.tokens && v.signals == w.signals && v.h == w.h && v.pending == w.pending - {st}
  {
    hide Run, Done;
    var acts;
    acts, v := RequestPops(w, t, p, req, st);
    EndedIsDone(v, t);
  }

  lemma CallbackPops(w: World, t: nat, p: Provider, code: string, st: string) returns (acts: seq<Action>, v: World)
    requires t !in w.threads && p.OAuth? && code != "" && st != "" && Poppable(w, st)
    ensures acts == [StartRequest(t, p, Redirect("", code, st)), Pop(t)] && Run(w, acts) == Some(v)
    ensures v.threads == w.threads[t := Exchanging(p, st, SubjectOf(w, st))] && v.now == w.now
    ensures v.tokens == w.tokens && v.signals == w.signals && v.pending == w.pending - {st} && v.sessions == w.sessions
  {
    hide Run;
    acts, v := RequestPops(w, t, p, Redirect("", code, st), st);
  }

  lemma ExchangeSucceeds(w: World, acts: seq<Action>, x: World, t: nat, p: Provider, st: string, sub: string,
                         raw: Fields) returns (longer: seq<Action>, v: World, entry: Fields)
    requires Run(w, acts) == Some(x) && t in x.threads && x.threads[t] == Exchanging(p, st, sub)
    ensures longer == acts + [ExchangeReply(t, Some(raw))] && Run(w, longer) == Some(v)
    ensures v.threads == x.threads[t := Storing(p, st, sub, entry, FromCode(st, t, |x.h.log|))]
    ensures T.KeepsResponse(entry, raw, x.now.Floor) && T.KeepsRefreshToken(entry, raw)
    ensures v == x.(threads := v.threads, h := v.h)
  {
    hide Run, T.NormalizeTokenData, T.KeepsResponse, T.KeepsRefreshToken;
    entry := T.NormalizeTokenData(raw, x.now.Floor);
    T.EntryKeepsResponse(raw, "", x.now.Floor);
    longer, v := Then(w, acts, x, ExchangeReply(t, Some(raw)));
  }

  /** A callback on a pending state exchanges its code, stores for the state's subject an entry that
      keeps the response, and signals the success. */
  lemma CallbackStoresAndSignals(w: World, t: nat, p: Provider, code: string, st: string, sub: string, raw: Fields)
    returns (v: World, entry: Fields)
    requires t !in w.threads && p.OAuth? && code != "" && st != "" && Poppable(w, st)
    requires Text(w.pending[st].metadata, "sub", sub)
    ensures Run(w, [StartRequest(t, p, Redirect("", code, st)), Pop(t), ExchangeReply(t, Some(raw)), Save(t),
                    SendSignal(t, true)]) == Some(v) && Done(v, t)
    ensures v.tokens == w.tokens[(p, sub) := entry]
    ensures T.KeepsResponse(entry, raw, w.now.Floor) && T.KeepsRefreshToken(entry, raw)
    ensures v.signals == w.signals[st := map["sub" := Str(sub), "_elicit_sent" := Bool(false)]]
    ensures v.pending == w.pending - {st} && v.sessions == w.sessions && v.now == w.now
    ensures v.threads == w.threads[t := v.threads[t]] && (p, sub) in v.h.written
  {
    hide Run, Next, Enabled, Done, T.KeepsResponse, T.KeepsRefreshToken;
    var acts, x := CallbackPops(w, t, p, code, st);
    var src := FromCode(st, t, |x.h.log|);
    acts, x, entry := ExchangeSucceeds(w, acts, x, t, p, st, sub, raw);
    acts, v := SavedAndSignalled(w, acts, x, t, p, st, sub, entry, src);
    assert acts == [StartRequest(t, p, Redirect("", code, st)), Pop(t), ExchangeReply(t, Some(raw)), Save(t),
                    SendSignal(t, true)];
  }

  lemma SavedAndSignalled(w: World, acts: seq<Action>, x: World, t: nat, p: Provider, st: string, sub: string,
                          entry: Fields, src: Source) returns (longer: seq<Action>, v: World)
    requires Run(w, acts) == Some(x) && t in x.threads && x.threads[t] == Storing(p, st, sub, entry, src)
    ensures longer == acts + [Save(t), SendSignal(t, true)] && Run(w, longer) == Some(v) && Done(v, t)
    ensures v.tokens == x.tokens[(p, sub) := entry] && v.pending == x.pending && v.sessions == x.sessions
    ensures v.signals == x.signals[st := map["sub" := Str(sub), "_elicit_sent" := Bool(false)]]
    ensures v.now == x.now && v.threads == x.threads[t := Ended] && (p, sub) in v.h.written
  {
    hide Run, Next, Enabled, Done;
    SaveStep(x, t, p, st, sub, entry, src);
    var y: World;
    longer, y := Then(w, acts, x, Save(t));
    SendStep(y, t, st, map["sub" := Str(sub), "_elicit_sent" := Bool(false)], Some(|x.h.log|));
    longer, v := Then(w, longer, y, SendSignal(t, true));
    EndedIsDone(v, t);
  }

  lemma ExchangeFails(w: World, acts: seq<Action>, x: World, t: nat, p: Provider, st: string, sub: string)
    returns (longer: seq<Action>, v: World)
    requires Run(w, acts) == Some(x) && t in x.threads && x.threads[t] == Exchanging(p, st, sub)
    ensures longer == acts + [ExchangeReply(t, None), SendSignal(t, true)] && Run(w, longer) == Some(v) && Done(v, t)
    ensures v.signals == x.signals[st := map["error" := Str("exchange_failed")]]
    ensures v.tokens == x.tokens && v.pending == x.pending && v.sessions == x.sessions
  {
    hide Run, Next, Enabled, Done;
    ExchangeFailStep(x, t, p, st, sub);
    var y: World;
    longer, y := Then(w, acts, x, ExchangeReply(t, None));
    SendStep(y, t, st, map["error" := Str("exchange_failed")], None);
    longer, v := Then(w, longer, y, SendSignal(t, true));
    EndedIsDone(v, t);
  }

  /** A callback whose exchange fails uses up the state, stores nothing and signals the failure. */
  lemma FailedExchangeSignals(w: World, t: nat, p: Provider, code: string, st: string) returns (v: World)
    requires t !in w.threads && p.OAuth? && code != "" && st != "" && Poppable(w, st)
    ensures Run(w, [StartRequest(t, p, Redirect("", code, st)), Pop(t), ExchangeReply(t, None), SendSignal(t, true)])
         == Some(v) && Done(v, t)
    ensures v.signals == w.signals[st := map["error" := Str("exchange_failed")]]
    ensures v.tokens == w.tokens && v.pending == w.pending - {st} && v.sessions == w.sessions
  {
    hide Run, Next, Enabled, Done;
    var acts, x := CallbackPops(w, t, p, code, st);
    acts, v := ExchangeFails(w, acts, x, t, p, st, SubjectOf(w, st));
    assert acts == [StartRequest(t, p, Redirect("", code, st)), Pop(t), ExchangeReply(t, None), SendSignal(t, true)];
  }

  // ----- form submissions -----

  /** The value posted for a field: its first one, or none. */
  predicate Posted(form: C.Form, name: string, value: string) {
    if name in form && |form[name]| > 0 then value == form[name][0] else value == ""
  }

  /** Every required variable has a posted value with something other than white space in it. */
  ghost predicate Complete(vars: C.Variables, form: C.Form) {
    forall name | name in vars && vars[name].required ::
      name in form && |form[name]| > 0 && exists i | 0 <= i < |form[name][0]| :: !C.IsSpace(form[name][0][i])
  }

  lemma AcceptableIffComplete(vars: C.Variables, form: C.Form)
    ensures C.Acceptable(vars, form) <==> Complete(vars, form)
  {
    if C.Acceptable(vars, form) {
      forall name | name in vars && vars[name].required
        ensures name in form && |form[name]| > 0 && exists i | 0 <= i < |form[name][0]| :: !C.IsSpace(form[name][0][i])
      {
        assert !C.Blank(C.FormValue(form, name));
      }
    } else {
      var name :| name in vars && vars[name].required && C.Blank(C.FormValue(form, name));
      assert name in form && |form[name]| > 0 ==> C.FormValue(form, name) == form[name][0];
    }
  }

  lemma SubmissionPops(w: World, t: nat, p: Provider, st: string, form: Option<C.Form>)
    returns (acts: seq<Action>, v: World)
    requires t !in w.threads && p.Form? && st != "" && Poppable(w, st)
    ensures acts == [StartRequest(t, p, Post(st, form)), Pop(t)] && Run(w, acts) == Some(v)
    ensures v.threads == w.threads[t := Won(p, st, SubjectOf(w, st), Post(st, form), t, |w.h.log|)] && v.now == w.now
    ensures v.tokens == w.tokens && v.signals == w.signals && v.pending == w.pending - {st} && v.sessions == w.sessions
  {
    hide Run, Won;
    acts, v := RequestPops(w, t, p, Post(st, form), st);
  }

  /** A submission on a pending state goes on to save if and only if its form parses and fills every
      required field; otherwise it is done, with the state used up. */
  lemma SubmissionIsAcceptedIff(w: World, t: nat, p: Provider, st: string, form: Option<C.Form>) returns (v: World)
    requires t !in w.threads && p.Form? && st != "" && Poppable(w, st)
    ensures Run(w, [StartRequest(t, p, Post(st, form)), Pop(t)]) == Some(v) && v.pending == w.pending - {st}
    ensures Enabled(v, Save(t)) <==> form.Some? && Complete(p.vars, form.value)
    ensures Done(v, t) <==> !(form.Some? && Complete(p.vars, form.value))
    ensures v.tokens == w.tokens && v.signals == w.signals
  {
    hide Run, C.Acceptable, C.Collected;
    var acts;
    acts, v := SubmissionPops(w, t, p, st, form);
    if form.Some? {
      AcceptableIffComplete(p.vars, form.value);
      assert Enabled(v, Save(t)) ==> Actor(Save(t)) == Some(t);
    }
  }

  /** An accepted submission saves for the state's subject exactly the declared names with the
      posted values, and signals the success. */
  lemma SubmissionSavesAndSignals(w: World, t: nat, p: Provider, st: string, sub: string, form: C.Form)
    returns (v: World, creds: Fields)
    requires t !in w.threads && p.Form? && st != "" && Poppable(w, st) && Text(w.pending[st].metadata, "sub", sub)
    requires Complete(p.vars, form)
    ensures Run(w, [StartRequest(t, p, Post(st, Some(form))), Pop(t), Save(t), SendSignal(t, true)]) == Some(v)
    ensures v.tokens == w.tokens[(p, sub) := creds] && creds.Keys == p.vars.Keys
    ensures forall name | name in p.vars :: creds[name].Str? && Posted(form, name, creds[name].s)
    ensures v.signals == w.signals[st := map["sub" := Str(sub), "_elicit_sent" := Bool(false)]]
    ensures v.pending == w.pending - {st} && v.sessions == w.sessions && v.now == w.now && Done(v, t)
    ensures v.threads == w.threads[t := v.threads[t]] && (p, sub) in v.h.written
  {
    hide Run, Next, Enabled, Done, C.Acceptable, Complete;
    AcceptableIffComplete(p.vars, form);
    creds := C.Collected(p.vars, form);
    var acts, x := SubmissionPops(w, t, p, st, Some(form));
    assert x.threads[t] == Storing(p, st, sub, creds, FromForm(st, t, |w.h.log|));
    acts, v := SavedAndSignalled(w, acts, x, t, p, st, sub, creds, FromForm(st, t, |w.h.log|));
    assert acts == [StartRequest(t, p, Post(st, Some(form))), Pop(t), Save(t), SendSignal(t, true)];
  }

  // ----- the whole protocol -----

  /** The token response, stored at `now`, gives `token` to a call at the same moment. */
  ghost predicate Promising(raw: Fields, token: string) {
    && Text(raw, "access_token", token) && token != ""
    && ("expires_in" in raw ==> forall x | T.IsNumber(raw["expires_in"], x) :: x > 30.0)
  }

  lemma PromisingIsGood(p: Provider, entry: Fields, raw: Fields, now: real, token: string)
    requires p.OAuth? && Promising(raw, token) && T.KeepsResponse(entry, raw, now.Floor)
    ensures GoodFor(p, entry, now, Token(token))
  {
    if "expires_at" in entry {
      var x :| T.IsNumber(raw["expires_in"], x);
      assert entry["expires_at"] == Float(now.Floor as real + x);
    }
  }

  lemma OpenedIsPoppable(w: World, v: World, c: Call, st: string)
    requires Opened(w, v, c, st) && v.now == w.now && c.p.timeout >= 0.0
    ensures Poppable(v, st) && Text(v.pending[st].metadata, "sub", c.sub)
  {
  }

  lemma CallbackWakesCall(w: World, t: nat, c: Call, st: string, u: nat, code: string, raw: Fields, token: string)
    returns (acts: seq<Action>, y: World)
    requires t !in w.threads && u !in w.threads && t != u && c.p.OAuth? && c.p.timeout >= 0.0 && !c.failFast
    requires Useless(w, c) && CreatedMark(st) !in w.h.marks && st != "" && code != "" && Promising(raw, token)
    ensures Run(w, acts) == Some(y) && t in y.threads && y.threads[t] == Waiting(c, st, w.now) && st in y.signals
    ensures (c.p, c.sub) in y.tokens && GoodFor(c.p, y.tokens[(c.p, c.sub)], y.now, Token(token))
    ensures y.sessions == w.sessions[(c.p, st) := t]
  {
    hide Run, Enabled, Next, Opened, Useless, T.KeepsResponse, T.KeepsRefreshToken, Promising, GoodFor, Done, Poppable,
         Extend;
    var x, first := UnservedCallPrompts(w, t, c, st);
    OpenedIsPoppable(w, x, c, st);
    var entry;
    y, entry := CallbackStoresAndSignals(x, u, c.p, code, st, c.sub, raw);
    PromisingIsGood(c.p, entry, raw, y.now, token);
    var second := [StartRequest(u, c.p, Redirect("", code, st)), Pop(u), ExchangeReply(u, Some(raw)), Save(u),
                   SendSignal(u, true)];
    acts := first + second;
    RunAppend(w, first, x, second, y);
  }

  /** From any world: a blocking call with nothing stored prompts, the callback of its user's
      authorization stores the token and wakes it, and its handler runs with that token. */
  lemma AuthorizationCompletes(w: World, t: nat, c: Call, st: string, u: nat, code: string, raw: Fields, token: string)
    returns (acts: seq<Action>, v: World)
    requires t !in w.threads && u !in w.threads && t != u && c.p.OAuth? && c.p.timeout >= 0.0 && !c.failFast
    requires Useless(w, c) && CreatedMark(st) !in w.h.marks && st != "" && code != "" && Promising(raw, token)
    ensures Run(w, acts) == Some(v) && Done(v, t) && v.sessions == w.sessions - {(c.p, st)}
    ensures |v.h.log| > 0 && var e := v.h.log[|v.h.log| - 1];
            e.Served? && e.p == c.p && e.sub == c.sub && e.t == t && e.g == Token(token)
  {
    hide Run, Enabled, Next, Useless, Promising, GoodFor, Done;
    var first, y := CallbackWakesCall(w, t, c, st, u, code, raw, token);
    v := WokenCallIsServed(y, t, c, st, w.now, Token(token));
    acts := first + [EndWait(t, Signal), Read(t), Leave(t), Serve(t)];
    RunAppend(w, first, y, [EndWait(t, Signal), Read(t), Leave(t), Serve(t)], v);
  }

  lemma SubmissionWakesCall(w: World, t: nat, c: Call, st: string, u: nat, form: C.Form)
    returns (acts: seq<Action>, y: World, creds: Fields)
    requires t !in w.threads && u !in w.threads && t != u && c.p.Form? && c.p.timeout >= 0.0 && !c.failFast
    requires (c.p, c.sub) !in w.tokens && CreatedMark(st) !in w.h.marks && st != "" && Complete(c.p.vars, form)
    ensures Run(w, acts) == Some(y) && t in y.threads && y.threads[t] == Waiting(c, st, w.now) && st in y.signals
    ensures (c.p, c.sub) in y.tokens && y.tokens[(c.p, c.sub)] == creds && y.sessions == w.sessions[(c.p, st) := t]
    ensures creds.Keys == c.p.vars.Keys && forall name | name in c.p.vars ::
              creds[name].Str? && Posted(form, name, creds[name].s)
  {
    hide Run, Enabled, Next, Opened, Done, Poppable, Complete, Posted, Extend;
    var x, first := UnservedCallPrompts(w, t, c, st);
    OpenedIsPoppable(w, x, c, st);
    y, creds := SubmissionSavesAndSignals(x, u, c.p, st, c.sub, form);
    var second := [StartRequest(u, c.p, Post(st, Some(form))), Pop(u), Save(u), SendSignal(u, true)];
    acts := first + second;
    RunAppend(w, first, x, second, y);
  }

  /** The same for credentials: the submitted values reach the handler. */
  lemma CredentialsFlowCompletes(w: World, t: nat, c: Call, st: string, u: nat, form: C.Form)
    returns (acts: seq<Action>, v: World, creds: Fields)
    requires t !in w.threads && u !in w.threads && t != u && c.p.Form? && c.p.timeout >= 0.0 && !c.failFast
    requires (c.p, c.sub) !in w.tokens && CreatedMark(st) !in w.h.marks && st != "" && Complete(c.p.vars, form)
    ensures Run(w, acts) == Some(v) && Done(v, t) && v.sessions == w.sessions - {(c.p, st)}
    ensures |v.h.log| > 0 && var e := v.h.log[|v.h.log| - 1];
            e.Served? && e.p == c.p && e.sub == c.sub && e.t == t && e.g == Secrets(creds)
    ensures creds.Keys == c.p.vars.Keys && forall name | name in c.p.vars ::
              creds[name].Str? && Posted(form, name, creds[name].s)
  {
    hide Run, Enabled, Next, Done, Complete, Posted;
    var first, y;
    first, y, creds := SubmissionWakesCall(w, t, c, st, u, form);
    v := WokenCallIsServed(y, t, c, st, w.now, Secrets(creds));
    acts := first + [EndWait(t, Signal), Read(t), Leave(t), Serve(t)];
    RunAppend(w, first, y, [EndWait(t, Signal), Read(t), Leave(t), Serve(t)], v);
  }
}

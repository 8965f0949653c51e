/** The signal/wait half of MemoryPendingStore as a concurrent object: any number of
    SetResult calls and waiters, interleaved one lock region (or channel operation) at a
    time (store/memory.go, doneEntry / SetResult / WaitForResult). */
module Signals {
  import opened Values

  /** A doneEntry object: its one-slot channel and its two fields. */
  datatype Cell = Cell(ch: seq<Doc>, fired: bool, result: Doc)

  const CAPACITY := 1

  /** The cells ever allocated, and the `done` map from keys to the cells now registered.
      Cells keep their identity after they leave the map: a waiter may still hold one. */
  datatype RawStore = Store(cells: seq<Cell>, done: map<string, nat>)

  type Store = s: RawStore | forall k | k in s.done :: s.done[k] < |s.cells|
    witness Store([], map[])

  const EMPTY: Store := Store([], map[])

  /** The cell registered under `key`, allocating and registering one if there is none. */
  function Registered(st: Store, key: string): (r: (Store, nat))
    ensures r.1 < |r.0.cells| && key in r.0.done && r.0.done[key] == r.1
  {
    if key in st.done then
      (st, st.done[key])
    else
      (Store(st.cells + [Cell([], false, None)], st.done[key := |st.cells|]), |st.cells|)
  }

  /** SetResult, whole: only the first result of a cell is sent. */
  function SetResult(st: Store, key: string, doc: Doc): Store {
    var (reg, c) := Registered(st, key);
    if reg.cells[c].fired then reg
    else reg.(cells := reg.cells[c := Cell(reg.cells[c].ch + [doc], true, doc)])
  }

  /** The send in SetResult happens under the store's mutex; with a full channel it would
      block there for good. */
  predicate SendBlocks(st: Store, key: string) {
    && key in st.done
    && !st.cells[st.done[key]].fired
    && |st.cells[st.done[key]].ch| >= CAPACITY
  }

  /** A receive from the channel of cell `c`. */
  function Receive(st: Store, c: nat): Store
    requires c < |st.cells| && st.cells[c].ch != []
  {
    st.(cells := st.cells[c := st.cells[c].(ch := st.cells[c].ch[1..])])
  }

  function Delete(st: Store, key: string): Store {
    st.(done := st.done - {key})
  }

  // ----- waiters and runs -----

  datatype Outcome = Got(doc: Doc) | TimedOut | Cancelled

  /** Where a WaitForResult call is: blocked in select, between its receive and its delete,
      or returned. */
  datatype Waiter =
    | Joined(key: string, cell: nat)
    | Holding(key: string, cell: nat, doc: Doc)
    | Returned(key: string, cell: nat, outcome: Outcome)

  /** What has happened to a cell: the key it was made for, every value sent on its channel,
      and every receive from it with the receiving waiter. */
  datatype History = History(home: string, sent: seq<Doc>, received: seq<(nat, Doc)>)

  datatype RawSystem = System(store: Store, waiters: map<nat, Waiter>, hist: seq<History>)

  type System = s: RawSystem | |s.hist| == |s.store.cells|
    witness System(EMPTY, map[], [])

  const INITIAL: System := System(EMPTY, map[], [])

  datatype Action =
    | Set(key: string, doc: Doc)
    | Join(w: nat, key: string)
    | Take(w: nat)
    | TimeOut(w: nat)
    | Cancel(w: nat)
    | Forget(w: nat)

  predicate Active(s: System, w: nat, key: string) {
    w in s.waiters && !s.waiters[w].Returned? && s.waiters[w].key == key
  }

  /** When an action can happen; `solo` restricts runs to one active waiter per key. */
  predicate Enabled(s: System, a: Action, solo: bool) {
    match a
    case Set(key, _) => !SendBlocks(s.store, key)
    case Join(w, key) => w !in s.waiters && (solo ==> forall v | v in s.waiters :: !Active(s, v, key))
    case Take(w) => w in s.waiters && s.waiters[w].Joined? && HasMessage(s, s.waiters[w].cell)
    case TimeOut(w) => w in s.waiters && s.waiters[w].Joined?
    case Cancel(w) => w in s.waiters && s.waiters[w].Joined?
    case Forget(w) => w in s.waiters && s.waiters[w].Holding?
  }

  predicate HasMessage(s: System, c: nat) {
    c < |s.store.cells| && s.store.cells[c].ch != []
  }

  /** Looking up the cell of `key`, allocating one if there is none. */
  function Registering(s: System, key: string): System {
    if key in s.store.done then s
    else s.(store := Registered(s.store, key).0, hist := s.hist + [History(key, [], [])])
  }

  function Sending(s: System, key: string, doc: Doc): System
    requires key in s.store.done
  {
    var c := s.store.done[key];
    if s.store.cells[c].fired then s
    else s.(store := SetResult(s.store, key, doc), hist := s.hist[c := s.hist[c].(sent := s.hist[c].sent + [doc])])
  }

  function Waits(s: System, w: nat, p: Waiter): System {
    s.(waiters := s.waiters[w := p])
  }

  function Taking(s: System, w: nat, key: string, c: nat): System
    requires HasMessage(s, c)
  {
    var doc := s.store.cells[c].ch[0];
    Waits(s, w, Holding(key, c, doc))
      .(store := Receive(s.store, c),
        hist := s.hist[c := s.hist[c].(received := s.hist[c].received + [(w, doc)])])
  }

  function Next(s: System, a: Action): System
    requires Enabled(s, a, false)
  {
    match a
    case Set(key, doc) => Sending(Registering(s, key), key, doc)
    case Join(w, key) => var r := Registering(s, key); Waits(r, w, Joined(key, r.store.done[key]))
    case Take(w) => Taking(s, w, s.waiters[w].key, s.waiters[w].cell)
    case TimeOut(w) => Waits(s, w, Returned(s.waiters[w].key, s.waiters[w].cell, TimedOut))
    case Cancel(w) => Waits(s, w, Returned(s.waiters[w].key, s.waiters[w].cell, Cancelled))
    case Forget(w) =>
      Waits(s, w, Returned(s.waiters[w].key, s.waiters[w].cell, Got(s.waiters[w].doc)))
        .(store := Delete(s.store, s.waiters[w].key))
  }

  // ----- what each action does to the store and the waiters -----

  lemma SetEffect(s: System, key: string, doc: Doc)
    requires !SendBlocks(s.store, key)
    ensures Enabled(s, Set(key, doc), false)
    ensures Next(s, Set(key, doc)).store == SetResult(s.store, key, doc) && Next(s, Set(key, doc)).waiters == s.waiters
  {
  }

  lemma JoinEffect(s: System, w: nat, key: string)
    requires w !in s.waiters
    ensures Enabled(s, Join(w, key), false)
    ensures Next(s, Join(w, key)).store == Registered(s.store, key).0
    ensures Next(s, Join(w, key)).waiters == s.waiters[w := Joined(key, Registered(s.store, key).1)]
  {
  }

  lemma TakeEffect(s: System, w: nat, key: string, c: nat)
    requires w in s.waiters && s.waiters[w] == Joined(key, c) && HasMessage(s, c)
    ensures Enabled(s, Take(w), false)
    ensures Next(s, Take(w)).store == Receive(s.store, c)
    ensures Next(s, Take(w)).waiters == s.waiters[w := Holding(key, c, s.store.cells[c].ch[0])]
  {
  }

  lemma LeaveEffect(s: System, w: nat, key: string, c: nat, a: Action, how: Outcome)
    requires w in s.waiters && s.waiters[w] == Joined(key, c)
    requires (a == TimeOut(w) && how == TimedOut) || (a == Cancel(w) && how == Cancelled)
    ensures Enabled(s, a, false)
    ensures Next(s, a).store == s.store && Next(s, a).waiters == s.waiters[w := Returned(key, c, how)]
  {
  }

  lemma ForgetEffect(s: System, w: nat, key: string, c: nat, doc: Doc)
    requires w in s.waiters && s.waiters[w] == Holding(key, c, doc)
    ensures Enabled(s, Forget(w), false)
    ensures Next(s, Forget(w)).store == Delete(s.store, key)
    ensures Next(s, Forget(w)).waiters == s.waiters[w := Returned(key, c, Got(doc))]
  {
  }

  /** The system after a run from `s`, if every action was enabled in its turn. */
  function Run(s: System, acts: seq<Action>, solo: bool): Option<System> {
    if acts == [] then
      Some(s)
    else
      var n := |acts| - 1;
      match Run(s, acts[..n], solo)
      case None => None
      case Some(mid) => if Enabled(mid, acts[n], solo) then Some(Next(mid, acts[n])) else None
  }

  // ----- the invariant -----

  /** Cell `c` is the one registered for its key. */
  predicate InMap(s: System, c: nat)
    requires c < |s.hist|
  {
    s.hist[c].home in s.store.done && s.store.done[s.hist[c].home] == c
  }

  /** The three lives of a cell: not yet signalled, holding its one result, or emptied by
      exactly one waiter, which unregisters it before it returns. */
  ghost predicate CellOk(s: System, c: nat)
    requires c < |s.hist|
  {
    var cell, h := s.store.cells[c], s.hist[c];
    if !cell.fired then
      cell.ch == [] && h.sent == [] && h.received == [] && InMap(s, c)
    else
      && h.sent == [cell.result]
      && if cell.ch != [] then
           cell.ch == [cell.result] && h.received == [] && InMap(s, c)
         else
           && |h.received| == 1 && h.received[0].1 == cell.result
           && Emptied(s, c, h.received[0].0)
  }

  ghost predicate Emptied(s: System, c: nat, w: nat)
    requires c < |s.hist|
  {
    && w in s.waiters
    && s.waiters[w] == if InMap(s, c) then Holding(s.hist[c].home, c, s.store.cells[c].result)
                       else Returned(s.hist[c].home, c, Got(s.store.cells[c].result))
  }

  ghost predicate WaiterOk(s: System, w: nat)
    requires w in s.waiters
  {
    var p := s.waiters[w];
    && p.cell < |s.hist|
    && s.hist[p.cell].home == p.key
    && (p.Holding? ==> s.hist[p.cell].received == [(w, p.doc)] && InMap(s, p.cell))
    && (p.Returned? && p.outcome.Got? ==> s.hist[p.cell].received == [(w, p.outcome.doc)] && !InMap(s, p.cell))
  }

  ghost predicate DoneOk(s: System, key: string)
    requires key in s.store.done
  {
    s.hist[s.store.done[key]].home == key
  }

  /** Under the one-waiter-per-key discipline a blocked waiter holds the registered cell. */
  ghost predicate SoloOk(s: System, w: nat)
    requires w in s.waiters
  {
    && (s.waiters[w].Joined? && s.waiters[w].cell < |s.hist| ==> InMap(s, s.waiters[w].cell))
    && (!s.waiters[w].Returned? ==> forall v | v in s.waiters && v != w :: !Active(s, v, s.waiters[w].key))
  }

  ghost predicate Inv(s: System, solo: bool) {
    && (forall key | key in s.store.done :: DoneOk(s, key))
    && (forall c | 0 <= c < |s.hist| :: CellOk(s, c))
    && (forall w | w in s.waiters :: WaiterOk(s, w))
    && (solo ==> forall w | w in s.waiters :: SoloOk(s, w))
  }

  lemma RegisteringKeepsInv(s: System, key: string, solo: bool)
    requires Inv(s, solo)
    ensures Inv(Registering(s, key), solo)
  {
    var t := Registering(s, key);
    forall c | 0 <= c < |t.hist| ensures CellOk(t, c) { assert c < |s.hist| ==> CellOk(s, c); }
    forall w | w in t.waiters ensures WaiterOk(t, w) { assert WaiterOk(s, w); }
    if solo {
      forall w | w in t.waiters ensures SoloOk(t, w) { assert WaiterOk(s, w) && SoloOk(s, w); }
    }
  }

  lemma SendingKeepsInv(s: System, key: string, doc: Doc, solo: bool)
    requires Inv(s, solo) && key in s.store.done
    ensures Inv(Sending(s, key, doc), solo)
  {
    var t := Sending(s, key, doc);
    assert DoneOk(s, key);
    forall c | 0 <= c < |t.hist| ensures CellOk(t, c) { assert CellOk(s, c); }
    forall w | w in t.waiters ensures WaiterOk(t, w) { assert WaiterOk(s, w) && CellOk(s, s.waiters[w].cell); }
    if solo {
      forall w | w in t.waiters ensures SoloOk(t, w) { assert WaiterOk(s, w) && SoloOk(s, w); }
    }
  }

  lemma JoiningKeepsInv(s: System, w: nat, key: string, solo: bool)
    requires Inv(s, solo) && key in s.store.done && Enabled(s, Join(w, key), solo)
    ensures Inv(Waits(s, w, Joined(key, s.store.done[key])), solo)
  {
    var t := Waits(s, w, Joined(key, s.store.done[key]));
    assert DoneOk(s, key);
    forall c | 0 <= c < |t.hist| ensures CellOk(t, c) { assert CellOk(s, c); }
    forall v | v in t.waiters ensures WaiterOk(t, v) { assert v != w ==> WaiterOk(s, v); }
    if solo {
      forall v | v in t.waiters ensures SoloOk(t, v) {
        assert v != w ==> WaiterOk(s, v) && SoloOk(s, v) && !Active(s, v, key);
      }
    }
  }

  lemma TakingKeepsInv(s: System, w: nat, solo: bool)
    requires Inv(s, solo) && Enabled(s, Take(w), solo)
    ensures Inv(Next(s, Take(w)), solo)
  {
    var t := Next(s, Take(w));
    assert WaiterOk(s, w) && CellOk(s, s.waiters[w].cell);
    forall c | 0 <= c < |t.hist| ensures CellOk(t, c) { assert CellOk(s, c); }
    forall v | v in t.waiters ensures WaiterOk(t, v) { assert WaiterOk(s, v); }
    if solo {
      forall v | v in t.waiters ensures SoloOk(t, v) { assert WaiterOk(s, v) && SoloOk(s, v) && SoloOk(s, w); }
    }
  }

  lemma LeavingKeepsInv(s: System, w: nat, a: Action, solo: bool)
    requires Inv(s, solo) && Enabled(s, a, solo) && (a == TimeOut(w) || a == Cancel(w))
    ensures Inv(Next(s, a), solo)
  {
    var t := Next(s, a);
    assert WaiterOk(s, w);
    forall c | 0 <= c < |t.hist| ensures CellOk(t, c) { assert CellOk(s, c); }
    forall v | v in t.waiters ensures WaiterOk(t, v) { assert WaiterOk(s, v); }
    if solo {
      forall v | v in t.waiters ensures SoloOk(t, v) { assert WaiterOk(s, v) && SoloOk(s, v); }
    }
  }

  lemma ForgettingKeepsInv(s: System, w: nat, solo: bool)
    requires Inv(s, solo) && Enabled(s, Forget(w), solo)
    ensures Inv(Next(s, Forget(w)), solo)
  {
    var t := Next(s, Forget(w));
    assert WaiterOk(s, w) && CellOk(s, s.waiters[w].cell);
    forall key | key in t.store.done ensures DoneOk(t, key) { assert DoneOk(s, key); }
    forall c | 0 <= c < |t.hist| ensures CellOk(t, c) { assert CellOk(s, c); }
    forall v | v in t.waiters ensures WaiterOk(t, v) { assert WaiterOk(s, v); }
    if solo {
      forall v | v in t.waiters ensures SoloOk(t, v) { assert WaiterOk(s, v) && SoloOk(s, v) && SoloOk(s, w); }
    }
  }

  lemma StepKeepsInv(s: System, a: Action, solo: bool)
    requires Inv(s, solo) && Enabled(s, a, solo)
    ensures Inv(Next(s, a), solo)
  {
    match a
    case Set(key, doc) =>
      RegisteringKeepsInv(s, key, solo);
      SendingKeepsInv(Registering(s, key), key, doc, solo);
    case Join(w, key) =>
      RegisteringKeepsInv(s, key, solo);
      JoiningKeepsInv(Registering(s, key), w, key, solo);
    case Take(w) => TakingKeepsInv(s, w, solo);
    case TimeOut(w) => LeavingKeepsInv(s, w, a, solo);
    case Cancel(w) => LeavingKeepsInv(s, w, a, solo);
    case Forget(w) => ForgettingKeepsInv(s, w, solo);
  }

  lemma {:induction false} RunKeepsInv(s: System, acts: seq<Action>, solo: bool)
    requires Inv(s, solo) && Run(s, acts, solo).Some?
    ensures Inv(Run(s, acts, solo).value, solo)
  {
    if acts != [] {
      var n := |acts| - 1;
      RunKeepsInv(s, acts[..n], solo);
      StepKeepsInv(Run(s, acts[..n], solo).value, acts[n], solo);
    }
  }

  // ----- what holds in every run -----

  /** In every reachable state: no SetResult can block on its send, each cell has carried at
      most one message, the delete that follows a receive removes the very cell received
      from, and a cell outside the map holds no message. */
  lemma SignallingInvariant(acts: seq<Action>, s: System)
    requires Run(INITIAL, acts, false) == Some(s)
    ensures forall key :: !SendBlocks(s.store, key)
    ensures forall c | 0 <= c < |s.hist| :: |s.hist[c].sent| <= 1
    ensures forall w | w in s.waiters && s.waiters[w].Holding? ::
              s.waiters[w].key in s.store.done && s.store.done[s.waiters[w].key] == s.waiters[w].cell
    ensures forall c | 0 <= c < |s.hist| && !InMap(s, c) :: s.store.cells[c].ch == []
  {
    RunKeepsInv(INITIAL, acts, false);
    forall key | key in s.store.done
      ensures !SendBlocks(s.store, key)
    {
      assert CellOk(s, s.store.done[key]);
    }
    forall w | w in s.waiters && s.waiters[w].Holding?
      ensures s.waiters[w].key in s.store.done && s.store.done[s.waiters[w].key] == s.waiters[w].cell
    {
      assert WaiterOk(s, w);
    }
    forall c | 0 <= c < |s.hist|
      ensures |s.hist[c].sent| <= 1 && (!InMap(s, c) ==> s.store.cells[c].ch == [])
    {
      assert CellOk(s, c);
    }
  }

  /** Waiter `w` received `doc` from cell `c`. */
  ghost predicate Delivered(s: System, w: nat, c: nat, doc: Doc) {
    w in s.waiters && (s.waiters[w] == Holding(s.waiters[w].key, c, doc)
                       || s.waiters[w] == Returned(s.waiters[w].key, c, Got(doc)))
  }

  /** `doc` waits in cell `c`, which is registered under its key, and nobody has it. */
  ghost predicate Buffered(s: System, c: nat, doc: Doc)
    requires c < |s.hist|
  {
    && s.store.cells[c].ch == [doc] && InMap(s, c)
    && forall w, d :: !Delivered(s, w, c, d)
  }

  /** `doc` has left cell `c` for one waiter and for no other. */
  ghost predicate DeliveredOnce(s: System, c: nat, doc: Doc)
    requires c < |s.hist|
  {
    && s.store.cells[c].ch == []
    && exists w :: Delivered(s, w, c, doc) && forall v, d | Delivered(s, v, c, d) :: v == w && d == doc
  }

  /** Conservation: a result accepted by SetResult at any point of a run is, at every later
      point, either still buffered in a registered cell or delivered to exactly one waiter. */
  lemma AcceptedResultsAreConserved(acts: seq<Action>, more: seq<Action>, s: System, t: System, c: nat, doc: Doc)
    requires Run(INITIAL, acts, false) == Some(s) && Run(s, more, false) == Some(t)
    requires c < |s.hist| && doc in s.hist[c].sent
    ensures c < |t.hist| && t.hist[c].sent == [doc] && t.hist[c].home == s.hist[c].home
    ensures Buffered(t, c, doc) != DeliveredOnce(t, c, doc)
  {
    hide Run;
    RunKeepsInv(INITIAL, acts, false);
    RunKeepsInv(s, more, false);
    HistoryOnlyGrows(s, more, false);
    assert CellOk(s, c) && CellOk(t, c);
    assert forall w, d | Delivered(t, w, c, d) :: WaiterOk(t, w);
    if t.store.cells[c].ch == [] {
      assert Delivered(t, t.hist[c].received[0].0, c, doc);
    }
  }

  lemma StepGrowsHistory(s: System, a: Action)
    requires Enabled(s, a, false)
    ensures var t := Next(s, a);
            && |s.hist| <= |t.hist|
            && forall c | 0 <= c < |s.hist| :: t.hist[c].home == s.hist[c].home && s.hist[c].sent <= t.hist[c].sent
  {
  }

  lemma {:induction false} HistoryOnlyGrows(s: System, acts: seq<Action>, solo: bool)
    requires Run(s, acts, solo).Some?
    ensures var t := Run(s, acts, solo).value;
            && |s.hist| <= |t.hist|
            && forall c | 0 <= c < |s.hist| :: t.hist[c].home == s.hist[c].home && s.hist[c].sent <= t.hist[c].sent
  {
    if acts != [] {
      var n := |acts| - 1;
      HistoryOnlyGrows(s, acts[..n], solo);
      StepGrowsHistory(Run(s, acts[..n], solo).value, acts[n]);
    }
  }

  /** Exactly when a SetResult is dropped: an earlier result for the key is still buffered,
      or its receiver has not yet unregistered the cell. */
  lemma DroppedIffUnconsumed(acts: seq<Action>, s: System, key: string, doc: Doc)
    requires Run(INITIAL, acts, false) == Some(s)
    ensures Enabled(s, Set(key, doc), false)
    ensures Next(s, Set(key, doc)) == s <==>
            && key in s.store.done
            && (s.store.cells[s.store.done[key]].ch != []
                || exists w :: w in s.waiters && s.waiters[w].Holding? && s.waiters[w].key == key)
    ensures Next(s, Set(key, doc)) != s ==>
            var t := Next(s, Set(key, doc));
            key in t.store.done && t.store.cells[t.store.done[key]].ch == [doc]
  {
    SignallingInvariant(acts, s);
    RunKeepsInv(INITIAL, acts, false);
    if key in s.store.done {
      var c := s.store.done[key];
      assert DoneOk(s, key) && CellOk(s, c);
      forall w | w in s.waiters && s.waiters[w].Holding? && s.waiters[w].key == key
        ensures s.waiters[w].cell == c && s.store.cells[c].fired
      {
        assert WaiterOk(s, w);
      }
    }
  }

  // ----- which waiters can still be woken -----

  /** Waiter `w` joined the cell of its key and some other waiter has received the cell's one
      message, whether or not it has returned yet. */
  ghost predicate Outrun(s: System, w: nat)
    requires w in s.waiters
  {
    exists v, doc :: Delivered(s, v, s.waiters[w].cell, doc)
  }

  /** A SetResult on its key leaves a blocked waiter able to receive if and only if nobody has
      received from the waiter's cell before. */
  lemma WokenIffNotOutrun(acts: seq<Action>, s: System, w: nat, doc: Doc)
    requires Run(INITIAL, acts, false) == Some(s)
    requires w in s.waiters && s.waiters[w].Joined?
    ensures Enabled(s, Set(s.waiters[w].key, doc), false)
    ensures Enabled(Next(s, Set(s.waiters[w].key, doc)), Take(w), false) <==> !Outrun(s, w)
  {
    hide Run;
    SignallingInvariant(acts, s);
    RunKeepsInv(INITIAL, acts, false);
    var p := s.waiters[w];
    assert WaiterOk(s, w) && CellOk(s, p.cell);
    forall v, d | Delivered(s, v, p.cell, d)
      ensures s.store.cells[p.cell].fired && s.store.cells[p.cell].ch == []
    {
      assert WaiterOk(s, v);
    }
    if s.store.cells[p.cell].fired && s.store.cells[p.cell].ch == [] {
      assert Delivered(s, s.hist[p.cell].received[0].0, p.cell, s.store.cells[p.cell].result);
    }
  }

  /** Cell `c` has been signalled and received from. */
  ghost predicate Spent(s: System, c: nat) {
    c < |s.store.cells| && s.store.cells[c].fired && s.store.cells[c].ch == []
  }

  /** Waiter `p` has come to `q` without receiving anything. */
  predicate EmptyHanded(p: Waiter, q: Waiter) {
    q == p || q == Returned(p.key, p.cell, TimedOut) || q == Returned(p.key, p.cell, Cancelled)
  }

  lemma StepKeepsSpent(s: System, a: Action, c: nat)
    requires Enabled(s, a, false) && Spent(s, c)
    ensures Spent(Next(s, a), c)
  {
  }

  lemma {:induction false} SpentStaysSpent(s: System, acts: seq<Action>, t: System, w: nat)
    requires Run(s, acts, false) == Some(t)
    requires w in s.waiters && s.waiters[w].Joined? && Spent(s, s.waiters[w].cell)
    ensures w in t.waiters && EmptyHanded(s.waiters[w], t.waiters[w]) && Spent(t, s.waiters[w].cell)
  {
    if acts != [] {
      var n := |acts| - 1;
      var mid := Run(s, acts[..n], false).value;
      SpentStaysSpent(s, acts[..n], mid, w);
      StepKeepsSpent(mid, acts[n], s.waiters[w].cell);
    }
  }

  /** Once outrun, a waiter never receives: in every continuation it is still blocked, with
      nothing to receive, or it has timed out or was cancelled. */
  lemma OutrunWaitersNeverReceive(acts: seq<Action>, more: seq<Action>, s: System, t: System, w: nat)
    requires Run(INITIAL, acts, false) == Some(s) && Run(s, more, false) == Some(t)
    requires w in s.waiters && s.waiters[w].Joined? && Outrun(s, w)
    ensures w in t.waiters && EmptyHanded(s.waiters[w], t.waiters[w]) && !Enabled(t, Take(w), false)
  {
    hide Run;
    RunKeepsInv(INITIAL, acts, false);
    var v, doc :| Delivered(s, v, s.waiters[w].cell, doc);
    assert WaiterOk(s, v) && CellOk(s, s.waiters[w].cell);
    SpentStaysSpent(s, more, t, w);
  }

  /** A blocked waiter no longer holds the registered cell exactly when another waiter took the
      cell's one result and has returned with it. */
  lemma StaleIffReceiverReturned(acts: seq<Action>, s: System, w: nat)
    requires Run(INITIAL, acts, false) == Some(s)
    requires w in s.waiters && s.waiters[w].Joined?
    ensures !(s.waiters[w].key in s.store.done && s.store.done[s.waiters[w].key] == s.waiters[w].cell)
       <==> exists v, doc :: v != w && v in s.waiters
                             && s.waiters[v] == Returned(s.waiters[w].key, s.waiters[w].cell, Got(doc))
  {
    RunKeepsInv(INITIAL, acts, false);
    var p := s.waiters[w];
    assert WaiterOk(s, w) && CellOk(s, p.cell);
    if !InMap(s, p.cell) {
      var v := s.hist[p.cell].received[0].0;
      assert s.waiters[v] == Returned(p.key, p.cell, Got(s.store.cells[p.cell].result));
    }
    forall v, doc | v in s.waiters && s.waiters[v] == Returned(p.key, p.cell, Got(doc))
      ensures !InMap(s, p.cell)
    {
      assert WaiterOk(s, v);
    }
  }

  /** A result that is buffered anywhere is seen by the next WaitForResult on its key,
      whoever sent it and whoever gave up waiting for it before. */
  lemma LaterWaitSeesBufferedResult(acts: seq<Action>, s: System, c: nat, w: nat)
    requires Run(INITIAL, acts, false) == Some(s)
    requires HasMessage(s, c) && w !in s.waiters
    ensures var t := Next(s, Join(w, s.hist[c].home));
            && Enabled(t, Take(w), false)
            && Next(t, Take(w)).waiters[w] == Holding(s.hist[c].home, c, s.store.cells[c].result)
  {
    RunKeepsInv(INITIAL, acts, false);
    assert CellOk(s, c);
  }

  /** No lost wake-up: with one waiter at a time on a key, once a SetResult on that key came
      during the wait, the waiter can receive for as long as it goes on waiting, whatever
      else the run does. */
  lemma NoLostWakeUp(acts: seq<Action>, more: seq<Action>, s: System, mid: System, t: System, w: nat, doc: Doc)
    requires Run(INITIAL, acts, true) == Some(s) && w in s.waiters && s.waiters[w].Joined?
    requires Run(s, [Set(s.waiters[w].key, doc)], true) == Some(mid) && Run(mid, more, true) == Some(t)
    ensures w in t.waiters && (t.waiters[w].Joined? ==> Enabled(t, Take(w), true))
  {
    RunKeepsInv(INITIAL, acts, true);
    OneStep(s, Set(s.waiters[w].key, doc), mid);
    SetMakesWakeable(s, w, doc);
    StepKeepsInv(s, Set(s.waiters[w].key, doc), true);
    WakeableStays(mid, more, t, w);
  }

  lemma OneStep(s: System, a: Action, t: System)
    requires Run(s, [a], true) == Some(t)
    ensures Enabled(s, a, true) && t == Next(s, a)
  {
    assert Run(s, [a][..0], true) == Some(s);
  }

  /** A spent cell that is still registered has been received from by a waiter that has not
      yet deleted it. */
  lemma SpentCellHasReceiver(s: System, c: nat)
    requires Inv(s, true) && c < |s.hist| && InMap(s, c)
    ensures Spent(s, c) ==> exists v :: v in s.waiters && s.waiters[v].Holding? && s.waiters[v].key == s.hist[c].home
  {
    assert CellOk(s, c);
  }

  lemma SetMakesWakeable(s: System, w: nat, doc: Doc)
    requires Inv(s, true) && w in s.waiters && s.waiters[w].Joined?
    requires Enabled(s, Set(s.waiters[w].key, doc), true)
    ensures Wakeable(Next(s, Set(s.waiters[w].key, doc)), w)
  {
    var p := s.waiters[w];
    assert WaiterOk(s, w) && SoloOk(s, w);
    SpentCellHasReceiver(s, p.cell);
    assert forall v | v in s.waiters && v != w :: !Active(s, v, p.key);
  }

  /** Waiter `w` has a message to receive, if it is still blocked. */
  ghost predicate Wakeable(s: System, w: nat) {
    w in s.waiters && (s.waiters[w].Joined? ==> HasMessage(s, s.waiters[w].cell))
  }

  /** Nobody else takes from the cell of a solo waiter. */
  lemma TakeKeepsWakeable(s: System, v: nat, w: nat)
    requires Inv(s, true) && Enabled(s, Take(v), true) && Wakeable(s, w)
    ensures Wakeable(Next(s, Take(v)), w)
  {
    hide CellOk;
    assert WaiterOk(s, w) && SoloOk(s, w) && WaiterOk(s, v);
    assert Active(s, v, s.waiters[v].key);
  }

  lemma StepKeepsWakeable(s: System, a: Action, w: nat)
    requires Inv(s, true) && Enabled(s, a, true) && Wakeable(s, w)
    ensures Wakeable(Next(s, a), w)
  {
    hide Inv;
    if a.Take? {
      TakeKeepsWakeable(s, a.w, w);
    }
  }

  lemma {:induction false} WakeableStays(s: System, acts: seq<Action>, t: System, w: nat)
    requires Inv(s, true) && Run(s, acts, true) == Some(t) && Wakeable(s, w)
    ensures Wakeable(t, w)
  {
    hide Inv, Wakeable;
    if acts != [] {
      var n := |acts| - 1;
      var mid := Run(s, acts[..n], true).value;
      WakeableStays(s, acts[..n], mid, w);
      RunKeepsInv(s, acts[..n], true);
      StepKeepsWakeable(mid, acts[n], w);
    }
  }

  /** Two waiters share a cell, and the first has received its result. */
  lemma TwoJoinOneReceives(key: string, doc: Doc) returns (acts: seq<Action>, s: System)
    ensures Run(INITIAL, acts, false) == Some(s)
    ensures s.waiters == map[0 := Holding(key, 0, doc), 1 := Joined(key, 0)]
    ensures s.store.cells == [Cell([], true, doc)] && s.store.done == map[key := 0]
  {
    acts, s := [], INITIAL;
    acts, s := Extend(acts, s, Join(0, key));
    acts, s := Extend(acts, s, Join(1, key));
    assert s.store.cells == [Cell([], false, None)] && s.store.done == map[key := 0];
    assert s.store.cells[0].ch + [doc] == [doc];
    acts, s := Extend(acts, s, Set(key, doc));
    assert s.store.cells == [Cell([doc], true, doc)] && s.store.done == map[key := 0];
    assert [doc][1..] == [];
    acts, s := Extend(acts, s, Take(0));
  }

  /** With two waiters on a key the promise fails in two ways.  If the first has returned, the
      second stays blocked on a dead cell while a result for its key is buffered in a newer
      one. */
  lemma TwoWaitersCanLoseAWakeUp(key: string, doc: Doc) returns (acts: seq<Action>, s: System)
    ensures Run(INITIAL, acts, false) == Some(s)
    ensures 1 in s.waiters && s.waiters[1] == Joined(key, 0) && !Enabled(s, Take(1), false)
    ensures key in s.store.done && s.store.cells[s.store.done[key]].ch == [doc]
  {
    acts, s := TwoJoinOneReceives(key, doc);
    acts, s := Extend(acts, s, Forget(0));
    acts, s := Extend(acts, s, Set(key, doc));
  }

  /** If the first has received but not yet deleted the cell, a second result is dropped
      although the second waiter is blocked on the registered cell. */
  lemma TwoWaitersCanLoseAResult(key: string, doc: Doc, second: Doc) returns (acts: seq<Action>, s: System)
    ensures Run(INITIAL, acts, false) == Some(s)
    ensures 1 in s.waiters && s.waiters[1] == Joined(key, 0) && key in s.store.done && s.store.done[key] == 0
    ensures Enabled(s, Set(key, second), false) && Next(s, Set(key, second)) == s && !Enabled(s, Take(1), false)
  {
    acts, s := TwoJoinOneReceives(key, doc);
  }

  lemma Extend(acts: seq<Action>, s: System, a: Action) returns (longer: seq<Action>, t: System)
    requires Run(INITIAL, acts, false) == Some(s) && Enabled(s, a, false)
    ensures longer == acts + [a] && t == Next(s, a)
    ensures Run(INITIAL, longer, false) == Some(t)
  {
    longer, t := acts + [a], Next(s, a);
    assert longer[..|acts|] == acts;
  }

  // ----- the interface the providers see -----

  /** The results that a wait would find: one slot per key. */
  function Slots(st: Store): map<string, Doc> {
    map key | key in st.done && st.cells[st.done[key]].ch != [] :: st.cells[st.done[key]].ch[0]
  }

  lemma RegisteringKeepsSlots(s: System, key: string)
    ensures Slots(Registering(s, key).store) == Slots(s.store)
  {
  }

  lemma SendingFillsSlot(s: System, key: string, doc: Doc)
    requires Inv(s, false) && key in s.store.done && !s.store.cells[s.store.done[key]].fired
    ensures Slots(Sending(s, key, doc).store) == Slots(s.store)[key := doc]
  {
    var c := s.store.done[key];
    assert DoneOk(s, key) && CellOk(s, c);
    assert Sending(s, key, doc).store.cells[c].ch == [doc];
    assert forall k | k in s.store.done && k != key :: DoneOk(s, k) && s.store.done[k] != c;
  }

  /** Seen through the slots, a SetResult fills the slot of its key or changes nothing. */
  lemma SetResultFillsSlot(acts: seq<Action>, s: System, key: string, doc: Doc)
    requires Run(INITIAL, acts, false) == Some(s)
    ensures Enabled(s, Set(key, doc), false)
    ensures Slots(Next(s, Set(key, doc)).store) == Slots(s.store)[key := doc] || Next(s, Set(key, doc)) == s
  {
    SignallingInvariant(acts, s);
    RunKeepsInv(INITIAL, acts, false);
    RegisteringKeepsInv(s, key, false);
    RegisteringKeepsSlots(s, key);
    var r := Registering(s, key);
    if !r.store.cells[r.store.done[key]].fired {
      SendingFillsSlot(r, key, doc);
    }
  }

  lemma ReceiveOnSlots(st: Store, key: string, doc: Doc)
    requires key in st.done && st.cells[st.done[key]].ch == [doc]
    requires forall k | k in st.done && k != key :: st.done[k] != st.done[key]
    ensures key in Slots(st) && Slots(st)[key] == doc
    ensures Slots(Receive(st, st.done[key])) == Slots(st) - {key}
  {
  }

  /** A receive empties the slot of the waiter's key and yields what the slot held. */
  lemma ReceiveEmptiesSlot(acts: seq<Action>, s: System, w: nat)
    requires Run(INITIAL, acts, false) == Some(s) && Enabled(s, Take(w), false)
    ensures s.waiters[w].key in Slots(s.store)
    ensures Next(s, Take(w)).waiters[w]
         == Holding(s.waiters[w].key, s.waiters[w].cell, Slots(s.store)[s.waiters[w].key])
    ensures Slots(Next(s, Take(w)).store) == Slots(s.store) - {s.waiters[w].key}
  {
    hide Run, Slots;
    RunKeepsInv(INITIAL, acts, false);
    assert WaiterOk(s, w) && CellOk(s, s.waiters[w].cell);
    assert forall k | k in s.store.done :: DoneOk(s, k);
    ReceiveOnSlots(s.store, s.waiters[w].key, s.store.cells[s.waiters[w].cell].result);
  }

  /** Every other step leaves all slots as they are: a timeout or a cancellation loses
      nothing, and the delete after a receive removes only an empty cell. */
  lemma OtherStepsKeepSlots(acts: seq<Action>, s: System, a: Action)
    requires Run(INITIAL, acts, false) == Some(s) && Enabled(s, a, false)
    requires !a.Set? && !a.Take?
    ensures Slots(Next(s, a).store) == Slots(s.store)
  {
    hide Run;
    if a.Join? {
      RegisteringKeepsSlots(s, a.key);
    } else if a.Forget? {
      RunKeepsInv(INITIAL, acts, false);
      assert WaiterOk(s, a.w) && CellOk(s, s.waiters[a.w].cell);
    }
  }
}

/** MemoryPendingStore over the heap: the maps it changes in place and the doneEntry objects
    that waiters may go on holding (store/memory.go).  The methods of MemoryPendingStore are its
    lock regions and channel operations, proved to be the steps of the same name in Signals;
    Goroutines runs them for any number of calls at once and makes exactly the runs of
    Signals. */
module MemoryStore {
  import opened Values
  import Signals

  datatype PendingEntry = PendingEntry(metadata: Doc, expires: real)

  type PendingMap = map<string, PendingEntry>

  /** What Get and Pop answer at time `now`; an entry is gone only after its expiry. */
  function Answer(pending: PendingMap, key: string, now: real): Doc {
    if key in pending && now <= pending[key].expires then pending[key].metadata else None
  }

  /** Get leaves the map alone, except that it drops an entry it finds expired. */
  function AfterGet(pending: PendingMap, key: string, now: real): PendingMap {
    if key in pending && now <= pending[key].expires then pending else pending - {key}
  }

  /** A whole WaitForResult during which nobody else touches the store. */
  function LoneWait(st: Signals.Store, key: string): (Signals.Store, Doc) {
    var (reg, c) := Signals.Registered(st, key);
    if reg.cells[c].ch == [] then (reg, None)
    else (Signals.Delete(Signals.Receive(reg, c), key), reg.cells[c].ch[0])
  }

  /** cloneMap: a fresh map with the same keys and values; nil stays nil. */
  method CloneMap(m: Doc) returns (out: Doc)
    ensures out == m
  {
    match m {
      case None => out := None;
      case Some(fields) =>
        var copy: Fields := map[];
        var todo := fields.Keys;
        while todo != {}
          invariant todo <= fields.Keys
          invariant copy.Keys == fields.Keys - todo
          invariant forall k | k in copy :: copy[k] == fields[k]
          decreases todo
        {
          var k :| k in todo;
          copy := copy[k := fields[k]];
          todo := todo - {k};
        }
        assert copy == fields;
        out := Some(copy);
    }
  }

  class DoneEntry {
    var ch: seq<Doc>
    var result: Doc
    var fired: bool

    constructor ()
      ensures ch == [] && result == None && !fired
    {
      ch, result, fired := [], None, false;
    }

    ghost function View(): Signals.Cell
      reads this
    {
      Signals.Cell(ch, fired, result)
    }

    /** A send that is yet to come finds room in the channel. */
    ghost predicate Sendable()
      reads this
    {
      !fired ==> ch == []
    }
  }

  class MemoryPendingStore {
    var pending: PendingMap
    var done: map<string, DoneEntry>
    /** Every entry ever made, in order, and the store of Signals that they stand for. */
    ghost var cells: seq<DoneEntry>
    ghost var view: Signals.Store

    ghost predicate Valid()
      reads this, cells
    {
      && |view.cells| == |cells| && view.done.Keys == done.Keys
      && (forall i, j | 0 <= i < j < |cells| :: cells[i] != cells[j])
      && (forall i | 0 <= i < |cells| :: view.cells[i] == cells[i].View() && cells[i].Sendable())
      && (forall key | key in done :: cells[view.done[key]] == done[key])
    }

    lemma ViewOf(c: nat)
      requires Valid() && c < |cells|
      ensures c < |view.cells| && view.cells[c] == cells[c].View()
    {
    }

    /** The send under the lock finds room: only the first result of an entry is ever sent. */
    lemma NeverBlocks(key: string)
      requires Valid()
      ensures !Signals.SendBlocks(view, key)
    {
    }

    constructor ()
      ensures Valid() && view == Signals.EMPTY && pending == map[] && cells == []
    {
      pending, done, cells, view := map[], map[], [], Signals.EMPTY;
    }

    method Create(key: string, metadata: Doc, ttl: int, now: real)
      requires Valid()
      modifies this`pending
      ensures Valid() && view == old(view)
      ensures pending == old(pending)[key := PendingEntry(metadata, now + ttl as real)]
    {
      var copy := CloneMap(metadata);
      pending := pending[key := PendingEntry(copy, now + ttl as real)];
    }

    method Get(key: string, now: real) returns (r: Doc)
      requires Valid()
      modifies this`pending
      ensures Valid() && view == old(view)
      ensures r == Answer(old(pending), key, now)
      ensures pending == AfterGet(old(pending), key, now)
    {
      if key !in pending || now > pending[key].expires {
        pending := pending - {key};
        return None;
      }
      r := CloneMap(pending[key].metadata);
    }

    method Pop(key: string, now: real) returns (r: Doc)
      requires Valid()
      modifies this`pending
      ensures Valid() && view == old(view)
      ensures r == Answer(old(pending), key, now)
      ensures pending == old(pending) - {key}
    {
      var entry := if key in pending then Some(pending[key]) else None;
      pending := pending - {key};
      if entry.None? || now > entry.value.expires {
        return None;
      }
      r := CloneMap(entry.value.metadata);
    }

    /** The lookup-or-insert that opens SetResult and WaitForResult. */
    method Join(key: string) returns (d: DoneEntry, ghost c: nat)
      requires Valid()
      modifies this`done, this`cells, this`view
      ensures Valid() && old(cells) <= cells && fresh(cells[|old(cells)|..])
      ensures view == Signals.Registered(old(view), key).0 && c == Signals.Registered(old(view), key).1 && cells[c] == d
      ensures d in old(cells) || fresh(d)
    {
      if key in done {
        d, c := done[key], view.done[key];
      } else {
        d := new DoneEntry();
        c := |cells|;
        done, cells, view := done[key := d], cells + [d], Signals.Registered(view, key).0;
      }
    }

    /** SetResult runs under the lock from its lookup to its send. */
    method SetResult(key: string, result: Doc)
      requires Valid()
      modifies this`done, this`cells, this`view, cells
      ensures Valid() && old(cells) <= cells && fresh(cells[|old(cells)|..])
      ensures view == Signals.SetResult(old(view), key, result)
    {
      var d, c := Join(key);
      Fire(d, c, result);
    }

    /** Only the first result of an entry is sent. */
    method Fire(d: DoneEntry, ghost c: nat, result: Doc)
      requires Valid() && c < |cells| && cells[c] == d
      modifies this`view, d
      ensures Valid()
      ensures view == if old(d.fired) then old(view)
                      else old(view).(cells := old(view).cells[c := Signals.Cell(old(d.ch) + [result], true, result)])
    {
      if !d.fired {
        d.fired := true;
        d.result := CloneMap(result);
        Send(d, d.result);
        view := view.(cells := view.cells[c := d.View()]);
      }
    }

    /** A send on the channel of `d`: it would block, under the lock, if the channel were full. */
    method Send(d: DoneEntry, message: Doc)
      requires |d.ch| < Signals.CAPACITY
      modifies d`ch
      ensures d.ch == old(d.ch) + [message]
    {
      d.ch := d.ch + [message];
    }

    /** The receive arm of the select in WaitForResult, enabled by a message in the channel
        of the entry the waiter joined; it happens outside the lock. */
    method Receive(d: DoneEntry, ghost c: nat) returns (r: Doc)
      requires Valid() && c < |cells| && cells[c] == d && d.ch != []
      modifies this`view, d
      ensures Valid() && r == old(d.ch[0]) && view == Signals.Receive(old(view), c)
    {
      r := d.ch[0];
      d.ch := d.ch[1..];
      view := Signals.Receive(view, c);
    }

    /** The delete that follows a receive. */
    method Forget(key: string)
      requires Valid()
      modifies this`done, this`view
      ensures Valid() && view == Signals.Delete(old(view), key)
    {
      done, view := done - {key}, Signals.Delete(view, key);
    }

    /** A whole WaitForResult that nobody disturbs. */
    method WaitForResult(key: string) returns (r: Doc)
      requires Valid()
      modifies this`done, this`cells, this`view, cells
      ensures Valid() && (view, r) == LoneWait(old(view), key)
    {
      var d, c := Join(key);
      if d.ch == [] {
        return None;
      }
      r := Receive(d, c);
      Forget(key);
    }
  }

  // ----- calls that are waiting at the same time -----

  /** Where a WaitForResult call is. */
  datatype Phase = InSelect | BeforeDelete(doc: Doc) | Left(outcome: Signals.Outcome)

  datatype Wait = Wait(key: string, entry: DoneEntry, phase: Phase)

  /** A call in progress, its entry given by its position among all entries. */
  function Waiter(wait: Wait, c: nat): Signals.Waiter {
    match wait.phase
    case InSelect => Signals.Joined(wait.key, c)
    case BeforeDelete(doc) => Signals.Holding(wait.key, c, doc)
    case Left(outcome) => Signals.Returned(wait.key, c, outcome)
  }

  ghost predicate Matches(cells: seq<DoneEntry>, wait: Wait, w: Signals.Waiter) {
    w.cell < |cells| && cells[w.cell] == wait.entry && w == Waiter(wait, w.cell)
  }

  ghost predicate Match(cells: seq<DoneEntry>, waits: map<nat, Wait>, waiters: map<nat, Signals.Waiter>) {
    && waits.Keys == waiters.Keys
    && forall w | w in waits :: Matches(cells, waits[w], waiters[w])
  }

  lemma MatchAt(cells: seq<DoneEntry>, waits: map<nat, Wait>, waiters: map<nat, Signals.Waiter>, w: nat)
    requires Match(cells, waits, waiters)
    ensures (w in waits <==> w in waiters) && (w in waits ==> Matches(cells, waits[w], waiters[w]))
  {
  }

  lemma MatchGrows(cells: seq<DoneEntry>, more: seq<DoneEntry>, waits: map<nat, Wait>,
                   waiters: map<nat, Signals.Waiter>)
    requires Match(cells, waits, waiters) && cells <= more
    ensures Match(more, waits, waiters)
  {
    forall w | w in waits
      ensures Matches(more, waits[w], waiters[w])
    {
      assert Matches(cells, waits[w], waiters[w]);
    }
  }

  lemma MatchUpdates(cells: seq<DoneEntry>, waits: map<nat, Wait>, waiters: map<nat, Signals.Waiter>,
                     w: nat, wait: Wait, c: nat)
    requires Match(cells, waits, waiters) && c < |cells| && cells[c] == wait.entry
    ensures Match(cells, waits[w := wait], waiters[w := Waiter(wait, c)])
  {
  }

  /** A store and the WaitForResult calls in progress on it.  Each method is one step of one
      goroutine; `system` is what the heap stands for after the steps `acts`. */
  class Goroutines {
    const store: MemoryPendingStore
    var waits: map<nat, Wait>
    ghost var acts: seq<Signals.Action>
    ghost var system: Signals.System

    ghost predicate Valid()
      reads this, store, store.cells
    {
      && store.Valid() && system.store == store.view && Match(store.cells, waits, system.waiters)
      && Signals.Run(Signals.INITIAL, acts, false) == Some(system)
    }

    constructor ()
      ensures Valid() && fresh(store) && acts == [] && system == Signals.INITIAL
    {
      store := new MemoryPendingStore();
      waits, acts, system := map[], [], Signals.INITIAL;
    }

    ghost method Record(a: Signals.Action)
      requires Signals.Run(Signals.INITIAL, acts, false) == Some(system) && Signals.Enabled(system, a, false)
      modifies this`acts, this`system
      ensures acts == old(acts) + [a] && system == Signals.Next(old(system), a)
      ensures Signals.Run(Signals.INITIAL, acts, false) == Some(system)
    {
      acts, system := Signals.Extend(acts, system, a);
    }

    method SetResult(key: string, result: Doc)
      requires Valid()
      modifies this`acts, this`system, store, store.cells
      ensures Valid() && acts == old(acts) + [Signals.Set(key, result)]
    {
      hide MemoryPendingStore.Valid, Signals.Run, Signals.Next, Signals.Enabled, Signals.SetResult, Match;
      store.NeverBlocks(key);
      Signals.SetEffect(system, key, result);
      Record(Signals.Set(key, result));
      store.SetResult(key, result);
      MatchGrows(old(store.cells), store.cells, waits, system.waiters);
    }

    /** A call enters the select. */
    method Enter(w: nat, key: string)
      requires Valid() && w !in waits
      modifies this, store
      ensures Valid() && acts == old(acts) + [Signals.Join(w, key)]
    {
      hide MemoryPendingStore.Valid, Signals.Run, Signals.Next, Signals.Enabled, Signals.Registered, Match;
      MatchAt(store.cells, waits, system.waiters, w);
      Signals.JoinEffect(system, w, key);
      Record(Signals.Join(w, key));
      var d, c := store.Join(key);
      MatchGrows(old(store.cells), store.cells, waits, old(system.waiters));
      MatchUpdates(store.cells, waits, old(system.waiters), w, Wait(key, d, InSelect), c);
      waits := waits[w := Wait(key, d, InSelect)];
      assert store.Valid();
      assert system.store == store.view;
      assert system.waiters == old(system.waiters)[w := Waiter(waits[w], c)];
    }

    /** The select leaves by its receive arm, which is ready when there is a message. */
    method Take(w: nat)
      requires Valid() && w in waits && waits[w].phase.InSelect? && waits[w].entry.ch != []
      modifies this, store, store.cells
      ensures Valid() && acts == old(acts) + [Signals.Take(w)]
    {
      hide MemoryPendingStore.Valid, Signals.Run, Signals.Next, Signals.Enabled, Signals.Receive, Match;
      MatchAt(store.cells, waits, system.waiters, w);
      var wait := waits[w];
      ghost var c := system.waiters[w].cell;
      store.ViewOf(c);
      Signals.TakeEffect(system, w, wait.key, c);
      Record(Signals.Take(w));
      var doc := store.Receive(wait.entry, c);
      MatchUpdates(store.cells, waits, old(system.waiters), w, wait.(phase := BeforeDelete(doc)), c);
      waits := waits[w := wait.(phase := BeforeDelete(doc))];
    }

    /** It leaves because the timer has fired or the context is done, which may be at any
        time, also when there is a message. */
    method GiveUp(w: nat, cancelled: bool)
      requires Valid() && w in waits && waits[w].phase.InSelect?
      modifies this
      ensures Valid() && acts == old(acts) + [if cancelled then Signals.Cancel(w) else Signals.TimeOut(w)]
    {
      hide MemoryPendingStore.Valid, Signals.Run, Signals.Next, Signals.Enabled, Match;
      MatchAt(store.cells, waits, system.waiters, w);
      var wait := waits[w];
      ghost var c := system.waiters[w].cell;
      var outcome := if cancelled then Signals.Cancelled else Signals.TimedOut;
      ghost var a := if cancelled then Signals.Cancel(w) else Signals.TimeOut(w);
      Signals.LeaveEffect(system, w, wait.key, c, a, outcome);
      Record(a);
      MatchUpdates(store.cells, waits, old(system.waiters), w, wait.(phase := Left(outcome)), c);
      waits := waits[w := wait.(phase := Left(outcome))];
    }

    /** The delete after a receive, and the return. */
    method Finish(w: nat) returns (r: Doc)
      requires Valid() && w in waits && waits[w].phase.BeforeDelete?
      modifies this, store
      ensures Valid() && acts == old(acts) + [Signals.Forget(w)] && r == old(waits[w].phase.doc)
    {
      hide MemoryPendingStore.Valid, Signals.Run, Signals.Next, Signals.Enabled, Signals.Delete, Match;
      MatchAt(store.cells, waits, system.waiters, w);
      var wait := waits[w];
      ghost var c := system.waiters[w].cell;
      r := wait.phase.doc;
      Signals.ForgetEffect(system, w, wait.key, c, r);
      Record(Signals.Forget(w));
      store.Forget(wait.key);
      MatchUpdates(store.cells, waits, old(system.waiters), w, wait.(phase := Left(Signals.Got(r))), c);
      waits := waits[w := wait.(phase := Left(Signals.Got(r)))];
    }
  }
}

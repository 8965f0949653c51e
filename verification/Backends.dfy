/** The three pending-store backends against one timed map: for every series of operations
    that come one after another, memory, file and Redis give the answers of the map. */
module Backends {
  import opened Values
  import E = Encoding
  import Keys
  import Signals
  import M = MemoryStore
  import F = FileStore
  import R = RedisStore

  datatype Op =
    | Create(key: string, doc: Doc, ttl: int)
    | Get(key: string)
    | Pop(key: string)
    | SetResult(key: string, doc: Doc, ttl: int)
    | Wait(key: string)

  /** An operation, when it happens, and the nonce it draws if it encrypts. */
  datatype Timed = Timed(op: Op, at: real, nonce: E.Bytes)

  // ----- the specification -----

  datatype Entry = Entry(doc: Doc, until: real)

  datatype Spec = Spec(pending: map<string, Entry>, results: map<string, Entry>)

  function SpecAnswer(s: Spec, op: Op, at: real): Doc {
    match op
    case Get(key) => if key in s.pending && at <= s.pending[key].until then s.pending[key].doc else None
    case Pop(key) => if key in s.pending && at <= s.pending[key].until then s.pending[key].doc else None
    case Wait(key) => if key in s.results then s.results[key].doc else None
    case _ => None
  }

  function SpecAfter(s: Spec, op: Op, at: real): Spec {
    match op
    case Create(key, doc, ttl) => s.(pending := s.pending[key := Entry(doc, at + ttl as real)])
    case Get(_) => s
    case Pop(key) => s.(pending := s.pending - {key})
    case SetResult(key, doc, ttl) => s.(results := s.results[key := Entry(doc, at + ttl as real)])
    case Wait(key) => s.(results := s.results - {key})
  }

  // ----- the backends -----

  datatype Site = Site(dir: string, prefix: string, hash: Keys.Hash, codec: E.Codec) {
    function File(): F.Config { F.Config(dir, hash, codec) }
    function Redis(): R.Config { R.Config(prefix, hash, codec) }
    function Meta(key: string): string { Keys.MetaPath(hash, dir, key) }
    function Done(key: string): string { Keys.DonePath(hash, dir, key) }
    function PendingKey(key: string): string { Keys.PendingKey(hash, prefix, key) }
    function DoneKey(key: string): string { Keys.DoneKey(hash, prefix, key) }
  }

  datatype Memory = Memory(pending: M.PendingMap, signals: Signals.Store)

  function MemoryAnswer(m: Memory, op: Op, at: real): Doc {
    match op
    case Get(key) => M.Answer(m.pending, key, at)
    case Pop(key) => M.Answer(m.pending, key, at)
    case Wait(key) => M.LoneWait(m.signals, key).1
    case _ => None
  }

  function MemoryAfter(m: Memory, op: Op, at: real): Memory {
    match op
    case Create(key, doc, ttl) => m.(pending := m.pending[key := M.PendingEntry(doc, at + ttl as real)])
    case Get(key) => m.(pending := M.AfterGet(m.pending, key, at))
    case Pop(key) => m.(pending := m.pending - {key})
    case SetResult(key, doc, _) => m.(signals := Signals.SetResult(m.signals, key, doc))
    case Wait(key) => m.(signals := M.LoneWait(m.signals, key).0)
  }

  function FileAnswer(site: Site, files: F.Files, op: Op, at: real): Doc {
    match op
    case Get(key) => F.Metadata(F.Read(site.File(), files, site.Meta(key), at))
    case Pop(key) => F.Metadata(F.Read(site.File(), files, site.Meta(key), at))
    case Wait(key) => F.Metadata(F.Read(site.File(), files, site.Done(key), at))
    case _ => None
  }

  function FileAfter(site: Site, files: F.Files, op: Op, at: real, nonce: E.Bytes): F.Files {
    match op
    case Create(key, doc, ttl) => F.Write(site.File(), files, site.Meta(key), F.Fresh(doc, ttl, at), nonce)
    case Get(key) => F.AfterRead(site.File(), files, site.Meta(key), at)
    case Pop(key) => files - {site.Meta(key)}
    case SetResult(key, doc, ttl) => F.Write(site.File(), files, site.Done(key), F.Fresh(doc, ttl, at), nonce)
    case Wait(key) => files - {site.Done(key)}
  }

  function RedisAnswer(site: Site, db: R.Database, op: Op, at: real): Doc {
    match op
    case Get(key) => R.Read(site.Redis(), db, site.PendingKey(key), at)
    case Pop(key) => R.Read(site.Redis(), db, site.PendingKey(key), at)
    case Wait(key) => R.Read(site.Redis(), db, site.DoneKey(key), at)
    case _ => None
  }

  function RedisAfter(site: Site, db: R.Database, op: Op, at: real, nonce: E.Bytes): R.Database {
    match op
    case Create(key, doc, ttl) => R.Set(db, site.PendingKey(key), E.Encrypt(site.codec, nonce, doc), ttl, at)
    case Get(key) => R.AfterRead(site.Redis(), db, site.PendingKey(key), at)
    case Pop(key) => db - {site.PendingKey(key)}
    case SetResult(key, doc, ttl) =>
      R.Set(db, site.DoneKey(key), E.Encrypt(site.codec, nonce, doc), R.ResultTtl(ttl), at)
    case Wait(key) => if R.Live(db, site.DoneKey(key), at) then db - {site.DoneKey(key)} else db
  }

  // ----- memory -----

  /** What is asked of an operation on a map in state `s` at clock `clock`: time does not run
      backwards, lifetimes are positive, a result is not overwritten before it is consumed or
      awaited after it expired, and no pending entry is read in what is left, at its expiry, of
      that whole second. */
  predicate Fair(s: Spec, clock: real, op: Op, at: real) {
    && clock <= at
    && match op
       case Create(_, _, ttl) => ttl > 0
       case Get(key) => key in s.pending ==> at < s.pending[key].until || at.Floor > s.pending[key].until.Floor
       case Pop(key) => key in s.pending ==> at < s.pending[key].until || at.Floor > s.pending[key].until.Floor
       case SetResult(key, _, ttl) => ttl > 0 && key !in s.results
       case Wait(key) => key in s.results ==> at < s.results[key].until
  }

  ghost predicate MemoryPendingOk(s: Spec, m: Memory, clock: real) {
    && (forall k | k in m.pending ::
          k in s.pending && m.pending[k] == M.PendingEntry(s.pending[k].doc, s.pending[k].until))
    && (forall k | k in s.pending :: k in m.pending || s.pending[k].until < clock)
  }

  ghost predicate MemorySignalsOk(results: map<string, Entry>, st: Signals.Store) {
    && (forall k | k in results :: k in st.done)
    && (forall k | k in st.done ::
          st.cells[st.done[k]] == if k in results then Signals.Cell([results[k].doc], true, results[k].doc)
                                  else Signals.Cell([], false, None))
    && (forall j, k | j in st.done && k in st.done && j != k :: st.done[j] != st.done[k])
  }

  ghost predicate MemoryOk(s: Spec, m: Memory, clock: real) {
    MemoryPendingOk(s, m, clock) && MemorySignalsOk(s.results, m.signals)
  }

  lemma RegisteredKeeps(results: map<string, Entry>, st: Signals.Store, key: string)
    requires MemorySignalsOk(results, st)
    ensures MemorySignalsOk(results, Signals.Registered(st, key).0)
  {
  }

  lemma SetResultStep(results: map<string, Entry>, st: Signals.Store, key: string, e: Entry)
    requires MemorySignalsOk(results, st) && key !in results
    ensures MemorySignalsOk(results[key := e], Signals.SetResult(st, key, e.doc))
  {
    RegisteredKeeps(results, st, key);
  }

  lemma LoneWaitStep(results: map<string, Entry>, st: Signals.Store, key: string)
    requires MemorySignalsOk(results, st)
    ensures M.LoneWait(st, key).1 == if key in results then results[key].doc else None
    ensures MemorySignalsOk(results - {key}, M.LoneWait(st, key).0)
  {
    RegisteredKeeps(results, st, key);
    var (reg, c) := Signals.Registered(st, key);
    if key in results {
      assert reg.cells[c].ch == [results[key].doc];
    } else {
      assert results - {key} == results;
    }
  }

  lemma MemoryStep(s: Spec, m: Memory, clock: real, op: Op, at: real)
    requires MemoryOk(s, m, clock) && Fair(s, clock, op, at)
    ensures MemoryAnswer(m, op, at) == SpecAnswer(s, op, at)
    ensures MemoryOk(SpecAfter(s, op, at), MemoryAfter(m, op, at), at)
  {
    match op
    case SetResult(key, doc, ttl) => SetResultStep(s.results, m.signals, key, Entry(doc, at + ttl as real));
    case Wait(key) => LoneWaitStep(s.results, m.signals, key);
    case _ =>
  }

  // ----- files -----

  /** The site's hash keeps the keys in use apart, and its codec obeys its laws. */
  ghost predicate SiteOk(site: Site, keys: set<string>) {
    && Keys.Sized(site.hash) && E.Lawful(site.codec)
    && forall a, b | a in keys && b in keys && a != b :: site.hash(a) != site.hash(b)
  }

  /** The operation is on a key in use and writes a value that JSON can represent. */
  predicate Admitted(site: Site, keys: set<string>, t: Timed) {
    && t.op.key in keys && |t.nonce| == site.codec.nonceSize
    && (t.op.Create? || t.op.SetResult? ==> site.codec.representable(E.DocValue(t.op.doc)))
  }

  ghost predicate Holds(site: Site, files: F.Files, path: string, e: Entry) {
    path in files && E.DecodeRecord(site.codec, files[path]) == Some(E.Record(NormalDoc(e.doc), e.until.Floor))
  }

  ghost predicate FileKeyOk(site: Site, s: Spec, files: F.Files, clock: real, k: string) {
    && (site.Meta(k) in files ==> k in s.pending && Holds(site, files, site.Meta(k), s.pending[k]))
    && (k in s.pending && site.Meta(k) !in files ==> s.pending[k].until < clock)
    && (site.Done(k) in files ==> k in s.results && Holds(site, files, site.Done(k), s.results[k]))
    && (k in s.results ==> site.Done(k) in files)
  }

  ghost predicate FilesOk(site: Site, keys: set<string>, s: Spec, files: F.Files, clock: real) {
    forall k | k in keys :: FileKeyOk(site, s, files, clock, k)
  }

  lemma FileKeysApart(site: Site, keys: set<string>, a: string, b: string)
    requires SiteOk(site, keys) && a in keys && b in keys
    ensures site.Meta(a) != site.Done(b) && site.Done(a) != site.Meta(b)
    ensures a != b ==> site.Meta(a) != site.Meta(b) && site.Done(a) != site.Done(b)
  {
    Keys.PathsAreDisjoint(site.hash, site.dir, a, b);
    Keys.PathsAreDisjoint(site.hash, site.dir, b, a);
  }

  lemma FileWriteHolds(site: Site, files: F.Files, path: string, doc: Doc, ttl: int, at: real, nonce: E.Bytes)
    requires E.Lawful(site.codec) && |nonce| == site.codec.nonceSize && site.codec.representable(E.DocValue(doc))
    ensures Holds(site, F.Write(site.File(), files, path, F.Fresh(doc, ttl, at), nonce), path,
                  Entry(doc, at + ttl as real))
  {
    E.DecodeEncodeRecord(site.codec, nonce, F.Fresh(doc, ttl, at));
  }

  /** A read of the file of one key: the entry while it has not expired by whole seconds. */
  lemma FileAnswers(site: Site, s: Spec, files: F.Files, clock: real, op: Op, at: real)
    requires FileKeyOk(site, s, files, clock, op.key) && Fair(s, clock, op, at)
    ensures FileAnswer(site, files, op, at) == NormalDoc(SpecAnswer(s, op, at))
  {
  }

  lemma FileOwnKeyStep(site: Site, s: Spec, files: F.Files, clock: real, t: Timed)
    requires FileKeyOk(site, s, files, clock, t.op.key) && Fair(s, clock, t.op, t.at)
    requires Admitted(site, {t.op.key}, t) && E.Lawful(site.codec) && site.Meta(t.op.key) != site.Done(t.op.key)
    ensures FileKeyOk(site, SpecAfter(s, t.op, t.at), FileAfter(site, files, t.op, t.at, t.nonce), t.at, t.op.key)
  {
    hide E.Lawful, E.DecodeRecord, E.EncodeRecord, E.Encrypt;
    if t.op.Create? {
      FileWriteHolds(site, files, site.Meta(t.op.key), t.op.doc, t.op.ttl, t.at, t.nonce);
    } else if t.op.SetResult? {
      FileWriteHolds(site, files, site.Done(t.op.key), t.op.doc, t.op.ttl, t.at, t.nonce);
    }
  }

  lemma FileStep(site: Site, keys: set<string>, s: Spec, files: F.Files, clock: real, t: Timed)
    requires SiteOk(site, keys) && Admitted(site, keys, t) && FilesOk(site, keys, s, files, clock)
    requires Fair(s, clock, t.op, t.at)
    ensures FileAnswer(site, files, t.op, t.at) == NormalDoc(SpecAnswer(s, t.op, t.at))
    ensures FilesOk(site, keys, SpecAfter(s, t.op, t.at), FileAfter(site, files, t.op, t.at, t.nonce), t.at)
  {
    FileAnswers(site, s, files, clock, t.op, t.at);
    forall k | k in keys
      ensures FileKeyOk(site, SpecAfter(s, t.op, t.at), FileAfter(site, files, t.op, t.at, t.nonce), t.at, k)
    {
      FileKeysApart(site, keys, k, t.op.key);
      if k == t.op.key {
        FileOwnKeyStep(site, s, files, clock, t);
      } else {
        FileOtherKeyStep(site, s, files, clock, t, k);
      }
    }
  }

  lemma FileOtherKeyStep(site: Site, s: Spec, files: F.Files, clock: real, t: Timed, k: string)
    requires FileKeyOk(site, s, files, clock, k) && clock <= t.at && k != t.op.key
    requires {site.Meta(k), site.Done(k)} !! {site.Meta(t.op.key), site.Done(t.op.key)}
    ensures FileKeyOk(site, SpecAfter(s, t.op, t.at), FileAfter(site, files, t.op, t.at, t.nonce), t.at, k)
  {
  }

  // ----- Redis -----

  ghost predicate Keeps(site: Site, db: R.Database, key: string, e: Entry) {
    && key in db && db[key].expireAt == Some(e.until)
    && E.Decrypt(site.codec, db[key].data) == Some(NormalDoc(e.doc))
  }

  ghost predicate RedisKeyOk(site: Site, s: Spec, db: R.Database, k: string) {
    && (site.PendingKey(k) in db <==> k in s.pending)
    && (k in s.pending ==> Keeps(site, db, site.PendingKey(k), s.pending[k]))
    && (site.DoneKey(k) in db <==> k in s.results)
    && (k in s.results ==> Keeps(site, db, site.DoneKey(k), s.results[k]))
  }

  ghost predicate RedisOk(site: Site, keys: set<string>, s: Spec, db: R.Database) {
    forall k | k in keys :: RedisKeyOk(site, s, db, k)
  }

  lemma RedisKeysApart(site: Site, keys: set<string>, a: string, b: string)
    requires SiteOk(site, keys) && a in keys && b in keys
    ensures site.PendingKey(a) != site.DoneKey(b) && site.DoneKey(a) != site.PendingKey(b)
    ensures a != b ==> site.PendingKey(a) != site.PendingKey(b) && site.DoneKey(a) != site.DoneKey(b)
  {
    Keys.KeySpacesAreDisjoint(site.hash, "", site.prefix, site.prefix, a, a, b);
    Keys.KeySpacesAreDisjoint(site.hash, "", site.prefix, site.prefix, a, b, a);
    Keys.PendingKeysCoincideIff(site.hash, site.prefix, site.prefix, a, b);
  }

  lemma RedisAnswers(site: Site, s: Spec, db: R.Database, clock: real, op: Op, at: real)
    requires RedisKeyOk(site, s, db, op.key) && Fair(s, clock, op, at)
    ensures RedisAnswer(site, db, op, at) == NormalDoc(SpecAnswer(s, op, at))
  {
  }

  lemma RedisOwnKeyStep(site: Site, s: Spec, db: R.Database, clock: real, t: Timed)
    requires RedisKeyOk(site, s, db, t.op.key) && Fair(s, clock, t.op, t.at)
    requires Admitted(site, {t.op.key}, t) && E.Lawful(site.codec)
    requires site.PendingKey(t.op.key) != site.DoneKey(t.op.key)
    ensures RedisKeyOk(site, SpecAfter(s, t.op, t.at), RedisAfter(site, db, t.op, t.at, t.nonce), t.op.key)
  {
    if t.op.Create? || t.op.SetResult? {
      E.DecryptEncrypt(site.codec, t.nonce, t.op.doc);
    }
  }

  lemma RedisOtherKeyStep(site: Site, s: Spec, db: R.Database, t: Timed, k: string)
    requires RedisKeyOk(site, s, db, k) && k != t.op.key
    requires {site.PendingKey(k), site.DoneKey(k)} !! {site.PendingKey(t.op.key), site.DoneKey(t.op.key)}
    ensures RedisKeyOk(site, SpecAfter(s, t.op, t.at), RedisAfter(site, db, t.op, t.at, t.nonce), k)
  {
  }

  lemma RedisStep(site: Site, keys: set<string>, s: Spec, db: R.Database, clock: real, t: Timed)
    requires SiteOk(site, keys) && Admitted(site, keys, t) && RedisOk(site, keys, s, db)
    requires Fair(s, clock, t.op, t.at)
    ensures RedisAnswer(site, db, t.op, t.at) == NormalDoc(SpecAnswer(s, t.op, t.at))
    ensures RedisOk(site, keys, SpecAfter(s, t.op, t.at), RedisAfter(site, db, t.op, t.at, t.nonce))
  {
    RedisAnswers(site, s, db, clock, t.op, t.at);
    forall k | k in keys
      ensures RedisKeyOk(site, SpecAfter(s, t.op, t.at), RedisAfter(site, db, t.op, t.at, t.nonce), k)
    {
      RedisKeysApart(site, keys, k, t.op.key);
      if k == t.op.key {
        RedisOwnKeyStep(site, s, db, clock, t);
      } else {
        RedisOtherKeyStep(site, s, db, t, k);
      }
    }
  }

  // ----- runs -----

  /** The map and the three backends side by side, and the time of the last operation. */
  datatype World = World(spec: Spec, memory: Memory, files: F.Files, db: R.Database, clock: real)

  function Begin(clock: real): World {
    World(Spec(map[], map[]), Memory(map[], Signals.EMPTY), map[], map[], clock)
  }

  function Step(site: Site, w: World, t: Timed): World {
    World(SpecAfter(w.spec, t.op, t.at), MemoryAfter(w.memory, t.op, t.at),
          FileAfter(site, w.files, t.op, t.at, t.nonce), RedisAfter(site, w.db, t.op, t.at, t.nonce), t.at)
  }

  function Run(site: Site, w: World, ts: seq<Timed>): World {
    if ts == [] then w
    else Step(site, Run(site, w, ts[..|ts| - 1]), ts[|ts| - 1])
  }

  /** Every operation of the series is fair to the map that the ones before it left. */
  ghost predicate FairSeries(site: Site, keys: set<string>, start: real, ts: seq<Timed>) {
    forall i | 0 <= i < |ts| ::
      && Admitted(site, keys, ts[i])
      && var w := Run(site, Begin(start), ts[..i]); Fair(w.spec, w.clock, ts[i].op, ts[i].at)
  }

  ghost predicate Related(site: Site, keys: set<string>, w: World) {
    && MemoryOk(w.spec, w.memory, w.clock)
    && FilesOk(site, keys, w.spec, w.files, w.clock)
    && RedisOk(site, keys, w.spec, w.db)
  }

  lemma {:induction false} RunKeepsRelated(site: Site, keys: set<string>, start: real, ts: seq<Timed>)
    requires SiteOk(site, keys) && FairSeries(site, keys, start, ts)
    ensures Related(site, keys, Run(site, Begin(start), ts))
  {
    if ts != [] {
      var n := |ts| - 1;
      assert forall i | 0 <= i < n :: ts[..n][..i] == ts[..i];
      RunKeepsRelated(site, keys, start, ts[..n]);
      var w, t := Run(site, Begin(start), ts[..n]), ts[n];
      MemoryStep(w.spec, w.memory, w.clock, t.op, t.at);
      FileStep(site, keys, w.spec, w.files, w.clock, t);
      RedisStep(site, keys, w.spec, w.db, w.clock, t);
    }
  }

  /** In every fair series, every operation is answered by memory as by the map, and by files
      and Redis with the normalised answer of the map. */
  lemma BackendsAgree(site: Site, keys: set<string>, start: real, ts: seq<Timed>, i: nat)
    requires SiteOk(site, keys) && FairSeries(site, keys, start, ts) && i < |ts|
    ensures var w := Run(site, Begin(start), ts[..i]);
            var answer := SpecAnswer(w.spec, ts[i].op, ts[i].at);
            && MemoryAnswer(w.memory, ts[i].op, ts[i].at) == answer
            && FileAnswer(site, w.files, ts[i].op, ts[i].at) == NormalDoc(answer)
            && RedisAnswer(site, w.db, ts[i].op, ts[i].at) == NormalDoc(answer)
  {
    assert forall k | 0 <= k < i :: ts[..i][..k] == ts[..k];
    RunKeepsRelated(site, keys, start, ts[..i]);
    var w, t := Run(site, Begin(start), ts[..i]), ts[i];
    MemoryStep(w.spec, w.memory, w.clock, t.op, t.at);
    FileStep(site, keys, w.spec, w.files, w.clock, t);
    RedisStep(site, keys, w.spec, w.db, w.clock, t);
  }

  // ----- the conditions are needed -----

  /** All three backends answer alike, up to normalisation. */
  predicate Alike(site: Site, w: World, op: Op, at: real) {
    && FileAnswer(site, w.files, op, at) == NormalDoc(MemoryAnswer(w.memory, op, at))
    && RedisAnswer(site, w.db, op, at) == NormalDoc(MemoryAnswer(w.memory, op, at))
  }

  /** After any fair series, Get and Pop answer alike if and only if they are fair or there is
      nothing to answer: from the expiry of an entry whose file is still there to the end of
      the second, and only then, the backends differ. */
  lemma ReadsAgreeIffFair(site: Site, keys: set<string>, w: World, op: Op, at: real)
    requires SiteOk(site, keys) && Related(site, keys, w) && (op.Get? || op.Pop?) && op.key in keys && w.clock <= at
    ensures Alike(site, w, op, at)
       <==> (op.key in w.spec.pending && w.spec.pending[op.key].doc.Some? && site.Meta(op.key) in w.files ==>
               Fair(w.spec, w.clock, op, at))
  {
    assert FileKeyOk(site, w.spec, w.files, w.clock, op.key) && RedisKeyOk(site, w.spec, w.db, op.key);
  }

  /** Waits answer alike if and only if there is no result to wait for or they come before its
      expiry: memory keeps a result for ever. */
  lemma WaitsAgreeIffFair(site: Site, keys: set<string>, w: World, key: string, at: real)
    requires SiteOk(site, keys) && Related(site, keys, w) && key in keys && w.clock <= at
    ensures Alike(site, w, Wait(key), at)
       <==> (key in w.spec.results && w.spec.results[key].doc.Some? ==> Fair(w.spec, w.clock, Wait(key), at))
  {
    hide E.Lawful, Keys.Sized, M.LoneWait, MemoryPendingOk;
    assert FileKeyOk(site, w.spec, w.files, w.clock, key) && RedisKeyOk(site, w.spec, w.db, key);
    LoneWaitStep(w.spec.results, w.memory.signals, key);
  }

  lemma SecondResultIsIgnored(results: map<string, Entry>, st: Signals.Store, key: string, doc: Doc)
    requires MemorySignalsOk(results, st) && key in results
    ensures Signals.SetResult(st, key, doc) == st
  {
  }

  lemma HeldIsRead(site: Site, files: F.Files, path: string, e: Entry, at: real)
    requires Holds(site, files, path, e) && at < e.until
    ensures F.Metadata(F.Read(site.File(), files, path, at)) == NormalDoc(e.doc)
  {
  }

  /** A second SetResult on an unconsumed key splits the backends: memory goes on answering
      the first result, files and Redis answer the last. */
  lemma SecondResultDiverges(site: Site, keys: set<string>, w: World, t: Timed, later: real)
    requires SiteOk(site, keys) && Related(site, keys, w) && Admitted(site, keys, t)
    requires t.op.SetResult? && t.op.ttl > 0 && t.op.key in w.spec.results && t.at <= later < t.at + t.op.ttl as real
    ensures var v := Step(site, w, t);
            && MemoryAnswer(v.memory, Wait(t.op.key), later) == w.spec.results[t.op.key].doc
            && FileAnswer(site, v.files, Wait(t.op.key), later) == NormalDoc(t.op.doc)
            && RedisAnswer(site, v.db, Wait(t.op.key), later) == NormalDoc(t.op.doc)
  {
    hide E.Lawful, E.Encrypt, E.Decrypt, E.DecodeRecord, E.EncodeRecord, Holds, MemorySignalsOk, M.LoneWait, R.Read,
         Signals.SetResult, Keys.Sized, FilesOk, RedisOk;
    var key := t.op.key;
    LoneWaitStep(w.spec.results, w.memory.signals, key);
    SecondResultIsIgnored(w.spec.results, w.memory.signals, key, t.op.doc);
    FileWriteHolds(site, w.files, site.Done(key), t.op.doc, t.op.ttl, t.at, t.nonce);
    HeldIsRead(site, Step(site, w, t).files, site.Done(key), Entry(t.op.doc, t.at + t.op.ttl as real), later);
    R.ReadAfterSet(site.Redis(), w.db, site.DoneKey(key), t.op.doc, t.op.ttl, t.nonce, t.at, later);
  }
}

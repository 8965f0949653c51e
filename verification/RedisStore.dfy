/** RedisPendingStore over an abstract Redis: a key map with native expiry, in which a
    MULTI/EXEC pipeline is one step (store/redis.go). */
module RedisStore {
  import opened Values
  import opened Encoding
  import Keys
  import P = Polling

  datatype Config = Config(prefix: string, hash: Keys.Hash, codec: Codec)

  /** A stored string; with no expiry it lives for ever, otherwise until just before it. */
  datatype Item = Item(data: Bytes, expireAt: Option<real>)

  type Database = map<string, Item>

  predicate Live(db: Database, key: string, now: real) {
    key in db && (db[key].expireAt.Some? ==> now < db[key].expireAt.value)
  }

  /** SET with an expiry in seconds: zero means none, and the server refuses a negative one. */
  function Set(db: Database, key: string, data: Bytes, ttl: int, now: real): Database {
    if ttl > 0 then db[key := Item(data, Some(now + ttl as real))]
    else if ttl == 0 then db[key := Item(data, None)]
    else db
  }

  /** GET and decrypt: nil for a missing key or undecryptable data. */
  function Read(cfg: Config, db: Database, key: string, now: real): Doc {
    if !Live(db, key, now) then None
    else
      match Decrypt(cfg.codec, db[key].data)
      case None => None
      case Some(d) => d
  }

  /** A plain read deletes data that it cannot decrypt. */
  function AfterRead(cfg: Config, db: Database, key: string, now: real): Database {
    if Live(db, key, now) && Decrypt(cfg.codec, db[key].data).None? then db - {key} else db
  }

  /** SetResult replaces a ttl that is not positive by the default. */
  function ResultTtl(ttl: int): int {
    if ttl <= 0 then 120 else ttl
  }

  /** A stored value reads back normalised exactly until its expiry; with ttl zero it has none,
      and with a negative one nothing is stored.  Other keys read as before. */
  lemma ReadAfterSet(cfg: Config, db: Database, key: string, d: Doc, ttl: int, nonce: Bytes, written: real, now: real)
    requires Lawful(cfg.codec) && |nonce| == cfg.codec.nonceSize && cfg.codec.representable(DocValue(d))
    ensures var after := Set(db, key, Encrypt(cfg.codec, nonce, d), ttl, written);
            && (ttl > 0 ==> Live(after, key, now) == (now < written + ttl as real))
            && (ttl > 0 ==> Read(cfg, after, key, now) == if now < written + ttl as real then NormalDoc(d) else None)
            && (ttl == 0 ==> Live(after, key, now) && Read(cfg, after, key, now) == NormalDoc(d))
            && (ttl < 0 ==> after == db)
            && after - {key} == db - {key}
  {
    hide Encrypt, Decrypt;
    DecryptEncrypt(cfg.codec, nonce, d);
  }

  /** Live data that cannot be decrypted, being too short, forged or neither an object nor null,
      reads as absent, and a plain read deletes it; no other data is deleted by reading. */
  lemma UndecryptableDataIsDeleted(cfg: Config, db: Database, key: string, now: real)
    requires Live(db, key, now)
    ensures var data, n := db[key].data, cfg.codec.nonceSize;
            var bad := || |data| < n
                       || cfg.codec.open(data[..n], data[n..]).None?
                       || var plain := cfg.codec.unmarshal(cfg.codec.open(data[..n], data[n..]).value);
                          plain.None? || !(plain.value.Object? || plain.value.Null?);
            && (bad ==> Read(cfg, db, key, now) == None)
            && AfterRead(cfg, db, key, now) == if bad then db - {key} else db
  {
  }

  // ----- a wait among other processes -----

  /** A look is EXISTS and then, as a second step, the pop.  Between the two of look `i` other
      processes do `between(i, ..)`, and the pop runs at `popAt(i)`. */
  datatype Race = Race(between: (nat, Database) -> Database, popAt: nat -> real)

  /** What look `i` at `key` makes of the database.  `Found(None)` is a pop that came too late,
      or undecryptable data: the wait then returns nil. */
  function LookAt(cfg: Config, db: Database, key: string, now: real, race: Race, i: nat): P.Look {
    if Live(db, key, now) then P.Found(Read(cfg, race.between(i, db), key, race.popAt(i))) else P.Absent
  }

  /** The database as look `i` finds it, if no earlier look found anything. */
  function StateAt(env: P.Env<Database>, db: Database, i: nat): Database
    decreases i, 1
  {
    env.others(i, Left(env, db, i))
  }

  /** The database as `n` looks that find nothing leave it. */
  function Left(env: P.Env<Database>, db: Database, n: nat): Database
    decreases n, 0
  {
    if n == 0 then db else StateAt(env, db, n - 1)
  }

  function PollAt(cfg: Config, key: string, env: P.Env<Database>, race: Race, db: Database, i: nat): P.Poll {
    P.Poll(env.clock(i), LookAt(cfg, StateAt(env, db, i), key, env.clock(i), race, i), env.cancelled(i))
  }

  function Polls(cfg: Config, key: string, env: P.Env<Database>, race: Race, db: Database, n: nat): seq<P.Poll> {
    seq(n, i requires 0 <= i < n => PollAt(cfg, key, env, race, db, i))
  }

  /** As for files, a wait sees an on-time result of a positive ttl.  It returns the result,
      normalised, if and only if no other waiter popped it, and it did not expire, between
      EXISTS and the pop; otherwise it returns nil at once. */
  lemma RedisWaitReturnsOnTimeResult(cfg: Config, key: string, env: P.Env<Database>, race: Race, db: Database, n: nat,
                                     deadline: real, out: P.Outcome, doc: Doc, ttl: int, nonce: Bytes,
                                     written: real)
    requires P.Waited(Polls(cfg, key, env, race, db, n), deadline, out) && out != P.Cancelled && ttl > 0
    requires Lawful(cfg.codec) && |nonce| == cfg.codec.nonceSize && cfg.codec.representable(DocValue(doc))
    requires written <= deadline && env.clock(0) < written + ttl as real
    requires forall i: nat | i + 1 < n :: env.clock(i + 1) - env.clock(i) <= ttl as real
    requires forall i: nat | i < n && env.clock(i) < written :: !Live(StateAt(env, db, i), key, env.clock(i))
    requires forall i: nat | i < n && written <= env.clock(i) < written + ttl as real ::
               var state := StateAt(env, db, i);
               var item := Item(Encrypt(cfg.codec, nonce, doc), Some(written + ttl as real));
               && key in state && state[key] == item
               && (key in race.between(i, state) ==> race.between(i, state)[key] == item)
    ensures var kept := && key in race.between(n - 1, StateAt(env, db, n - 1))
                        && race.popAt(n - 1) < written + ttl as real;
            out == P.Got(if kept then NormalDoc(doc) else None)
  {
    hide StateAt, Lawful, Encrypt, Decrypt;
    var polls := Polls(cfg, key, env, race, db, n);
    P.OnTimeResultIsReturned(polls, deadline, out, written, written + ttl as real);
    assert polls[n - 1] == PollAt(cfg, key, env, race, db, n - 1);
    DecryptEncrypt(cfg.codec, nonce, doc);
  }

  class RedisPendingStore {
    const cfg: Config
    var db: Database

    constructor (cfg: Config)
      ensures this.cfg == cfg.(prefix := if cfg.prefix == "" then Keys.DEFAULT_PREFIX else cfg.prefix) && db == map[]
    {
      this.cfg := cfg.(prefix := if cfg.prefix == "" then Keys.DEFAULT_PREFIX else cfg.prefix);
      db := map[];
    }

    method Create(key: string, metadata: Doc, ttl: int, now: real, nonce: Bytes)
      modifies this
      ensures db == Set(old(db), Keys.PendingKey(cfg.hash, cfg.prefix, key), Encrypt(cfg.codec, nonce, metadata),
                        ttl, now)
    {
      var data := Encrypt(cfg.codec, nonce, metadata);
      db := Set(db, Keys.PendingKey(cfg.hash, cfg.prefix, key), data, ttl, now);
    }

    method Get(key: string, now: real) returns (r: Doc)
      modifies this
      ensures r == Read(cfg, old(db), Keys.PendingKey(cfg.hash, cfg.prefix, key), now)
      ensures db == AfterRead(cfg, old(db), Keys.PendingKey(cfg.hash, cfg.prefix, key), now)
    {
      var redisKey := Keys.PendingKey(cfg.hash, cfg.prefix, key);
      if !Live(db, redisKey, now) {
        return None;
      }
      var d := Decrypt(cfg.codec, db[redisKey].data);
      if d.None? {
        db := db - {redisKey};
        return None;
      }
      r := d.value;
    }

    /** The pipelined GET and DEL: of all pops of a key, the first sees the value. */
    method AtomicPop(redisKey: string, now: real) returns (r: Doc)
      modifies this
      ensures r == Read(cfg, old(db), redisKey, now) && db == old(db) - {redisKey}
    {
      var got := if Live(db, redisKey, now) then Some(db[redisKey].data) else None;
      db := db - {redisKey};
      if got.None? {
        return None;
      }
      var d := Decrypt(cfg.codec, got.value);
      r := if d.None? then None else d.value;
    }

    method Pop(key: string, now: real) returns (r: Doc)
      modifies this
      ensures r == Read(cfg, old(db), Keys.PendingKey(cfg.hash, cfg.prefix, key), now)
      ensures db == old(db) - {Keys.PendingKey(cfg.hash, cfg.prefix, key)}
    {
      r := AtomicPop(Keys.PendingKey(cfg.hash, cfg.prefix, key), now);
    }

    method SetResult(key: string, result: Doc, ttl: int, now: real, nonce: Bytes)
      modifies this
      ensures db == Set(old(db), Keys.DoneKey(cfg.hash, cfg.prefix, key), Encrypt(cfg.codec, nonce, result),
                        ResultTtl(ttl), now)
    {
      var data := Encrypt(cfg.codec, nonce, result);
      var seconds := ttl;
      if seconds <= 0 {
        seconds := 120;
      }
      db := Set(db, Keys.DoneKey(cfg.hash, cfg.prefix, key), data, seconds, now);
    }

    /** One turn of the poll loop: other processes, EXISTS, other processes again, the pop. */
    method Look(redisKey: string, i: nat, env: P.Env<Database>, race: Race) returns (look: P.Look)
      modifies this
      ensures look == LookAt(cfg, env.others(i, old(db)), redisKey, env.clock(i), race, i)
      ensures db == if look.Found? then race.between(i, env.others(i, old(db))) - {redisKey} else env.others(i, old(db))
    {
      db := env.others(i, db);
      if !Live(db, redisKey, env.clock(i)) {
        return P.Absent;
      }
      db := race.between(i, db);
      var result := AtomicPop(redisKey, race.popAt(i));
      look := P.Found(result);
    }

    /** The poll loop of WaitForResult; `n` is the number of looks it took, at most
        floor(2 * timeout) + 2. */
    method WaitForResult(key: string, start: real, timeout: real, env: P.Env<Database>, race: Race)
      returns (out: P.Outcome, n: nat)
      requires P.Ticks(env.clock)
      modifies this
      ensures var redisKey := Keys.DoneKey(cfg.hash, cfg.prefix, key);
              && n > 0
              && P.Waited(Polls(cfg, redisKey, env, race, old(db), n), start + timeout, out)
              && db == if out.Got? then race.between(n - 1, StateAt(env, old(db), n - 1)) - {redisKey}
                       else Left(env, old(db), n)
      ensures timeout >= 0.0 && start <= env.clock(0) ==> n <= (2.0 * timeout).Floor + 2
    {
      hide LookAt, Keys.DoneKey;
      var deadline := start + timeout;
      var redisKey := Keys.DoneKey(cfg.hash, cfg.prefix, key);
      n := 0;
      out := P.TimedOut;
      while true
        invariant db == Left(env, old(db), n)
        invariant forall k: nat | k < n ::
                    var p := PollAt(cfg, redisKey, env, race, old(db), k);
                    p.look.Absent? && p.at <= deadline && !p.cancelled
        decreases (2.0 * (deadline - env.clock(n))).Floor
      {
        var i := n;
        var look := Look(redisKey, i, env, race);
        n := n + 1;
        if look.Found? {
          out := P.Got(look.doc);
          break;
        }
        if env.clock(i) > deadline {
          out := P.TimedOut;
          break;
        }
        if env.cancelled(i) {
          out := P.Cancelled;
          break;
        }
        assert env.clock(i) + P.INTERVAL <= env.clock(i + 1);
      }
      if timeout >= 0.0 && start <= env.clock(0) {
        P.PollsAreBounded(Polls(cfg, redisKey, env, race, old(db), n), start, timeout, out);
      }
    }
  }
}

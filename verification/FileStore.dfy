/** FilePendingStore: encrypted records in a directory of files (store/file.go). */
module FileStore {
  import opened Values
  import opened Encoding
  import Keys
  import P = Polling

  datatype Config = Config(dir: string, hash: Keys.Hash, codec: Codec)

  /** The files of the store's directory, by path. */
  type Files = map<string, Bytes>

  /** The record that a write at `now` leaves: its expiry is cut to whole seconds. */
  function Fresh(metadata: Doc, ttl: int, now: real): Record {
    Record(metadata, (now + ttl as real).Floor)
  }

  function Write(cfg: Config, files: Files, path: string, r: Record, nonce: Bytes): Files {
    files[path := EncodeRecord(cfg.codec, nonce, r)]
  }

  /** The record under `path`, if it is there, decodes, and has not expired by whole
      seconds. */
  function Read(cfg: Config, files: Files, path: string, now: real): Option<Record> {
    if path !in files then None
    else
      match DecodeRecord(cfg.codec, files[path])
      case None => None
      case Some(r) => if now.Floor > r.expires then None else Some(r)
  }

  /** Whatever cannot be returned is removed. */
  function AfterRead(cfg: Config, files: Files, path: string, now: real): Files {
    if Read(cfg, files, path, now).Some? then files else files - {path}
  }

  function Metadata(r: Option<Record>): Doc {
    match r
    case None => None
    case Some(record) => record.metadata
  }

  function LookAt(cfg: Config, files: Files, path: string, now: real): P.Look {
    match Read(cfg, files, path, now)
    case None => P.Absent
    case Some(r) => P.Found(r.metadata)
  }

  /** Writing and then reading a pending record: the normalised metadata while the whole
      second of the read is not past that of the expiry, and afterwards nothing, with the
      file removed. */
  lemma ReadAfterWrite(cfg: Config, files: Files, path: string, metadata: Doc, ttl: int, nonce: Bytes,
                       written: real, now: real)
    requires Lawful(cfg.codec) && |nonce| == cfg.codec.nonceSize && cfg.codec.representable(DocValue(metadata))
    ensures var after := Write(cfg, files, path, Fresh(metadata, ttl, written), nonce);
            if now.Floor <= (written + ttl as real).Floor
            then Read(cfg, after, path, now) == Some(Record(NormalDoc(metadata), (written + ttl as real).Floor))
            else Read(cfg, after, path, now) == None && path !in AfterRead(cfg, after, path, now)
  {
    DecodeEncodeRecord(cfg.codec, nonce, Fresh(metadata, ttl, written));
  }

  /** A file reads as absent at every time if and only if its bytes are unreadable: too short,
      forged, or not a wrapper around a record.  The read then removes it and no other. */
  lemma UnreadableDataIsRemoved(cfg: Config, files: Files, path: string)
    requires Lawful(cfg.codec) && path in files
    ensures (forall now :: Read(cfg, files, path, now) == None) <==> Unreadable(cfg.codec, files[path])
    ensures Unreadable(cfg.codec, files[path]) ==>
              forall now :: AfterRead(cfg, files, path, now) == files - {path}
  {
    hide Unreadable, DecodeRecord;
    DecodesIffReadable(cfg.codec, files[path]);
    if !Unreadable(cfg.codec, files[path]) {
      var expires := DecodeRecord(cfg.codec, files[path]).value.expires as real;
      assert Read(cfg, files, path, expires).Some?;
    }
  }

  /** The file record never expires before a memory entry with the same creation time and
      ttl, and is always expired one second past it. */
  lemma FileExpiryIsWithinASecond(metadata: Doc, ttl: int, written: real, now: real)
    ensures now <= written + ttl as real ==> now.Floor <= Fresh(metadata, ttl, written).expires
    ensures now >= written + ttl as real + 1.0 ==> now.Floor > Fresh(metadata, ttl, written).expires
  {
  }

  // ----- a wait among other processes -----

  /** The files as look `i` at `path` finds them. */
  function StateAt(cfg: Config, path: string, env: P.Env<Files>, files: Files, i: nat): Files
    decreases i, 1
  {
    env.others(i, Left(cfg, path, env, files, i))
  }

  /** The files as the first `n` looks leave them. */
  function Left(cfg: Config, path: string, env: P.Env<Files>, files: Files, n: nat): Files
    decreases n, 0
  {
    if n == 0 then files
    else AfterRead(cfg, StateAt(cfg, path, env, files, n - 1), path, env.clock(n - 1))
  }

  function PollAt(cfg: Config, path: string, env: P.Env<Files>, files: Files, i: nat): P.Poll {
    P.Poll(env.clock(i), LookAt(cfg, StateAt(cfg, path, env, files, i), path, env.clock(i)), env.cancelled(i))
  }

  function Polls(cfg: Config, path: string, env: P.Env<Files>, files: Files, n: nat): seq<P.Poll> {
    seq(n, i requires 0 <= i < n => PollAt(cfg, path, env, files, i))
  }

  /** A result that another process writes by the deadline is returned by the poll loop,
      normalised, if the loop starts before the result expires and no two looks are more than
      `ttl` seconds apart. */
  lemma FileWaitReturnsOnTimeResult(cfg: Config, path: string, env: P.Env<Files>, files: Files, n: nat,
                                    deadline: real, out: P.Outcome, doc: Doc, ttl: int, nonce: Bytes, written: real)
    requires P.Waited(Polls(cfg, path, env, files, n), deadline, out) && out != P.Cancelled
    requires Lawful(cfg.codec) && |nonce| == cfg.codec.nonceSize && cfg.codec.representable(DocValue(doc))
    requires written <= deadline && env.clock(0) < written + ttl as real
    requires forall i: nat | i + 1 < n :: env.clock(i + 1) - env.clock(i) <= ttl as real
    requires forall i: nat | i < n && env.clock(i) < written :: path !in StateAt(cfg, path, env, files, i)
    requires forall i: nat | i < n && written <= env.clock(i) < written + ttl as real ::
               var state := StateAt(cfg, path, env, files, i);
               path in state && state[path] == EncodeRecord(cfg.codec, nonce, Fresh(doc, ttl, written))
    ensures out == P.Got(NormalDoc(doc))
  {
    hide StateAt, Lawful, EncodeRecord;
    var polls := Polls(cfg, path, env, files, n);
    forall i | 0 <= i < n
      ensures env.clock(i) < written ==> polls[i].look == P.Absent
      ensures written <= env.clock(i) < written + ttl as real ==> polls[i].look == P.Found(NormalDoc(doc))
    {
      if written <= env.clock(i) < written + ttl as real {
        FreshFileIsFound(cfg, StateAt(cfg, path, env, files, i), path, doc, ttl, nonce, written, env.clock(i));
      }
    }
    P.OnTimeResultIsReturned(polls, deadline, out, written, written + ttl as real);
  }

  lemma FreshFileIsFound(cfg: Config, files: Files, path: string, doc: Doc, ttl: int, nonce: Bytes,
                         written: real, now: real)
    requires Lawful(cfg.codec) && |nonce| == cfg.codec.nonceSize && cfg.codec.representable(DocValue(doc))
    requires path in files && files[path] == EncodeRecord(cfg.codec, nonce, Fresh(doc, ttl, written))
    requires now < written + ttl as real
    ensures LookAt(cfg, files, path, now) == P.Found(NormalDoc(doc))
  {
    ReadAfterWrite(cfg, files, path, doc, ttl, nonce, written, now);
    assert Write(cfg, files, path, Fresh(doc, ttl, written), nonce) == files;
  }

  class FilePendingStore {
    const cfg: Config
    var files: Files

    constructor (cfg: Config)
      ensures this.cfg == cfg && files == map[]
    {
      this.cfg, files := cfg, map[];
    }

    method WriteRecord(path: string, metadata: Doc, ttl: int, now: real, nonce: Bytes)
      modifies this
      ensures files == Write(cfg, old(files), path, Fresh(metadata, ttl, now), nonce)
    {
      var raw := cfg.codec.marshal(RecordValue(Record(metadata, (now + ttl as real).Floor)));
      files := files[path := Encrypt(cfg.codec, nonce, Some(WrapperFields(raw)))];
    }

    method ReadRecord(path: string, now: real) returns (r: Option<Record>)
      modifies this
      ensures r == Read(cfg, old(files), path, now) && files == AfterRead(cfg, old(files), path, now)
      ensures Lawful(cfg.codec) && path in old(files) && Unreadable(cfg.codec, old(files)[path]) ==>
                r == None && files == old(files) - {path}
    {
      if Lawful(cfg.codec) && path in files {
        UnreadableDataIsRemoved(cfg, files, path);
      }
      if path !in files {
        assert files - {path} == files;
        return None;
      }
      var decrypted := Decrypt(cfg.codec, files[path]);
      if decrypted.None? {
        files := files - {path};
        return None;
      }
      var raw := if decrypted.value.Some? then AsString(Lookup(decrypted.value.value, "record")) else "";
      r := ParseRecord(cfg.codec, raw);
      if r.None? || now.Floor > r.value.expires {
        files := files - {path};
        r := None;
      }
    }

    method Create(key: string, metadata: Doc, ttl: int, now: real, nonce: Bytes)
      modifies this
      ensures files == Write(cfg, old(files), Keys.MetaPath(cfg.hash, cfg.dir, key), Fresh(metadata, ttl, now), nonce)
    {
      WriteRecord(Keys.MetaPath(cfg.hash, cfg.dir, key), metadata, ttl, now, nonce);
    }

    method Get(key: string, now: real) returns (r: Doc)
      modifies this
      ensures r == Metadata(Read(cfg, old(files), Keys.MetaPath(cfg.hash, cfg.dir, key), now))
      ensures files == AfterRead(cfg, old(files), Keys.MetaPath(cfg.hash, cfg.dir, key), now)
    {
      var record := ReadRecord(Keys.MetaPath(cfg.hash, cfg.dir, key), now);
      r := Metadata(record);
    }

    method Pop(key: string, now: real) returns (r: Doc)
      modifies this
      ensures r == Metadata(Read(cfg, old(files), Keys.MetaPath(cfg.hash, cfg.dir, key), now))
      ensures files == old(files) - {Keys.MetaPath(cfg.hash, cfg.dir, key)}
    {
      var path := Keys.MetaPath(cfg.hash, cfg.dir, key);
      var record := ReadRecord(path, now);
      files := files - {path};
      r := Metadata(record);
    }

    method SetResult(key: string, result: Doc, ttl: int, now: real, nonce: Bytes)
      modifies this
      ensures files == Write(cfg, old(files), Keys.DonePath(cfg.hash, cfg.dir, key), Fresh(result, ttl, now), nonce)
    {
      WriteRecord(Keys.DonePath(cfg.hash, cfg.dir, key), result, ttl, now, nonce);
    }

    /** One turn of the poll loop: other processes, then the read, which consumes what it
        finds. */
    method Look(path: string, i: nat, env: P.Env<Files>) returns (look: P.Look)
      modifies this
      ensures look == LookAt(cfg, env.others(i, old(files)), path, env.clock(i))
      ensures files == if look.Found? then env.others(i, old(files)) - {path}
                       else AfterRead(cfg, env.others(i, old(files)), path, env.clock(i))
    {
      files := env.others(i, files);
      var record := ReadRecord(path, env.clock(i));
      if record.None? {
        return P.Absent;
      }
      files := files - {path};
      look := P.Found(record.value.metadata);
    }

    /** The poll loop of WaitForResult; `n` is the number of looks it took, at most
        floor(2 * timeout) + 2. */
    method WaitForResult(key: string, start: real, timeout: real, env: P.Env<Files>) returns (out: P.Outcome, n: nat)
      requires P.Ticks(env.clock)
      modifies this
      ensures var path := Keys.DonePath(cfg.hash, cfg.dir, key);
              && n > 0
              && P.Waited(Polls(cfg, path, env, old(files), n), start + timeout, out)
              && files == if out.Got? then StateAt(cfg, path, env, old(files), n - 1) - {path}
                          else Left(cfg, path, env, old(files), n)
      ensures timeout >= 0.0 && start <= env.clock(0) ==> n <= (2.0 * timeout).Floor + 2
    {
      hide AfterRead, LookAt, Keys.DonePath;
      var deadline := start + timeout;
      var path := Keys.DonePath(cfg.hash, cfg.dir, key);
      n := 0;
      out := P.TimedOut;
      while true
        invariant files == Left(cfg, path, env, old(files), n)
        invariant forall k: nat | k < n ::
                    var p := PollAt(cfg, path, env, old(files), k); p.look.Absent? && p.at <= deadline && !p.cancelled
        decreases (2.0 * (deadline - env.clock(n))).Floor
      {
        var i := n;
        var look := Look(path, i, env);
        n := n + 1;
        if look.Found? {
          out := P.Got(look.doc);
          break;
        }
        if env.clock(i) > deadline {
          out := P.TimedOut;
          break;
        }
        if env.cancelled(i) {
          out := P.Cancelled;
          break;
        }
        assert env.clock(i) + P.INTERVAL <= env.clock(i + 1);
      }
      if timeout >= 0.0 && start <= env.clock(0) {
        P.PollsAreBounded(Polls(cfg, path, env, old(files), n), start, timeout, out);
      }
    }
  }
}

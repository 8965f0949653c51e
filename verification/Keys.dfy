/** How keys and subjects become Redis keys and file names (store/redis.go, store/file.go).
    The hash is any function to 64-character names. */
module Keys {
  type Hash = string -> string

  const HASH_LENGTH := 64

  ghost predicate Sized(hash: Hash) {
    forall key :: |hash(key)| == HASH_LENGTH
  }

  const DEFAULT_PREFIX := "mcp:auth:"

  function TokenKey(hash: Hash, prefix: string, sub: string): string { prefix + "token:" + hash(sub) }

  function PendingKey(hash: Hash, prefix: string, key: string): string { prefix + "pending:" + hash(key) }

  function DoneKey(hash: Hash, prefix: string, key: string): string { prefix + "done:" + hash(key) }

  function MetaPath(hash: Hash, dir: string, key: string): string { dir + "/" + (hash(key) + ".enc") }

  function DonePath(hash: Hash, dir: string, key: string): string { dir + "/" + (hash(key) + ".done.enc") }

  // ----- the colon-trimming loop -----

  predicate Colons(s: string) {
    forall i | 0 <= i < |s| :: s[i] == ':'
  }

  /** `t` is `s` without its trailing colons. */
  ghost predicate Trimmed(s: string, t: string) {
    t <= s && Colons(s[|t|..]) && (t == "" || t[|t| - 1] != ':')
  }

  /** There is only one such text. */
  lemma TrimmedIsUnique(s: string, t: string, u: string)
    requires Trimmed(s, t) && Trimmed(s, u)
    ensures t == u
  {
  }

  method TrimSuffixColon(s: string) returns (t: string)
    ensures Trimmed(s, t)
  {
    t := s;
    while |t| > 0 && t[|t| - 1] == ':'
      invariant t <= s && Colons(s[|t|..])
    {
      t := t[..|t| - 1];
    }
  }

  /** The same text as a function. */
  function TrimColons(s: string): (t: string)
    ensures Trimmed(s, t)
  {
    if s != "" && s[|s| - 1] == ':' then
      var t := TrimColons(s[..|s| - 1]);
      assert forall i | |t| <= i < |s| - 1 :: s[i] == s[..|s| - 1][|t|..][i - |t|];
      t
    else s
  }

  /** NewRedisTokenStore's effective prefix. */
  function TokenPrefix(prefix: string, namespace: string): string {
    var base := if prefix == "" then DEFAULT_PREFIX else prefix;
    if namespace != "" then TrimColons(base) + ":" + namespace + ":" else base
  }

  method NewTokenPrefix(prefix: string, namespace: string) returns (p: string)
    ensures p == TokenPrefix(prefix, namespace)
  {
    p := if prefix == "" then DEFAULT_PREFIX else prefix;
    if namespace != "" {
      var trimmed := TrimSuffixColon(p);
      TrimmedIsUnique(p, trimmed, TrimColons(p));
      p := trimmed + ":" + namespace + ":";
    }
  }

  /** Without a prefix the default one is used; a namespace replaces the trailing colons of the
      prefix, however many, by itself between single ones. */
  lemma TokenPrefixIs(prefix: string, namespace: string, head: string)
    requires Trimmed(prefix, head) && namespace != ""
    ensures TokenPrefix("", "") == "mcp:auth:" && TokenPrefix("", namespace) == "mcp:auth:" + namespace + ":"
    ensures prefix != "" ==> TokenPrefix(prefix, "") == prefix
    ensures prefix != "" ==> TokenPrefix(prefix, namespace) == head + ":" + namespace + ":"
  {
    TrimmedIsUnique("mcp:auth:", TrimColons("mcp:auth:"), "mcp:auth");
    TrimmedIsUnique(prefix, TrimColons(prefix), head);
  }

  // ----- disjointness -----

  /** Equal texts with tails of equal length have equal heads and tails. */
  lemma SplitTail(a: string, b: string, x: string, y: string)
    requires a + x == b + y && |x| == |y|
    ensures a == b && x == y
  {
    assert a == (a + x)[..|a|] && b == (b + y)[..|b|];
    assert x == (a + x)[|a|..] && y == (b + y)[|b|..];
  }

  /** The character two places before the hash tells the key spaces apart. */
  lemma TellTale(hash: Hash, prefix: string, key: string)
    requires Sized(hash)
    ensures var k := TokenKey(hash, prefix, key); |k| > HASH_LENGTH + 2 && k[|k| - HASH_LENGTH - 2] == 'n'
    ensures var k := PendingKey(hash, prefix, key); |k| > HASH_LENGTH + 2 && k[|k| - HASH_LENGTH - 2] == 'g'
    ensures var k := DoneKey(hash, prefix, key); |k| > HASH_LENGTH + 2 && k[|k| - HASH_LENGTH - 2] == 'e'
  {
  }

  /** Token, pending and done keys never coincide, whatever the prefixes and the inputs. */
  lemma KeySpacesAreDisjoint(hash: Hash, p: string, q: string, r: string, a: string, b: string, c: string)
    requires Sized(hash)
    ensures TokenKey(hash, p, a) != PendingKey(hash, q, b)
    ensures TokenKey(hash, p, a) != DoneKey(hash, r, c)
    ensures PendingKey(hash, q, b) != DoneKey(hash, r, c)
  {
    TellTale(hash, p, a);
    TellTale(hash, q, b);
    TellTale(hash, r, c);
  }

  /** Two token keys coincide if and only if their prefixes and hashes do; so with one prefix
      two subjects share a key only by a hash collision. */
  lemma TokenKeysCoincideIff(hash: Hash, p: string, q: string, a: string, b: string)
    requires Sized(hash)
    ensures TokenKey(hash, p, a) == TokenKey(hash, q, b) <==> p == q && hash(a) == hash(b)
  {
    if TokenKey(hash, p, a) == TokenKey(hash, q, b) {
      SplitTail(p + "token:", q + "token:", hash(a), hash(b));
      SplitTail(p, q, "token:", "token:");
    }
  }

  /** Distinct namespaces under one configured prefix never share a token key, for any
      subjects.  One of them may be empty, unless the other consists of colons only and the
      prefix ends in as many colons as that needs. */
  lemma NamespacesShareKeysIff(hash: Hash, prefix: string, m: string, n: string, a: string, b: string)
    requires Sized(hash) && m != n && n != ""
    ensures TokenKey(hash, TokenPrefix(prefix, m), a) == TokenKey(hash, TokenPrefix(prefix, n), b) <==>
            && m == "" && hash(a) == hash(b)
            && var base := if prefix == "" then DEFAULT_PREFIX else prefix;
               base == TrimColons(base) + ":" + n + ":"
  {
    TokenKeysCoincideIff(hash, TokenPrefix(prefix, m), TokenPrefix(prefix, n), a, b);
    var base := if prefix == "" then DEFAULT_PREFIX else prefix;
    if m != "" {
      var head := TrimColons(base) + ":";
      assert (head + m + ":")[|head|..] == m + ":";
      assert (head + n + ":")[|head|..] == n + ":";
      assert (m + ":")[..|m|] == m && (n + ":")[..|n|] == n;
    }
  }

  /** Across different prefixes namespaces do meet: a prefix may end where a namespace
      begins. */
  lemma PrefixesCanMeet(hash: Hash, sub: string)
    ensures TokenKey(hash, TokenPrefix("a", "b:c"), sub) == TokenKey(hash, TokenPrefix("a:b", "c"), sub)
  {
  }

  /** The metadata file and the result file of any two keys differ, and two keys share a
      file only by a hash collision. */
  lemma PathsAreDisjoint(hash: Hash, dir: string, a: string, b: string)
    requires Sized(hash)
    ensures MetaPath(hash, dir, a) != DonePath(hash, dir, b)
    ensures MetaPath(hash, dir, a) == MetaPath(hash, dir, b) <==> hash(a) == hash(b)
    ensures DonePath(hash, dir, a) == DonePath(hash, dir, b) <==> hash(a) == hash(b)
  {
    assert |MetaPath(hash, dir, a)| != |DonePath(hash, dir, b)|;
    DirectoriesAreDisjoint(hash, dir, dir, a, b);
  }

  /** Stores in different directories never share a metadata file or a result file. */
  lemma DirectoriesAreDisjoint(hash: Hash, d: string, e: string, a: string, b: string)
    requires Sized(hash)
    ensures MetaPath(hash, d, a) == MetaPath(hash, e, b) <==> d == e && hash(a) == hash(b)
    ensures DonePath(hash, d, a) == DonePath(hash, e, b) <==> d == e && hash(a) == hash(b)
  {
    assert |hash(a)| == |hash(b)| == HASH_LENGTH;
    if MetaPath(hash, d, a) == MetaPath(hash, e, b) {
      SplitTail(d + "/", e + "/", hash(a) + ".enc", hash(b) + ".enc");
      SplitTail(hash(a), hash(b), ".enc", ".enc");
      SplitTail(d, e, "/", "/");
    }
    if DonePath(hash, d, a) == DonePath(hash, e, b) {
      SplitTail(d + "/", e + "/", hash(a) + ".done.enc", hash(b) + ".done.enc");
      SplitTail(hash(a), hash(b), ".done.enc", ".done.enc");
      SplitTail(d, e, "/", "/");
    }
  }

  /** Pending keys, and done keys, coincide if and only if their prefixes and hashes do. */
  lemma PendingKeysCoincideIff(hash: Hash, p: string, q: string, a: string, b: string)
    requires Sized(hash)
    ensures PendingKey(hash, p, a) == PendingKey(hash, q, b) <==> p == q && hash(a) == hash(b)
    ensures DoneKey(hash, p, a) == DoneKey(hash, q, b) <==> p == q && hash(a) == hash(b)
  {
    if PendingKey(hash, p, a) == PendingKey(hash, q, b) {
      SplitTail(p + "pending:", q + "pending:", hash(a), hash(b));
      SplitTail(p, q, "pending:", "pending:");
    }
    if DoneKey(hash, p, a) == DoneKey(hash, q, b) {
      SplitTail(p + "done:", q + "done:", hash(a), hash(b));
      SplitTail(p, q, "done:", "done:");
    }
  }
}

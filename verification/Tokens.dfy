/** Token entries: how a token response becomes a stored entry, when a stored entry is
    served, refreshed or given up, and what a chain of refreshes keeps
    (oauthprovider.go, getOrRefreshToken / normalizeTokenData / toFloat). */
module Tokens {
  import opened Values

  const EXPIRY_BUFFER := 30

  function ToFloat(v: Value): Option<real> {
    match v
    case Float(r) => Some(r)
    case Int(i) => Some(i as real)
    case Int64(n) => Some(n as real)
    case _ => None
  }

  /** `v` is the number `x`, as a float64, an int or an int64. */
  predicate IsNumber(v: Value, x: real) {
    v == Float(x) || (x == x.Floor as real && (v == Int(x.Floor) || v == Int64(x.Floor)))
  }

  lemma ToFloatReadsNumbers(v: Value, x: real)
    ensures ToFloat(v) == Some(x) <==> IsNumber(v, x)
  {
  }

  /** The entry stored for a token response received at Unix second `now`. */
  function NormalizeTokenData(raw: Fields, now: int): Fields {
    (if "access_token" in raw then map["access_token" := raw["access_token"]] else map[]) +
    (if "refresh_token" in raw then map["refresh_token" := raw["refresh_token"]] else map[]) +
    map["stored_at" := Int64(now)] +
    match ToFloat(Lookup(raw, "expires_in"))
    case Some(x) => map["expires_at" := Float(now as real + x)]
    case None => map[]
  }

  function AccessToken(entry: Fields): string {
    AsString(Lookup(entry, "access_token"))
  }

  function RefreshToken(entry: Fields): string {
    AsString(Lookup(entry, "refresh_token"))
  }

  datatype Decision = Serve(token: string) | Refresh(refreshToken: string) | Reauthorise

  /** What getOrRefreshToken does with a stored entry at Unix second `now`. */
  function Decide(entry: Fields, now: int, canRefresh: bool): Decision {
    var expiry := Lookup(entry, "expires_at");
    if !expiry.Float? || (now + EXPIRY_BUFFER) as real < expiry.r then
      Serve(AccessToken(entry))
    else if RefreshToken(entry) == "" || !canRefresh then
      Reauthorise
    else
      Refresh(RefreshToken(entry))
  }

  /** The entry stored after a successful refresh: the old refresh token is carried
      forward when the response brings none. */
  function RefreshedEntry(raw: Fields, refreshToken: string, now: int): Fields {
    var entry := NormalizeTokenData(raw, now);
    var issued := Lookup(entry, "refresh_token");
    if issued == Null || issued == Str("") then
      entry["refresh_token" := Str(refreshToken)]
    else
      entry
  }

  // ----- what an entry keeps of its response -----

  /** `entry` keeps of response `raw`, received at second `at`, the access token whatever it is,
      the time, and the expiry if expires_in is a number; and at most a refresh token
      besides. */
  ghost predicate KeepsResponse(entry: Fields, raw: Fields, at: int) {
    && entry.Keys <= {"access_token", "refresh_token", "stored_at", "expires_at"}
    && ("access_token" in entry <==> "access_token" in raw)
    && ("access_token" in raw ==> entry["access_token"] == raw["access_token"])
    && "stored_at" in entry && entry["stored_at"] == Int64(at)
    && ("expires_at" in entry <==> "expires_in" in raw && exists x :: IsNumber(raw["expires_in"], x))
    && forall x | "expires_in" in raw && IsNumber(raw["expires_in"], x) :: entry["expires_at"] == Float(at as real + x)
  }

  /** The refresh token of a response: its own value, whatever its type. */
  predicate KeepsRefreshToken(entry: Fields, raw: Fields) {
    && ("refresh_token" in entry <==> "refresh_token" in raw)
    && ("refresh_token" in raw ==> entry["refresh_token"] == raw["refresh_token"])
  }

  /** After a refresh with `used`: that token is carried forward if the response brings none, a
      null or an empty one. */
  predicate CarriesRefreshToken(entry: Fields, raw: Fields, used: string) {
    if "refresh_token" !in raw || raw["refresh_token"] == Null || raw["refresh_token"] == Str("") then
      "refresh_token" in entry && entry["refresh_token"] == Str(used)
    else
      "refresh_token" in entry && entry["refresh_token"] == raw["refresh_token"]
  }

  lemma EntryKeepsResponse(raw: Fields, used: string, at: int)
    ensures KeepsResponse(NormalizeTokenData(raw, at), raw, at) && KeepsRefreshToken(NormalizeTokenData(raw, at), raw)
    ensures KeepsResponse(RefreshedEntry(raw, used, at), raw, at)
    ensures CarriesRefreshToken(RefreshedEntry(raw, used, at), raw, used)
  {
    assert forall x | "expires_in" in raw :: IsNumber(raw["expires_in"], x) <==> ToFloat(raw["expires_in"]) == Some(x);
  }

  /** What is served is the access token of the response that was stored, and it is served if
      and only if expires_in is not a number or leaves more than the buffer; what a refresh
      sends is the refresh token the response issued or, failing that, the one used to obtain
      it. */
  lemma EntrySpeaksForItsResponse(raw: Fields, used: string, at: int, now: int, canRefresh: bool)
    requires TextualRefreshToken(raw)
    ensures var issued := AsString(Lookup(raw, "refresh_token"));
            match Decide(RefreshedEntry(raw, used, at), now, canRefresh)
            case Serve(token) => token == AsString(Lookup(raw, "access_token"))
            case Refresh(token) => token != "" && canRefresh && token == if issued != "" then issued else used
            case Reauthorise => !canRefresh || (issued == "" && used == "")
    ensures var served := !exists x :: IsNumber(Lookup(raw, "expires_in"), x) && at as real + x <= (now + 30) as real;
            && (Decide(RefreshedEntry(raw, used, at), now, canRefresh).Serve? <==> served)
            && (Decide(NormalizeTokenData(raw, at), now, canRefresh).Serve? <==> served)
    ensures Decide(NormalizeTokenData(raw, at), now, canRefresh).Serve? ==>
              Decide(NormalizeTokenData(raw, at), now, canRefresh) == Serve(AsString(Lookup(raw, "access_token")))
  {
    var expires := Lookup(raw, "expires_in");
    assert forall x :: IsNumber(expires, x) <==> ToFloat(expires) == Some(x);
  }

  // ----- freshness across storing and reading -----

  /** A response stored at real time `stored` and read at real time `read` is served only
      if more than 29 seconds of its expires_in remain, and always if at least 31 remain,
      whatever the truncation of the two clocks to whole seconds does; whether it came from a
      code exchange or from a refresh with `used`. */
  lemma FreshnessSandwich(raw: Fields, lifetime: real, stored: real, read: real, used: string, canRefresh: bool)
    requires "expires_in" in raw && IsNumber(raw["expires_in"], lifetime)
    ensures var remaining := lifetime - (read - stored);
            var exchanged := Decide(NormalizeTokenData(raw, stored.Floor), read.Floor, canRefresh);
            var refreshed := Decide(RefreshedEntry(raw, used, stored.Floor), read.Floor, canRefresh);
            && (exchanged.Serve? || refreshed.Serve? ==> remaining > 29.0)
            && (remaining >= 31.0 ==> exchanged == refreshed == Serve(AsString(Lookup(raw, "access_token"))))
  {
    assert ToFloat(raw["expires_in"]) == Some(lifetime);
  }

  /** Neither bound can be improved: for every margin there is a token served with less than
      29 + margin seconds left, and one refused with more than 31 - margin left. */
  lemma FreshnessSandwichIsTight(margin: real) returns (short: real, read: real, long: real, stored: real)
    requires 0.0 < margin < 1.0
    ensures Decide(NormalizeTokenData(map["expires_in" := Float(short)], 0), read.Floor, true).Serve?
    ensures 29.0 < short - read < 29.0 + margin
    ensures !Decide(NormalizeTokenData(map["expires_in" := Float(long)], stored.Floor), 1, true).Serve?
    ensures 31.0 - margin < long - (1.0 - stored) < 31.0
  {
    var quarter := margin / 4.0;
    short, read := 30.0 + quarter, 1.0 - quarter;
    long, stored := 31.0, 1.0 - quarter;
    var first: Fields := map["expires_in" := Float(short)];
    assert Lookup(NormalizeTokenData(first, 0), "expires_at") == Float(short);
    var second: Fields := map["expires_in" := Float(long)];
    assert Lookup(NormalizeTokenData(second, 0), "expires_at") == Float(long);
  }

  // ----- the decision does not depend on the backend -----

  /** A copy of an entry that went through JSON leads to the same decision at every time if
      and only if the entry's expires_at is not an integer-typed value. */
  lemma SameDecisionOnJsonCopy(entry: Fields, canRefresh: bool)
    ensures (forall now :: Decide(entry, now, canRefresh) == Decide(NormalFields(entry), now, canRefresh))
       <==> !(Lookup(entry, "expires_at").Int? || Lookup(entry, "expires_at").Int64?)
  {
    var copy := NormalFields(entry);
    assert AccessToken(copy) == AccessToken(entry) && RefreshToken(copy) == RefreshToken(entry);
    var expiry := Lookup(entry, "expires_at");
    if expiry.Int? || expiry.Int64? {
      var when := if expiry.Int? then expiry.i else expiry.n;
      assert Lookup(copy, "expires_at") == Float(when as real);
      assert Decide(entry, when, canRefresh) != Decide(copy, when, canRefresh);
    }
  }

  lemma BuiltExpiryIsFloat(raw: Fields, refreshToken: string, at: int)
    ensures var expiry := Lookup(NormalizeTokenData(raw, at), "expires_at"); expiry.Float? || expiry.Null?
    ensures var expiry := Lookup(RefreshedEntry(raw, refreshToken, at), "expires_at"); expiry.Float? || expiry.Null?
  {
  }

  /** Entries that this library builds meet that condition, from any token response, whether
      by a first exchange or by a refresh. */
  lemma BuiltEntriesDecideAlike(raw: Fields, refreshToken: string, at: int, now: int, canRefresh: bool)
    ensures var e := NormalizeTokenData(raw, at);
            Decide(NormalFields(e), now, canRefresh) == Decide(e, now, canRefresh)
    ensures var e := RefreshedEntry(raw, refreshToken, at);
            Decide(NormalFields(e), now, canRefresh) == Decide(e, now, canRefresh)
  {
    hide NormalizeTokenData, RefreshedEntry, Decide, NormalFields;
    BuiltExpiryIsFloat(raw, refreshToken, at);
    SameDecisionOnJsonCopy(NormalizeTokenData(raw, at), canRefresh);
    SameDecisionOnJsonCopy(RefreshedEntry(raw, refreshToken, at), canRefresh);
  }

  // ----- refresh chains -----

  datatype Response = Response(raw: Fields, at: int)

  /** The response gives refresh_token as absent, null or a string. */
  predicate TextualRefreshToken(raw: Fields) {
    Lookup(raw, "refresh_token").Null? || Lookup(raw, "refresh_token").Str?
  }

  /** The entry after a series of successful refreshes, each using the token stored by the
      one before; `json` says whether the backend stores entries as JSON. */
  function Chain(entry: Fields, responses: seq<Response>, json: bool): Fields {
    if responses == [] then
      entry
    else
      var n := |responses| - 1;
      var before := Chain(entry, responses[..n], json);
      var next := RefreshedEntry(responses[n].raw, RefreshToken(before), responses[n].at);
      if json then NormalFields(next) else next
  }

  /** The last non-empty refresh token issued, or the one at the start. */
  function LatestIssued(first: string, responses: seq<Response>): string {
    if responses == [] then
      first
    else
      var n := |responses| - 1;
      var issued := AsString(Lookup(responses[n].raw, "refresh_token"));
      if issued != "" then issued else LatestIssued(first, responses[..n])
  }

  lemma RefreshStep(raw: Fields, refreshToken: string, at: int)
    requires refreshToken != ""
    ensures var next := RefreshedEntry(raw, refreshToken, at);
            var issued := AsString(Lookup(raw, "refresh_token"));
            && RefreshToken(NormalFields(next)) == RefreshToken(next)
            && (TextualRefreshToken(raw) ==> RefreshToken(next) == if issued != "" then issued else refreshToken)
            && (!TextualRefreshToken(raw) ==> RefreshToken(next) == "")
  {
  }

  lemma {:induction false} ChainKeepsLatest(entry: Fields, responses: seq<Response>, json: bool)
    requires RefreshToken(entry) != ""
    requires forall i :: 0 <= i < |responses| ==> TextualRefreshToken(responses[i].raw)
    ensures RefreshToken(Chain(entry, responses, json)) == LatestIssued(RefreshToken(entry), responses) != ""
  {
    if responses != [] {
      var n := |responses| - 1;
      ChainKeepsLatest(entry, responses[..n], json);
      RefreshStep(responses[n].raw, RefreshToken(Chain(entry, responses[..n], json)), responses[n].at);
    }
  }

  /** Starting from a non-empty refresh token, a stored refresh token survives every stage of
      a chain of refreshes if and only if every response gives refresh_token as absent, null
      or a string; it is then the latest non-empty one issued. */
  lemma {:induction false} RefreshChain(entry: Fields, responses: seq<Response>, json: bool)
    requires RefreshToken(entry) != ""
    ensures (forall n | 0 <= n <= |responses| :: RefreshToken(Chain(entry, responses[..n], json)) != "")
       <==> (forall i | 0 <= i < |responses| :: TextualRefreshToken(responses[i].raw))
    ensures (forall i | 0 <= i < |responses| :: TextualRefreshToken(responses[i].raw)) ==>
              RefreshToken(Chain(entry, responses, json)) == LatestIssued(RefreshToken(entry), responses)
  {
    if forall i | 0 <= i < |responses| :: TextualRefreshToken(responses[i].raw) {
      forall n | 0 <= n <= |responses|
        ensures RefreshToken(Chain(entry, responses[..n], json)) != ""
      {
        ChainKeepsLatest(entry, responses[..n], json);
      }
      ChainKeepsLatest(entry, responses, json);
    } else {
      var i := FirstOddResponse(responses);
      var upTo := responses[..i + 1];
      assert upTo[..i] == responses[..i];
      ChainKeepsLatest(entry, responses[..i], json);
      RefreshStep(responses[i].raw, RefreshToken(Chain(entry, responses[..i], json)), responses[i].at);
      assert RefreshToken(Chain(entry, upTo, json)) == "";
    }
  }

  lemma {:induction false} FirstOddResponse(responses: seq<Response>) returns (i: nat)
    requires exists k | 0 <= k < |responses| :: !TextualRefreshToken(responses[k].raw)
    ensures i < |responses| && !TextualRefreshToken(responses[i].raw)
    ensures forall k | 0 <= k < i :: TextualRefreshToken(responses[k].raw)
  {
    i := 0;
    while TextualRefreshToken(responses[i].raw)
      invariant 0 <= i < |responses|
      invariant forall k | 0 <= k < i :: TextualRefreshToken(responses[k].raw)
      invariant exists k | i <= k < |responses| :: !TextualRefreshToken(responses[k].raw)
      decreases |responses| - i
    {
      i := i + 1;
    }
  }
}

/**
 * The token table (`mm_tokens`) and the routes that manage it: `/ready`
 * hands out a token under a per-IP cap, `/quit` gives one back,
 * `isTokenValid` and `invalidateTokens` query and prune the table.
 *
 * The random token and the current time are parameters of admission.
 */
module Tokens {

  import opened Wrappers
  import opened JsValues
  import opened Http
  import opened ServerOptions

  datatype TokenRecord = TokenRecord(token: string, updatedAt: int, ip: string)

  /** `count(tokens, filter)` for a filter given as a predicate on records. */
  function CountWhere(records: seq<TokenRecord>, matches: TokenRecord -> bool): (r: nat)
    ensures r <= |records|
  {
    if records == [] then 0
    else (if matches(records[0]) then 1 else 0) + CountWhere(records[1..], matches)
  }

  /** `count(tokens, {ip})`. */
  function CountIp(records: seq<TokenRecord>, ip: string): nat {
    CountWhere(records, (x: TokenRecord) => x.ip == ip)
  }

  /** `count(tokens, {token})`. */
  function CountToken(records: seq<TokenRecord>, token: string): nat {
    CountWhere(records, (x: TokenRecord) => x.token == token)
  }

  /** A count is positive exactly when some record matches. */
  lemma {:induction false} CountWherePositive(records: seq<TokenRecord>, matches: TokenRecord -> bool)
    ensures CountWhere(records, matches) > 0 <==> exists i :: 0 <= i < |records| && matches(records[i])
  {
    if records != [] {
      CountWherePositive(records[1..], matches);
      if CountWhere(records[1..], matches) > 0 {
        var i :| 0 <= i < |records[1..]| && matches(records[1..][i]);
        assert matches(records[i + 1]);
      }
      if exists i :: 0 <= i < |records| && matches(records[i]) {
        var i :| 0 <= i < |records| && matches(records[i]);
        if i > 0 {
          assert matches(records[1..][i - 1]);
        }
      }
    }
  }

  /**
   * `isTokenValid(token)`: the table holds a record with that token. Its age
   * plays no part. An absent token matches no record.
   */
  predicate IsTokenValid(records: seq<TokenRecord>, token: Option<string>) {
    token.Some? && CountToken(records, token.value) > 0
  }

  lemma CountTokenPositive(records: seq<TokenRecord>, token: string)
    ensures CountToken(records, token) > 0 <==> exists i :: 0 <= i < |records| && records[i].token == token
  {
    CountWherePositive(records, (x: TokenRecord) => x.token == token);
  }

  /** `remove(tokens, filter)` for a filter given as a predicate on records. */
  function RemoveWhere(records: seq<TokenRecord>, matches: TokenRecord -> bool): (r: seq<TokenRecord>)
    ensures forall x :: x in r <==> x in records && !matches(x)
    ensures |r| <= |records|
  {
    if records == [] then []
    else if matches(records[0]) then RemoveWhere(records[1..], matches)
    else [records[0]] + RemoveWhere(records[1..], matches)
  }

  /** The stale-token purge of `/ready`: `{updatedAt: {$lt: cutoff}}`. */
  function Purge(records: seq<TokenRecord>, cutoff: int): seq<TokenRecord> {
    RemoveWhere(records, (x: TokenRecord) => x.updatedAt < cutoff)
  }

  /** `getIpFromRequest`: the `x-forwarded-for` header when set, else the socket's address. */
  function IpFromRequest(forwardedFor: Option<string>, remoteAddress: string): (r: string)
    ensures FieldTruthy(forwardedFor) ==> r == forwardedFor.value
    ensures !FieldTruthy(forwardedFor) ==> r == remoteAddress
  {
    if FieldTruthy(forwardedFor) then forwardedFor.value else remoteAddress
  }

  datatype Admission = Admission(reply: Reply, records: seq<TokenRecord>)

  /** The cutoff below which a token is stale: two time-outs ago. */
  function Cutoff(opts: Options, now: int): int {
    now - 2 * opts.timeOut
  }

  /**
   * The `/ready` handler once the server is ready: count the caller's tokens;
   * at the cap, refuse with 429; otherwise purge stale tokens (of every IP),
   * store the new token and return it.
   */
  function Admit(records: seq<TokenRecord>, opts: Options, ip: string, now: int, issued: string): (r: Admission)
    ensures r.reply.Reply? && (r.reply.status == 429 <==> CountIp(records, ip) >= opts.maxTokensPerIp)
    ensures r.reply.status == 429 ==> r.records == records
    ensures r.reply.status != 429 ==>
      (r.reply.status == 200 && |r.records| > 0 && r.records[|r.records| - 1] == TokenRecord(issued, now, ip))
  {
    if CountIp(records, ip) >= opts.maxTokensPerIp then
      Admission(ErrorReply(429, "Too many connections"), records)
    else
      Admission(Reply(200, Obj([("status", Str("success")), ("token", Str(issued))])),
                Purge(records, Cutoff(opts, now)) + [TokenRecord(issued, now, ip)])
  }

  /** `/quit`: an unknown token gets 500, a known one is dropped with all its records. */
  function Quit(records: seq<TokenRecord>, token: Option<string>): (r: Admission)
    ensures r.reply == Success <==> IsTokenValid(records, token)
    ensures !IsTokenValid(records, token) ==> r.records == records && r.reply.Reply? && r.reply.status == 500
    ensures |r.records| <= |records|
  {
    if !IsTokenValid(records, token) then Admission(InvalidToken(token), records)
    else Admission(Success, RemoveWhere(records, (x: TokenRecord) => x.token == token.value))
  }

  // ---------------------------------------------------------------------

  /** Counting distributes over concatenation. */
  lemma {:induction false} CountWhereAppend(a: seq<TokenRecord>, b: seq<TokenRecord>, matches: TokenRecord -> bool)
    ensures CountWhere(a + b, matches) == CountWhere(a, matches) + CountWhere(b, matches)
    decreases |a|
  {
    if a == [] {
      assert a + b == b;
    } else {
      assert (a + b)[1..] == a[1..] + b;
      CountWhereAppend(a[1..], b, matches);
    }
  }

  /** A removal never raises a count. */
  lemma {:induction false} CountWhereRemoveWhere(records: seq<TokenRecord>, removed: TokenRecord -> bool, matches: TokenRecord -> bool)
    ensures CountWhere(RemoveWhere(records, removed), matches) <= CountWhere(records, matches)
    decreases |records|
  {
    if records != [] {
      CountWhereRemoveWhere(records[1..], removed, matches);
    }
  }

  /** A removal that takes every matching record leaves a count of zero. */
  lemma {:induction false} CountWhereRemoveAll(records: seq<TokenRecord>, removed: TokenRecord -> bool, matches: TokenRecord -> bool)
    requires forall x :: x in records && matches(x) ==> removed(x)
    ensures CountWhere(RemoveWhere(records, removed), matches) == 0
    decreases |records|
  {
    if records != [] {
      CountWhereRemoveAll(records[1..], removed, matches);
    }
  }

  /**
   * At the cap, `/ready` answers 429 'Too many connections' and the table is
   * left as it was; below it, the reply is 200 with status 'success' and the
   * new token, and the table is the purged one plus exactly that token.
   */
  lemma AdmitOutcome(records: seq<TokenRecord>, opts: Options, ip: string, now: int, issued: string)
    ensures var a := Admit(records, opts, ip, now, issued);
      && (CountIp(records, ip) >= opts.maxTokensPerIp ==>
            a.reply == ErrorReply(429, "Too many connections") && a.records == records)
      && (CountIp(records, ip) < opts.maxTokensPerIp ==>
            && a.reply.Reply? && a.reply.status == 200 && a.reply.body.Obj?
            && Lookup(a.reply.body.props, "status") == Str("success")
            && Lookup(a.reply.body.props, "token") == Str(issued)
            && |a.records| == |Purge(records, Cutoff(opts, now))| + 1
            && a.records[..|a.records| - 1] == Purge(records, Cutoff(opts, now))
            && a.records[|a.records| - 1] == TokenRecord(issued, now, ip)
            && IsTokenValid(a.records, Some(issued)))
  {
    var a := Admit(records, opts, ip, now, issued);
    if CountIp(records, ip) < opts.maxTokensPerIp {
      CountTokenPositive(a.records, issued);
      assert a.records[|a.records| - 1].token == issued;
    }
  }

  /**
   * The `/ready` handler with the caller's address read from the request
   * (`getIpFromRequest`).
   */
  function AdmitRequest(records: seq<TokenRecord>, opts: Options, forwardedFor: Option<string>,
                        remoteAddress: string, now: int, issued: string): Admission {
    Admit(records, opts, IpFromRequest(forwardedFor, remoteAddress), now, issued)
  }

  /**
   * Behind a proxy that sets `x-forwarded-for`, the socket's address plays no
   * part: requests carrying the same header share one cap whatever socket
   * they arrive on. Without the header the socket's address is the one
   * counted. Either way the new token is stored under the address the cap
   * was checked against, so it counts toward that address's next admission.
   */
  lemma AdmitRequestAddress(records: seq<TokenRecord>, opts: Options, forwardedFor: Option<string>,
                            remoteAddress: string, otherAddress: string, now: int, issued: string)
    ensures FieldTruthy(forwardedFor) ==>
      AdmitRequest(records, opts, forwardedFor, remoteAddress, now, issued)
        == AdmitRequest(records, opts, forwardedFor, otherAddress, now, issued)
    ensures !FieldTruthy(forwardedFor) ==>
      AdmitRequest(records, opts, forwardedFor, remoteAddress, now, issued)
        == Admit(records, opts, remoteAddress, now, issued)
    ensures var ip := IpFromRequest(forwardedFor, remoteAddress);
      var a := AdmitRequest(records, opts, forwardedFor, remoteAddress, now, issued);
      CountIp(records, ip) < opts.maxTokensPerIp ==>
        CountIp(a.records, ip) == CountIp(Purge(records, Cutoff(opts, now)), ip) + 1
  {
    var ip := IpFromRequest(forwardedFor, remoteAddress);
    if CountIp(records, ip) < opts.maxTokensPerIp {
      CountWhereAppend(Purge(records, Cutoff(opts, now)), [TokenRecord(issued, now, ip)], (x: TokenRecord) => x.ip == ip);
    }
  }

  /**
   * After a successful admission no stale token is left, and every token that
   * was recent enough is still there.
   */
  lemma AdmitPurgesOnlyStale(records: seq<TokenRecord>, opts: Options, ip: string, now: int, issued: string)
    requires CountIp(records, ip) < opts.maxTokensPerIp
    ensures var a := Admit(records, opts, ip, now, issued);
      && (forall x :: x in a.records ==> x.updatedAt >= Cutoff(opts, now))
      && (forall x :: x in records && x.updatedAt >= Cutoff(opts, now) ==> x in a.records)
  {
  }

  /**
   * Admission never takes an IP above the cap: if no IP holds more than
   * `maxTokensPerIp` tokens before, none does after.
   */
  lemma AdmitKeepsCap(records: seq<TokenRecord>, opts: Options, ip: string, now: int, issued: string, other: string)
    requires CountIp(records, other) <= opts.maxTokensPerIp
    ensures CountIp(Admit(records, opts, ip, now, issued).records, other) <= opts.maxTokensPerIp
  {
    if CountIp(records, ip) < opts.maxTokensPerIp {
      var purged := Purge(records, Cutoff(opts, now));
      CountWhereAppend(purged, [TokenRecord(issued, now, ip)], (x: TokenRecord) => x.ip == other);
      CountWhereRemoveWhere(records, (x: TokenRecord) => x.updatedAt < Cutoff(opts, now), (x: TokenRecord) => x.ip == other);
    }
  }

  /**
   * The cap is checked before the purge, so tokens that the purge would
   * drop still count: an IP whose tokens are all stale but number
   * `maxTokensPerIp` is refused, although it would hold none after a purge.
   */
  lemma StaleTokensCountAgainstCap(records: seq<TokenRecord>, opts: Options, ip: string, now: int, issued: string)
    requires CountIp(records, ip) >= opts.maxTokensPerIp
    requires forall x :: x in records && x.ip == ip ==> x.updatedAt < Cutoff(opts, now)
    ensures Admit(records, opts, ip, now, issued).reply == ErrorReply(429, "Too many connections")
    ensures CountIp(Purge(records, Cutoff(opts, now)), ip) == 0
  {
    CountWhereRemoveAll(records, (x: TokenRecord) => x.updatedAt < Cutoff(opts, now), (x: TokenRecord) => x.ip == ip);
  }

  /** `/quit`: an invalid token changes nothing; a valid one is no longer valid afterwards. */
  lemma QuitOutcome(records: seq<TokenRecord>, token: Option<string>)
    ensures var q := Quit(records, token);
      && (!IsTokenValid(records, token) ==> q.reply == InvalidToken(token) && q.records == records)
      && (IsTokenValid(records, token) ==>
            q.reply == Success && !IsTokenValid(q.records, token)
            && forall x :: x in records && x.token != token.value ==> x in q.records)
  {
    var q := Quit(records, token);
    if IsTokenValid(records, token) {
      forall i | 0 <= i < |q.records| ensures q.records[i].token != token.value {
        assert q.records[i] in q.records;
      }
      CountTokenPositive(q.records, token.value);
    }
  }

  /** The token table as the server holds it. */
  class TokenTable {
    var records: seq<TokenRecord>

    constructor ()
      ensures records == []
    {
      records := [];
    }

    /** The `/ready` handler once the server is ready. */
    method Ready(opts: Options, forwardedFor: Option<string>, remoteAddress: string, now: int, issued: string)
      returns (reply: Reply)
      modifies this
      ensures Admission(reply, records) == AdmitRequest(old(records), opts, forwardedFor, remoteAddress, now, issued)
    {
      var ip := IpFromRequest(forwardedFor, remoteAddress);
      if CountIp(records, ip) >= opts.maxTokensPerIp {
        return ErrorReply(429, "Too many connections");
      }
      records := Purge(records, Cutoff(opts, now));
      records := records + [TokenRecord(issued, now, ip)];
      reply := Reply(200, Obj([("status", Str("success")), ("token", Str(issued))]));
    }

    /** The `/quit` handler once the server is ready. */
    method QuitRoute(token: Option<string>) returns (reply: Reply)
      modifies this
      ensures Admission(reply, records) == Quit(old(records), token)
    {
      if !IsTokenValid(records, token) {
        return InvalidToken(token);
      }
      Invalidate((x: TokenRecord) => x.token == token.value);
      reply := Success;
    }

    /** `invalidateTokens(filter)`. */
    method Invalidate(matches: TokenRecord -> bool)
      modifies this
      ensures records == RemoveWhere(old(records), matches)
    {
      records := RemoveWhere(records, matches);
    }

    /** `isTokenValid(token)`. */
    method Validate(token: Option<string>) returns (valid: bool)
      ensures valid <==> exists i :: 0 <= i < |records| && token == Some(records[i].token)
    {
      if token.None? {
        return false;
      }
      CountTokenPositive(records, token.value);
      valid := CountToken(records, token.value) > 0;
    }
  }
}

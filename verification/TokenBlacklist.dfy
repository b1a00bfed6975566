/**
 Logout against the authentication middleware (internal/handler/auth.go, internal/middleware/auth.go):
 a blacklist entry with the token's remaining lifetime, and the expiry check that takes over from it
 (sections 4.1.4 and 4.1.7 of RFC 7519).  Tokens are those whose signature verifies; all times are
 in one unit, read from one clock.
 */
module TokenBlacklist {
  import opened Wrappers

  datatype Token = Token(jti: Option<string>, exp: Option<int>)

  /** Expiry time of each entry; an entry no longer exists once its time has come. */
  type Store = map<string, int>

  datatype Verdict = BadHeader | Expired | Revoked | Accepted(token: Token)

  predicate Exists(store: Store, jti: string, now: int) {
    jti in store && now < store[jti]
  }

  /** The parser's claim check: a token without an expiry claim never expires. */
  predicate Unexpired(token: Token, now: int) {
    token.exp.Some? ==> now < token.exp.value
  }

  /**
   One logout call: the bearer token if the header has one, the times at which the token is
   parsed, its remaining lifetime is taken and the entry is set, and whether the store works.
   */
  datatype Call = Call(bearer: Option<Token>, parsedAt: int, untilAt: int, setAt: int, storeUp: bool)

  predicate Timely(call: Call) {
    call.parsedAt <= call.untilAt <= call.setAt
  }

  /** When a logout writes an entry at all. */
  predicate Blacklists(call: Call) {
    && call.storeUp && call.bearer.Some?
    && var token := call.bearer.value;
       Unexpired(token, call.parsedAt) && token.jti.Some? && token.exp.Some? && token.exp.value > call.untilAt
  }

  function AfterLogout(store: Store, call: Call): Store {
    if Blacklists(call)
    then store[call.bearer.value.jti.value := call.setAt + (call.bearer.value.exp.value - call.untilAt)]
    else store
  }

  function AfterLogouts(store: Store, calls: seq<Call>): Store
    decreases |calls|
  {
    if calls == [] then store else AfterLogouts(AfterLogout(store, calls[0]), calls[1..])
  }

  /** The middleware on a bearer token: parsed at `parsedAt`, looked up at `checkedAt`. */
  function Authenticate(store: Store, token: Token, parsedAt: int, checkedAt: int, storeUp: bool): Verdict {
    if !Unexpired(token, parsedAt) then Expired
    else if storeUp && token.jti.GetOr("") != "" && Exists(store, token.jti.value, checkedAt) then Revoked
    else Accepted(token)
  }

  /** Tokens with one identifier are one token, so they expire together. */
  ghost predicate SameExpiry(calls: seq<Call>, token: Token) {
    forall i :: 0 <= i < |calls| && calls[i].bearer.Some? && calls[i].bearer.value.jti == token.jti ==>
      calls[i].bearer.value.exp == token.exp
  }

  ghost predicate Covers(store: Store, token: Token) {
    token.jti.Some? && token.exp.Some? && token.jti.value in store && store[token.jti.value] >= token.exp.value
  }

  lemma {:induction false} LogoutsKeepCover(store: Store, calls: seq<Call>, token: Token)
    requires Covers(store, token) && SameExpiry(calls, token)
    requires forall i :: 0 <= i < |calls| ==> Timely(calls[i])
    ensures Covers(AfterLogouts(store, calls), token)
    decreases |calls|
  {
    if calls != [] {
      assert Timely(calls[0]);
      var next := AfterLogout(store, calls[0]);
      assert Covers(next, token);
      assert SameExpiry(calls[1..], token) by {
        forall i | 0 <= i < |calls[1..]| && calls[1..][i].bearer.Some? && calls[1..][i].bearer.value.jti == token.jti
          ensures calls[1..][i].bearer.value.exp == token.exp
        {
          assert calls[1..][i] == calls[i + 1];
        }
      }
      LogoutsKeepCover(next, calls[1..], token);
    }
  }

  /**
   Once a logout has blacklisted a token with a non-empty identifier, no number of later
   logouts brings it back: with a working store the middleware accepts it only if it parses
   the token before its expiry and looks it up after the entry, which outlives the token.
   */
  lemma RevokedTokensStayOut(
      store: Store, call: Call, later: seq<Call>, token: Token, parsedAt: int, checkedAt: int)
    requires Timely(call) && call.bearer == Some(token) && Blacklists(call) && token.jti != Some("")
    requires SameExpiry(later, token) && forall i :: 0 <= i < |later| ==> Timely(later[i])
    requires parsedAt <= checkedAt
    ensures var now := AfterLogouts(AfterLogout(store, call), later);
            && token.jti.value in now && token.exp.value <= now[token.jti.value]
            && (Authenticate(now, token, parsedAt, checkedAt, true).Accepted? <==>
                  parsedAt < token.exp.value && now[token.jti.value] <= checkedAt)
            && (checkedAt == parsedAt ==> !Authenticate(now, token, parsedAt, checkedAt, true).Accepted?)
            && (checkedAt < token.exp.value ==> Authenticate(now, token, parsedAt, checkedAt, true) == Revoked)
  {
    LogoutsKeepCover(AfterLogout(store, call), later, token);
  }

  /**
   Whether a logout revokes a token not blacklisted before, checked at any instant of its
   remaining life: exactly when the store worked, the token carries both claims, it had
   lifetime left, and its identifier is not empty.
   */
  lemma LogoutRevokesExactly(store: Store, call: Call, token: Token, now: int)
    requires Timely(call) && call.bearer == Some(token) && call.setAt <= now && Unexpired(token, now)
    requires token.jti.Some? ==> token.jti.value !in store
    ensures Authenticate(AfterLogout(store, call), token, now, now, true) == Revoked <==>
            call.storeUp && token.exp.Some? && token.jti.Some? && token.jti.value != ""
  {
  }

  /**
   Logouts of other tokens never shut a token out: one whose identifier no logout has
   carried is accepted for as long as its claims are valid, whatever the store answers.
   */
  lemma {:induction false} OthersLogoutsDoNotRevoke(
      store: Store, calls: seq<Call>, token: Token, parsedAt: int, checkedAt: int, storeUp: bool)
    requires token.jti.Some? ==> token.jti.value !in store
    requires forall i :: 0 <= i < |calls| && calls[i].bearer.Some? ==> calls[i].bearer.value.jti != token.jti
    ensures Authenticate(AfterLogouts(store, calls), token, parsedAt, checkedAt, storeUp)
         == if token.exp.Some? && parsedAt >= token.exp.value then Expired else Accepted(token)
    decreases |calls|
  {
    if calls != [] {
      assert calls[0].bearer.Some? ==> calls[0].bearer.value.jti != token.jti;
      forall i | 0 <= i < |calls[1..]| && calls[1..][i].bearer.Some? ensures calls[1..][i].bearer.value.jti != token.jti {
        assert calls[1..][i] == calls[i + 1];
      }
      OthersLogoutsDoNotRevoke(AfterLogout(store, calls[0]), calls[1..], token, parsedAt, checkedAt, storeUp);
    }
  }

  class AuthStore {
    var entries: Store

    constructor ()
      ensures entries == map[]
    {
      entries := map[];
    }

    /** `Logout` always answers "logged out"; what matters is what it stores. */
    method Logout(call: Call)
      modifies this
      ensures entries == AfterLogout(old(entries), call)
      ensures if call.storeUp && call.bearer.Some? && call.bearer.value.jti.Some? && call.bearer.value.exp.Some?
                 && call.parsedAt < call.bearer.value.exp.value && call.untilAt < call.bearer.value.exp.value
              then entries == old(entries)[
                call.bearer.value.jti.value := call.setAt + (call.bearer.value.exp.value - call.untilAt)]
              else entries == old(entries)
    {
      if call.bearer.Some? {
        var token := call.bearer.value;
        if Unexpired(token, call.parsedAt) {
          if token.jti.Some? && token.exp.Some? {
            var ttl := token.exp.value - call.untilAt;
            if ttl > 0 && call.storeUp {
              entries := entries[token.jti.value := call.setAt + ttl];
            }
          }
        }
      }
    }

    /** The chain of early returns of the middleware. */
    method Check(bearer: Option<Token>, parsedAt: int, checkedAt: int, storeUp: bool) returns (verdict: Verdict)
      ensures bearer == None ==> verdict == BadHeader
      ensures bearer.Some? ==> verdict == Authenticate(entries, bearer.value, parsedAt, checkedAt, storeUp)
      ensures bearer.Some? ==>
                var Token(jti, exp) := bearer.value;
                if exp.Some? && parsedAt >= exp.value then verdict == Expired
                else if storeUp && jti.Some? && jti.value != "" && jti.value in entries && checkedAt < entries[jti.value]
                then verdict == Revoked
                else verdict == Accepted(bearer.value)
    {
      if bearer == None {
        return BadHeader;
      }
      var token := bearer.value;
      if !Unexpired(token, parsedAt) {
        return Expired;
      }
      if storeUp && token.jti.Some? && token.jti.value != "" {
        if Exists(entries, token.jti.value, checkedAt) {
          return Revoked;
        }
      }
      return Accepted(token);
    }
  }
}

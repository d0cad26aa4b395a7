/**
 * The session and logout-claim store shared by all replicas (shauth_state.go), with the time
 * arithmetic of its callers (shauth.go). Every call is atomic here; LogoutReplay takes the calls
 * apart into single file-system steps.
 */
module LogoutStore {
  import opened Options

  // Instants in nanoseconds on one shared clock.
  type Time = int
  const SECOND: Time := 1_000_000_000
  const MINUTE: Time := 60 * SECOND
  const HOUR: Time := 60 * MINUTE
  const MAXIMUM_SESSION_LIFETIME: Time := 8 * HOUR

  datatype Session = Session(
    issuer: string, clientID: string, subject: string, sid: string, identity: string,
    created: Time, expires: Time)

  datatype Claim = Claim(
    issuer: string, clientID: string, jti: string, sid: string, subject: string,
    issued: Time, received: Time, expires: Time)

  // The digest that names a claim's file is taken to be injective on these three fields.
  datatype ClaimKey = ClaimKey(issuer: string, clientID: string, jti: string)

  function KeyOf(c: Claim): ClaimKey {
    ClaimKey(c.issuer, c.clientID, c.jti)
  }

  // ----- Time arithmetic of the callers -----

  /** A sign-in caps the session at eight hours from its clock reading. */
  function SessionExpiry(tokenExpiry: Time, now: Time): Time {
    if tokenExpiry > now + MAXIMUM_SESSION_LIFETIME then now + MAXIMUM_SESSION_LIFETIME else tokenExpiry
  }

  /** A logout token is accepted from one minute before to five minutes after its issue time. */
  predicate Acceptable(issued: Time, expires: Time, now: Time) {
    expires > now && issued >= now - 5 * MINUTE && issued <= now + MINUTE
  }

  /** A claim outlives both the token and every session that can predate its issue time. */
  function RetainUntil(issued: Time, expires: Time): Time {
    if expires > issued + MAXIMUM_SESSION_LIFETIME then expires else issued + MAXIMUM_SESSION_LIFETIME
  }

  /**
   * The claims of a verified logout token; its times are whole Unix seconds. `nonce` and `event` tell
   * whether it carries a nonce, and the back-channel logout event.
   */
  datatype LogoutToken = LogoutToken(
    issuer: string, clientID: string, jti: string, sid: string, subject: string, iat: int, exp: int,
    nonce: bool, event: bool)
  {
    predicate Complete() {
      jti != "" && iat != 0 && exp != 0 && !nonce && (sid != "" || subject != "")
    }

    predicate Timely(now: Time) {
      Acceptable(iat * SECOND, exp * SECOND, now)
    }
  }

  /** The claim a token asks for; the store stamps the receipt time. */
  function ClaimOf(t: LogoutToken): Claim {
    var issued, expires := t.iat * SECOND, t.exp * SECOND;
    Claim(t.issuer, t.clientID, t.jti, t.sid, t.subject, issued, 0, RetainUntil(issued, expires))
  }

  // ----- The store, call by call -----

  datatype State = State(sessions: map<string, Session>, claims: map<ClaimKey, Claim>)

  predicate IsAlphabet(c: char) {
    'A' <= c <= 'Z' || 'a' <= c <= 'z' || '0' <= c <= '9' || c == '-' || c == '_'
  }

  function DropNewlines(s: string): string {
    if s == [] then []
    else (if s[0] == '\n' || s[0] == '\r' then [] else [s[0]]) + DropNewlines(s[1..])
  }

  /** Unpadded URL-safe base64 of 32 bytes; the decoder skips line breaks. */
  predicate ValidSessionID(id: string) {
    var t := DropNewlines(id);
    |t| == 43 && forall c :: c in t ==> IsAlphabet(c)
  }

  /** A claim covers sessions created by its receipt with its sid or, if it has none, with its subject. */
  predicate Covers(c: Claim, s: Session) {
    && c.issuer == s.issuer && c.clientID == s.clientID
    && s.created <= c.received
    && (if c.sid != "" then c.sid == s.sid else c.subject == s.subject)
  }

  /** sessionRevoked over a directory listing: drops expired claims until a live one covers the session. */
  function Scan(order: seq<ClaimKey>, claims: map<ClaimKey, Claim>, s: Session, now: Time)
    : (bool, map<ClaimKey, Claim>)
  {
    if order == [] then (false, claims)
    else
      var k, rest := order[0], order[1..];
      if k !in claims then Scan(rest, claims, s, now)
      else if claims[k].expires <= now then Scan(rest, claims - {k}, s, now)
      else if Covers(claims[k], s) then (true, claims)
      else Scan(rest, claims, s, now)
  }

  function DeleteSession(st: State, id: string): State {
    if ValidSessionID(id) then st.(sessions := st.sessions - {id}) else st
  }

  function ReadSession(st: State, id: string, now: Time, order: seq<ClaimKey>): (Option<Session>, State) {
    if !ValidSessionID(id) || id !in st.sessions then (None, st)
    else
      var s := st.sessions[id];
      if s.expires <= now then (None, DeleteSession(st, id))
      else
        var (revoked, claims) := Scan(order, st.claims, s, now);
        var swept := st.(claims := claims);
        if revoked then (None, DeleteSession(swept, id)) else (Some(s), swept)
  }

  predicate Matches(s: Session, issuer: string, clientID: string, sid: string, subject: string) {
    && s.issuer == issuer && s.clientID == clientID
    && ((sid != "" && s.sid == sid) || (sid == "" && subject != "" && s.subject == subject))
  }

  function DeleteSessions(st: State, issuer: string, clientID: string, sid: string, subject: string): State {
    st.(sessions := map id | id in st.sessions && !Matches(st.sessions[id], issuer, clientID, sid, subject) ::
          st.sessions[id])
  }

  function ClaimLogout(st: State, claim: Claim, now: Time): (bool, State) {
    var key := KeyOf(claim);
    if key in st.claims && st.claims[key].expires > now then (false, st)
    else (true, st.(claims := st.claims[key := claim.(received := now)]))
  }

  class Store {
    var sessions: map<string, Session>
    var claims: map<ClaimKey, Claim>

    ghost function View(): State
      reads this
    {
      State(sessions, claims)
    }

    constructor ()
      ensures View() == State(map[], map[])
    {
      sessions, claims := map[], map[];
    }

    /** Up to four random identifiers are tried; an existing file is never replaced. */
    method CreateSession(session: Session, candidates: seq<string>) returns (r: Option<string>)
      requires |candidates| == 4
      modifies this`sessions
      ensures r.Some? ==>
                && (exists i :: 0 <= i < 4 && candidates[i] == r.value &&
                                forall k :: 0 <= k < i ==> candidates[k] in old(sessions))
                && r.value !in old(sessions) && sessions == old(sessions)[r.value := session]
      ensures r.None? ==> (forall id :: id in candidates ==> id in old(sessions)) && sessions == old(sessions)
    {
      for i := 0 to 4
        invariant sessions == old(sessions) && forall k :: 0 <= k < i ==> candidates[k] in sessions
      {
        var id := candidates[i];
        if id !in sessions {
          sessions := sessions[id := session];
          return Some(id);
        }
      }
      return None;
    }

    method RemoveSession(id: string)
      modifies this`sessions
      ensures View() == DeleteSession(old(View()), id)
      ensures sessions == if ValidSessionID(id) then old(sessions) - {id} else old(sessions)
    {
      if !ValidSessionID(id) {
        return;
      }
      sessions := sessions - {id};
    }

    method SessionRevoked(session: Session, now: Time, order: seq<ClaimKey>) returns (revoked: bool)
      modifies this`claims
      ensures (revoked, claims) == Scan(order, old(claims), session, now)
    {
      for i := 0 to |order|
        invariant Scan(order[i..], claims, session, now) == Scan(order, old(claims), session, now)
      {
        var k := order[i];
        assert order[i..][1..] == order[i + 1..];
        if k !in claims {
          continue;
        }
        var claim := claims[k];
        if claim.expires <= now {
          claims := claims - {k};
          continue;
        }
        if claim.issuer != session.issuer || claim.clientID != session.clientID {
          continue;
        }
        if claim.sid != "" && claim.sid == session.sid && session.created <= claim.received {
          return true;
        }
        if claim.sid == "" && claim.subject == session.subject && session.created <= claim.received {
          return true;
        }
      }
      return false;
    }

    method Lookup(id: string, now: Time, order: seq<ClaimKey>) returns (r: Option<Session>)
      modifies this
      ensures (r, View()) == ReadSession(old(View()), id, now, order)
      ensures r.Some? ==> id in sessions && r.value == sessions[id] && now < r.value.expires
      ensures r.Some? ==> sessions == old(sessions)
      ensures r.None? ==> sessions == if ValidSessionID(id) then old(sessions) - {id} else old(sessions)
    {
      if !ValidSessionID(id) || id !in sessions {
        return None;
      }
      var session := sessions[id];
      if session.expires <= now {
        RemoveSession(id);
        return None;
      }
      var revoked := SessionRevoked(session, now, order);
      if revoked {
        RemoveSession(id);
        return None;
      }
      return Some(session);
    }

    /** Removes exactly the matching sessions, whatever order the directory lists them in. */
    method RemoveSessions(issuer: string, clientID: string, sid: string, subject: string, listing: seq<string>)
      requires forall id :: id in sessions ==> id in listing
      modifies this`sessions
      ensures View() == DeleteSessions(old(View()), issuer, clientID, sid, subject)
      ensures forall id :: id in old(sessions) ==>
                var s := old(sessions)[id];
                if s.issuer != issuer || s.clientID != clientID then id in sessions
                else if sid != "" then id in sessions <==> s.sid != sid
                else id in sessions <==> subject == "" || s.subject != subject
      ensures forall id :: id in sessions ==> id in old(sessions) && sessions[id] == old(sessions)[id]
    {
      ghost var before := sessions;
      for i := 0 to |listing|
        invariant forall id :: id in sessions <==>
                    id in before && !(id in listing[..i] && Matches(before[id], issuer, clientID, sid, subject))
        invariant forall id :: id in sessions ==> sessions[id] == before[id]
      {
        var id := listing[i];
        if id in sessions {
          var session := sessions[id];
          var matchesSID := sid != "" && session.sid == sid;
          var matchesSubject := sid == "" && subject != "" && session.subject == subject;
          if !(session.issuer != issuer || session.clientID != clientID || (!matchesSID && !matchesSubject)) {
            sessions := sessions - {id};
          }
        }
      }
    }

    method TryClaim(claim: Claim, now: Time) returns (claimed: bool)
      modifies this`claims
      ensures (claimed, View()) == ClaimLogout(old(View()), claim, now)
      ensures var key := ClaimKey(claim.issuer, claim.clientID, claim.jti);
              && (claimed <==> !(key in old(claims) && now < old(claims)[key].expires))
              && claims == if claimed then old(claims)[key := claim.(received := now)] else old(claims)
    {
      var received := claim.(received := now);
      var key := KeyOf(received);
      if key in claims {
        if claims[key].expires > now {
          return false;
        }
        claims := claims - {key};
      }
      claims := claims[key := received];
      assert claims == old(claims)[key := received];
      return true;
    }
  }

  // ----- The handlers' use of the store -----

  datatype LogoutReply = InvalidClaims | InvalidEvent | Stale | AlreadyUsed | NoContent

  /** handleSHAUTHBackChannelLogout, once the token's signature is verified. */
  function HandleLogout(st: State, t: LogoutToken, now: Time): (LogoutReply, State) {
    if !t.Complete() then (InvalidClaims, st)
    else if !t.event then (InvalidEvent, st)
    else if !t.Timely(now) then (Stale, st)
    else
      var (claimed, st') := ClaimLogout(st, ClaimOf(t), now);
      (if claimed then NoContent else AlreadyUsed, st')
  }

  method BackChannelLogout(store: Store, t: LogoutToken, now: Time) returns (r: LogoutReply)
    modifies store`claims
    ensures (r, store.View()) == HandleLogout(old(store.View()), t, now)
    ensures r == InvalidClaims <==>
              t.jti == "" || t.iat == 0 || t.exp == 0 || t.nonce || (t.sid == "" && t.subject == "")
    ensures r == InvalidEvent ==> !t.event
    ensures r == Stale ==>
              && t.event
              && (t.exp * SECOND <= now || !(now - 300 * SECOND <= t.iat * SECOND <= now + 60 * SECOND))
    ensures r == AlreadyUsed || r == NoContent ==>
              && t.event && now < t.exp * SECOND && now - 300 * SECOND <= t.iat * SECOND <= now + 60 * SECOND
              && var key := ClaimKey(t.issuer, t.clientID, t.jti);
                 (r == AlreadyUsed <==> key in old(store.claims) && now < old(store.claims)[key].expires)
    ensures r != NoContent ==> store.claims == old(store.claims)
    ensures r == NoContent ==>
              var retained := t.iat * SECOND + 8 * 3600 * SECOND;
              store.claims == old(store.claims)[ClaimKey(t.issuer, t.clientID, t.jti) :=
                Claim(t.issuer, t.clientID, t.jti, t.sid, t.subject, t.iat * SECOND, now,
                      if t.exp * SECOND > retained then t.exp * SECOND else retained)]
  {
    if t.jti == "" || t.iat == 0 || t.exp == 0 || t.nonce || (t.sid == "" && t.subject == "") {
      return InvalidClaims;
    }
    if !t.event {
      return InvalidEvent;
    }
    var issued, expires := t.iat * SECOND, t.exp * SECOND;
    if !(expires > now) || issued < now - 5 * MINUTE || issued > now + MINUTE {
      return Stale;
    }
    var retainUntil := issued + MAXIMUM_SESSION_LIFETIME;
    if expires > retainUntil {
      retainUntil := expires;
    }
    var claimed := store.TryClaim(Claim(t.issuer, t.clientID, t.jti, t.sid, t.subject, issued, 0, retainUntil), now);
    return if claimed then NoContent else AlreadyUsed;
  }

  /** The end of handleSHAUTHCallback: the expiry is capped at one clock reading, the creation time is the next. */
  method SignIn(
      store: Store, issuer: string, clientID: string, subject: string, sid: string, identity: string,
      tokenExpiry: Time, capAt: Time, createdAt: Time, candidates: seq<string>) returns (r: Option<string>)
    requires |candidates| == 4 && capAt <= createdAt
    modifies store`sessions
    ensures r.Some? ==>
              && r.value !in old(store.sessions) && r.value in store.sessions
              && store.sessions == old(store.sessions)[r.value := store.sessions[r.value]]
              && var s := store.sessions[r.value];
                 && s.issuer == issuer && s.clientID == clientID && s.subject == subject && s.sid == sid
                 && s.identity == identity && s.created == createdAt && s.expires == SessionExpiry(tokenExpiry, capAt)
                 && s.expires <= s.created + 8 * 3600 * SECOND
                 && s.expires == if tokenExpiry <= capAt + 8 * 3600 * SECOND then tokenExpiry
                                 else capAt + 8 * 3600 * SECOND
    ensures r.None? ==> store.sessions == old(store.sessions)
  {
    var expires := tokenExpiry;
    if expires > capAt + MAXIMUM_SESSION_LIFETIME {
      expires := capAt + MAXIMUM_SESSION_LIFETIME;
    }
    r := store.CreateSession(Session(issuer, clientID, subject, sid, identity, createdAt, expires), candidates);
  }

  /** Why eight hours suffice: a claim outlives every session created by the time its token was issued. */
  lemma ClaimOutlivesSession(tokenExpiry: Time, capAt: Time, created: Time, issued: Time, expires: Time)
    requires capAt <= created <= issued
    ensures SessionExpiry(tokenExpiry, capAt) <= RetainUntil(issued, expires)
  {
  }

  // ----- What a scan finds and what it leaves -----

  lemma {:induction false} ScanMeaning(order: seq<ClaimKey>, claims: map<ClaimKey, Claim>, s: Session, now: Time)
    ensures var (revoked, left) := Scan(order, claims, s, now);
            && (revoked <==> exists k :: k in order && k in claims && claims[k].expires > now && Covers(claims[k], s))
            && (forall k :: k in left ==> k in claims && left[k] == claims[k])
            && (forall k :: k in claims && k !in left ==> claims[k].expires <= now)
            && (!revoked ==> forall k :: k in order && k in claims && claims[k].expires <= now ==> k !in left)
  {
    if order != [] {
      var k, rest := order[0], order[1..];
      assert forall x :: x in order <==> x == k || x in rest;
      if k in claims && claims[k].expires <= now {
        ScanMeaning(rest, claims - {k}, s, now);
      } else if !(k in claims && Covers(claims[k], s)) {
        ScanMeaning(rest, claims, s, now);
      }
    }
  }
}

/** Which sessions a logout token reaches, in the token's and the sessions' own fields. */
module LogoutReach {
  import opened Options
  import opened LogoutStore
  import opened LogoutRefinement

  /** The token names the session: by its sid or, if it has none, by its subject. */
  predicate Names(t: LogoutToken, s: Session) {
    && t.issuer == s.issuer && t.clientID == s.clientID
    && (if t.sid != "" then t.sid == s.sid else t.subject == s.subject)
  }

  /** The later of the token's expiry and eight hours after its issue. */
  predicate StillKept(t: LogoutToken, now: Time) {
    now < t.exp * SECOND || now < t.iat * SECOND + 8 * 3600 * SECOND
  }

  lemma {:induction false} SplitTrace(w: World, before: Trace, after: Trace)
    requires IsRun(w, before + after)
    ensures IsRun(w, before) && IsRun(After(w, before), after)
    ensures After(w, before + after) == After(After(w, before), after)
    decreases |before|
  {
    hide Possible, Next;
    if before == [] {
      assert before + after == after;
    } else {
      assert (before + after)[1..] == before[1..] + after;
      SplitTrace(Next(w, before[0].0, before[0].1), before[1..], after);
    }
  }

  lemma {:induction false} ClaimsStay(w: World, run: Trace, c: Claim)
    requires IsRun(w, run) && c in w.ledger.claims
    ensures c in After(w, run).ledger.claims
    decreases |run|
  {
    hide StoreStep, Possible, CoveredEver;
    if run != [] {
      ClaimsStay(Next(w, run[0].0, run[0].1), run[1..], c);
    }
  }

  /** A live claim that names the session refuses it, wherever the directory lists its file. */
  lemma NamedIsRefused(
      w: World, t: LogoutToken, received: Time, id: string, s: Session, order: seq<ClaimKey>, now: Time)
    requires Sim(w) && Possible(w, Visit(id, order), now)
    requires ClaimOf(t).(received := received) in w.ledger.claims
    requires Names(t, s) && s.created <= received && StillKept(t, now)
    ensures ReadSession(w.store, id, now, order).0 != Some(s)
  {
    hide Sim, ValidSessionID;
    var c := ClaimOf(t).(received := received);
    assert Covers(c, s) && c.expires > now;
    ScanAgrees(w, s, now, order);
  }

  lemma AcceptedIsRecorded(w: World, t: LogoutToken, received: Time)
    requires Sim(w) && Possible(w, BackChannel(t), received)
    requires HandleLogout(w.store, t, received).0 == NoContent
    ensures Sim(Next(w, BackChannel(t), received))
    ensures ClaimOf(t).(received := received) in Next(w, BackChannel(t), received).ledger.claims
  {
    hide Sim, Possible, HandleLogout, ClaimOf, ClaimedAndLive;
    BackChannelKeeps(w, t, received);
  }

  /**
   * Over any run: once the handler has accepted a logout token, no visit while the token's claim is
   * kept admits a session that the token names and that was created by the token's receipt.
   */
  lemma LogoutReaches(
      before: Trace, t: LogoutToken, received: Time, after: Trace, id: string, s: Session, order: seq<ClaimKey>,
      now: Time)
    requires IsRun(EMPTY, before + ([(BackChannel(t), received)] + after))
    requires HandleLogout(After(EMPTY, before).store, t, received).0 == NoContent
    requires var w := After(EMPTY, before + ([(BackChannel(t), received)] + after));
             Possible(w, Visit(id, order), now)
    requires Names(t, s) && s.created <= received && StillKept(t, now)
    ensures var w := After(EMPTY, before + ([(BackChannel(t), received)] + after));
            ReadSession(w.store, id, now, order).0 != Some(s)
  {
    hide IsRun, After, Sim, Possible, Next, HandleLogout, ReadSession, ClaimOf, Names, StillKept;
    var w, e := After(EMPTY, before), BackChannel(t);
    SplitTrace(EMPTY, before, [(e, received)] + after);
    EmptySim();
    RunKeeps(EMPTY, before);
    OneMore(w, e, received, after);
    AcceptedIsRecorded(w, t, received);
    RunKeeps(Next(w, e, received), after);
    ClaimsStay(Next(w, e, received), after, ClaimOf(t).(received := received));
    FirstAfter(w, e, received, after);
    NamedIsRefused(After(Next(w, e, received), after), t, received, id, s, order, now);
  }

  lemma EmptySim()
    ensures Sim(EMPTY)
  {
  }

  lemma FirstAfter(w: World, e: Event, now: Time, rest: Trace)
    ensures After(w, [(e, now)] + rest) == After(Next(w, e, now), rest)
  {
    hide Next;
    assert ([(e, now)] + rest)[1..] == rest;
  }

  /**
   * A token leaves every other session alone: one it does not name, or one created after its receipt,
   * gets the answer it would have got without the token, now and at any later visit of the same store.
   */
  lemma OthersUnreached(
      st: State, t: LogoutToken, received: Time, id: string, now: Time, order: seq<ClaimKey>, order': seq<ClaimKey>)
    requires received <= now && id in st.sessions
    requires !Names(t, st.sessions[id]) || received < st.sessions[id].created
    requires forall k :: k in st.claims ==> k in order
    requires forall k :: k in HandleLogout(st, t, received).1.claims ==> k in order'
    ensures ReadSession(HandleLogout(st, t, received).1, id, now, order').0 == ReadSession(st, id, now, order).0
  {
    hide ValidSessionID;
    var st' := HandleLogout(st, t, received).1;
    ScanMeaning(order, st.claims, st.sessions[id], now);
    ScanMeaning(order', st'.claims, st.sessions[id], now);
  }

  /** Which strings name sessions: 43 characters of the URL-safe alphabet, line breaks not counted. */
  lemma ValidIDMeaning(id: string)
    requires '\n' !in id && '\r' !in id
    ensures ValidSessionID(id) <==>
            && |id| == 43
            && forall c :: c in id ==>
                 'A' <= c <= 'Z' || 'a' <= c <= 'z' || '0' <= c <= '9' || c == '-' || c == '_'
  {
    NothingDropped(id);
  }

  lemma {:induction false} NothingDropped(s: string)
    requires '\n' !in s && '\r' !in s
    ensures DropNewlines(s) == s
  {
    if s != [] {
      NothingDropped(s[1..]);
    }
  }

  lemma {:induction false} DropAppend(a: string, b: string)
    ensures DropNewlines(a + b) == DropNewlines(a) + DropNewlines(b)
  {
    if a == [] {
      assert a + b == b;
    } else {
      assert (a + b)[1..] == a[1..] + b;
      DropAppend(a[1..], b);
    }
  }

  lemma LineBreaksIgnored(a: string, b: string, newline: char)
    requires newline == '\n' || newline == '\r'
    ensures ValidSessionID(a + [newline] + b) <==> ValidSessionID(a + b)
  {
    assert DropNewlines([newline]) == [];
    hide DropNewlines, IsAlphabet;
    DropAppend(a + [newline], b);
    DropAppend(a, [newline]);
    DropAppend(a, b);
    assert DropNewlines(a) + [] == DropNewlines(a);
  }
}

/**
 * Garbage collection is invisible: over every run the store, which discards expired sessions and
 * claims as it meets them, answers like a ledger that never discards either.
 */
module LogoutRefinement {
  import opened Options
  import opened LogoutStore

  /** The reference: sessions until an explicit logout, and every claim ever accepted. */
  datatype Ledger = Ledger(sessions: map<string, Session>, claims: set<Claim>)

  ghost predicate CoveredEver(l: Ledger, s: Session) {
    exists c :: c in l.claims && Covers(c, s)
  }

  ghost function LedgerSession(l: Ledger, id: string, now: Time): Option<Session> {
    if ValidSessionID(id) && id in l.sessions && now < l.sessions[id].expires && !CoveredEver(l, l.sessions[id])
    then Some(l.sessions[id]) else None
  }

  ghost predicate ClaimedAndLive(l: Ledger, key: ClaimKey, now: Time) {
    exists c :: c in l.claims && KeyOf(c) == key && c.expires > now
  }

  // ----- Runs -----

  /** One atomic call of the store, with the readings of the shared clock its handler made. */
  datatype Event =
    | SignIn(id: string, session: Session, tokenExpiry: Time, capAt: Time)
    | Visit(id: string, order: seq<ClaimKey>)
    | SignOut(id: string)
    | FrontChannel(issuer: string, clientID: string, sid: string)
    | BackChannel(token: LogoutToken)

  datatype Answer = Done | Admitted(session: Option<Session>) | Replied(reply: LogoutReply)

  /** `used` holds every session id handed out so far. */
  datatype World = World(store: State, ledger: Ledger, clock: Time, used: set<string>)

  const EMPTY := World(State(map[], map[]), Ledger(map[], {}), 0, {})

  /**
   * What may happen at clock reading `now`. Sign-ins use unused random ids and set the times as the
   * callback does; a visit lists every claim file; a verified logout token may say anything.
   */
  ghost predicate Possible(w: World, e: Event, now: Time) {
    && w.clock <= now
    && match e
       case SignIn(id, s, tokenExpiry, capAt) =>
         && ValidSessionID(id) && id !in w.used
         && capAt <= now && s.created == now && s.expires == SessionExpiry(tokenExpiry, capAt)
       case Visit(_, order) => forall k :: k in w.store.claims ==> k in order
       case _ => true
  }

  ghost function StoreStep(st: State, e: Event, now: Time): (Answer, State) {
    match e
    case SignIn(id, s, _, _) => (Done, st.(sessions := st.sessions[id := s]))
    case Visit(id, order) =>
      var (r, st') := ReadSession(st, id, now, order);
      (Admitted(r), st')
    case SignOut(id) => (Done, DeleteSession(st, id))
    case FrontChannel(issuer, clientID, sid) => (Done, DeleteSessions(st, issuer, clientID, sid, ""))
    case BackChannel(t) =>
      var (reply, st') := HandleLogout(st, t, now);
      (Replied(reply), st')
  }

  ghost function LedgerStep(l: Ledger, e: Event, now: Time): (Answer, Ledger) {
    match e
    case SignIn(id, s, _, _) => (Done, l.(sessions := l.sessions[id := s]))
    case Visit(id, _) => (Admitted(LedgerSession(l, id, now)), l)
    case SignOut(id) => (Done, if ValidSessionID(id) then l.(sessions := l.sessions - {id}) else l)
    case FrontChannel(issuer, clientID, sid) =>
      (Done, l.(sessions := DeleteSessions(State(l.sessions, map[]), issuer, clientID, sid, "").sessions))
    case BackChannel(t) =>
      if !t.Complete() then (Replied(InvalidClaims), l)
      else if !t.event then (Replied(InvalidEvent), l)
      else if !t.Timely(now) then (Replied(Stale), l)
      else if ClaimedAndLive(l, KeyOf(ClaimOf(t)), now) then (Replied(AlreadyUsed), l)
      else (Replied(NoContent), l.(claims := l.claims + {ClaimOf(t).(received := now)}))
  }

  ghost function Next(w: World, e: Event, now: Time): World {
    World(StoreStep(w.store, e, now).1, LedgerStep(w.ledger, e, now).1, now,
          if e.SignIn? then w.used + {e.id} else w.used)
  }

  // ----- The simulation -----

  ghost predicate Gone(l: Ledger, s: Session, now: Time) {
    s.expires <= now || CoveredEver(l, s)
  }

  /** The store holds the ledger's sessions and claims, except ones that no longer matter. */
  ghost predicate Sim(w: World) {
    && (forall id :: id in w.store.sessions ==>
          id in w.ledger.sessions && w.store.sessions[id] == w.ledger.sessions[id])
    && (forall id :: id in w.ledger.sessions && id !in w.store.sessions ==>
          Gone(w.ledger, w.ledger.sessions[id], w.clock))
    && (forall k :: k in w.store.claims ==> KeyOf(w.store.claims[k]) == k && w.store.claims[k] in w.ledger.claims)
    && (forall c :: c in w.ledger.claims ==> c.expires <= w.clock || Kept(w, c))
    && (forall id :: id in w.ledger.sessions ==>
          && id in w.used
          && w.ledger.sessions[id].expires <= w.ledger.sessions[id].created + MAXIMUM_SESSION_LIFETIME)
    && (forall c :: c in w.ledger.claims ==> c.expires >= c.issued + MAXIMUM_SESSION_LIFETIME && c.received <= w.clock)
  }

  ghost predicate Kept(w: World, c: Claim) {
    KeyOf(c) in w.store.claims && w.store.claims[KeyOf(c)] == c
  }

  /** Each claim that covers the session was issued after it was created, or has not expired yet. */
  ghost predicate Timely(l: Ledger, s: Session, now: Time) {
    forall c :: c in l.claims && Covers(c, s) ==> s.created <= c.issued || now < c.expires
  }

  /** The session is stored and unexpired, was covered once, and every claim that covered it has expired. */
  ghost predicate Lapsed(w: World, id: string, now: Time) {
    && id in w.store.sessions && now < w.store.sessions[id].expires
    && CoveredEver(w.ledger, w.store.sessions[id])
    && forall c :: c in w.ledger.claims && Covers(c, w.store.sessions[id]) ==> c.expires <= now
  }

  /** A scan that lists every claim file finds a live covering claim exactly if the ledger has one. */
  lemma ScanAgrees(w: World, s: Session, now: Time, order: seq<ClaimKey>)
    requires Sim(w) && w.clock <= now && forall k :: k in w.store.claims ==> k in order
    ensures Scan(order, w.store.claims, s, now).0 <==>
            exists c :: c in w.ledger.claims && c.expires > now && Covers(c, s)
  {
    ScanMeaning(order, w.store.claims, s, now);
    if c :| c in w.ledger.claims && c.expires > now && Covers(c, s) {
      assert Kept(w, c);
      var k := KeyOf(c);
      assert k in order && k in w.store.claims && w.store.claims[k].expires > now && Covers(w.store.claims[k], s);
    }
  }

  /** A visit is answered as the ledger would, exactly unless the session's claims have all lapsed. */
  lemma VisitAgreesIff(w: World, id: string, now: Time, order: seq<ClaimKey>)
    requires Sim(w) && Possible(w, Visit(id, order), now)
    ensures ReadSession(w.store, id, now, order).0 == LedgerSession(w.ledger, id, now)
            <==> !(ValidSessionID(id) && Lapsed(w, id, now))
  {
    hide ValidSessionID;
    if ValidSessionID(id) && id in w.store.sessions && now < w.store.sessions[id].expires {
      ScanAgrees(w, w.store.sessions[id], now, order);
    }
  }

  /** Claims lapse before a session only if it was created after their issue time, within the window. */
  lemma LapsedIsLate(w: World, id: string, now: Time)
    requires Sim(w) && w.clock <= now && Lapsed(w, id, now)
    ensures exists c :: c in w.ledger.claims && c.issued < w.store.sessions[id].created <= c.received
    ensures !Timely(w.ledger, w.store.sessions[id], now)
  {
    var c :| c in w.ledger.claims && Covers(c, w.store.sessions[id]);
    assert c.issued < w.store.sessions[id].created <= c.received;
  }

  /** What is asked of a run: each visited session's claims are timely. */
  ghost predicate TimelyEvent(w: World, e: Event, now: Time) {
    e.Visit? && e.id in w.ledger.sessions ==> Timely(w.ledger, w.ledger.sessions[e.id], now)
  }

  ghost predicate LapsedVisit(w: World, e: Event, now: Time) {
    e.Visit? && ValidSessionID(e.id) && Lapsed(w, e.id, now)
  }

  /** Steps on sessions only: claims stay, and whoever was covered still is. */
  lemma ClaimsUntouched(w: World, w': World)
    requires Sim(w) && w.clock <= w'.clock && w'.ledger.claims == w.ledger.claims && w'.store.claims == w.store.claims
    ensures forall s :: CoveredEver(w'.ledger, s) <==> CoveredEver(w.ledger, s)
    ensures forall c :: c in w'.ledger.claims ==> c.expires <= w'.clock || Kept(w', c)
    ensures forall k :: k in w'.store.claims ==>
              KeyOf(w'.store.claims[k]) == k && w'.store.claims[k] in w'.ledger.claims
  {
    hide Covers;
    assert forall c :: c in w.ledger.claims && Kept(w, c) ==> Kept(w', c);
  }

  lemma SignInKeeps(w: World, e: Event, now: Time)
    requires Sim(w) && Possible(w, e, now) && e.SignIn?
    ensures Sim(Next(w, e, now))
  {
    hide Covers, ValidSessionID, CoveredEver, Kept;
    ClaimsUntouched(w, Next(w, e, now));
  }

  lemma RemovalKeeps(w: World, e: Event, now: Time)
    requires Sim(w) && Possible(w, e, now) && (e.SignOut? || e.FrontChannel?)
    ensures Sim(Next(w, e, now))
  {
    hide Covers, ValidSessionID, CoveredEver, Kept;
    ClaimsUntouched(w, Next(w, e, now));
  }

  lemma SessionsKept(w: World, e: Event, now: Time)
    requires Sim(w) && Possible(w, e, now) && (e.SignIn? || e.SignOut? || e.FrontChannel?)
    ensures Sim(Next(w, e, now))
    ensures StoreStep(w.store, e, now).0 == LedgerStep(w.ledger, e, now).0
  {
    hide Sim, Possible, ValidSessionID;
    if e.SignIn? {
      SignInKeeps(w, e, now);
    } else {
      RemovalKeeps(w, e, now);
    }
  }

  lemma VisitKeeps(w: World, id: string, order: seq<ClaimKey>, now: Time)
    requires Sim(w) && Possible(w, Visit(id, order), now)
    ensures Sim(Next(w, Visit(id, order), now))
  {
    hide Covers, ValidSessionID;
    var w' := Next(w, Visit(id, order), now);
    if id in w.store.sessions {
      var s := w.store.sessions[id];
      ScanMeaning(order, w.store.claims, s, now);
      ScanAgrees(w, s, now, order);
      assert Gone(w.ledger, s, now) || id !in w.store.sessions || id in w'.store.sessions;
    }
    forall c | c in w.ledger.claims && c.expires > now
      ensures Kept(w', c)
    {
      assert Kept(w, c);
    }
  }

  /** The store refuses a token as used exactly if the ledger has a live claim for it. */
  lemma ClaimAgrees(w: World, key: ClaimKey, now: Time)
    requires Sim(w) && w.clock <= now
    ensures key in w.store.claims && w.store.claims[key].expires > now <==> ClaimedAndLive(w.ledger, key, now)
  {
    hide Covers;
    if d :| d in w.ledger.claims && KeyOf(d) == key && d.expires > now {
      assert Kept(w, d);
    }
  }

  lemma ClaimedKeeps(w: World, c: Claim, w': World)
    requires Sim(w) && w.clock <= w'.clock && c.received <= w'.clock
    requires c.expires >= c.issued + MAXIMUM_SESSION_LIFETIME
    requires !ClaimedAndLive(w.ledger, KeyOf(c), w'.clock)
    requires w'.store == w.store.(claims := w.store.claims[KeyOf(c) := c])
    requires w'.ledger == w.ledger.(claims := w.ledger.claims + {c}) && w'.used == w.used
    ensures Sim(w')
  {
    hide Covers;
    forall d | d in w'.ledger.claims && d.expires > w'.clock
      ensures Kept(w', d)
    {
      if d in w.ledger.claims {
        assert Kept(w, d);
      }
    }
    assert forall s :: CoveredEver(w.ledger, s) ==> CoveredEver(w'.ledger, s);
  }

  lemma TimePasses(w: World, now: Time)
    requires Sim(w) && w.clock <= now
    ensures Sim(w.(clock := now))
  {
    hide Covers;
    assert forall c :: Kept(w, c) ==> Kept(w.(clock := now), c);
  }

  lemma BackChannelKeeps(w: World, t: LogoutToken, now: Time)
    requires Sim(w) && Possible(w, BackChannel(t), now)
    ensures Sim(Next(w, BackChannel(t), now))
    ensures StoreStep(w.store, BackChannel(t), now).0 == LedgerStep(w.ledger, BackChannel(t), now).0
  {
    hide Sim, ClaimedAndLive;
    var c := ClaimOf(t);
    ClaimAgrees(w, KeyOf(c), now);
    TimePasses(w, now);
    if t.Complete() && t.event && t.Timely(now) && !ClaimedAndLive(w.ledger, KeyOf(c), now) {
      ClaimedKeeps(w, c.(received := now), Next(w, BackChannel(t), now));
    }
  }

  lemma EventKeeps(w: World, e: Event, now: Time)
    requires Sim(w) && Possible(w, e, now)
    ensures Sim(Next(w, e, now))
    ensures StoreStep(w.store, e, now).0 == LedgerStep(w.ledger, e, now).0 <==> !LapsedVisit(w, e, now)
    ensures TimelyEvent(w, e, now) ==> !LapsedVisit(w, e, now)
  {
    hide Covers, ValidSessionID, ReadSession;
    match e
    case Visit(id, order) =>
      VisitKeeps(w, id, order, now);
      VisitAgreesIff(w, id, now, order);
      if LapsedVisit(w, e, now) {
        LapsedIsLate(w, id, now);
      }
    case BackChannel(t) => BackChannelKeeps(w, t, now);
    case _ => SessionsKept(w, e, now);
  }

  // ----- Whole runs -----

  type Trace = seq<(Event, Time)>

  ghost predicate IsRun(w: World, run: Trace)
    decreases |run|
  {
    run == [] || (Possible(w, run[0].0, run[0].1) && IsRun(Next(w, run[0].0, run[0].1), run[1..]))
  }

  ghost predicate TimelyRun(w: World, run: Trace)
    decreases |run|
  {
    run == [] || (TimelyEvent(w, run[0].0, run[0].1) && TimelyRun(Next(w, run[0].0, run[0].1), run[1..]))
  }

  ghost function StoreAnswers(st: State, run: Trace): seq<Answer>
    decreases |run|
  {
    if run == [] then []
    else
      var (a, st') := StoreStep(st, run[0].0, run[0].1);
      [a] + StoreAnswers(st', run[1..])
  }

  ghost function LedgerAnswers(l: Ledger, run: Trace): seq<Answer>
    decreases |run|
  {
    if run == [] then []
    else
      var (a, l') := LedgerStep(l, run[0].0, run[0].1);
      [a] + LedgerAnswers(l', run[1..])
  }

  ghost function After(w: World, run: Trace): World
    decreases |run|
  {
    if run == [] then w else After(Next(w, run[0].0, run[0].1), run[1..])
  }

  ghost predicate NoneLapses(w: World, run: Trace)
    decreases |run|
  {
    run == [] || (!LapsedVisit(w, run[0].0, run[0].1) && NoneLapses(Next(w, run[0].0, run[0].1), run[1..]))
  }

  lemma {:induction false} RunKeeps(w: World, run: Trace)
    requires Sim(w) && IsRun(w, run)
    ensures Sim(After(w, run))
    ensures StoreAnswers(w.store, run) == LedgerAnswers(w.ledger, run) <==> NoneLapses(w, run)
    ensures TimelyRun(w, run) ==> NoneLapses(w, run)
    decreases |run|
  {
    hide Sim, Possible, StoreStep, LedgerStep, TimelyEvent, LapsedVisit;
    if run != [] {
      var w' := Next(w, run[0].0, run[0].1);
      EventKeeps(w, run[0].0, run[0].1);
      RunKeeps(w', run[1..]);
      FirstAndRest(StoreStep(w.store, run[0].0, run[0].1).0, StoreAnswers(w'.store, run[1..]),
                   LedgerStep(w.ledger, run[0].0, run[0].1).0, LedgerAnswers(w'.ledger, run[1..]));
    }
  }

  lemma FirstAndRest(a: Answer, s: seq<Answer>, b: Answer, t: seq<Answer>)
    ensures [a] + s == [b] + t <==> a == b && s == t
  {
    assert ([a] + s)[0] == a && ([b] + t)[0] == b;
    assert ([a] + s)[1..] == s && ([b] + t)[1..] == t;
  }

  // ----- When a visit finds its session's claims lapsed, in terms of events -----

  ghost function LedgerAfter(l: Ledger, run: Trace): Ledger
    decreases |run|
  {
    if run == [] then l else LedgerAfter(LedgerStep(l, run[0].0, run[0].1).1, run[1..])
  }

  ghost predicate LiveCover(l: Ledger, s: Session, now: Time) {
    exists c :: c in l.claims && c.expires > now && Covers(c, s)
  }

  /** Somebody visited the session while a claim that covers it was live. */
  ghost predicate Caught(l: Ledger, run: Trace, id: string)
    decreases |run|
  {
    run != [] &&
    ((run[0].0.Visit? && run[0].0.id == id && id in l.sessions && LiveCover(l, l.sessions[id], run[0].1)) ||
     Caught(LedgerStep(l, run[0].0, run[0].1).1, run[1..], id))
  }

  /**
   * After these events, at `now`: the session has not ended or expired, a claim that covers it was
   * received, nobody visited it while one was live, and all of them have expired by now.
   */
  ghost predicate Outlived(run: Trace, id: string, now: Time) {
    var l := LedgerAfter(EMPTY.ledger, run);
    && ValidSessionID(id) && id in l.sessions && now < l.sessions[id].expires
    && CoveredEver(l, l.sessions[id]) && !LiveCover(l, l.sessions[id], now)
    && !Caught(EMPTY.ledger, run, id)
  }

  lemma {:induction false} AfterLedger(w: World, run: Trace)
    requires IsRun(w, run)
    ensures After(w, run).ledger == LedgerAfter(w.ledger, run) && w.clock <= After(w, run).clock
    decreases |run|
  {
    hide StoreStep, LedgerStep;
    if run != [] {
      AfterLedger(Next(w, run[0].0, run[0].1), run[1..]);
    }
  }

  /** A session id is handed out once: what the ledger has at the end of a run it had all along. */
  lemma {:induction false} IdsPersist(w: World, run: Trace, id: string)
    requires IsRun(w, run) && id in w.used && id in After(w, run).ledger.sessions
    ensures id in w.ledger.sessions && w.ledger.sessions[id] == After(w, run).ledger.sessions[id]
    decreases |run|
  {
    hide StoreStep, ValidSessionID, Matches;
    if run != [] {
      IdsPersist(Next(w, run[0].0, run[0].1), run[1..], id);
    }
  }

  /** One event keeps a session in the store unless it is a visit that catches it. */
  lemma StoredStep(w: World, e: Event, now: Time, id: string)
    requires Sim(w) && Possible(w, e, now) && ValidSessionID(id)
    requires var l' := Next(w, e, now).ledger;
             id in w.ledger.sessions && id in l'.sessions && now < w.ledger.sessions[id].expires
    ensures id in Next(w, e, now).store.sessions <==>
            id in w.store.sessions && !(e.Visit? && e.id == id && LiveCover(w.ledger, w.ledger.sessions[id], now))
  {
    hide Covers, ValidSessionID;
    if e.Visit? && id in w.store.sessions {
      ScanAgrees(w, w.store.sessions[id], now, e.order);
    }
  }

  /** An unexpired session is still stored at the end of a run exactly if no visit caught it. */
  lemma {:induction false} StoredIffUncaught(w: World, run: Trace, id: string)
    requires Sim(w) && IsRun(w, run) && id in After(w, run).ledger.sessions
    requires After(w, run).clock < After(w, run).ledger.sessions[id].expires
    requires ValidSessionID(id)
    ensures id in After(w, run).store.sessions <==>
            !Caught(w.ledger, run, id) && (id in w.ledger.sessions ==> id in w.store.sessions)
    decreases |run|
  {
    hide Sim, StoreStep, LedgerStep, LiveCover, ValidSessionID;
    if run == [] {
      StoredIsKnown(w, id);
    } else {
      var e, now := run[0].0, run[0].1;
      var w' := Next(w, e, now);
      EventKeeps(w, e, now);
      StoredIffUncaught(w', run[1..], id);
      AfterLedger(w', run[1..]);
      if id in w.used {
        IdsPersist(w, run, id);
        IdsPersist(w', run[1..], id);
        StoredStep(w, e, now, id);
      } else {
        NewlyStored(w, e, now, id);
      }
    }
  }

  lemma StoredIsKnown(w: World, id: string)
    requires Sim(w)
    ensures id in w.store.sessions ==> id in w.ledger.sessions
  {
  }

  lemma NewlyStored(w: World, e: Event, now: Time, id: string)
    requires Sim(w) && Possible(w, e, now) && id !in w.used
    ensures id !in w.ledger.sessions
    ensures id in Next(w, e, now).ledger.sessions ==> id in Next(w, e, now).store.sessions
  {
    hide Covers;
  }

  /** A visit finds its session lapsed exactly if, by the events before it, the session outlived its claims. */
  lemma LapsedIffOutlived(run: Trace, id: string, now: Time)
    requires IsRun(EMPTY, run) && After(EMPTY, run).clock <= now
    ensures ValidSessionID(id) && Lapsed(After(EMPTY, run), id, now) <==> Outlived(run, id, now)
  {
    hide ValidSessionID, Caught, IsRun, After, LedgerAfter;
    var w := After(EMPTY, run);
    RunKeeps(EMPTY, run);
    AfterLedger(EMPTY, run);
    if ValidSessionID(id) && id in w.ledger.sessions && now < w.ledger.sessions[id].expires {
      StoredIffUncaught(EMPTY, run, id);
    }
  }

  lemma {:induction false} NoneLapsesByPosition(w: World, run: Trace)
    requires IsRun(w, run)
    ensures NoneLapses(w, run) <==>
            forall k :: 0 <= k < |run| ==> !LapsedVisit(After(w, run[..k]), run[k].0, run[k].1)
    decreases |run|
  {
    hide LapsedVisit, Possible;
    if run != [] {
      var w', rest := Next(w, run[0].0, run[0].1), run[1..];
      NoneLapsesByPosition(w', rest);
      assert After(w, run[..0]) == w;
      forall k | 0 <= k < |rest|
        ensures After(w, run[..k + 1]) == After(w', rest[..k]) && rest[k] == run[k + 1]
      {
        assert run[..k + 1][1..] == rest[..k];
      }
      if !NoneLapses(w', rest) {
        var k :| 0 <= k < |rest| && LapsedVisit(After(w', rest[..k]), rest[k].0, rest[k].1);
        assert LapsedVisit(After(w, run[..k + 1]), run[k + 1].0, run[k + 1].1);
      } else {
        forall k | 0 < k < |run|
          ensures !LapsedVisit(After(w, run[..k]), run[k].0, run[k].1)
        {
          assert rest[k - 1] == run[k];
        }
      }
    }
  }

  lemma {:induction false} PrefixIsRun(w: World, run: Trace, k: nat)
    requires IsRun(w, run) && k < |run|
    ensures IsRun(w, run[..k]) && Possible(After(w, run[..k]), run[k].0, run[k].1)
    decreases k
  {
    hide Possible;
    if k > 0 {
      PrefixIsRun(Next(w, run[0].0, run[0].1), run[1..], k - 1);
      assert run[..k][1..] == run[1..][..k - 1];
    }
  }

  /**
   * Garbage collection is invisible over a whole run, in every answer to lookups and logout tokens,
   * exactly if no visit is to a session that by then has outlived its claims unvisited.
   */
  lemma CollectionInvisibleIff(run: Trace)
    requires IsRun(EMPTY, run)
    ensures StoreAnswers(EMPTY.store, run) == LedgerAnswers(EMPTY.ledger, run) <==>
            forall k :: 0 <= k < |run| && run[k].0.Visit? ==> !Outlived(run[..k], run[k].0.id, run[k].1)
  {
    hide Outlived, Lapsed, StoreAnswers, LedgerAnswers, IsRun, After, NoneLapses, ValidSessionID;
    RunKeeps(EMPTY, run);
    NoneLapsesByPosition(EMPTY, run);
    forall k | 0 <= k < |run|
      ensures LapsedVisit(After(EMPTY, run[..k]), run[k].0, run[k].1) <==>
              run[k].0.Visit? && Outlived(run[..k], run[k].0.id, run[k].1)
    {
      PrefixIsRun(EMPTY, run, k);
      if run[k].0.Visit? {
        LapsedIffOutlived(run[..k], run[k].0.id, run[k].1);
      }
    }
  }

  /** In particular when each visited session's claims were issued after it, or still live. */
  lemma CollectionInvisible(run: Trace)
    requires IsRun(EMPTY, run) && TimelyRun(EMPTY, run)
    ensures StoreAnswers(EMPTY.store, run) == LedgerAnswers(EMPTY.ledger, run)
  {
    RunKeeps(EMPTY, run);
  }

  // ----- The exception is real -----

  // A token issued at second 1, a session created 10 ns later, the token's receipt at second 5.
  const TOKEN := LogoutToken("i", "c", "jti", "sid", "", 1, 3600, false, true)
  const CREATED: Time := SECOND + 10
  const RECEIVED: Time := 5 * SECOND
  const LATE: Time := SECOND + MAXIMUM_SESSION_LIFETIME + 5
  const SESSION := Session("i", "c", "u", "sid", "", CREATED, CREATED + MAXIMUM_SESSION_LIFETIME)

  const CLAIM := ClaimOf(TOKEN).(received := RECEIVED)

  ghost function LateRun(id: string): Trace {
    [(SignIn(id, SESSION, 9 * HOUR, CREATED), CREATED)] +
    ([(BackChannel(TOKEN), RECEIVED)] + ([(Visit(id, [KeyOf(CLAIM)]), LATE)] + []))
  }

  ghost function SignedIn(id: string): World {
    World(State(map[id := SESSION], map[]), Ledger(map[id := SESSION], {}), CREATED, {id})
  }

  ghost function LoggedOut(id: string): World {
    World(State(map[id := SESSION], map[KeyOf(CLAIM) := CLAIM]), Ledger(map[id := SESSION], {CLAIM}), RECEIVED, {id})
  }

  /** The handler accepts the token: complete, within the window, not used before. */
  lemma TokenAccepted(id: string)
    ensures HandleLogout(SignedIn(id).store, TOKEN, RECEIVED) == (NoContent, LoggedOut(id).store)
    ensures Next(SignedIn(id), BackChannel(TOKEN), RECEIVED) == LoggedOut(id)
    ensures LedgerStep(SignedIn(id).ledger, BackChannel(TOKEN), RECEIVED).0 == Replied(NoContent)
  {
    assert {} + {CLAIM} == {CLAIM};
  }

  lemma LateVisit(id: string)
    requires ValidSessionID(id)
    ensures Possible(LoggedOut(id), Visit(id, [KeyOf(CLAIM)]), LATE)
    ensures ReadSession(LoggedOut(id).store, id, LATE, [KeyOf(CLAIM)]).0 == Some(SESSION)
    ensures LedgerSession(LoggedOut(id).ledger, id, LATE) == None
  {
    hide ValidSessionID;
    var key := KeyOf(CLAIM);
    assert [key][0] == key && [key][1..] == [];
    assert !Scan([key], map[key := CLAIM], SESSION, LATE).0;
    assert CLAIM in LoggedOut(id).ledger.claims && Covers(CLAIM, SESSION);
  }

  /** What one more event in front of a run adds. */
  lemma OneMore(w: World, e: Event, now: Time, rest: Trace)
    ensures IsRun(w, [(e, now)] + rest) <==> Possible(w, e, now) && IsRun(Next(w, e, now), rest)
    ensures StoreAnswers(w.store, [(e, now)] + rest) ==
            [StoreStep(w.store, e, now).0] + StoreAnswers(Next(w, e, now).store, rest)
    ensures LedgerAnswers(w.ledger, [(e, now)] + rest) ==
            [LedgerStep(w.ledger, e, now).0] + LedgerAnswers(Next(w, e, now).ledger, rest)
  {
    hide Possible, StoreStep, LedgerStep;
    assert ([(e, now)] + rest)[1..] == rest;
  }

  /**
   * A session created inside the acceptance window, after the token's issue time, outlives the claim
   * that should cover it: if nobody visits in between, it is admitted again once the claim expires.
   */
  lemma LateSessionReturns(id: string) returns (run: Trace)
    requires ValidSessionID(id)
    ensures IsRun(EMPTY, run) && StoreAnswers(EMPTY.store, run) != LedgerAnswers(EMPTY.ledger, run)
    ensures StoreAnswers(EMPTY.store, run) == [Done, Replied(NoContent), Admitted(Some(SESSION))]
    ensures LedgerAnswers(EMPTY.ledger, run) == [Done, Replied(NoContent), Admitted(None)]
  {
    hide ValidSessionID, HandleLogout, ReadSession, LedgerSession;
    run := LateRun(id);
    assert Next(EMPTY, SignIn(id, SESSION, 9 * HOUR, CREATED), CREATED) == SignedIn(id);
    TokenAccepted(id);
    LateVisit(id);
    OneMore(LoggedOut(id), Visit(id, [KeyOf(CLAIM)]), LATE, []);
    OneMore(SignedIn(id), BackChannel(TOKEN), RECEIVED, [(Visit(id, [KeyOf(CLAIM)]), LATE)] + []);
    OneMore(EMPTY, SignIn(id, SESSION, 9 * HOUR, CREATED), CREATED, LateRun(id)[1..]);
    assert StoreAnswers(EMPTY.store, run)[2] == Admitted(Some(SESSION));
    assert LedgerAnswers(EMPTY.ledger, run)[2] == Admitted(None);
  }

  // ----- A later session is never refused for an older claim -----

  /** Events that neither end this session nor cover it. */
  ghost predicate Spares(e: Event, now: Time, id: string, s: Session) {
    match e
    case SignOut(x) => x != id
    case FrontChannel(issuer, clientID, sid) => !Matches(s, issuer, clientID, sid, "")
    case BackChannel(t) => !Covers(ClaimOf(t).(received := now), s)
    case _ => true
  }

  ghost predicate Standing(w: World, id: string, s: Session) {
    id in w.ledger.sessions && w.ledger.sessions[id] == s && !CoveredEver(w.ledger, s)
  }

  lemma SparedStep(w: World, e: Event, now: Time, id: string, s: Session)
    requires Standing(w, id, s) && Sim(w) && Possible(w, e, now) && Spares(e, now, id, s)
    ensures Standing(Next(w, e, now), id, s)
  {
    hide Covers, ValidSessionID;
  }

  lemma {:induction false} SparedStands(w: World, run: Trace, id: string, s: Session)
    requires Sim(w) && IsRun(w, run) && Standing(w, id, s)
    requires forall k :: 0 <= k < |run| ==> Spares(run[k].0, run[k].1, id, s)
    ensures Standing(After(w, run), id, s)
    decreases |run|
  {
    hide Sim, Standing, Spares, Possible, Next;
    if run != [] {
      EventKeeps(w, run[0].0, run[0].1);
      SparedStep(w, run[0].0, run[0].1, id, s);
      SparedStands(Next(w, run[0].0, run[0].1), run[1..], id, s);
    }
  }

  /**
   * After any run, a session created after every event so far is admitted at each visit until it
   * expires, as long as no later event ends it or covers it: logouts of the past never reach it.
   */
  lemma LaterSessionAdmitted(
      before: Trace, id: string, s: Session, tokenExpiry: Time, capAt: Time, after: Trace, now: Time,
      order: seq<ClaimKey>)
    requires IsRun(EMPTY, before) && After(EMPTY, before).clock < s.created
    requires Possible(After(EMPTY, before), SignIn(id, s, tokenExpiry, capAt), s.created)
    requires var w1 := Next(After(EMPTY, before), SignIn(id, s, tokenExpiry, capAt), s.created);
             IsRun(w1, after) && Possible(After(w1, after), Visit(id, order), now)
    requires forall k :: 0 <= k < |after| ==> Spares(after[k].0, after[k].1, id, s)
    ensures var w1 := Next(After(EMPTY, before), SignIn(id, s, tokenExpiry, capAt), s.created);
            ReadSession(After(w1, after).store, id, now, order).0 == if now < s.expires then Some(s) else None
  {
    hide ValidSessionID, ReadSession, IsRun, After;
    var w := After(EMPTY, before);
    RunKeeps(EMPTY, before);
    var e := SignIn(id, s, tokenExpiry, capAt);
    EventKeeps(w, e, s.created);
    var w1 := Next(w, e, s.created);
    assert Standing(w1, id, s);
    SparedStands(w1, after, id, s);
    RunKeeps(w1, after);
    VisitAgreesIff(After(w1, after), id, now, order);
  }
}

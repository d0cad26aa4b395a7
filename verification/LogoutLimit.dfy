/**
 * Two limits that cannot be relaxed. One nanosecond more than the call limit of SingleWinner and a
 * token is claimed twice; a lookup slower than the claim's retention misses a claim that covers it.
 */
module LogoutLimit {
  import opened LogoutStore
  import opened LogoutReplay

  // A token issued at second 1 that expires with the retention of its claim, received at the last moment.
  const TOKEN := LogoutToken("i", "c", "jti", "sid", "", 1, 1 + 8 * 3600, false, true)
  const RECEIPT: Time := SECOND + 5 * MINUTE
  const END: Time := SECOND + MAXIMUM_SESSION_LIFETIME
  const CLAIM := ClaimOf(TOKEN).(received := RECEIPT)
  const KEY := KeyOf(CLAIM)
  const TOKENS := map[KEY := Token(TOKEN.iat, TOKEN.exp)]
  const SESSION := LogoutStore.Session("i", "c", "u", "sid", "", RECEIPT, RECEIPT + MAXIMUM_SESSION_LIFETIME)

  /** The handler takes the token at that moment, and its claim is the one the runs below make. */
  lemma TokenAccepted(st: State)
    requires st.claims == map[]
    ensures HandleLogout(st, TOKEN, RECEIPT) == (NoContent, st.(claims := map[KEY := CLAIM]))
    ensures MayBegin(TOKENS, Claiming(CLAIM), RECEIPT) && CLAIM.expires == END && Covers(CLAIM, SESSION)
  {
  }

  ghost predicate Reached(w: World, limit: Time) {
    exists steps :: IsRun(EMPTY, TOKENS, limit, steps) && After(EMPTY, steps) == w
  }

  lemma {:induction false} RunAppend(w: World, limit: Time, steps: seq<Step>, last: Step)
    requires IsRun(w, TOKENS, limit, steps) && Enabled(After(w, steps), TOKENS, limit, last)
    ensures IsRun(w, TOKENS, limit, steps + [last]) && After(w, steps + [last]) == Apply(After(w, steps), last)
    decreases |steps|
  {
    hide Enabled, Apply;
    if steps == [] {
      assert [last][1..] == [];
      assert steps + [last] == [last];
    } else {
      assert (steps + [last])[1..] == steps[1..] + [last];
      RunAppend(Apply(w, steps[0]), limit, steps[1..], last);
    }
  }

  lemma Go(w: World, limit: Time, step: Step) returns (w': World)
    requires Reached(w, limit) && Enabled(w, TOKENS, limit, step)
    ensures Reached(w', limit) && w' == Apply(w, step)
  {
    hide Enabled, Apply;
    var steps :| IsRun(EMPTY, TOKENS, limit, steps) && After(EMPTY, steps) == w;
    RunAppend(EMPTY, limit, steps, step);
    w' := Apply(w, step);
  }

  lemma Started(limit: Time) returns (w: World)
    ensures Reached(w, limit) && w == EMPTY.(clock := RECEIPT)
  {
    hide Reached;
    assert Reached(EMPTY, limit) by {
      StartReached(limit);
    }
    w := Go(EMPTY, limit, Tick(RECEIPT));
  }

  lemma StartReached(limit: Time)
    ensures Reached(EMPTY, limit)
  {
    assert IsRun(EMPTY, TOKENS, limit, []) && After(EMPTY, []) == EMPTY;
  }

  ghost predicate OnlyKey(w: World) {
    forall key :: ClaimFile(key) in w.names ==> key == KEY
  }

  ghost predicate Claimable(w: World, limit: Time, pid: nat) {
    Reached(w, limit) && w.clock == RECEIPT && ClaimFile(KEY) !in w.names && pid !in w.procs
  }

  /** A process accepts the token, five minutes after its issue, and finds no claim file. */
  lemma Reads(w: World, limit: Time, pid: nat) returns (w': World)
    requires Claimable(w, limit, pid) && limit > 0
    ensures Reached(w', limit) && w' == w.(procs := w.procs[pid := Proc(Claiming(CLAIM), RECEIPT, Creating)])
  {
    hide Reached, MayBegin;
    TokenAccepted(State(map[], map[]));
    var w1 := Go(w, limit, Act(pid, Begin(Claiming(CLAIM))));
    w' := Go(w1, limit, Act(pid, ReadFile));
  }

  /** Writing and linking, for a process that has found no claim file. */
  lemma Links(w: World, limit: Time, pid: nat) returns (w': World)
    requires Reached(w, limit) && pid in w.procs && w.procs[pid] == Proc(Claiming(CLAIM), RECEIPT, Creating)
    requires w.clock < RECEIPT + limit && ClaimFile(KEY) !in w.names
    ensures Reached(w', limit) && w'.clock == w.clock && WinsOf(w', KEY) == WinsOf(w, KEY) + 1
    ensures w'.procs.Keys == w.procs.Keys && forall q :: q in w.procs && q != pid ==> w'.procs[q] == w.procs[q]
    ensures FileHolds(w', KEY, CLAIM) && (OnlyKey(w) ==> OnlyKey(w'))
  {
    hide Reached, FreshInode;
    var w1 := Go(w, limit, Act(pid, CreateFile));
    var w2 := Go(w1, limit, Act(pid, WriteAll));
    w' := Go(w2, limit, Act(pid, LinkFile));
  }

  /** A lookup reads the clock and lists the claim files. */
  lemma Lists(w: World, limit: Time, pid: nat, now: Time) returns (w': World)
    requires Reached(w, limit) && w.clock <= now && pid !in w.procs && OnlyKey(w)
    ensures Reached(w', limit)
    ensures w' == w.(clock := now, procs := w.procs[pid := Proc(Checking(SESSION), now, Scanning([KEY]))])
  {
    hide Reached;
    var w1 := Go(w, limit, Tick(now));
    var w2 := Go(w1, limit, Act(pid, Begin(Checking(SESSION))));
    w' := Go(w2, limit, Act(pid, ListDir([KEY])));
  }

  /** At the end of the claim's retention, some lookup drops its file. */
  lemma Sweeps(w: World, limit: Time, pid: nat) returns (w': World)
    requires Reached(w, limit) && w.clock <= END && pid !in w.procs && OnlyKey(w) && FileHolds(w, KEY, CLAIM)
    ensures Reached(w', limit) && w'.clock == END && ClaimFile(KEY) !in w'.names && w'.wins == w.wins
    ensures forall q :: q in w.procs ==> q in w'.procs && w'.procs[q] == w.procs[q]
  {
    hide Reached, Covers;
    var listed := Lists(w, limit, pid, END);
    var read := Go(listed, limit, Act(pid, CheckNext));
    w' := Go(read, limit, Act(pid, RemoveFile));
  }

  /** A run in which every claiming call lasts at most CALL_LIMIT, and one token is claimed twice. */
  lemma LimitIsTight() returns (w: World)
    ensures Reached(w, CALL_LIMIT + 1) && WinsOf(w, KEY) == 2
  {
    hide Reached, FileHolds;
    w := Started(CALL_LIMIT + 1);
    w := Reads(w, CALL_LIMIT + 1, 1);
    w := Reads(w, CALL_LIMIT + 1, 2);
    w := Links(w, CALL_LIMIT + 1, 2);
    w := Sweeps(w, CALL_LIMIT + 1, 3);
    w := Links(w, CALL_LIMIT + 1, 1);
  }

  /**
   * A run within the call limit in which a claim covers the session and its file is there, unexpired,
   * when the lookup lists it; a sweeper drops the file after its expiry, and then the lookup admits.
   */
  lemma SlowLookupMisses() returns (listed: World, w: World)
    ensures Reached(listed, CALL_LIMIT) && FileHolds(listed, KEY, CLAIM) && listed.clock < CLAIM.expires
    ensures 1 in listed.procs && listed.procs[1] == Proc(Checking(SESSION), RECEIPT, Scanning([KEY]))
    ensures Covers(CLAIM, SESSION) && RECEIPT < SESSION.expires
    ensures Reached(w, CALL_LIMIT) && 1 in w.procs
    ensures w.procs[1] == Proc(Checking(SESSION), RECEIPT, Verdict(false)) && w.clock == CLAIM.expires
  {
    hide Reached;
    TokenAccepted(State(map[], map[]));
    var start := Started(CALL_LIMIT);
    var read := Reads(start, CALL_LIMIT, 2);
    var linked := Links(read, CALL_LIMIT, 2);
    listed := Lists(linked, CALL_LIMIT, 1, RECEIPT);
    var swept := Sweeps(listed, CALL_LIMIT, 3);
    assert [KEY][1..] == [];
    var skipped := Go(swept, CALL_LIMIT, Act(1, CheckNext));
    w := Go(skipped, CALL_LIMIT, Act(1, CheckNext));
  }
}

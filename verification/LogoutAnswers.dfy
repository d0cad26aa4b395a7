/**
 * What the calls of LogoutReplay answer: a claiming call or a session write reports success exactly if
 * it linked its own record, a refusal has a cause, and one token is answered with success at most once.
 */
module LogoutAnswers {
  import opened LogoutStore
  import opened LogoutReplay

  // ----- Moments of a run -----

  lemma {:induction false} PrefixRun(w: World, tokens: map<ClaimKey, Token>, limit: Time, steps: seq<Step>, n: nat)
    requires IsRun(w, tokens, limit, steps) && n < |steps|
    ensures IsRun(w, tokens, limit, steps[..n]) && Enabled(After(w, steps[..n]), tokens, limit, steps[n])
    ensures After(w, steps[..n + 1]) == Apply(After(w, steps[..n]), steps[n])
    decreases n
  {
    hide Enabled, Apply;
    if n == 0 {
      assert steps[..1][1..] == [] && steps[..1][0] == steps[0];
    } else {
      PrefixRun(Apply(w, steps[0]), tokens, limit, steps[1..], n - 1);
      assert steps[..n][1..] == steps[1..][..n - 1] && steps[..n + 1][1..] == steps[1..][..n];
    }
  }

  // ----- A token is answered with success once -----

  /** The process has linked the claim file of this key and not yet answered. */
  predicate Winning(p: Proc, key: ClaimKey) {
    p.task.Claiming? && KeyOf(p.task.claim) == key && p.pc.Cleaning? && p.pc.linked
  }

  /** The step makes a claiming call for this key answer true. */
  ghost predicate AnswersTrue(w: World, step: Step, key: ClaimKey) {
    var w' := Apply(w, step);
    exists pid :: pid in w'.procs && ClaimedTrue(w'.procs[pid], key) &&
                  !(pid in w.procs && w.procs[pid] == w'.procs[pid])
  }

  predicate ClaimedTrue(p: Proc, key: ClaimKey) {
    p.task.Claiming? && KeyOf(p.task.claim) == key && p.pc == Ended(true)
  }

  /** At most one process is about to answer true, and only after a link. */
  ghost predicate OneWinner(w: World, key: ClaimKey) {
    forall p :: p in w.procs && Winning(w.procs[p], key) ==>
      WinsOf(w, key) >= 1 && forall q :: q in w.procs && Winning(w.procs[q], key) ==> p == q
  }

  /** The token has been answered: linked once, and nobody is about to answer true. */
  ghost predicate Settled(w: World, key: ClaimKey) {
    WinsOf(w, key) >= 1 && forall p :: p in w.procs ==> !Winning(w.procs[p], key)
  }

  /** How one action moves its process and the link count of a key. */
  lemma DoWins(w: World, pid: nat, action: Action, key: ClaimKey)
    requires pid in w.procs && At(w.procs[pid], action)
    ensures var p, w' := w.procs[pid], Do(w, pid, w.procs[pid], action);
            && WinsOf(w, key) <= WinsOf(w', key)
            && (pid in w'.procs && Winning(w'.procs[pid], key) ==>
                  || (Winning(p, key) && w'.procs[pid] == p) || WinsOf(w', key) == WinsOf(w, key) + 1)
            && (pid in w'.procs && ClaimedTrue(w'.procs[pid], key) ==>
                  w'.procs[pid] == p || (Winning(p, key) && action.RemoveTemp?))
            && (action.RemoveTemp? && Winning(p, key) ==> pid in w'.procs && !Winning(w'.procs[pid], key))
  {
    hide FreshInode, KeyOf, Victim;
  }

  lemma StepWins(w: World, tokens: map<ClaimKey, Token>, step: Step, key: ClaimKey)
    requires Enabled(w, tokens, CALL_LIMIT, step) && OneWinner(w, key)
    requires WinsOf(w, key) <= 1 && WinsOf(Apply(w, step), key) <= 1
    ensures OneWinner(Apply(w, step), key)
    ensures AnswersTrue(w, step, key) ==> !Settled(w, key) && Settled(Apply(w, step), key)
    ensures Settled(w, key) ==> Settled(Apply(w, step), key)
  {
    hide Do, KeyOf, MayBegin;
    if step.Act? && !step.action.Begin? {
      DoMovesPc(w, step.pid, step.action);
      DoWins(w, step.pid, step.action, key);
    }
  }

  /** The world after the first `n` steps. */
  ghost function Moment(steps: seq<Step>, n: nat): World
    requires n <= |steps|
  {
    After(EMPTY, steps[..n])
  }

  lemma MomentStep(tokens: map<ClaimKey, Token>, limit: Time, steps: seq<Step>, n: nat)
    requires IsRun(EMPTY, tokens, limit, steps) && n < |steps|
    ensures IsRun(EMPTY, tokens, limit, steps[..n]) && Enabled(Moment(steps, n), tokens, limit, steps[n])
    ensures Moment(steps, n + 1) == Apply(Moment(steps, n), steps[n])
    ensures Moment(steps, 0) == EMPTY
  {
    hide Enabled, Apply;
    PrefixRun(EMPTY, tokens, limit, steps, n);
    assert steps[..0] == [];
  }

  lemma WinsAtMost(tokens: map<ClaimKey, Token>, steps: seq<Step>, key: ClaimKey, n: nat)
    requires IsRun(EMPTY, tokens, CALL_LIMIT, steps) && n <= |steps|
    ensures WinsOf(Moment(steps, n), key) <= 1
  {
    hide IsRun, After, WinsOf;
    assert steps == steps[..n] + steps[n..];
    SplitRun(EMPTY, tokens, CALL_LIMIT, steps[..n], steps[n..]);
    SingleWinner(tokens, steps[..n], key);
  }

  lemma {:induction false} OneWinnerAt(tokens: map<ClaimKey, Token>, steps: seq<Step>, key: ClaimKey, n: nat)
    requires IsRun(EMPTY, tokens, CALL_LIMIT, steps) && n <= |steps|
    ensures OneWinner(Moment(steps, n), key)
    decreases n
  {
    hide IsRun, After, Enabled, Apply, WinsOf, OneWinner;
    if n == 0 {
      assert steps[..0] == [];
      NobodyAtStart(key);
    } else {
      OneWinnerAt(tokens, steps, key, n - 1);
      MomentStep(tokens, CALL_LIMIT, steps, n - 1);
      WinsAtMost(tokens, steps, key, n - 1);
      WinsAtMost(tokens, steps, key, n);
      StepWins(Moment(steps, n - 1), tokens, steps[n - 1], key);
    }
  }

  lemma NobodyAtStart(key: ClaimKey)
    ensures After(EMPTY, []) == EMPTY && OneWinner(EMPTY, key)
  {
  }

  lemma {:induction false} SettledAfter(
      tokens: map<ClaimKey, Token>, steps: seq<Step>, key: ClaimKey, a: nat, n: nat)
    requires IsRun(EMPTY, tokens, CALL_LIMIT, steps) && a < n <= |steps|
    requires AnswersTrue(Moment(steps, a), steps[a], key)
    ensures Settled(Moment(steps, n), key)
    decreases n
  {
    hide IsRun, After, Enabled, Apply, WinsOf, OneWinner, Settled, AnswersTrue;
    OneWinnerAt(tokens, steps, key, n - 1);
    MomentStep(tokens, CALL_LIMIT, steps, n - 1);
    WinsAtMost(tokens, steps, key, n - 1);
    WinsAtMost(tokens, steps, key, n);
    StepWins(Moment(steps, n - 1), tokens, steps[n - 1], key);
    if a < n - 1 {
      SettledAfter(tokens, steps, key, a, n - 1);
    }
  }

  /**
   * One success: over every interleaving of calls on all replicas, with crashes anywhere and every
   * claiming call within the call limit, at most one step makes a call for a token answer true.
   */
  lemma AnsweredOnce(tokens: map<ClaimKey, Token>, steps: seq<Step>, key: ClaimKey, a: nat, b: nat)
    requires IsRun(EMPTY, tokens, CALL_LIMIT, steps) && a < |steps| && b < |steps|
    requires AnswersTrue(Moment(steps, a), steps[a], key) && AnswersTrue(Moment(steps, b), steps[b], key)
    ensures a == b
  {
    hide IsRun, After, Enabled, Apply, WinsOf, OneWinner, Settled, AnswersTrue;
    if a != b {
      var first, last := if a < b then a else b, if a < b then b else a;
      SettledAfter(tokens, steps, key, first, last);
      OneWinnerAt(tokens, steps, key, last);
      MomentStep(tokens, CALL_LIMIT, steps, last);
      WinsAtMost(tokens, steps, key, last);
      WinsAtMost(tokens, steps, key, last + 1);
      StepWins(Moment(steps, last), tokens, steps[last], key);
    }
  }

  // ----- Success means an own link, and an own link means success -----

  /** The step gives the target name of the process, free until now, to the inode with its whole record. */
  ghost predicate LinksOwn(w: World, step: Step, pid: nat, task: Task, started: Time)
    requires task.Writes()
  {
    && step == Act(pid, LinkFile) && pid in w.procs && w.procs[pid].task == task && w.procs[pid].started == started
    && w.procs[pid].pc.Linking?
    && match task
       case Claiming(c) =>
         var n := ClaimFile(ClaimKey(c.issuer, c.clientID, c.jti));
         Gains(w, Apply(w, step), n, w.procs[pid].pc.i, ClaimRecord(c))
       case Storing(id, s) => Gains(w, Apply(w, step), SessionFile(id), w.procs[pid].pc.i, SessionRecord(s))
  }

  /** The name was free and now leads to this inode, which holds the whole record. */
  ghost predicate Gains(w: World, w': World, n: Name, i: nat, rec: Record) {
    n !in w.names && n in w'.names && w'.names[n] == i && i in w'.inodes && w'.inodes[i] == Whole(rec)
  }

  /** The process is not crashed from position `k` up to `n`. */
  ghost predicate Survives(steps: seq<Step>, k: nat, n: nat, pid: nat)
    requires n <= |steps|
  {
    forall m :: k <= m < n ==> steps[m] != Act(pid, Crash)
  }

  predicate HasLinked(pc: Pc) {
    (pc.Cleaning? && pc.linked) || pc == Ended(true)
  }

  predicate SameCall(p: Proc, q: Proc) {
    p.task == q.task && p.started == q.started
  }

  lemma DoLinks(w: World, pid: nat, action: Action)
    requires pid in w.procs && At(w.procs[pid], action) && w.procs[pid].task.Writes() && !action.Crash?
    requires w.procs[pid].pc.Linking? ==>
               w.procs[pid].pc.i in w.inodes && w.inodes[w.procs[pid].pc.i] == Whole(w.procs[pid].task.Rec())
    ensures var p, w' := w.procs[pid], Do(w, pid, w.procs[pid], action);
            && pid in w'.procs && SameCall(w'.procs[pid], p)
            && (HasLinked(w'.procs[pid].pc) <==>
                  HasLinked(p.pc) || (action.LinkFile? && p.task.Target() !in w.names))
            && (action.LinkFile? && p.task.Target() !in w.names ==>
                  && p.task.Target() in w'.names && w'.names[p.task.Target()] == p.pc.i
                  && w'.inodes == w.inodes)
  {
    hide FreshInode, KeyOf, Victim;
  }

  /** One step of a writing process: it has linked exactly by a link of its own, now or before. */
  lemma LinkStep(w: World, tokens: map<ClaimKey, Token>, limit: Time, step: Step, pid: nat)
    requires Visible(w) && Enabled(w, tokens, limit, step)
    requires pid in Apply(w, step).procs && Apply(w, step).procs[pid].task.Writes()
    ensures var p := Apply(w, step).procs[pid];
            && step != Act(pid, Crash)
            && (pid in w.procs ==> SameCall(w.procs[pid], p))
            && (HasLinked(p.pc) <==>
                  || LinksOwn(w, step, pid, p.task, p.started)
                  || (pid in w.procs && HasLinked(w.procs[pid].pc)))
  {
    hide Do, KeyOf, MayBegin, Complete, Gains;
    if step.Act? && !step.action.Begin? {
      DoMovesPc(w, step.pid, step.action);
      if step.pid == pid {
        assert ProcOk(w, pid, w.procs[pid]);
        if !step.action.Crash? {
          LinkingHolds(w, pid);
          DoLinks(w, pid, step.action);
          if step.action.LinkFile? {
            OwnLink(w, pid);
          }
        }
      }
    }
  }

  lemma OwnLink(w: World, pid: nat)
    requires Visible(w) && pid in w.procs && At(w.procs[pid], LinkFile)
    ensures LinksOwn(w, Act(pid, LinkFile), pid, w.procs[pid].task, w.procs[pid].started) <==>
              w.procs[pid].task.Target() !in w.names
  {
    hide Do, Visible;
    LinkingHolds(w, pid);
    DoLinks(w, pid, LinkFile);
  }

  lemma LinkingHolds(w: World, pid: nat)
    requires Visible(w) && pid in w.procs && w.procs[pid].task.Writes()
    ensures w.procs[pid].pc.Linking? ==>
              w.procs[pid].pc.i in w.inodes && w.inodes[w.procs[pid].pc.i] == Whole(w.procs[pid].task.Rec())
  {
    HeldIsOwned(w, pid);
    assert ProcOk(w, pid, w.procs[pid]);
  }

  lemma VisibleAt(tokens: map<ClaimKey, Token>, limit: Time, steps: seq<Step>, n: nat)
    requires IsRun(EMPTY, tokens, limit, steps) && n <= |steps|
    ensures Visible(Moment(steps, n))
  {
    hide IsRun, After, Visible;
    assert steps == steps[..n] + steps[n..];
    SplitRun(EMPTY, tokens, limit, steps[..n], steps[n..]);
    EmptyIsFine(tokens);
    RunVisible(EMPTY, tokens, limit, steps[..n]);
  }

  /** At position `k` the call of this process linked its own record, and it was not crashed up to `n`. */
  ghost predicate LinkedAt(steps: seq<Step>, k: nat, n: nat, pid: nat, p: Proc)
    requires k < n <= |steps| && p.task.Writes()
  {
    LinksOwn(Moment(steps, k), steps[k], pid, p.task, p.started) && Survives(steps, k + 1, n, pid)
  }

  /** While it survives, the process stays the same call. */
  lemma {:induction false} StaysSameCall(
      tokens: map<ClaimKey, Token>, limit: Time, steps: seq<Step>, k: nat, n: nat, pid: nat, p: Proc)
    requires IsRun(EMPTY, tokens, limit, steps) && k < n <= |steps| && p.task.Writes()
    requires LinkedAt(steps, k, n, pid, p)
    ensures pid in Moment(steps, n).procs && SameCall(Moment(steps, n).procs[pid], p)
    ensures HasLinked(Moment(steps, n).procs[pid].pc)
    decreases n
  {
    hide IsRun, After, Enabled, Apply, HasLinked, LinksOwn, Visible;
    MomentStep(tokens, limit, steps, n - 1);
    VisibleAt(tokens, limit, steps, n - 1);
    var w := Moment(steps, n - 1);
    if k == n - 1 {
      LinkerStays(w, tokens, limit, steps[k], pid, p);
    } else {
      assert LinkedAt(steps, k, n - 1, pid, p);
      StaysSameCall(tokens, limit, steps, k, n - 1, pid, p);
      assert steps[n - 1] != Act(pid, Crash);
      SurvivorStays(w, tokens, limit, steps[n - 1], pid);
    }
    LinkStep(w, tokens, limit, steps[n - 1], pid);
  }

  lemma LinkerStays(w: World, tokens: map<ClaimKey, Token>, limit: Time, step: Step, pid: nat, p: Proc)
    requires Enabled(w, tokens, limit, step) && p.task.Writes() && LinksOwn(w, step, pid, p.task, p.started)
    ensures pid in Apply(w, step).procs && SameCall(Apply(w, step).procs[pid], p)
  {
    hide Do, KeyOf, MayBegin;
    DoMovesPc(w, pid, LinkFile);
  }

  lemma SurvivorStays(w: World, tokens: map<ClaimKey, Token>, limit: Time, step: Step, pid: nat)
    requires Enabled(w, tokens, limit, step) && pid in w.procs && step != Act(pid, Crash)
    ensures pid in Apply(w, step).procs && SameCall(Apply(w, step).procs[pid], w.procs[pid])
  {
    hide Do, KeyOf, MayBegin;
    if step.Act? && !step.action.Begin? {
      DoMovesPc(w, step.pid, step.action);
    }
  }

  lemma {:induction false} LinkedIff(
      tokens: map<ClaimKey, Token>, limit: Time, steps: seq<Step>, n: nat, pid: nat)
    requires IsRun(EMPTY, tokens, limit, steps) && n <= |steps|
    requires pid in Moment(steps, n).procs && Moment(steps, n).procs[pid].task.Writes()
    ensures var p := Moment(steps, n).procs[pid];
            HasLinked(p.pc) <==> exists k :: 0 <= k < n && LinkedAt(steps, k, n, pid, p)
    decreases n
  {
    hide IsRun, After, Enabled, Apply, HasLinked, LinksOwn, Visible;
    var p := Moment(steps, n).procs[pid];
    if HasLinked(p.pc) {
      if n == 0 {
        assert steps[..0] == [];
        NoProcsAtStart();
      } else {
        MomentStep(tokens, limit, steps, n - 1);
        VisibleAt(tokens, limit, steps, n - 1);
        LinkStep(Moment(steps, n - 1), tokens, limit, steps[n - 1], pid);
        if LinksOwn(Moment(steps, n - 1), steps[n - 1], pid, p.task, p.started) {
          assert LinkedAt(steps, n - 1, n, pid, p);
        } else {
          LinkedIff(tokens, limit, steps, n - 1, pid);
          var k :| 0 <= k < n - 1 && LinkedAt(steps, k, n - 1, pid, Moment(steps, n - 1).procs[pid]);
          assert LinkedAt(steps, k, n, pid, p);
        }
      }
    }
    if k :| 0 <= k < n && LinkedAt(steps, k, n, pid, p) {
      StaysSameCall(tokens, limit, steps, k, n, pid, p);
    }
  }

  lemma NoProcsAtStart()
    ensures After(EMPTY, []).procs == map[]
  {
  }

  /**
   * What a finished call answers: a claiming call, or one attempt to store a session under a candidate
   * id, reports success exactly if at some point of the call the name was free and the link gave it
   * to this call's own complete record.
   */
  lemma AnswerIff(tokens: map<ClaimKey, Token>, limit: Time, steps: seq<Step>, pid: nat)
    requires IsRun(EMPTY, tokens, limit, steps)
    requires pid in After(EMPTY, steps).procs
    requires After(EMPTY, steps).procs[pid].task.Writes() && After(EMPTY, steps).procs[pid].pc.Ended?
    ensures var p := After(EMPTY, steps).procs[pid];
            p.pc.won <==> exists k :: 0 <= k < |steps| && LinkedAt(steps, k, |steps|, pid, p)
  {
    hide IsRun, After, LinkedAt;
    assert steps[..|steps|] == steps;
    LinkedIff(tokens, limit, steps, |steps|, pid);
  }

  // ----- A refusal has a cause -----

  predicate IsRefused(pc: Pc) {
    (pc.Cleaning? && !pc.linked) || pc == Ended(false)
  }

  /**
   * The step refuses the call: it reads a claim of the same token that is live by its clock reading,
   * finds the name taken when it links, or gives up a write.
   */
  ghost predicate Refuses(w: World, step: Step, pid: nat, p: Proc)
    requires p.task.Writes()
  {
    && step.Act? && step.pid == pid && pid in w.procs && SameCall(w.procs[pid], p)
    && ((step.action.ReadFile? && p.task.Claiming? &&
         exists c :: FileHolds(w, KeyOf(p.task.claim), c) && p.started < c.expires)
        || (step.action.LinkFile? && p.task.Target() in w.names)
        || (step.action.RemoveTemp? && (w.procs[pid].pc.Writing? || w.procs[pid].pc.Linking?)))
  }

  lemma DoRefuses(w: World, pid: nat, action: Action)
    requires NamesComplete(w) && pid in w.procs && At(w.procs[pid], action) && w.procs[pid].task.Writes()
    requires Fits(w.procs[pid].task, w.procs[pid].pc)
    requires pid in Do(w, pid, w.procs[pid], action).procs && IsRefused(Do(w, pid, w.procs[pid], action).procs[pid].pc)
    ensures IsRefused(w.procs[pid].pc) || Refuses(w, Act(pid, action), pid, w.procs[pid])
  {
    hide FreshInode, KeyOf, Victim, AfterCheck;
    var p := w.procs[pid];
    if action.ReadFile? && p.task.Target() in w.names {
      assert Complete(w, p.task.Target());
      assert FileHolds(w, KeyOf(p.task.claim), w.inodes[w.names[p.task.Target()]].rec.claim);
    }
  }

  lemma RefusalStep(w: World, tokens: map<ClaimKey, Token>, limit: Time, step: Step, pid: nat)
    requires Visible(w) && Enabled(w, tokens, limit, step)
    requires pid in Apply(w, step).procs && Apply(w, step).procs[pid].task.Writes()
    requires IsRefused(Apply(w, step).procs[pid].pc)
    ensures var p := Apply(w, step).procs[pid];
            || Refuses(w, step, pid, p)
            || (pid in w.procs && SameCall(w.procs[pid], p) && IsRefused(w.procs[pid].pc))
  {
    hide Do, KeyOf, MayBegin, Complete, FileHolds, Fits;
    if step.Act? && !step.action.Begin? {
      DoMovesPc(w, step.pid, step.action);
      if step.pid == pid {
        assert ProcOk(w, pid, w.procs[pid]);
        DoRefuses(w, pid, step.action);
      }
    }
  }

  /**
   * No call is refused without cause: it read a live claim of the same token, found the name taken at
   * its link, or failed to write its temporary file.
   */
  lemma {:induction false} RefusedForCause(
      tokens: map<ClaimKey, Token>, limit: Time, steps: seq<Step>, n: nat, pid: nat)
    requires IsRun(EMPTY, tokens, limit, steps) && n <= |steps|
    requires pid in Moment(steps, n).procs && Moment(steps, n).procs[pid].task.Writes()
    requires IsRefused(Moment(steps, n).procs[pid].pc)
    ensures exists k :: 0 <= k < n && Refuses(Moment(steps, k), steps[k], pid, Moment(steps, n).procs[pid])
    decreases n
  {
    hide IsRun, After, Enabled, Apply, IsRefused, Refuses, Visible;
    if n == 0 {
      assert steps[..0] == [];
      NoProcsAtStart();
    } else {
      MomentStep(tokens, limit, steps, n - 1);
      VisibleAt(tokens, limit, steps, n - 1);
      var w, p := Moment(steps, n - 1), Moment(steps, n).procs[pid];
      RefusalStep(w, tokens, limit, steps[n - 1], pid);
      if !Refuses(w, steps[n - 1], pid, p) {
        RefusedForCause(tokens, limit, steps, n - 1, pid);
        var k :| 0 <= k < n - 1 && Refuses(Moment(steps, k), steps[k], pid, w.procs[pid]);
        SameCause(Moment(steps, k), steps[k], pid, w.procs[pid], p);
      }
    }
  }

  lemma SameCause(w: World, step: Step, pid: nat, p: Proc, q: Proc)
    requires p.task.Writes() && SameCall(p, q) && Refuses(w, step, pid, p)
    ensures Refuses(w, step, pid, q)
  {
  }

  // ----- Dot-files are in use, or left by a crash -----

  ghost predicate Held(w: World, i: nat) {
    exists pid :: pid in w.procs && w.procs[pid].pc.Holds(i)
  }

  ghost predicate CrashesHolder(w: World, step: Step, i: nat) {
    step.Act? && step.action.Crash? && step.pid in w.procs && w.procs[step.pid].pc.Holds(i)
  }

  /** What one action does to dot-files and to who holds them. */
  lemma DoTemps(w: World, pid: nat, action: Action, i: nat)
    requires pid in w.procs && At(w.procs[pid], action)
    ensures var p, w' := w.procs[pid], Do(w, pid, w.procs[pid], action);
            Temp(i) in w'.names ==>
              || (pid in w'.procs && w'.procs[pid].pc.Holds(i))
              || (p.pc.Holds(i) && action.Crash?)
              || (Temp(i) in w.names && !p.pc.Holds(i))
  {
    hide FreshInode, KeyOf, AfterRead, AfterCheck;
  }

  lemma TempStep(w: World, tokens: map<ClaimKey, Token>, limit: Time, step: Step, i: nat)
    requires Enabled(w, tokens, limit, step) && Temp(i) in Apply(w, step).names
    ensures Held(Apply(w, step), i) || CrashesHolder(w, step, i) || (Temp(i) in w.names && !Held(w, i))
  {
    hide Do, KeyOf, MayBegin;
    var w' := Apply(w, step);
    if step.Act? && !step.action.Begin? {
      DoMovesPc(w, step.pid, step.action);
      DoTemps(w, step.pid, step.action, i);
    }
    if Held(w, i) && !CrashesHolder(w, step, i) {
      var q :| q in w.procs && w.procs[q].pc.Holds(i);
      if !(step.Act? && step.pid == q) {
        assert q in w'.procs && w'.procs[q] == w.procs[q];
      }
    }
  }

  /** Every dot-file belongs to a call still working on it, or to one that crashed while it did. */
  lemma {:induction false} DotFilesAccounted(
      tokens: map<ClaimKey, Token>, limit: Time, steps: seq<Step>, n: nat, i: nat)
    requires IsRun(EMPTY, tokens, limit, steps) && n <= |steps| && Temp(i) in Moment(steps, n).names
    ensures Held(Moment(steps, n), i) || exists k :: 0 <= k < n && CrashesHolder(Moment(steps, k), steps[k], i)
    decreases n
  {
    hide IsRun, After, Enabled, Apply, Held, CrashesHolder;
    if n == 0 {
      assert steps[..0] == [];
      NoNamesAtStart();
    } else {
      MomentStep(tokens, limit, steps, n - 1);
      TempStep(Moment(steps, n - 1), tokens, limit, steps[n - 1], i);
      if Temp(i) in Moment(steps, n - 1).names && !Held(Moment(steps, n - 1), i) {
        DotFilesAccounted(tokens, limit, steps, n - 1, i);
      }
    }
  }

  lemma NoNamesAtStart()
    ensures After(EMPTY, []).names == map[]
  {
  }
}

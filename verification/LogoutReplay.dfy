/**
 * The store taken apart into single file-system steps (read, remove, create, write, link, unlink),
 * by any number of processes that may crash at any point: what a reader can see, how often one logout
 * token can be claimed, and whether a lookup finds the claim that revokes its session.
 */
module LogoutReplay {
  import opened LogoutStore

  // ----- The file system -----

  /** Temporary names start with a dot; no reader considers them. */
  datatype Name = SessionFile(id: string) | ClaimFile(key: ClaimKey) | Temp(inode: nat)

  datatype Record = SessionRecord(session: Session) | ClaimRecord(claim: Claim)

  /** A file being written holds any part of its record until the write is complete. */
  datatype Content = Partial(rec: Record) | Whole(rec: Record)

  // ----- Processes -----

  /** The times of a logout token, in whole Unix seconds. */
  datatype Token = Token(iat: int, exp: int)

  datatype Task =
    | Claiming(claim: Claim)                    // claimLogout
    | Storing(id: string, session: Session)     // one attempt of createSession
    | Checking(session: Session)                // sessionRevoked
    | Removing(id: string)                      // deleteSession, deleteSessions
  {
    function Target(): Name
      requires !Checking?
    {
      match this
      case Claiming(c) => ClaimFile(KeyOf(c))
      case Storing(id, _) => SessionFile(id)
      case Removing(id) => SessionFile(id)
    }

    predicate Writes() { Claiming? || Storing? }

    function Rec(): Record
      requires Writes()
    {
      if Claiming? then ClaimRecord(claim) else SessionRecord(session)
    }
  }

  /** A check lists the claim files, reads them in turn and drops the expired ones on its way. */
  datatype Pc =
    | Reading
    | Unlinking
    | Creating
    | Writing(i: nat)
    | Linking(i: nat)
    | Cleaning(i: nat, linked: bool)
    | Ended(won: bool)
    | Listing
    | Scanning(todo: seq<ClaimKey>)
    | Dropping(key: ClaimKey, todo: seq<ClaimKey>)
    | Verdict(revoked: bool)
  {
    predicate Holds(x: nat) { (Writing? || Linking? || Cleaning?) && i == x }
    predicate Private(x: nat) { (Writing? || Linking?) && i == x }
  }

  /** `started` is the process's one clock reading. */
  datatype Proc = Proc(task: Task, started: Time, pc: Pc)

  /** `owner` records which process created each inode, `wins` counts the links of each claim file. */
  datatype World = World(
    names: map<Name, nat>, inodes: map<nat, Content>, procs: map<nat, Proc>, clock: Time,
    owner: map<nat, nat>, wins: map<ClaimKey, nat>)

  // ----- Steps -----

  datatype Action =
    | Begin(task: Task)
    | ReadFile
    | RemoveFile
    | CreateFile
    | WriteSome
    | WriteAll
    | LinkFile
    | RemoveTemp
    | ListDir(order: seq<ClaimKey>)
    | CheckNext
    | Crash
  datatype Step = Tick(to: Time) | Act(pid: nat, action: Action)

  /** The time a call may take after its clock reading: the claim's retention less the acceptance window. */
  const CALL_LIMIT: Time := MAXIMUM_SESSION_LIFETIME - 5 * MINUTE

  function TokenOf(c: Claim, times: Token): LogoutToken {
    LogoutToken(c.issuer, c.clientID, c.jti, c.sid, c.subject, times.iat, times.exp, false, true)
  }

  /** A claiming call is for a token its handler accepts. A token id is never reused: it fixes the times. */
  ghost predicate MayBegin(tokens: map<ClaimKey, Token>, task: Task, now: Time) {
    task.Claiming? ==>
      && KeyOf(task.claim) in tokens
      && var t := TokenOf(task.claim, tokens[KeyOf(task.claim)]);
         t.Complete() && t.Timely(now) && task.claim == ClaimOf(t).(received := now)
  }

  /** A listing returns every file there is; it may also return names that are gone. */
  ghost predicate ListsAll(w: World, order: seq<ClaimKey>) {
    forall key :: ClaimFile(key) in w.names ==> key in order
  }

  /** `limit` bounds how long a claiming call may last; every other step is free. */
  ghost predicate Enabled(w: World, tokens: map<ClaimKey, Token>, limit: Time, step: Step) {
    match step
    case Tick(to) => w.clock <= to
    case Act(pid, action) =>
      if action.Begin? then pid !in w.procs && MayBegin(tokens, action.task, w.clock)
      else
        && pid in w.procs
        && At(w.procs[pid], action)
        && (action.ListDir? ==> ListsAll(w, action.order))
        && (w.procs[pid].task.Claiming? && !action.Crash? ==> w.clock < w.procs[pid].started + limit)
  }

  /** A step needs its program counter; the deferred removal of the temporary file also ends a failed write. */
  predicate At(p: Proc, action: Action) {
    match action
    case ReadFile => p.pc.Reading? && p.task.Claiming?
    case RemoveFile => p.pc.Dropping? || (p.pc.Unlinking? && !p.task.Checking?)
    case CreateFile => p.pc.Creating? && p.task.Writes()
    case WriteSome => p.pc.Writing? && p.task.Writes()
    case WriteAll => p.pc.Writing? && p.task.Writes()
    case LinkFile => p.pc.Linking? && p.task.Writes()
    case RemoveTemp => p.pc.Writing? || p.pc.Linking? || p.pc.Cleaning?
    case ListDir(_) => p.pc.Listing?
    case CheckNext => p.pc.Scanning? && p.task.Checking?
    case Crash => true
    case Begin(_) => false
  }

  function FirstPc(task: Task): Pc {
    match task
    case Claiming(_) => Reading
    case Storing(_, _) => Creating
    case Checking(_) => Listing
    case Removing(_) => Unlinking
  }

  /** claimLogout after reading the claim file: an expired claim is removed, a live one respected. */
  function AfterRead(names: map<Name, nat>, inodes: map<nat, Content>, p: Proc): (next: Pc)
    requires p.task.Claiming?
    ensures next.Creating? || next.Unlinking? || next.Ended?
  {
    if p.task.Target() !in names then Creating
    else if names[p.task.Target()] !in inodes then Ended(false)
    else
      match inodes[names[p.task.Target()]]
      case Whole(ClaimRecord(c)) => if c.expires > p.started then Ended(false) else Unlinking
      case _ => Ended(false)
  }

  /** sessionRevoked at the next listed file: one that is gone is skipped, an unreadable one is an error. */
  function AfterCheck(names: map<Name, nat>, inodes: map<nat, Content>, p: Proc): (next: Pc)
    requires p.task.Checking? && p.pc.Scanning?
    ensures next.Scanning? || next.Dropping? || next.Verdict? || next.Ended?
  {
    if p.pc.todo == [] then Verdict(false)
    else
      var key, rest := p.pc.todo[0], p.pc.todo[1..];
      if ClaimFile(key) !in names then Scanning(rest)
      else if names[ClaimFile(key)] !in inodes then Ended(false)
      else
        match inodes[names[ClaimFile(key)]]
        case Whole(ClaimRecord(c)) =>
          if c.expires <= p.started then Dropping(key, rest)
          else if Covers(c, p.task.session) then Verdict(true)
          else Scanning(rest)
        case _ => Ended(false)
  }

  /** The name a removal takes away. */
  function Victim(p: Proc): Name
    requires At(p, RemoveFile)
  {
    if p.pc.Dropping? then ClaimFile(p.pc.key) else p.task.Target()
  }

  function AfterRemove(p: Proc): Pc {
    if p.pc.Dropping? then Scanning(p.pc.todo) else if p.task.Claiming? then Creating else Ended(false)
  }

  function WinsOf(w: World, key: ClaimKey): nat {
    if key in w.wins then w.wins[key] else 0
  }

  ghost function FreshInode(w: World): (i: nat)
    ensures i !in w.owner
  {
    FreshExists(w.owner.Keys);
    var i: nat :| i !in w.owner;
    i
  }

  lemma FreshExists(used: set<nat>)
    ensures exists i: nat :: i !in used
  {
    var m := UpperBound(used);
    assert m !in used;
  }

  lemma {:induction false} UpperBound(used: set<nat>) returns (m: nat)
    ensures forall x :: x in used ==> x < m
    decreases |used|
  {
    if used == {} {
      m := 0;
    } else {
      var x :| x in used;
      var n := UpperBound(used - {x});
      m := if x < n then n else x + 1;
      assert used == (used - {x}) + {x};
    }
  }

  function WithPc(w: World, pid: nat, pc: Pc): World {
    if pid in w.procs then w.(procs := w.procs[pid := w.procs[pid].(pc := pc)]) else w
  }

  ghost function Apply(w: World, step: Step): World {
    match step
    case Tick(to) => w.(clock := to)
    case Act(pid, action) =>
      if action.Begin? then w.(procs := w.procs[pid := Proc(action.task, w.clock, FirstPc(action.task))])
      else if pid in w.procs && At(w.procs[pid], action) then Do(w, pid, w.procs[pid], action)
      else w
  }

  ghost function Do(w: World, pid: nat, p: Proc, action: Action): World
    requires At(p, action)
  {
    match action
    case ReadFile => WithPc(w, pid, AfterRead(w.names, w.inodes, p))
    case RemoveFile => WithPc(w.(names := w.names - {Victim(p)}), pid, AfterRemove(p))
    case CreateFile =>
      var i := FreshInode(w);
      var created := w.(names := w.names[Temp(i) := i], inodes := w.inodes[i := Partial(p.task.Rec())],
                        owner := w.owner[i := pid]);
      WithPc(created, pid, Writing(i))
    case WriteSome => w.(inodes := w.inodes[p.pc.i := Partial(p.task.Rec())])
    case WriteAll => WithPc(w.(inodes := w.inodes[p.pc.i := Whole(p.task.Rec())]), pid, Linking(p.pc.i))
    case LinkFile =>
      if p.task.Target() in w.names then WithPc(w, pid, Cleaning(p.pc.i, false))
      else WithPc(Linked(w, p), pid, Cleaning(p.pc.i, true))
    case RemoveTemp =>
      WithPc(w.(names := w.names - {Temp(p.pc.i)}), pid, Ended(p.pc.Cleaning? && p.pc.linked))
    case ListDir(order) => WithPc(w, pid, Scanning(order))
    case CheckNext => WithPc(w, pid, AfterCheck(w.names, w.inodes, p))
    case Crash => w.(procs := w.procs - {pid})
    case Begin(_) => w
  }

  /** The hard link succeeds only if the name is free. */
  function Linked(w: World, p: Proc): World
    requires At(p, LinkFile)
  {
    var claims := p.task.Claiming?;
    w.(names := w.names[p.task.Target() := p.pc.i],
       wins := if claims then w.wins[KeyOf(p.task.claim) := WinsOf(w, KeyOf(p.task.claim)) + 1] else w.wins)
  }

  const EMPTY := World(map[], map[], map[], 0, map[], map[])

  ghost predicate IsRun(w: World, tokens: map<ClaimKey, Token>, limit: Time, steps: seq<Step>)
    decreases |steps|
  {
    steps == [] || (Enabled(w, tokens, limit, steps[0]) && IsRun(Apply(w, steps[0]), tokens, limit, steps[1..]))
  }

  ghost function After(w: World, steps: seq<Step>): World
    decreases |steps|
  {
    if steps == [] then w else After(Apply(w, steps[0]), steps[1..])
  }

  // ----- What one action changes -----

  lemma DoMovesPc(w: World, pid: nat, action: Action)
    requires pid in w.procs && At(w.procs[pid], action)
    ensures var p, w' := w.procs[pid], Do(w, pid, w.procs[pid], action);
            && w'.clock == w.clock && (action.Crash? <==> pid !in w'.procs)
            && (pid in w'.procs ==>
                  && w'.procs[pid] == p.(pc := w'.procs[pid].pc)
                  && (action.ReadFile? ==> w'.procs[pid].pc == AfterRead(w.names, w.inodes, p))
                  && (action.CheckNext? ==> w'.procs[pid].pc == AfterCheck(w.names, w.inodes, p))
                  && (w'.procs[pid].pc.Unlinking? ==> action.ReadFile?)
                  && (w'.procs[pid].pc.Dropping? || w'.procs[pid].pc.Verdict? ==> action.CheckNext?))
            && (forall q :: q != pid ==> (q in w'.procs <==> q in w.procs))
            && (forall q :: q != pid && q in w.procs ==> w'.procs[q] == w.procs[q])
  {
    hide AfterRead, AfterCheck, FreshInode, KeyOf, Victim;
  }

  /** Names appear by creating a temporary file or by a link; a name readers consider goes only by a removal. */
  lemma DoMovesNames(w: World, pid: nat, action: Action)
    requires pid in w.procs && At(w.procs[pid], action)
    ensures var p, w' := w.procs[pid], Do(w, pid, w.procs[pid], action);
            && (forall n :: n in w'.names && !(n in w.names && w'.names[n] == w.names[n]) ==>
                  || (action.CreateFile? && n.Temp? && w'.names[n] !in w.owner)
                  || (action.LinkFile? && n !in w.names && n == p.task.Target() && w'.names[n] == p.pc.i))
            && (forall n :: n in w.names && n !in w'.names ==>
                  n.Temp? || (action.RemoveFile? && n == Victim(p)))
            && (action.RemoveFile? ==> Victim(p) !in w'.names)
            && (w'.wins != w.wins ==> action.LinkFile?)
  {
    hide AfterRead, AfterCheck, KeyOf, Victim;
  }

  /** Only the process that holds an inode before its link writes it; nobody takes over a used inode. */
  lemma DoMovesInodes(w: World, pid: nat, action: Action)
    requires pid in w.procs && At(w.procs[pid], action)
    ensures var p, w' := w.procs[pid], Do(w, pid, w.procs[pid], action);
            && (forall i :: i in w.owner ==> i in w'.owner && w'.owner[i] == w.owner[i])
            && (forall i :: i in w.inodes && i in w.owner && !p.pc.Private(i) ==>
                  i in w'.inodes && w'.inodes[i] == w.inodes[i])
            && (pid in w'.procs ==> forall i :: i in w.owner && w'.procs[pid].pc.Private(i) ==> p.pc.Private(i))
  {
    hide AfterRead, AfterCheck, KeyOf, Victim;
  }

  // ----- What a reader can see -----

  ghost predicate Complete(w: World, n: Name)
    requires n in w.names
  {
    && w.names[n] in w.inodes
    && match n
       case SessionFile(_) => w.inodes[w.names[n]].Whole? && w.inodes[w.names[n]].rec.SessionRecord?
       case ClaimFile(key) =>
         && w.inodes[w.names[n]].Whole? && w.inodes[w.names[n]].rec.ClaimRecord?
         && KeyOf(w.inodes[w.names[n]].rec.claim) == key
       case Temp(i) => w.names[n] == i
  }

  predicate Fits(task: Task, pc: Pc) {
    match task
    case Claiming(_) => !(pc.Listing? || pc.Scanning? || pc.Dropping? || pc.Verdict?)
    case Storing(_, _) => pc.Creating? || pc.Writing? || pc.Linking? || pc.Cleaning? || pc.Ended?
    case Checking(_) => pc.Listing? || pc.Scanning? || pc.Dropping? || pc.Verdict? || pc.Ended?
    case Removing(_) => pc.Unlinking? || pc.Ended?
  }

  /** A process owns the inode it works on, and no reader's name leads to it before the link. */
  ghost predicate ProcOk(w: World, pid: nat, p: Proc) {
    && Fits(p.task, p.pc)
    && (forall i :: p.pc.Holds(i) ==> i in w.owner && w.owner[i] == pid && i in w.inodes)
    && (forall i :: p.pc.Private(i) ==> forall n :: n in w.names && w.names[n] == i ==> n == Temp(i))
    && (p.pc.Linking? && p.task.Writes() ==> w.inodes[p.pc.i] == Whole(p.task.Rec()))
  }

  ghost predicate Visible(w: World) {
    && (forall n :: n in w.names ==> Complete(w, n) && w.names[n] in w.owner)
    && (forall pid :: pid in w.procs ==> ProcOk(w, pid, w.procs[pid]))
  }

  lemma OthersKept(w: World, w': World, pid: nat, q: nat, p: Proc)
    requires q != pid && ProcOk(w, q, p)
    requires forall i :: i in w.owner ==> i in w'.owner && w'.owner[i] == w.owner[i]
    requires forall i :: i in w.inodes ==> i in w'.inodes
    requires forall i :: i in w.inodes && i in w.owner && w.owner[i] == q ==> w'.inodes[i] == w.inodes[i]
    requires forall n :: n in w'.names && !(n in w.names && w.names[n] == w'.names[n]) ==>
               w'.names[n] in w'.owner && w'.owner[w'.names[n]] == pid
    ensures ProcOk(w', q, p)
  {
  }

  lemma StepVisible(w: World, tokens: map<ClaimKey, Token>, limit: Time, step: Step)
    requires Visible(w) && Enabled(w, tokens, limit, step)
    ensures Visible(Apply(w, step))
  {
    var w' := Apply(w, step);
    if step.Act? && !step.action.Begin? {
      ActVisible(w, step.pid, step.action);
    } else {
      assert forall n :: n in w.names ==> Complete(w, n);
      forall pid | pid in w'.procs
        ensures ProcOk(w', pid, w'.procs[pid])
      {
        if pid in w.procs {
          assert ProcOk(w, pid, w.procs[pid]);
        }
      }
    }
  }

  ghost predicate NamesComplete(w: World) {
    forall n :: n in w.names ==> Complete(w, n) && w.names[n] in w.owner
  }

  lemma QuietMoves(w: World, pid: nat, action: Action)
    requires pid in w.procs && At(w.procs[pid], action) && Fits(w.procs[pid].task, w.procs[pid].pc)
    requires !(action.CreateFile? || action.WriteSome? || action.WriteAll? || action.LinkFile?)
    ensures var w' := Do(w, pid, w.procs[pid], action);
            && w'.inodes == w.inodes && w'.owner == w.owner
            && (forall n :: n in w'.names ==> n in w.names && w'.names[n] == w.names[n])
            && (pid in w'.procs ==>
                  && Fits(w'.procs[pid].task, w'.procs[pid].pc)
                  && !(w'.procs[pid].pc.Writing? || w'.procs[pid].pc.Linking? || w'.procs[pid].pc.Cleaning?))
  {
    hide Victim, AfterRead, AfterCheck;
  }

  /** Steps that only remove names, or a process, or move a program counter past its file. */
  lemma QuietVisible(w: World, pid: nat, action: Action)
    requires Visible(w) && pid in w.procs && At(w.procs[pid], action)
    requires !(action.CreateFile? || action.WriteSome? || action.WriteAll? || action.LinkFile?)
    ensures NamesComplete(Do(w, pid, w.procs[pid], action))
    ensures var w' := Do(w, pid, w.procs[pid], action);
            pid in w'.procs ==> ProcOk(w', pid, w'.procs[pid])
  {
    hide Do, KeyOf;
    assert ProcOk(w, pid, w.procs[pid]);
    QuietMoves(w, pid, action);
    assert forall n :: n in w.names ==> Complete(w, n);
  }

  lemma CreateVisible(w: World, pid: nat)
    requires Visible(w) && pid in w.procs && At(w.procs[pid], CreateFile)
    ensures var w' := Do(w, pid, w.procs[pid], CreateFile);
            NamesComplete(w') && ProcOk(w', pid, w'.procs[pid])
  {
    hide KeyOf, FreshInode;
    assert ProcOk(w, pid, w.procs[pid]);
    var w' := Do(w, pid, w.procs[pid], CreateFile);
    forall n | n in w'.names
      ensures Complete(w', n) && w'.names[n] in w'.owner
    {
      if n in w.names {
        assert Complete(w, n) && w.names[n] in w.owner;
      }
    }
  }

  lemma WriteVisible(w: World, pid: nat, action: Action)
    requires Visible(w) && pid in w.procs && At(w.procs[pid], action) && (action.WriteSome? || action.WriteAll?)
    ensures var w' := Do(w, pid, w.procs[pid], action);
            NamesComplete(w') && ProcOk(w', pid, w'.procs[pid])
  {
    hide KeyOf;
    var i := w.procs[pid].pc.i;
    assert ProcOk(w, pid, w.procs[pid]);
    assert w.procs[pid].pc.Private(i) && w.procs[pid].pc.Holds(i);
    var w' := Do(w, pid, w.procs[pid], action);
    forall n | n in w'.names
      ensures Complete(w', n) && w'.names[n] in w'.owner
    {
      assert Complete(w, n) && w.names[n] in w.owner;
    }
  }

  lemma LinkVisible(w: World, pid: nat)
    requires Visible(w) && pid in w.procs && At(w.procs[pid], LinkFile)
    ensures var w' := Do(w, pid, w.procs[pid], LinkFile);
            NamesComplete(w') && ProcOk(w', pid, w'.procs[pid])
  {
    var p, i := w.procs[pid], w.procs[pid].pc.i;
    HeldIsOwned(w, pid);
    assert ProcOk(w, pid, p);
    hide ProcOk, KeyOf;
    var w' := Do(w, pid, p, LinkFile);
    forall n | n in w'.names
      ensures Complete(w', n) && w'.names[n] in w'.owner
    {
      if n in w.names {
        assert Complete(w, n) && w.names[n] in w.owner;
      }
    }
    LinkedProcOk(w, pid);
  }

  lemma LinkedProcOk(w: World, pid: nat)
    requires Visible(w) && pid in w.procs && At(w.procs[pid], LinkFile)
    ensures var w' := Do(w, pid, w.procs[pid], LinkFile);
            ProcOk(w', pid, w'.procs[pid])
  {
    hide KeyOf, Complete;
    HeldIsOwned(w, pid);
    assert ProcOk(w, pid, w.procs[pid]);
  }

  lemma ActVisible(w: World, pid: nat, action: Action)
    requires Visible(w) && pid in w.procs && At(w.procs[pid], action)
    ensures Visible(Do(w, pid, w.procs[pid], action))
  {
    hide KeyOf, Complete, AfterRead, FreshInode;
    var p, w' := w.procs[pid], Do(w, pid, w.procs[pid], action);
    OwnInodesOnly(w, pid, action);
    forall q | q in w'.procs && q != pid
      ensures ProcOk(w', q, w'.procs[q])
    {
      assert ProcOk(w, q, w.procs[q]);
      OthersKept(w, w', pid, q, w.procs[q]);
    }
    if action.CreateFile? {
      CreateVisible(w, pid);
    } else if action.LinkFile? {
      LinkVisible(w, pid);
    } else if action.WriteSome? || action.WriteAll? {
      WriteVisible(w, pid, action);
    } else {
      QuietVisible(w, pid, action);
    }
  }

  /** An action writes only its own inodes and adds only names that lead to them. */
  lemma OwnInodesOnly(w: World, pid: nat, action: Action)
    requires Visible(w) && pid in w.procs && At(w.procs[pid], action)
    ensures var w' := Do(w, pid, w.procs[pid], action);
            && (forall q :: q in w'.procs && q != pid ==> q in w.procs && w'.procs[q] == w.procs[q])
            && (forall i :: i in w.owner ==> i in w'.owner && w'.owner[i] == w.owner[i])
            && (forall i :: i in w.inodes ==> i in w'.inodes)
            && (forall i :: i in w.inodes && i in w.owner && w.owner[i] != pid ==> w'.inodes[i] == w.inodes[i])
            && (forall n :: n in w'.names && !(n in w.names && w.names[n] == w'.names[n]) ==>
                  w'.names[n] in w'.owner && w'.owner[w'.names[n]] == pid)
  {
    hide KeyOf, AfterRead, FreshInode, Complete, ProcOk;
    HeldIsOwned(w, pid);
  }

  lemma HeldIsOwned(w: World, pid: nat)
    requires Visible(w) && pid in w.procs
    ensures var pc := w.procs[pid].pc;
            pc.Writing? || pc.Linking? || pc.Cleaning? ==> pc.i in w.owner && w.owner[pc.i] == pid && pc.i in w.inodes
  {
    assert ProcOk(w, pid, w.procs[pid]);
    var pc := w.procs[pid].pc;
    assert pc.Writing? || pc.Linking? || pc.Cleaning? ==> pc.Holds(pc.i);
  }

  lemma {:induction false} RunVisible(w: World, tokens: map<ClaimKey, Token>, limit: Time, steps: seq<Step>)
    requires Visible(w) && IsRun(w, tokens, limit, steps)
    ensures Visible(After(w, steps))
    decreases |steps|
  {
    hide Visible, Enabled, Apply;
    if steps != [] {
      StepVisible(w, tokens, limit, steps[0]);
      RunVisible(Apply(w, steps[0]), tokens, limit, steps[1..]);
    }
  }

  // ----- Atomic visibility -----

  /**
   * After any steps of any processes, with crashes anywhere, every name a reader considers holds
   * exactly one complete record of the right kind.
   */
  lemma AtomicVisibility(tokens: map<ClaimKey, Token>, limit: Time, steps: seq<Step>)
    requires IsRun(EMPTY, tokens, limit, steps)
    ensures var w := After(EMPTY, steps);
            forall n :: n in w.names && !n.Temp? ==>
              && w.names[n] in w.inodes && w.inodes[w.names[n]].Whole?
              && match n
                 case SessionFile(_) => w.inodes[w.names[n]].rec.SessionRecord?
                 case ClaimFile(key) =>
                   w.inodes[w.names[n]].rec.ClaimRecord? && KeyOf(w.inodes[w.names[n]].rec.claim) == key
  {
    RunVisible(EMPTY, tokens, limit, steps);
    var w := After(EMPTY, steps);
    assert forall n :: n in w.names ==> Complete(w, n);
  }

  // ----- Records never change -----

  /** Nobody is still writing the inode or about to link it. */
  ghost predicate Frozen(w: World, i: nat) {
    && i in w.owner && i in w.inodes
    && forall pid :: pid in w.procs ==> !w.procs[pid].pc.Private(i)
  }

  /** A check drops an expired claim file, a claiming call its own expired one, a deletion its session. */
  ghost predicate Removes(w: World, step: Step, n: Name) {
    && step.Act? && step.action.RemoveFile? && step.pid in w.procs
    && var p := w.procs[step.pid];
       match p.task
       case Checking(_) => p.pc.Dropping? && n == ClaimFile(p.pc.key)
       case Claiming(c) => p.pc.Unlinking? && n == ClaimFile(ClaimKey(c.issuer, c.clientID, c.jti))
       case Removing(id) => p.pc.Unlinking? && n == SessionFile(id)
       case Storing(_, _) => false
  }

  lemma VictimIsRemoved(w: World, pid: nat, n: Name)
    requires Visible(w) && pid in w.procs && At(w.procs[pid], RemoveFile)
    ensures Victim(w.procs[pid]) == n <==> Removes(w, Act(pid, RemoveFile), n)
  {
    hide Complete;
    assert ProcOk(w, pid, w.procs[pid]);
  }

  /** Some step of the run takes the name away on purpose. */
  ghost predicate Removed(w: World, steps: seq<Step>, n: Name)
    decreases |steps|
  {
    steps != [] && (Removes(w, steps[0], n) || Removed(Apply(w, steps[0]), steps[1..], n))
  }

  lemma VisibleIsFrozen(w: World, n: Name)
    requires Visible(w) && n in w.names && !n.Temp?
    ensures Frozen(w, w.names[n])
  {
    hide KeyOf;
    assert Complete(w, n) && w.names[n] in w.owner;
    forall pid | pid in w.procs
      ensures !w.procs[pid].pc.Private(w.names[n])
    {
      assert ProcOk(w, pid, w.procs[pid]);
    }
  }

  /** A frozen inode keeps its content and gains no name. */
  lemma FrozenStep(w: World, tokens: map<ClaimKey, Token>, limit: Time, step: Step, i: nat)
    requires Visible(w) && Enabled(w, tokens, limit, step) && Frozen(w, i)
    ensures var w' := Apply(w, step);
            && Frozen(w', i) && w'.inodes[i] == w.inodes[i]
            && forall n :: n in w'.names && w'.names[n] == i ==> n in w.names && w.names[n] == i
  {
    hide Do, Visible, MayBegin;
    if step.Act? && !step.action.Begin? {
      DoMovesPc(w, step.pid, step.action);
      DoMovesNames(w, step.pid, step.action);
      DoMovesInodes(w, step.pid, step.action);
      var pc := w.procs[step.pid].pc;
      assert step.action.LinkFile? ==> pc.Private(pc.i);
    }
  }

  /** A name that readers consider goes exactly by a removal of it, and otherwise keeps its inode. */
  lemma NameStep(w: World, tokens: map<ClaimKey, Token>, limit: Time, step: Step, n: Name)
    requires Visible(w) && Enabled(w, tokens, limit, step) && n in w.names && !n.Temp?
    ensures n in Apply(w, step).names <==> !Removes(w, step, n)
    ensures n in Apply(w, step).names ==> Apply(w, step).names[n] == w.names[n]
  {
    hide KeyOf, Do, Visible, MayBegin, Victim;
    if step.Act? && !step.action.Begin? {
      DoMovesNames(w, step.pid, step.action);
      if step.action.RemoveFile? {
        VictimIsRemoved(w, step.pid, n);
      }
    } else {
      NotRemoved(w, step, n);
    }
  }

  lemma NotRemoved(w: World, step: Step, n: Name)
    requires !(step.Act? && step.action.RemoveFile?)
    ensures !Removes(w, step, n)
  {
  }

  lemma {:induction false} FrozenRun(w: World, tokens: map<ClaimKey, Token>, limit: Time, steps: seq<Step>, i: nat)
    requires Visible(w) && IsRun(w, tokens, limit, steps) && Frozen(w, i)
    ensures var w' := After(w, steps);
            && i in w'.inodes && w'.inodes[i] == w.inodes[i]
            && forall n :: n in w'.names && w'.names[n] == i ==> n in w.names && w.names[n] == i
    decreases |steps|
  {
    hide Visible, Enabled, Apply;
    if steps != [] {
      StepVisible(w, tokens, limit, steps[0]);
      FrozenStep(w, tokens, limit, steps[0], i);
      FrozenRun(Apply(w, steps[0]), tokens, limit, steps[1..], i);
    }
  }

  lemma {:induction false} NameRun(w: World, tokens: map<ClaimKey, Token>, limit: Time, steps: seq<Step>, n: Name)
    requires Visible(w) && IsRun(w, tokens, limit, steps) && n in w.names && !n.Temp? && !Removed(w, steps, n)
    ensures n in After(w, steps).names && After(w, steps).names[n] == w.names[n]
    decreases |steps|
  {
    hide Visible, Enabled, Apply, Removes;
    if steps != [] {
      StepVisible(w, tokens, limit, steps[0]);
      NameStep(w, tokens, limit, steps[0], n);
      NameRun(Apply(w, steps[0]), tokens, limit, steps[1..], n);
    }
  }

  lemma {:induction false} SplitRun(
      w: World, tokens: map<ClaimKey, Token>, limit: Time, before: seq<Step>, after: seq<Step>)
    requires IsRun(w, tokens, limit, before + after)
    ensures IsRun(w, tokens, limit, before) && IsRun(After(w, before), tokens, limit, after)
    ensures After(w, before + after) == After(After(w, before), after)
    decreases |before|
  {
    hide Enabled, Apply;
    if before == [] {
      assert before + after == after;
    } else {
      assert (before + after)[1..] == before[1..] + after;
      SplitRun(Apply(w, before[0]), tokens, limit, before[1..], after);
    }
  }

  /**
   * A record that has ever had a visible name is never overwritten, whatever happens later; and the
   * name leads to it until a step removes that very name.
   */
  lemma NeverOverwritten(
      tokens: map<ClaimKey, Token>, limit: Time, before: seq<Step>, after: seq<Step>, n: Name)
    requires IsRun(EMPTY, tokens, limit, before + after)
    requires n in After(EMPTY, before).names && !n.Temp?
    ensures var w, w' := After(EMPTY, before), After(EMPTY, before + after);
            && w.names[n] in w.inodes && w.names[n] in w'.inodes
            && w'.inodes[w.names[n]] == w.inodes[w.names[n]]
            && (Removed(w, after, n) || (n in w'.names && w'.names[n] == w.names[n]))
  {
    hide IsRun, After, Visible, Frozen, Removed;
    SplitRun(EMPTY, tokens, limit, before, after);
    var w := After(EMPTY, before);
    RunVisible(EMPTY, tokens, limit, before) by { EmptyIsFine(tokens); }
    VisibleIsFrozen(w, n);
    FrozenRun(w, tokens, limit, after, w.names[n]) by { FrozenExists(w, w.names[n]); }
    FrozenExists(w, w.names[n]);
    if !Removed(w, after, n) {
      NameRun(w, tokens, limit, after, n);
    }
  }

  lemma EmptyIsFine(tokens: map<ClaimKey, Token>)
    ensures Visible(EMPTY) && Claimed(EMPTY, tokens)
  {
  }

  lemma FrozenExists(w: World, i: nat)
    requires Frozen(w, i)
    ensures i in w.inodes
  {
  }

  /** A process that dies before its link leaves nothing behind but its dot-file, then and ever after. */
  lemma CrashLeavesDotFile(
      tokens: map<ClaimKey, Token>, limit: Time, before: seq<Step>, pid: nat, after: seq<Step>, n: Name)
    requires IsRun(EMPTY, tokens, limit, before + ([Act(pid, Crash)] + after))
    requires pid in After(EMPTY, before).procs
    requires var pc := After(EMPTY, before).procs[pid].pc;
             && (pc.Writing? || pc.Linking?)
             && var w' := After(EMPTY, before + ([Act(pid, Crash)] + after));
                n in w'.names && w'.names[n] == pc.i
    ensures n == Temp(After(EMPTY, before).procs[pid].pc.i)
  {
    hide IsRun, After, Visible, Frozen, Apply;
    var w := After(EMPTY, before);
    var i := w.procs[pid].pc.i;
    SplitRun(EMPTY, tokens, limit, before, [Act(pid, Crash)] + after);
    RunVisible(EMPTY, tokens, limit, before) by { EmptyIsFine(tokens); }
    FirstStep(w, tokens, limit, Act(pid, Crash), after);
    StepVisible(w, tokens, limit, Act(pid, Crash));
    CrashFreezes(w, pid);
    FrozenRun(Apply(w, Act(pid, Crash)), tokens, limit, after, i);
  }

  lemma FirstStep(w: World, tokens: map<ClaimKey, Token>, limit: Time, first: Step, rest: seq<Step>)
    requires IsRun(w, tokens, limit, [first] + rest)
    ensures Enabled(w, tokens, limit, first) && IsRun(Apply(w, first), tokens, limit, rest)
    ensures After(w, [first] + rest) == After(Apply(w, first), rest)
  {
    hide Enabled, Apply;
    assert ([first] + rest)[1..] == rest;
  }

  lemma CrashFreezes(w: World, pid: nat)
    requires Visible(w) && pid in w.procs && (w.procs[pid].pc.Writing? || w.procs[pid].pc.Linking?)
    ensures var w', i := Apply(w, Act(pid, Crash)), w.procs[pid].pc.i;
            && Frozen(w', i) && w'.names == w.names
            && forall n :: n in w.names && w.names[n] == i ==> n == Temp(i)
  {
    hide Complete;
    var i := w.procs[pid].pc.i;
    assert ProcOk(w, pid, w.procs[pid]) && w.procs[pid].pc.Private(i) && w.procs[pid].pc.Holds(i);
    forall q | q in w.procs && q != pid
      ensures !w.procs[q].pc.Private(i)
    {
      HeldIsOwned(w, q);
    }
  }

  // ----- A token is claimed once -----

  ghost function Retention(tokens: map<ClaimKey, Token>, key: ClaimKey): Time
    requires key in tokens
  {
    RetainUntil(tokens[key].iat * SECOND, tokens[key].exp * SECOND)
  }

  ghost predicate CallOk(tokens: map<ClaimKey, Token>, clock: Time, p: Proc) {
    && p.started <= clock
    && (p.task.Claiming? ==>
          var key := KeyOf(p.task.claim);
          && key in tokens && p.task.claim.expires == Retention(tokens, key)
          && p.started <= tokens[key].iat * SECOND + 5 * MINUTE && !p.pc.Unlinking?)
    && (p.pc.Dropping? ==> p.pc.key in tokens && Retention(tokens, p.pc.key) <= p.started)
  }

  /** At most one link so far; once there was one, the file stays until the claim's retention ends. */
  ghost predicate KeyOk(w: World, tokens: map<ClaimKey, Token>, key: ClaimKey) {
    && WinsOf(w, key) <= 1
    && (ClaimFile(key) in w.names ==>
          && key in tokens && WinsOf(w, key) == 1 && w.names[ClaimFile(key)] in w.inodes
          && exists c ::
               w.inodes[w.names[ClaimFile(key)]] == Whole(ClaimRecord(c)) && c.expires == Retention(tokens, key))
    && (WinsOf(w, key) == 1 && ClaimFile(key) !in w.names ==> key in tokens && Retention(tokens, key) <= w.clock)
  }

  ghost predicate Claimed(w: World, tokens: map<ClaimKey, Token>) {
    && (forall pid :: pid in w.procs ==> CallOk(tokens, w.clock, w.procs[pid]))
    && (forall key :: KeyOk(w, tokens, key))
  }

  lemma ReadDecides(w: World, tokens: map<ClaimKey, Token>, p: Proc)
    requires Claimed(w, tokens) && CallOk(tokens, w.clock, p) && At(p, ReadFile)
    ensures CallOk(tokens, w.clock, p.(pc := AfterRead(w.names, w.inodes, p)))
  {
    assert p.task.Target() == ClaimFile(KeyOf(p.task.claim));
    assert KeyOk(w, tokens, KeyOf(p.task.claim));
  }

  lemma CheckDecides(w: World, tokens: map<ClaimKey, Token>, p: Proc)
    requires Claimed(w, tokens) && CallOk(tokens, w.clock, p) && At(p, CheckNext)
    ensures CallOk(tokens, w.clock, p.(pc := AfterCheck(w.names, w.inodes, p)))
  {
    hide Covers;
    if p.pc.todo != [] {
      assert KeyOk(w, tokens, p.pc.todo[0]);
    }
  }

  /** A link happens early enough that an earlier winner's file would still be there. */
  lemma LinkKeepsKey(w: World, tokens: map<ClaimKey, Token>, pid: nat, key: ClaimKey)
    requires Claimed(w, tokens) && Visible(w) && Enabled(w, tokens, CALL_LIMIT, Act(pid, LinkFile))
    ensures KeyOk(Apply(w, Act(pid, LinkFile)), tokens, key)
  {
    var p := w.procs[pid];
    assert KeyOk(w, tokens, key) && CallOk(tokens, w.clock, p) && ProcOk(w, pid, p);
    assert p.pc.Holds(p.pc.i);
    if p.task.Claiming? && KeyOf(p.task.claim) == key && ClaimFile(key) !in w.names {
      var w' := Apply(w, Act(pid, LinkFile));
      assert w'.inodes[w'.names[ClaimFile(key)]] == Whole(ClaimRecord(p.task.claim));
    }
  }

  /** Only a link adds a claim file or a win. */
  lemma QuietForKey(w: World, tokens: map<ClaimKey, Token>, step: Step, key: ClaimKey)
    requires Enabled(w, tokens, CALL_LIMIT, step) && !(step.Act? && step.action.LinkFile?)
    ensures Apply(w, step).wins == w.wins && w.clock <= Apply(w, step).clock
    ensures ClaimFile(key) in Apply(w, step).names ==> ClaimFile(key) in w.names
  {
    hide KeyOf, Do, MayBegin;
    if step.Act? && !step.action.Begin? {
      DoMovesPc(w, step.pid, step.action);
      DoMovesNames(w, step.pid, step.action);
    }
  }

  lemma FileStays(w: World, tokens: map<ClaimKey, Token>, limit: Time, step: Step, n: Name)
    requires Visible(w) && Enabled(w, tokens, limit, step) && n in w.names && !n.Temp? && !Removes(w, step, n)
    ensures var w', i := Apply(w, step), w.names[n];
            && n in w'.names && w'.names[n] == i
            && i in w.inodes && i in w'.inodes && w'.inodes[i] == w.inodes[i]
  {
    hide Apply, Visible, Enabled, Removes;
    VisibleIsFrozen(w, n);
    FrozenStep(w, tokens, limit, step, w.names[n]);
    NameStep(w, tokens, limit, step, n);
  }

  lemma StepKeepsKey(w: World, tokens: map<ClaimKey, Token>, step: Step, key: ClaimKey)
    requires Claimed(w, tokens) && Visible(w) && Enabled(w, tokens, CALL_LIMIT, step)
    ensures KeyOk(Apply(w, step), tokens, key)
  {
    var w', n := Apply(w, step), ClaimFile(key);
    assert KeyOk(w, tokens, key);
    if step.Act? && step.action.LinkFile? {
      LinkKeepsKey(w, tokens, step.pid, key);
    } else {
      hide Apply, Visible;
      QuietForKey(w, tokens, step, key);
      if n in w.names {
        if Removes(w, step, n) {
          RemovedIsExpired(w, tokens, step, key);
        } else {
          FileStays(w, tokens, CALL_LIMIT, step, n);
        }
      }
    }
  }

  /** Whoever removes a claim file has read a clock past the claim's retention. */
  lemma RemovedIsExpired(w: World, tokens: map<ClaimKey, Token>, step: Step, key: ClaimKey)
    requires Claimed(w, tokens) && Visible(w) && Enabled(w, tokens, CALL_LIMIT, step)
    requires Removes(w, step, ClaimFile(key))
    ensures key in tokens && Retention(tokens, key) <= w.clock
  {
    assert CallOk(tokens, w.clock, w.procs[step.pid]) && ProcOk(w, step.pid, w.procs[step.pid]);
  }

  lemma StepKeepsCalls(w: World, tokens: map<ClaimKey, Token>, step: Step, q: nat)
    requires Claimed(w, tokens) && Visible(w) && Enabled(w, tokens, CALL_LIMIT, step) && q in Apply(w, step).procs
    ensures CallOk(tokens, Apply(w, step).clock, Apply(w, step).procs[q])
  {
    hide AfterRead, AfterCheck, Do, ProcOk, KeyOk;
    assert q in w.procs ==> CallOk(tokens, w.clock, w.procs[q]);
    if step.Act? && !step.action.Begin? {
      DoMovesPc(w, step.pid, step.action);
      if step.pid == q && step.action.ReadFile? {
        ReadDecides(w, tokens, w.procs[q]);
      } else if step.pid == q && step.action.CheckNext? {
        CheckDecides(w, tokens, w.procs[q]);
      }
    }
  }

  lemma {:induction false} RunKeepsClaims(w: World, tokens: map<ClaimKey, Token>, steps: seq<Step>)
    requires Claimed(w, tokens) && Visible(w) && IsRun(w, tokens, CALL_LIMIT, steps)
    ensures Claimed(After(w, steps), tokens) && Visible(After(w, steps))
    decreases |steps|
  {
    hide Visible, Enabled, Apply, KeyOk, CallOk;
    if steps != [] {
      StepVisible(w, tokens, CALL_LIMIT, steps[0]);
      forall key ensures KeyOk(Apply(w, steps[0]), tokens, key) {
        StepKeepsKey(w, tokens, steps[0], key);
      }
      forall q | q in Apply(w, steps[0]).procs
        ensures CallOk(tokens, Apply(w, steps[0]).clock, Apply(w, steps[0]).procs[q])
      {
        StepKeepsCalls(w, tokens, steps[0], q);
      }
      RunKeepsClaims(Apply(w, steps[0]), tokens, steps[1..]);
    }
  }

  /**
   * Single winner: whatever the interleaving of claiming calls and sweepers on all replicas, and
   * wherever they crash, one logout token is claimed at most once, provided every claiming call ends
   * within CALL_LIMIT of its clock reading.
   */
  lemma SingleWinner(tokens: map<ClaimKey, Token>, steps: seq<Step>, key: ClaimKey)
    requires IsRun(EMPTY, tokens, CALL_LIMIT, steps)
    ensures WinsOf(After(EMPTY, steps), key) <= 1
  {
    RunKeepsClaims(EMPTY, tokens, steps);
    assert KeyOk(After(EMPTY, steps), tokens, key);
  }

  // ----- A lookup finds the claim that revokes its session -----

  ghost predicate FileHolds(w: World, key: ClaimKey, c: Claim) {
    && ClaimFile(key) in w.names && w.names[ClaimFile(key)] in w.inodes
    && w.inodes[w.names[ClaimFile(key)]] == Whole(ClaimRecord(c))
  }

  /** The check has the file still before it, or has refused the session. */
  predicate OnTrack(pc: Pc, key: ClaimKey) {
    match pc
    case Listing => true
    case Scanning(todo) => key in todo
    case Dropping(_, todo) => key in todo
    case Verdict(revoked) => revoked
    case _ => false
  }

  ghost predicate Watching(w: World, pid: nat, s: Session, key: ClaimKey, c: Claim) {
    w.clock < c.expires ==>
      && FileHolds(w, key, c)
      && (pid in w.procs && w.procs[pid].task == Checking(s) ==> OnTrack(w.procs[pid].pc, key))
  }

  /** Nobody removes the file before the claim expires. */
  lemma HeldUntilExpiry(w: World, tokens: map<ClaimKey, Token>, step: Step, key: ClaimKey, c: Claim)
    requires Claimed(w, tokens) && Visible(w) && Enabled(w, tokens, CALL_LIMIT, step)
    requires FileHolds(w, key, c) && w.clock < c.expires
    ensures FileHolds(Apply(w, step), key, c)
  {
    hide Apply, Visible, Enabled, Removes, CallOk;
    assert KeyOk(w, tokens, key);
    if Removes(w, step, ClaimFile(key)) {
      RemovedIsExpired(w, tokens, step, key);
    } else {
      FileStays(w, tokens, CALL_LIMIT, step, ClaimFile(key));
    }
  }

  lemma CheckOnTrack(w: World, p: Proc, key: ClaimKey, c: Claim)
    requires NamesComplete(w) && At(p, CheckNext) && key in p.pc.todo
    requires FileHolds(w, key, c) && p.started < c.expires && Covers(c, p.task.session)
    ensures OnTrack(AfterCheck(w.names, w.inodes, p), key)
  {
    hide Covers, KeyOf;
    var next := p.pc.todo[0];
    if ClaimFile(next) in w.names {
      assert Complete(w, ClaimFile(next));
    }
  }

  lemma WatchStep(
      w: World, tokens: map<ClaimKey, Token>, step: Step, pid: nat, s: Session, key: ClaimKey, c: Claim)
    requires Claimed(w, tokens) && Visible(w) && Enabled(w, tokens, CALL_LIMIT, step)
    requires Covers(c, s) && Watching(w, pid, s, key, c)
    ensures Watching(Apply(w, step), pid, s, key, c)
  {
    hide Covers, Apply, Enabled, Visible, KeyOk, FileHolds;
    var w' := Apply(w, step);
    OthersStand(w, tokens, step, pid);
    if w'.clock < c.expires {
      HeldUntilExpiry(w, tokens, step, key, c);
      if pid in w.procs {
        assert CallOk(tokens, w.clock, w.procs[pid]);
      }
      if step.Act? && step.pid == pid {
        WatchedMoves(w, tokens, step, s, key, c);
      }
    }
  }

  lemma OthersStand(w: World, tokens: map<ClaimKey, Token>, step: Step, pid: nat)
    requires Enabled(w, tokens, CALL_LIMIT, step)
    ensures w.clock <= Apply(w, step).clock
    ensures (step.Act? ==> step.pid != pid) ==> (pid in Apply(w, step).procs <==> pid in w.procs)
    ensures (step.Act? ==> step.pid != pid) && pid in w.procs ==> Apply(w, step).procs[pid] == w.procs[pid]
  {
    hide Do, MayBegin;
    if step.Act? && !step.action.Begin? {
      DoMovesPc(w, step.pid, step.action);
    }
  }

  lemma WatchedMoves(w: World, tokens: map<ClaimKey, Token>, step: Step, s: Session, key: ClaimKey, c: Claim)
    requires Visible(w) && Enabled(w, tokens, CALL_LIMIT, step) && step.Act?
    requires step.pid in w.procs && w.procs[step.pid].task == Checking(s) ==>
               w.procs[step.pid].started <= w.clock && OnTrack(w.procs[step.pid].pc, key)
    requires FileHolds(w, key, c) && w.clock < c.expires && Covers(c, s)
    ensures var w' := Apply(w, step);
            step.pid in w'.procs && w'.procs[step.pid].task == Checking(s) ==> OnTrack(w'.procs[step.pid].pc, key)
  {
    hide Covers, AfterCheck, Do, MayBegin, Complete, ProcOk;
    if !step.action.Begin? {
      var p := w.procs[step.pid];
      assert ProcOk(w, step.pid, p);
      DoMovesPc(w, step.pid, step.action);
      if p.task == Checking(s) && step.action.CheckNext? {
        CheckOnTrack(w, p, key, c);
      } else if p.task == Checking(s) {
        CheckMoves(w, step.pid, step.action);
      }
    }
  }

  /** The other moves of a check: list, drop an expired file, crash. */
  lemma CheckMoves(w: World, pid: nat, action: Action)
    requires pid in w.procs && w.procs[pid].task.Checking? && At(w.procs[pid], action) && !action.CheckNext?
    requires ProcOk(w, pid, w.procs[pid])
    ensures var p, w' := w.procs[pid], Do(w, pid, w.procs[pid], action);
            pid in w'.procs ==>
              || (action.ListDir? && w'.procs[pid].pc == Scanning(action.order))
              || (p.pc.Dropping? && w'.procs[pid].pc == Scanning(p.pc.todo))
  {
  }

  lemma {:induction false} WatchRun(
      w: World, tokens: map<ClaimKey, Token>, steps: seq<Step>, pid: nat, s: Session, key: ClaimKey, c: Claim)
    requires Claimed(w, tokens) && Visible(w) && IsRun(w, tokens, CALL_LIMIT, steps)
    requires Covers(c, s) && Watching(w, pid, s, key, c)
    ensures Watching(After(w, steps), pid, s, key, c)
    decreases |steps|
  {
    hide Visible, Enabled, Apply, Claimed, Watching, Covers;
    if steps != [] {
      WatchStep(w, tokens, steps[0], pid, s, key, c);
      RunKeepsClaims(w, tokens, [steps[0]]) by { OneStep(w, tokens, steps[0]); }
      OneStep(w, tokens, steps[0]);
      WatchRun(Apply(w, steps[0]), tokens, steps[1..], pid, s, key, c);
    }
  }

  lemma OneStep(w: World, tokens: map<ClaimKey, Token>, step: Step)
    requires Enabled(w, tokens, CALL_LIMIT, step)
    ensures IsRun(w, tokens, CALL_LIMIT, [step]) && After(w, [step]) == Apply(w, step)
  {
    hide Enabled, Apply;
    assert [step][1..] == [];
  }

  /**
   * Revocation in spite of concurrent sweepers: a check that lists the claim files after a claim that
   * covers its session was linked, and reaches its verdict before that claim expires, refuses.
   */
  lemma RevocationHolds(
      tokens: map<ClaimKey, Token>, before: seq<Step>, after: seq<Step>, pid: nat, s: Session, key: ClaimKey, c: Claim)
    requires IsRun(EMPTY, tokens, CALL_LIMIT, before + after)
    requires FileHolds(After(EMPTY, before), key, c) && Covers(c, s)
    requires var w := After(EMPTY, before);
             pid in w.procs && w.procs[pid].task == Checking(s) ==> w.procs[pid].pc.Listing?
    requires var w' := After(EMPTY, before + after);
             pid in w'.procs && w'.procs[pid].task == Checking(s) && w'.procs[pid].pc.Verdict? && w'.clock < c.expires
    ensures After(EMPTY, before + after).procs[pid].pc.revoked
  {
    hide IsRun, After, Visible, Claimed, Covers;
    SplitRun(EMPTY, tokens, CALL_LIMIT, before, after);
    EmptyIsFine(tokens);
    RunKeepsClaims(EMPTY, tokens, before);
    WatchRun(After(EMPTY, before), tokens, after, pid, s, key, c);
  }

  /** At this point of the call there was a file with an unexpired claim that covers the session. */
  ghost predicate Witnessed(w: World, pid: nat, p: Proc)
    requires p.task.Checking?
  {
    && pid in w.procs && w.procs[pid].task == p.task && w.procs[pid].started == p.started
    && exists key, c :: FileHolds(w, key, c) && p.started < c.expires && Covers(c, p.task.session)
  }

  lemma VerdictStep(w: World, tokens: map<ClaimKey, Token>, limit: Time, step: Step, pid: nat)
    requires Visible(w) && Enabled(w, tokens, limit, step) && pid in Apply(w, step).procs
    requires var p := Apply(w, step).procs[pid];
             p.task.Checking? && p.pc == Verdict(true) && !(pid in w.procs && w.procs[pid] == p)
    ensures Witnessed(w, pid, Apply(w, step).procs[pid])
  {
    hide Covers, KeyOf, Do, MayBegin, Complete, ProcOk;
    assert step.Act? && !step.action.Begin?;
    DoMovesPc(w, step.pid, step.action);
    var key := w.procs[pid].pc.todo[0];
    assert FileHolds(w, key, w.inodes[w.names[ClaimFile(key)]].rec.claim);
  }

  lemma {:induction false} VerdictFrom(
      w: World, tokens: map<ClaimKey, Token>, limit: Time, steps: seq<Step>, pid: nat)
    requires Visible(w) && IsRun(w, tokens, limit, steps) && pid in After(w, steps).procs
    requires var p := After(w, steps).procs[pid]; p.task.Checking? && p.pc == Verdict(true)
    ensures var p := After(w, steps).procs[pid];
            || (pid in w.procs && w.procs[pid] == p)
            || exists k: nat :: k < |steps| && Witnessed(After(w, steps[..k]), pid, p)
    decreases |steps|
  {
    hide Visible, Enabled, Apply, Witnessed;
    if steps != [] {
      var w1, rest, p := Apply(w, steps[0]), steps[1..], After(w, steps).procs[pid];
      StepVisible(w, tokens, limit, steps[0]);
      VerdictFrom(w1, tokens, limit, rest, pid);
      if pid in w1.procs && w1.procs[pid] == p {
        if !(pid in w.procs && w.procs[pid] == p) {
          VerdictStep(w, tokens, limit, steps[0], pid);
          assert After(w, steps[..0]) == w;
        }
      } else {
        var k: nat :| k < |rest| && Witnessed(After(w1, rest[..k]), pid, p);
        assert steps[..k + 1][1..] == rest[..k];
        assert Witnessed(After(w, steps[..k + 1]), pid, p);
      }
    }
  }

  /** No session is refused without cause: during the call some file held a live claim that covers it. */
  lemma RefusalJustified(tokens: map<ClaimKey, Token>, limit: Time, steps: seq<Step>, pid: nat)
    requires IsRun(EMPTY, tokens, limit, steps) && pid in After(EMPTY, steps).procs
    requires var p := After(EMPTY, steps).procs[pid]; p.task.Checking? && p.pc == Verdict(true)
    ensures exists k: nat :: k < |steps| && Witnessed(After(EMPTY, steps[..k]), pid, After(EMPTY, steps).procs[pid])
  {
    hide IsRun, After, Witnessed;
    VerdictFrom(EMPTY, tokens, limit, steps, pid);
  }
}

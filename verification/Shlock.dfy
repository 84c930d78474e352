/** The shlock protocol: any number of processes, interleaved at system-call level and
    able to crash at any call, compete for one lock name in a shared directory.

    The file system is a map from names to inodes; link counts are derived from the map.
    Inode numbers are reused as soon as no name and no open descriptor refers to them. */
module Shlock {

  type Pid = int
  type Inode = int

  /** The lock name and the two temporary names that a shlock process derives from its
      own process ID. */
  datatype Name = Lock | Tmp(pid: Pid) | Tmp2(pid: Pid)

  /** The next system call of a process. */
  datatype Pc =
    | OpenTmp | ClearTmp | WritePid | CloseTmp
    | LinkLock | OpenLock | ReadPid | Probe | ClearTmp2 | StatTmp | FstatLock | LinkTmp2 | StatLock
    | BreakLock | DropTmp2 | CloseStale
    | ExitUnlink2 | ExitClose | ExitUnlink
    | FinalUnlink
    | Exited(code: int)
    | Crashed

  datatype Descriptor = Closed | Open(ino: Inode)

  /** One shlock process.  `owner` is the -p argument, `seen` the process ID read from the
      lock, `stuck` the temporary names whose latest unlink call failed. */
  datatype Process = Process(pc: Pc, owner: Pid, fd: Descriptor, seen: Pid, stuck: set<Name>)

  /** `alive` holds the running process IDs.  The rest is history: `public` holds the files that were not created in
      this run or were once linked to the lock, `holder` the process that linked the current lock, `released` the
      processes whose lock was removed by its owner. */
  datatype State = State(
    names: map<Name, Inode>,
    content: map<Inode, Pid>,
    procs: map<Pid, Process>,
    alive: set<Pid>,
    flakyRead: bool,
    public: set<Inode>,
    holder: set<Pid>,
    released: set<Pid>)

  datatype Action = Run(pid: Pid) | Crash(pid: Pid) | Die(owner: Pid) | Release

  /** The null-signal test on a process ID. */
  ghost predicate ValidPid(s: State, pid: Pid) {
    pid > 0 && pid in s.alive
  }

  ghost function Links(names: map<Name, Inode>, ino: Inode): set<Name> {
    set n | n in names && names[n] == ino
  }

  ghost predicate Referenced(s: State, ino: Inode) {
    (exists n :: n in s.names && s.names[n] == ino) || exists p :: p in s.procs && s.procs[p].fd == Open(ino)
  }

  // --- system calls ---------------------------------------------------------------------

  /** The process moves on and nothing else changes. */
  ghost predicate Goes(s: State, s': State, p: Pid, me: Process) {
    s' == s.(procs := s.procs[p := me])
  }

  /** Wrapper around unlink: a missing file is a success, any other error a failure. */
  ghost predicate Unlinks(s: State, s': State, p: Pid, n: Name, me: Process, ok: bool)
    requires p in s.procs
  {
    var stuck := if ok then s.procs[p].stuck - {n} else s.procs[p].stuck + {n};
    s' == s.(names := if ok then s.names - {n} else s.names, procs := s.procs[p := me.(stuck := stuck)])
  }

  ghost predicate StepOpenTmp(s: State, s': State, p: Pid, me: Process) {
    || (Tmp(p) !in s.names &&
        exists ino ::
          && !Referenced(s, ino)
          && s' == s.(names := s.names[Tmp(p) := ino], content := s.content[ino := 0], public := s.public - {ino},
                      procs := s.procs[p := me.(pc := WritePid, fd := Open(ino))]))
    || (Tmp(p) in s.names && Goes(s, s', p, me.(pc := ClearTmp)))
    || Goes(s, s', p, me.(pc := Exited(1)))
  }

  /** A short or failed write leaves arbitrary text in the temporary file. */
  ghost predicate StepWritePid(s: State, s': State, p: Pid, me: Process) {
    me.fd.Open? &&
    (|| s' == s.(content := s.content[me.fd.ino := me.owner], procs := s.procs[p := me.(pc := CloseTmp)])
     || (me.fd.ino in s'.content && s' == s.(content := s.content[me.fd.ino := s'.content[me.fd.ino]],
                                             procs := s.procs[p := me.(pc := ExitClose)])))
  }

  /** link(tmp, lock): the atomic acquisition. */
  ghost predicate StepLinkLock(s: State, s': State, p: Pid, me: Process) {
    || (Lock !in s.names && Tmp(p) in s.names &&
        s' == s.(names := s.names[Lock := s.names[Tmp(p)]],
                 public := s.public + {s.names[Tmp(p)]}, procs := s.procs[p := me.(pc := FinalUnlink)], holder := {p}))
    || (Lock in s.names && Goes(s, s', p, me.(pc := OpenLock)))
    || Goes(s, s', p, me.(pc := ExitUnlink))
  }

  ghost predicate StepOpenLock(s: State, s': State, p: Pid, me: Process) {
    || (Lock in s.names && Goes(s, s', p, me.(pc := ReadPid, fd := Open(s.names[Lock]))))
    || Goes(s, s', p, me.(pc := ExitUnlink))
  }

  /** A failed read counts as process ID 0. */
  ghost predicate StepReadPid(s: State, s': State, p: Pid, me: Process) {
    me.fd.Open? && me.fd.ino in s.content &&
    (|| Goes(s, s', p, me.(pc := Probe, seen := s.content[me.fd.ino]))
     || (s.flakyRead && Goes(s, s', p, me.(pc := Probe, seen := 0))))
  }

  ghost predicate StepProbe(s: State, s': State, p: Pid, me: Process) {
    Goes(s, s', p, me.(pc := if ValidPid(s, me.seen) then ExitClose else ClearTmp2))
  }

  /** The change-time comparison may send the process away; so may a link count other than 1. */
  ghost predicate StepFstatLock(s: State, s': State, p: Pid, me: Process) {
    || (me.fd.Open? && |Links(s.names, me.fd.ino)| == 1 && Goes(s, s', p, me.(pc := LinkTmp2)))
    || Goes(s, s', p, me.(pc := ExitClose))
  }

  ghost predicate StepLinkTmp2(s: State, s': State, p: Pid, me: Process) {
    || (Lock in s.names && Tmp2(p) !in s.names &&
        s' == s.(names := s.names[Tmp2(p) := s.names[Lock]], procs := s.procs[p := me.(pc := StatLock)]))
    || Goes(s, s', p, me.(pc := ExitClose))
  }

  /** stat(lock): still the inode we opened, and linked exactly twice. */
  ghost predicate StillOurs(s: State, me: Process) {
    me.fd.Open? && Lock in s.names && s.names[Lock] == me.fd.ino && |Links(s.names, me.fd.ino)| == 2
  }

  ghost predicate StepStatLock(s: State, s': State, p: Pid, me: Process) {
    || (StillOurs(s, me) && Goes(s, s', p, me.(pc := BreakLock)))
    || Goes(s, s', p, me.(pc := ExitUnlink2))
  }

  ghost predicate StepBreakLock(s: State, s': State, p: Pid, me: Process) {
    || s' == s.(names := s.names - {Lock}, procs := s.procs[p := me.(pc := DropTmp2)], holder := {})
    || Goes(s, s', p, me.(pc := ExitUnlink2))
  }

  ghost predicate RunStep(s: State, s': State, p: Pid)
    requires p in s.procs
  {
    var me := s.procs[p];
    match me.pc
    case OpenTmp => StepOpenTmp(s, s', p, me)
    case ClearTmp => Unlinks(s, s', p, Tmp(p), me.(pc := OpenTmp), true)
                     || Unlinks(s, s', p, Tmp(p), me.(pc := Exited(1)), false)
    case WritePid => StepWritePid(s, s', p, me)
    case CloseTmp => Goes(s, s', p, me.(pc := LinkLock, fd := Closed))
                     || Goes(s, s', p, me.(pc := ExitUnlink, fd := Closed))
    case LinkLock => StepLinkLock(s, s', p, me)
    case OpenLock => StepOpenLock(s, s', p, me)
    case ReadPid => StepReadPid(s, s', p, me)
    case Probe => StepProbe(s, s', p, me)
    case ClearTmp2 => Unlinks(s, s', p, Tmp2(p), me.(pc := StatTmp), true)
                      || Unlinks(s, s', p, Tmp2(p), me.(pc := ExitUnlink), false)
    case StatTmp => Goes(s, s', p, me.(pc := FstatLock)) || Goes(s, s', p, me.(pc := ExitClose))
    case FstatLock => StepFstatLock(s, s', p, me)
    case LinkTmp2 => StepLinkTmp2(s, s', p, me)
    case StatLock => StepStatLock(s, s', p, me)
    case BreakLock => StepBreakLock(s, s', p, me)
    case DropTmp2 => exists ok :: Unlinks(s, s', p, Tmp2(p), me.(pc := CloseStale), ok)
    case CloseStale => Goes(s, s', p, me.(pc := LinkLock, fd := Closed))
    case ExitUnlink2 => exists ok :: Unlinks(s, s', p, Tmp2(p), me.(pc := ExitClose), ok)
    case ExitClose => Goes(s, s', p, me.(pc := ExitUnlink, fd := Closed))
    case ExitUnlink => exists ok :: Unlinks(s, s', p, Tmp(p), me.(pc := Exited(1), fd := Closed), ok)
    case FinalUnlink => exists ok :: Unlinks(s, s', p, Tmp(p), me.(pc := Exited(0)), ok)
    case Exited(_) => false
    case Crashed => false
  }

  /** The environment: a process is killed, a lock owner dies for good, or a live owner
      removes its own lock file. */
  ghost predicate Step(s: State, a: Action, s': State) {
    match a
    case Run(p) => p in s.procs && RunStep(s, s', p)
    case Crash(p) => p in s.procs && !s.procs[p].pc.Exited? && !s.procs[p].pc.Crashed?
                     && s' == s.(procs := s.procs[p := s.procs[p].(pc := Crashed, fd := Closed)])
    case Die(o) => s' == s.(alive := s.alive - {o})
    case Release => Lock in s.names && s.names[Lock] in s.content
                    && ValidPid(s, s.content[s.names[Lock]])
                    && s' == s.(names := s.names - {Lock}, holder := {}, released := s.released + s.holder)
  }

  /** Any directory, with any old lock and any debris of crashed processes in it. */
  ghost predicate Init(s: State) {
    && (forall n | n in s.names :: s.names[n] in s.content && s.names[n] in s.public)
    && (forall p | p in s.procs :: s.procs[p].pc.OpenTmp? && s.procs[p].fd == Closed && s.procs[p].stuck == {})
    && s.holder == {} && s.released == {}
  }

  /** A run: its states, and the action taken in each of them but the last. */
  ghost predicate IsRun(states: seq<State>, acts: seq<Action>) {
    && |states| == |acts| + 1
    && Init(states[0])
    && forall i: nat | i < |acts| :: StepAt(states, acts, i)
  }

  ghost predicate StepAt(states: seq<State>, acts: seq<Action>, i: nat)
    requires i < |acts| && |states| == |acts| + 1
  {
    Step(states[i], acts[i], states[i + 1])
  }

  // --- the invariant --------------------------------------------------------------------

  /** Its temporary file exists. */
  ghost predicate HasTmp(pc: Pc) {
    !pc.OpenTmp? && !pc.ClearTmp? && !pc.Exited? && !pc.Crashed?
  }

  /** The temporary file exists and has not been linked to the lock. */
  ghost predicate Waiting(pc: Pc) {
    HasTmp(pc) && !pc.FinalUnlink?
  }

  /** The descriptor is open on a file that was once reached through the lock name. */
  ghost predicate OnLock(pc: Pc) {
    pc.ReadPid? || pc.Probe? || FoundStale(pc)
  }

  /** The lock has been found stale. */
  ghost predicate FoundStale(pc: Pc) {
    || pc.ClearTmp2? || pc.StatTmp? || pc.FstatLock? || pc.LinkTmp2? || pc.StatLock? || pc.BreakLock?
    || pc.DropTmp2? || pc.CloseStale? || pc.ExitUnlink2?
  }

  ghost predicate Won(pc: Pc) {
    pc.FinalUnlink? || pc == Exited(0)
  }

  /** A temporary file that has not been linked to the lock has no other name. */
  ghost predicate Private(s: State, p: Pid) {
    && Tmp(p) in s.names && s.names[Tmp(p)] !in s.public
    && forall n | n in s.names && s.names[n] == s.names[Tmp(p)] :: n == Tmp(p)
  }

  ghost predicate TmpInv(s: State, p: Pid)
    requires p in s.procs
  {
    var me := s.procs[p];
    && (Waiting(me.pc) ==> Private(s, p))
    && (me.pc.WritePid? || me.pc.CloseTmp? ==> me.fd == Open(s.names[Tmp(p)]))
    && (me.pc.CloseTmp? || me.pc.LinkLock? || me.pc.OpenLock? || (OnLock(me.pc) && !me.pc.ExitUnlink2?) ==>
          s.names[Tmp(p)] in s.content && s.content[s.names[Tmp(p)]] == me.owner)
  }

  /** The file is not a lock with a live owner, or not any more. */
  ghost predicate Harmless(s: State, ino: Inode)
    requires ino in s.content
  {
    !ValidPid(s, s.content[ino]) || Lock !in s.names || s.names[Lock] != ino
  }

  /** A step that reads a lock whose owner is alive gets to see the owner. */
  ghost predicate SeesLive(s: State, a: Action, s': State) {
    a.Run? && a.pid in s.procs && s.procs[a.pid].pc.ReadPid? ==>
      var fd := s.procs[a.pid].fd;
      fd.Open? && fd.ino in s.content && !Harmless(s, fd.ino) ==>
        a.pid in s'.procs && s'.procs[a.pid].seen == s.content[fd.ino]
  }

  ghost predicate SeesLiveAt(states: seq<State>, acts: seq<Action>, i: nat)
    requires i < |acts| && |states| == |acts| + 1
  {
    SeesLive(states[i], acts[i], states[i + 1])
  }

  /** No read of a lock with a live owner fails; other reads may. */
  ghost predicate LiveReadsWork(states: seq<State>, acts: seq<Action>)
    requires |states| == |acts| + 1
  {
    forall i: nat | i < |acts| :: SeesLiveAt(states, acts, i)
  }

  /** What a process that has the (old) lock open knows. */
  ghost predicate LockInv(s: State, p: Pid)
    requires p in s.procs
  {
    var me := s.procs[p];
    OnLock(me.pc) ==>
      && me.fd.Open? && me.fd.ino in s.content
      && me.fd.ino in s.public
      && (me.pc.Probe? ==> me.seen == s.content[me.fd.ino] || Harmless(s, me.fd.ino))
      && (FoundStale(me.pc) ==> Harmless(s, me.fd.ino))
      && (me.pc.StatLock? ==>
            && Tmp2(p) in s.names
            && (s.names[Tmp2(p)] == me.fd.ino || Lock !in s.names || s.names[Lock] != me.fd.ino))
      && (me.pc.BreakLock? ==>
            && Tmp2(p) in s.names && s.names[Tmp2(p)] == me.fd.ino
            && Lock in s.names && s.names[Lock] == me.fd.ino)
  }

  ghost predicate HolderInv(s: State) {
    && (forall p | p in s.holder :: p in s.procs && s.holder == {p}
          && Lock in s.names && s.names[Lock] in s.content && s.content[s.names[Lock]] == s.procs[p].owner)
    && (forall p | p in s.procs && Won(s.procs[p].pc) && ValidPid(s, s.procs[p].owner) ::
          p in s.released || p in s.holder)
  }

  ghost predicate SingleBreaker(s: State) {
    forall p, q | p in s.procs && q in s.procs && s.procs[p].pc.BreakLock? && s.procs[q].pc.BreakLock? :: p == q
  }

  ghost predicate Inv(s: State) {
    && (forall n | n in s.names :: s.names[n] in s.content)
    && (forall p | p in s.procs :: TmpInv(s, p))
    && (forall p | p in s.procs :: LockInv(s, p))
    && (Lock in s.names ==> s.names[Lock] in s.public)
    && HolderInv(s)
    && SingleBreaker(s)
  }

  // --- every step keeps the invariant ---------------------------------------------------

  lemma InitInv(s: State)
    requires Init(s)
    ensures Inv(s)
  {}

  lemma StepKeepsInv(s: State, a: Action, s': State)
    requires Inv(s) && Step(s, a, s') && SeesLive(s, a, s')
    ensures Inv(s')
  {
    match a
    case Run(p) => RunKeepsInv(s, s', p);
    case Crash(p) =>
    case Die(o) =>
    case Release => ReleaseKeepsInv(s, s');
  }

  lemma RunKeepsInv(s: State, s': State, p: Pid)
    requires Inv(s) && p in s.procs && RunStep(s, s', p) && SeesLive(s, Run(p), s')
    ensures Inv(s')
  {
    match s.procs[p].pc
    case OpenTmp => OpenTmpKeepsInv(s, s', p);
    case ClearTmp => ClearTmpKeepsInv(s, s', p);
    case WritePid => WritePidKeepsInv(s, s', p);
    case CloseTmp => CloseTmpKeepsInv(s, s', p);
    case LinkLock => LinkLockKeepsInv(s, s', p);
    case OpenLock => OpenLockKeepsInv(s, s', p);
    case ReadPid => ReadPidKeepsInv(s, s', p);
    case Probe => ProbeKeepsInv(s, s', p);
    case ClearTmp2 => ClearTmp2KeepsInv(s, s', p);
    case LinkTmp2 => LinkTmp2KeepsInv(s, s', p);
    case StatLock => StatLockKeepsInv(s, s', p);
    case BreakLock => BreakLockKeepsInv(s, s', p);
    case DropTmp2 => DropTmp2KeepsInv(s, s', p);
    case ExitUnlink2 => DropTmp2KeepsInv(s, s', p);
    case ExitUnlink => ExitUnlinkKeepsInv(s, s', p);
    case FinalUnlink => FinalUnlinkKeepsInv(s, s', p);
    case StatTmp => StatTmpKeepsInv(s, s', p);
    case FstatLock => FstatLockKeepsInv(s, s', p);
    case CloseStale => CloseKeepsInv(s, s', p);
    case ExitClose => CloseKeepsInv(s, s', p);
  }

  /** A step of `p` as the other processes see it: it leaves their temporary names alone, gives no new name to a file
      of theirs that is still private, and never puts a file back under the lock name. */
  ghost predicate Discreet(s: State, s': State, p: Pid) {
    && p in s.procs && p in s'.procs && s'.procs == s.procs[p := s'.procs[p]]
    && s'.alive == s.alive && s'.flakyRead == s.flakyRead
    && (forall n | n in s'.names :: s'.names[n] in s'.content)
    && (forall n | n != Lock && n != Tmp(p) && n != Tmp2(p) ::
          (n in s'.names <==> n in s.names) && (n in s.names ==> s'.names[n] == s.names[n]))
    && (forall q | q in s.procs && q != p :: Respects(s, s', p, q))
  }

  ghost predicate Respects(s: State, s': State, p: Pid, q: Pid)
    requires q in s.procs && p in s'.procs
  {
    var them := s.procs[q];
    && (Waiting(them.pc) && Tmp(q) in s.names ==>
          && (forall n | n in s'.names && s'.names[n] == s.names[Tmp(q)] :: n in s.names && s.names[n] == s'.names[n])
          && (s.names[Tmp(q)] in s'.public ==> s.names[Tmp(q)] in s.public)
          && SameContent(s, s', s.names[Tmp(q)]))
    && (OnLock(them.pc) && them.fd.Open? ==>
          && (Lock in s'.names && s'.names[Lock] == them.fd.ino ==> Lock in s.names && s.names[Lock] == them.fd.ino)
          && SameContent(s, s', them.fd.ino)
          && (them.fd.ino in s.public ==> them.fd.ino in s'.public)
          && (them.pc.BreakLock? && Lock in s.names && s.names[Lock] == them.fd.ino ==>
                Lock in s'.names && s'.names[Lock] == them.fd.ino))
  }

  ghost predicate SameContent(s: State, s': State, ino: Inode) {
    ino in s.content ==> ino in s'.content && s'.content[ino] == s.content[ino]
  }

  lemma OthersKeepInv(s: State, s': State, p: Pid)
    requires Inv(s) && Discreet(s, s', p)
    ensures forall q | q in s'.procs && q != p :: TmpInv(s', q) && LockInv(s', q)
  {
    forall q | q in s'.procs && q != p ensures TmpInv(s', q) && LockInv(s', q) {
      assert Respects(s, s', p, q);
    }
  }

  /** A step that at most removes one of the process's own temporary names keeps the invariant for everyone else. */
  lemma LocalStep(s: State, s': State, p: Pid)
    requires Inv(s) && p in s.procs && p in s'.procs
    requires s' == s.(names := s'.names, procs := s.procs[p := s'.procs[p]])
    requires s'.names == s.names || s'.names == s.names - {Tmp(p)} || s'.names == s.names - {Tmp2(p)}
    requires Waiting(s'.procs[p].pc) ==> Waiting(s.procs[p].pc)
    requires Won(s'.procs[p].pc) ==> Won(s.procs[p].pc)
    requires s'.procs[p].owner == s.procs[p].owner
    ensures forall q | q in s'.procs && q != p :: TmpInv(s', q) && LockInv(s', q)
    ensures HolderInv(s')
    ensures !s'.procs[p].pc.BreakLock? ==> SingleBreaker(s')
  {
    forall q | q in s.procs && q != p ensures Respects(s, s', p, q) {
      assert LockInv(s, q);
    }
    OthersKeepInv(s, s', p);
  }

  lemma CreateTmpKeepsInv(s: State, s': State, p: Pid, ino: Inode)
    requires Inv(s) && p in s.procs && s.procs[p].pc.OpenTmp?
    requires Tmp(p) !in s.names && !Referenced(s, ino)
    requires s' == s.(names := s.names[Tmp(p) := ino], content := s.content[ino := 0], public := s.public - {ino},
                      procs := s.procs[p := s.procs[p].(pc := WritePid, fd := Open(ino))])
    ensures Inv(s')
  {
    forall q | q in s.procs && q != p ensures Respects(s, s', p, q) {
      assert TmpInv(s, q) && LockInv(s, q);
    }
    OthersKeepInv(s, s', p);
  }

  lemma OpenTmpKeepsInv(s: State, s': State, p: Pid)
    requires Inv(s) && p in s.procs && RunStep(s, s', p)
    requires s.procs[p].pc.OpenTmp?
    ensures Inv(s')
  {
    hide HolderInv, SingleBreaker, Respects;
    var me := s.procs[p];
    if ino :| !Referenced(s, ino) && Tmp(p) !in s.names
              && s' == s.(names := s.names[Tmp(p) := ino], content := s.content[ino := 0], public := s.public - {ino},
                          procs := s.procs[p := me.(pc := WritePid, fd := Open(ino))]) {
      CreateTmpKeepsInv(s, s', p, ino);
    } else {
      LocalStep(s, s', p);
    }
  }

  lemma ClearTmpKeepsInv(s: State, s': State, p: Pid)
    requires Inv(s) && p in s.procs && RunStep(s, s', p)
    requires s.procs[p].pc.ClearTmp?
    ensures Inv(s')
  {
    hide HolderInv, SingleBreaker, Respects;
    LocalStep(s, s', p);
  }

  lemma ExitUnlinkKeepsInv(s: State, s': State, p: Pid)
    requires Inv(s) && p in s.procs && RunStep(s, s', p)
    requires s.procs[p].pc.ExitUnlink?
    ensures Inv(s')
  {
    hide HolderInv, SingleBreaker, Respects;
    LocalStep(s, s', p);
  }

  lemma FinalUnlinkKeepsInv(s: State, s': State, p: Pid)
    requires Inv(s) && p in s.procs && RunStep(s, s', p)
    requires s.procs[p].pc.FinalUnlink?
    ensures Inv(s')
  {
    hide HolderInv, SingleBreaker, Respects;
    LocalStep(s, s', p);
  }

  lemma ClearTmp2KeepsInv(s: State, s': State, p: Pid)
    requires Inv(s) && p in s.procs && RunStep(s, s', p)
    requires s.procs[p].pc.ClearTmp2?
    ensures Inv(s')
  {
    hide HolderInv, SingleBreaker, Respects;
    LocalStep(s, s', p);
  }

  lemma DropTmp2KeepsInv(s: State, s': State, p: Pid)
    requires Inv(s) && p in s.procs && RunStep(s, s', p)
    requires s.procs[p].pc.DropTmp2? || s.procs[p].pc.ExitUnlink2?
    ensures Inv(s')
  {
    hide HolderInv, SingleBreaker, Respects;
    LocalStep(s, s', p);
  }

  /** The process ID was written, or some other text. */
  lemma WrittenKeepsInv(s: State, s': State, p: Pid, text: Pid, pc: Pc)
    requires Inv(s) && p in s.procs && s.procs[p].pc.WritePid? && s.procs[p].fd.Open?
    requires (pc.CloseTmp? && text == s.procs[p].owner) || pc.ExitClose?
    requires s' == s.(content := s.content[s.procs[p].fd.ino := text], procs := s.procs[p := s.procs[p].(pc := pc)])
    ensures Inv(s')
  {
    forall q | q in s.procs && q != p ensures Respects(s, s', p, q) {
      assert TmpInv(s, q) && LockInv(s, q);
    }
    OthersKeepInv(s, s', p);
  }

  lemma WritePidKeepsInv(s: State, s': State, p: Pid)
    requires Inv(s) && p in s.procs && RunStep(s, s', p)
    requires s.procs[p].pc.WritePid?
    ensures Inv(s')
  {
    hide Inv;
    var me := s.procs[p];
    if s' == s.(content := s.content[me.fd.ino := me.owner], procs := s.procs[p := me.(pc := CloseTmp)]) {
      WrittenKeepsInv(s, s', p, me.owner, CloseTmp);
    } else {
      WrittenKeepsInv(s, s', p, s'.content[me.fd.ino], ExitClose);
    }
  }

  lemma CloseTmpKeepsInv(s: State, s': State, p: Pid)
    requires Inv(s) && p in s.procs && RunStep(s, s', p)
    requires s.procs[p].pc.CloseTmp?
    ensures Inv(s')
  {
    hide HolderInv, SingleBreaker, Respects;
    LocalStep(s, s', p);
  }

  lemma AcquireKeepsInv(s: State, s': State, p: Pid)
    requires Inv(s) && p in s.procs && s.procs[p].pc.LinkLock?
    requires Lock !in s.names && Tmp(p) in s.names
    requires s' == s.(names := s.names[Lock := s.names[Tmp(p)]], public := s.public + {s.names[Tmp(p)]},
                      procs := s.procs[p := s.procs[p].(pc := FinalUnlink)], holder := {p})
    ensures Inv(s')
  {
    forall q | q in s.procs && q != p ensures Respects(s, s', p, q) {
      assert TmpInv(s, q) && LockInv(s, q);
    }
    OthersKeepInv(s, s', p);
  }

  lemma LinkLockKeepsInv(s: State, s': State, p: Pid)
    requires Inv(s) && p in s.procs && RunStep(s, s', p)
    requires s.procs[p].pc.LinkLock?
    ensures Inv(s')
  {
    hide HolderInv, SingleBreaker, Respects;
    if s'.procs[p].pc.FinalUnlink? {
      AcquireKeepsInv(s, s', p);
    } else {
      LocalStep(s, s', p);
    }
  }

  lemma OpenLockKeepsInv(s: State, s': State, p: Pid)
    requires Inv(s) && p in s.procs && RunStep(s, s', p)
    requires s.procs[p].pc.OpenLock?
    ensures Inv(s')
  {
    hide HolderInv, SingleBreaker, Respects;
    LocalStep(s, s', p);
  }

  lemma ReadPidKeepsInv(s: State, s': State, p: Pid)
    requires Inv(s) && p in s.procs && RunStep(s, s', p) && SeesLive(s, Run(p), s')
    requires s.procs[p].pc.ReadPid?
    ensures Inv(s')
  {
    hide HolderInv, SingleBreaker, Respects;
    LocalStep(s, s', p);
  }

  lemma ProbeKeepsInv(s: State, s': State, p: Pid)
    requires Inv(s) && p in s.procs && RunStep(s, s', p)
    requires s.procs[p].pc.Probe?
    ensures Inv(s')
  {
    hide HolderInv, SingleBreaker, Respects;
    LocalStep(s, s', p);
  }

  lemma GrabKeepsInv(s: State, s': State, p: Pid)
    requires Inv(s) && p in s.procs && s.procs[p].pc.LinkTmp2?
    requires Lock in s.names && Tmp2(p) !in s.names
    requires s' == s.(names := s.names[Tmp2(p) := s.names[Lock]],
                      procs := s.procs[p := s.procs[p].(pc := StatLock)])
    ensures Inv(s')
  {
    forall q | q in s.procs && q != p ensures Respects(s, s', p, q) {
      assert TmpInv(s, q) && LockInv(s, q);
    }
    OthersKeepInv(s, s', p);
  }

  lemma LinkTmp2KeepsInv(s: State, s': State, p: Pid)
    requires Inv(s) && p in s.procs && RunStep(s, s', p)
    requires s.procs[p].pc.LinkTmp2?
    ensures Inv(s')
  {
    hide HolderInv, SingleBreaker, Respects;
    if s'.procs[p].pc.StatLock? {
      GrabKeepsInv(s, s', p);
    } else {
      LocalStep(s, s', p);
    }
  }

  /** The two-link test: the lock name and one breaker's second temporary name. */
  lemma TwoLinks(names: map<Name, Inode>, ino: Inode, p: Pid, q: Pid)
    requires |Links(names, ino)| == 2
    requires {Lock, Tmp2(p), Tmp2(q)} <= Links(names, ino)
    ensures p == q
  {
    if p != q {
      SubsetSize({Lock, Tmp2(p), Tmp2(q)}, Links(names, ino));
    }
  }

  lemma SubsetSize<T>(a: set<T>, b: set<T>)
    requires a <= b
    ensures |a| <= |b|
  {
    assert b == a + (b - a);
  }

  lemma StatLockKeepsInv(s: State, s': State, p: Pid)
    requires Inv(s) && p in s.procs && RunStep(s, s', p)
    requires s.procs[p].pc.StatLock?
    ensures Inv(s')
  {
    forall q | q in s.procs && s.procs[q].pc.BreakLock?
      ensures !s'.procs[p].pc.BreakLock?
    {
      if s'.procs[p].pc.BreakLock? {
        TwoLinks(s.names, s.procs[p].fd.ino, p, q);
        assert false;
      }
    }
    LocalStep(s, s', p);
  }

  lemma UnlinkKeepsInv(s: State, s': State, p: Pid)
    requires Inv(s) && p in s.procs && s.procs[p].pc.BreakLock?
    requires s' == s.(names := s.names - {Lock}, procs := s.procs[p := s.procs[p].(pc := DropTmp2)], holder := {})
    ensures Inv(s')
  {
    OthersKeepInv(s, s', p);
  }

  lemma BreakLockKeepsInv(s: State, s': State, p: Pid)
    requires Inv(s) && p in s.procs && RunStep(s, s', p)
    requires s.procs[p].pc.BreakLock?
    ensures Inv(s')
  {
    hide HolderInv, SingleBreaker, Respects;
    if s'.procs[p].pc.DropTmp2? {
      UnlinkKeepsInv(s, s', p);
    } else {
      LocalStep(s, s', p);
    }
  }

  lemma StatTmpKeepsInv(s: State, s': State, p: Pid)
    requires Inv(s) && p in s.procs && RunStep(s, s', p)
    requires s.procs[p].pc.StatTmp?
    ensures Inv(s')
  {
    hide HolderInv, SingleBreaker, Respects;
    LocalStep(s, s', p);
  }

  lemma FstatLockKeepsInv(s: State, s': State, p: Pid)
    requires Inv(s) && p in s.procs && RunStep(s, s', p)
    requires s.procs[p].pc.FstatLock?
    ensures Inv(s')
  {
    hide HolderInv, SingleBreaker, Respects;
    LocalStep(s, s', p);
  }

  lemma CloseKeepsInv(s: State, s': State, p: Pid)
    requires Inv(s) && p in s.procs && RunStep(s, s', p)
    requires s.procs[p].pc.CloseStale? || s.procs[p].pc.ExitClose?
    ensures Inv(s')
  {
    hide HolderInv, SingleBreaker, Respects;
    LocalStep(s, s', p);
  }

  lemma ReleaseKeepsInv(s: State, s': State)
    requires Inv(s) && Step(s, Release, s')
    ensures Inv(s')
  {}

  lemma {:induction false} RunInv(states: seq<State>, acts: seq<Action>, i: nat)
    requires IsRun(states, acts) && LiveReadsWork(states, acts) && i < |states|
    ensures Inv(states[i])
  {
    if i == 0 {
      InitInv(states[0]);
    } else {
      RunInv(states, acts, i - 1);
      assert StepAt(states, acts, i - 1) && SeesLiveAt(states, acts, i - 1);
      StepKeepsInv(states[i - 1], acts[i - 1], states[i]);
    }
  }

  lemma {:induction false} FlakyStays(states: seq<State>, acts: seq<Action>, i: nat)
    requires IsRun(states, acts) && i < |states|
    ensures states[i].flakyRead == states[0].flakyRead
  {
    if i > 0 {
      FlakyStays(states, acts, i - 1);
      assert StepAt(states, acts, i - 1);
      StepStays(states[i - 1], acts[i - 1], states[i]);
    }
  }

  lemma StepStays(s: State, a: Action, s': State)
    requires Step(s, a, s')
    ensures s'.flakyRead == s.flakyRead
  {
    hide StillOurs, ValidPid, Links;
  }

  /** In particular none fails where reads do not fail at all. */
  lemma SteadyReads(states: seq<State>, acts: seq<Action>)
    requires IsRun(states, acts) && !states[0].flakyRead
    ensures LiveReadsWork(states, acts)
  {
    hide Step, RunStep;
    forall i: nat | i < |acts| ensures SeesLiveAt(states, acts, i) {
      FlakyStays(states, acts, i);
      assert StepAt(states, acts, i);
      SteadyRead(states[i], acts[i], states[i + 1]);
    }
  }

  lemma SteadyRead(s: State, a: Action, s': State)
    requires Step(s, a, s') && !s.flakyRead
    ensures SeesLive(s, a, s')
  {
    if a.Run? && a.pid in s.procs && s.procs[a.pid].pc.ReadPid? {
      assert StepReadPid(s, s', a.pid, s.procs[a.pid]);
    }
  }

  // --- what the protocol is for ---------------------------------------------------------

  /** `p` was told that it has the lock, its owner lives, and the owner has not removed the lock. */
  ghost predicate HoldsLock(s: State, p: Pid) {
    p in s.procs && Won(s.procs[p].pc) && ValidPid(s, s.procs[p].owner) && p !in s.released
  }

  /** Mutual exclusion, in every state of every run: at most one process holds the lock, and the lock
      file is there and names that process's owner. */
  lemma MutualExclusion(states: seq<State>, acts: seq<Action>, i: nat, p: Pid)
    requires IsRun(states, acts) && LiveReadsWork(states, acts) && i < |states|
    requires HoldsLock(states[i], p)
    ensures forall q :: HoldsLock(states[i], q) ==> q == p
    ensures LockFileOf(states[i], states[i].procs[p].owner)
  {
    RunInv(states, acts, i);
  }

  ghost predicate LockFileOf(s: State, owner: Pid) {
    Lock in s.names && s.names[Lock] in s.content && s.content[s.names[Lock]] == owner
  }

  /** The link call by which a process gets the lock. */
  ghost predicate Acquires(s: State, s': State, p: Pid) {
    p in s.procs && p in s'.procs && s.procs[p].pc.LinkLock? && s'.procs[p].pc.FinalUnlink?
  }

  /** What any call of `p` can do to the rest of the world. */
  ghost predicate Effect(s: State, s': State, p: Pid)
    requires p in s.procs
  {
    var me := s.procs[p];
    && p in s'.procs && s'.procs == s.procs[p := s'.procs[p]]
    && s'.alive == s.alive
    && (forall n | n != Lock && n != Tmp(p) && n != Tmp2(p) :: n in s'.names <==> n in s.names)
    && (Lock in s.names && !me.pc.BreakLock? ==> Lock in s'.names && s'.names[Lock] == s.names[Lock])
    && (Lock in s.names && s'.procs[p].pc.FinalUnlink? ==> me.pc.FinalUnlink?)
    && (forall ino | ino in s.content :: ino in s'.content)
    && (forall ino | ino in s.content && s'.content[ino] != s.content[ino] ::
          if me.pc.WritePid? then me.fd == Open(ino) else me.pc.OpenTmp? && !Referenced(s, ino))
  }

  /** The stages of a process: making its temporary file, trying to link it to the lock, testing an old lock, breaking
      it, and leaving. */
  ghost predicate Making(pc: Pc) {
    pc.OpenTmp? || pc.ClearTmp? || pc.WritePid? || pc.CloseTmp?
  }

  ghost predicate Asking(pc: Pc) {
    pc.LinkLock? || pc.OpenLock? || pc.ReadPid? || pc.Probe?
  }

  ghost predicate Testing(pc: Pc) {
    pc.ClearTmp2? || pc.StatTmp? || pc.FstatLock? || pc.LinkTmp2?
  }

  ghost predicate Breaking(pc: Pc) {
    pc.StatLock? || pc.BreakLock? || pc.DropTmp2? || pc.CloseStale?
  }

  ghost predicate Leaving(pc: Pc) {
    !Making(pc) && !Asking(pc) && !Testing(pc) && !Breaking(pc)
  }

  lemma MakingEffect(s: State, s': State, p: Pid)
    requires p in s.procs && Making(s.procs[p].pc) && RunStep(s, s', p)
    ensures Effect(s, s', p)
  {}

  lemma AskingEffect(s: State, s': State, p: Pid)
    requires p in s.procs && Asking(s.procs[p].pc) && RunStep(s, s', p)
    ensures Effect(s, s', p)
  {}

  lemma TestingEffect(s: State, s': State, p: Pid)
    requires p in s.procs && Testing(s.procs[p].pc) && RunStep(s, s', p)
    ensures Effect(s, s', p)
  {}

  lemma BreakingEffect(s: State, s': State, p: Pid)
    requires p in s.procs && Breaking(s.procs[p].pc) && RunStep(s, s', p)
    ensures Effect(s, s', p)
  {}

  lemma LeavingEffect(s: State, s': State, p: Pid)
    requires p in s.procs && Leaving(s.procs[p].pc) && RunStep(s, s', p)
    ensures Effect(s, s', p)
  {}

  lemma RunEffect(s: State, s': State, p: Pid)
    requires p in s.procs && RunStep(s, s', p)
    ensures Effect(s, s', p)
  {
    hide RunStep, Effect;
    if Making(s.procs[p].pc) {
      MakingEffect(s, s', p);
    } else if Asking(s.procs[p].pc) {
      AskingEffect(s, s', p);
    } else if Testing(s.procs[p].pc) {
      TestingEffect(s, s', p);
    } else if Breaking(s.procs[p].pc) {
      BreakingEffect(s, s', p);
    } else {
      LeavingEffect(s, s', p);
    }
  }

  lemma LiveLockRun(s: State, s': State, p: Pid, owner: Pid)
    requires p in s.procs && TmpInv(s, p) && LockInv(s, p) && Effect(s, s', p)
    requires LockFileOf(s, owner) && ValidPid(s, owner)
    ensures LockFileOf(s', owner) && s'.names[Lock] == s.names[Lock]
    ensures forall q :: !Acquires(s, s', q)
  {}

  lemma LiveLockStep(s: State, a: Action, s': State, owner: Pid)
    requires Inv(s) && Step(s, a, s') && !a.Release?
    requires LockFileOf(s, owner) && ValidPid(s, owner)
    ensures LockFileOf(s', owner) && s'.names[Lock] == s.names[Lock]
    ensures forall p :: !Acquires(s, s', p)
  {
    match a
    case Run(p) =>
      RunEffect(s, s', p);
      LiveLockRun(s, s', p, owner);
    case Crash(p) =>
    case Die(o) =>
  }

  ghost predicate AcquiresAt(states: seq<State>, k: nat, p: Pid) {
    k + 1 < |states| && Acquires(states[k], states[k + 1], p)
  }

  /** A lock whose owner is alive, whoever made it and however long ago, is never unlinked by shlock: as
      long as the owner does not remove it, the same file stays in place and nobody acquires the lock. */
  lemma {:induction false} LiveLockStays(states: seq<State>, acts: seq<Action>, i: nat, j: nat, owner: Pid)
    requires IsRun(states, acts) && LiveReadsWork(states, acts) && i <= j < |states|
    requires LockFileOf(states[i], owner) && ValidPid(states[j], owner)
    requires forall k | i <= k < j :: !acts[k].Release?
    ensures LockFileOf(states[j], owner) && states[j].names[Lock] == states[i].names[Lock]
    ensures forall k, p | i <= k < j :: !AcquiresAt(states, k, p)
    decreases j - i
  {
    if i < j {
      RunInv(states, acts, i);
      AliveShrinks(states, acts, i, j);
      var s, s' := states[i], states[i + 1];
      assert LockFileOf(s', owner) && s'.names[Lock] == s.names[Lock] && forall p :: !AcquiresAt(states, i, p) by {
        assert StepAt(states, acts, i);
        LiveLockStep(s, acts[i], s', owner);
      }
      LiveLockStays(states, acts, i + 1, j, owner);
    }
  }

  /** The dead stay dead. */
  lemma {:induction false} AliveShrinks(states: seq<State>, acts: seq<Action>, i: nat, j: nat)
    requires IsRun(states, acts) && i <= j < |states|
    ensures states[j].alive <= states[i].alive
    decreases j - i
  {
    if i < j {
      assert states[i + 1].alive <= states[i].alive by {
        assert StepAt(states, acts, i);
        StepShrinks(states[i], acts[i], states[i + 1]);
      }
      AliveShrinks(states, acts, i + 1, j);
    }
  }

  lemma StepShrinks(s: State, a: Action, s': State)
    requires Step(s, a, s')
    ensures s'.alive <= s.alive
  {
    if a.Run? {
      RunEffect(s, s', a.pid);
    }
  }

  /** A process about to unlink the lock name still has the file it opened under that name, the file is
      stale, it holds the second link, and no other process is past the inode-and-two-links test. */
  lemma OneBreaker(states: seq<State>, acts: seq<Action>, i: nat, p: Pid)
    requires IsRun(states, acts) && LiveReadsWork(states, acts) && i < |states|
    requires p in states[i].procs && states[i].procs[p].pc.BreakLock?
    ensures var s := states[i];
            var fd := s.procs[p].fd;
            && fd.Open? && fd.ino in s.content && !ValidPid(s, s.content[fd.ino])
            && Lock in s.names && s.names[Lock] == fd.ino
            && Tmp2(p) in s.names && s.names[Tmp2(p)] == fd.ino
    ensures forall q | q in states[i].procs && q != p :: !states[i].procs[q].pc.BreakLock?
    ensures forall q | q in states[i].procs && q != p && states[i].procs[q].pc.StatLock? ::
              !StillOurs(states[i], states[i].procs[q])
  {
    RunInv(states, acts, i);
    var s := states[i];
    assert LockInv(s, p);
    forall q | q in s.procs && q != p && s.procs[q].pc.StatLock?
      ensures !StillOurs(s, s.procs[q])
    {
      if StillOurs(s, s.procs[q]) {
        assert LockInv(s, q);
        TwoLinks(s.names, s.procs[p].fd.ino, p, q);
        assert false;
      }
    }
  }

  // --- what a process answers -----------------------------------------------------------

  /** The step in which `p` puts its own file under the free lock name. */
  ghost predicate Gets(states: seq<State>, acts: seq<Action>, k: nat, p: Pid)
    requires |states| == |acts| + 1
  {
    && k < |acts| && acts[k] == Run(p)
    && Lock !in states[k].names && Tmp(p) in states[k].names
    && Lock in states[k + 1].names && states[k + 1].names[Lock] == states[k].names[Tmp(p)]
  }

  lemma RunAcquires(s: State, s': State, p: Pid)
    requires p in s.procs && RunStep(s, s', p)
    ensures Acquires(s, s', p) <==>
            && Lock !in s.names && Tmp(p) in s.names && Lock in s'.names && s'.names[Lock] == s.names[Tmp(p)]
  {
    if s.procs[p].pc.LinkLock? {
      assert StepLinkLock(s, s', p, s.procs[p]);
    } else {
      NoNewLock(s, s', p);
    }
  }

  lemma NoNewLock(s: State, s': State, p: Pid)
    requires p in s.procs && RunStep(s, s', p) && !s.procs[p].pc.LinkLock?
    ensures Lock in s'.names ==> Lock in s.names
  {}

  /** Nobody but the process that runs acquires anything. */
  lemma OnlyRunAcquires(s: State, a: Action, s': State, p: Pid)
    requires Step(s, a, s') && Acquires(s, s', p)
    ensures a == Run(p)
  {
    if a.Run? {
      RunEffect(s, s', a.pid);
    }
  }

  lemma AcquiresIsGets(states: seq<State>, acts: seq<Action>, k: nat, p: Pid)
    requires IsRun(states, acts) && p in states[0].procs
    ensures k < |acts| ==> (AcquiresAt(states, k, p) <==> Gets(states, acts, k, p))
  {
    hide RunStep, Acquires;
    if k < |acts| {
      StaysThere(states, acts, k, p);
      assert StepAt(states, acts, k);
      if AcquiresAt(states, k, p) {
        OnlyRunAcquires(states[k], acts[k], states[k + 1], p);
      }
      if acts[k] == Run(p) {
        RunAcquires(states[k], states[k + 1], p);
      }
    }
  }

  lemma {:induction false} StaysThere(states: seq<State>, acts: seq<Action>, i: nat, p: Pid)
    requires IsRun(states, acts) && p in states[0].procs && i < |states|
    ensures p in states[i].procs
  {
    hide RunStep;
    if i > 0 {
      StaysThere(states, acts, i - 1, p);
      assert StepAt(states, acts, i - 1);
      StillThere(states[i - 1], acts[i - 1], states[i], p);
    }
  }

  lemma StillThere(s: State, a: Action, s': State, p: Pid)
    requires Step(s, a, s') && p in s.procs
    ensures p in s'.procs
  {
    hide RunStep;
    if a.Run? {
      RunEffect(s, s', a.pid);
    }
  }

  /** What a process has got, and what it will answer. */
  ghost predicate Answers(pc: Pc, got: bool) {
    && (pc.Exited? ==> pc.code == if got then 0 else 1)
    && (pc.Crashed? || (got <==> Won(pc)))
  }

  lemma MakingAnswers(s: State, s': State, p: Pid, got: bool)
    requires p in s.procs && Making(s.procs[p].pc) && RunStep(s, s', p) && Answers(s.procs[p].pc, got)
    ensures p in s'.procs && Answers(s'.procs[p].pc, got || Acquires(s, s', p))
  {}

  lemma AskingAnswers(s: State, s': State, p: Pid, got: bool)
    requires p in s.procs && Asking(s.procs[p].pc) && RunStep(s, s', p) && Answers(s.procs[p].pc, got)
    ensures p in s'.procs && Answers(s'.procs[p].pc, got || Acquires(s, s', p))
  {}

  lemma TestingAnswers(s: State, s': State, p: Pid, got: bool)
    requires p in s.procs && Testing(s.procs[p].pc) && RunStep(s, s', p) && Answers(s.procs[p].pc, got)
    ensures p in s'.procs && Answers(s'.procs[p].pc, got || Acquires(s, s', p))
  {}

  lemma BreakingAnswers(s: State, s': State, p: Pid, got: bool)
    requires p in s.procs && Breaking(s.procs[p].pc) && RunStep(s, s', p) && Answers(s.procs[p].pc, got)
    ensures p in s'.procs && Answers(s'.procs[p].pc, got || Acquires(s, s', p))
  {}

  lemma LeavingAnswers(s: State, s': State, p: Pid, got: bool)
    requires p in s.procs && Leaving(s.procs[p].pc) && RunStep(s, s', p) && Answers(s.procs[p].pc, got)
    ensures p in s'.procs && Answers(s'.procs[p].pc, got || Acquires(s, s', p))
  {}

  lemma RunAnswers(s: State, s': State, p: Pid, got: bool)
    requires p in s.procs && RunStep(s, s', p) && Answers(s.procs[p].pc, got)
    ensures p in s'.procs && Answers(s'.procs[p].pc, got || Acquires(s, s', p))
  {
    hide RunStep, Answers, Acquires;
    if Making(s.procs[p].pc) {
      MakingAnswers(s, s', p, got);
    } else if Asking(s.procs[p].pc) {
      AskingAnswers(s, s', p, got);
    } else if Testing(s.procs[p].pc) {
      TestingAnswers(s, s', p, got);
    } else if Breaking(s.procs[p].pc) {
      BreakingAnswers(s, s', p, got);
    } else {
      LeavingAnswers(s, s', p, got);
    }
  }

  lemma StepAnswers(s: State, a: Action, s': State, p: Pid, got: bool)
    requires Step(s, a, s') && p in s.procs && Answers(s.procs[p].pc, got)
    ensures p in s'.procs && Answers(s'.procs[p].pc, got || Acquires(s, s', p))
  {
    match a
    case Run(q) =>
      if q == p {
        RunAnswers(s, s', p, got);
      } else {
        RunEffect(s, s', q);
        hide RunStep;
      }
    case Crash(q) =>
    case Die(o) =>
    case Release =>
  }

  ghost predicate GotBefore(states: seq<State>, acts: seq<Action>, i: nat, p: Pid)
    requires |states| == |acts| + 1
  {
    exists k: nat :: k < i && Gets(states, acts, k, p)
  }

  lemma {:induction false} RunsAnswer(states: seq<State>, acts: seq<Action>, i: nat, p: Pid)
    requires IsRun(states, acts) && i < |states| && p in states[0].procs
    ensures p in states[i].procs && Answers(states[i].procs[p].pc, GotBefore(states, acts, i, p))
  {
    hide Step, RunStep, Acquires, Gets, Answers;
    if i == 0 {
      assert Answers(OpenTmp, false) by {
        OpenAnswers();
      }
      assert !GotBefore(states, acts, 0, p);
    } else {
      RunsAnswer(states, acts, i - 1, p);
      assert StepAt(states, acts, i - 1);
      StepAnswers(states[i - 1], acts[i - 1], states[i], p, GotBefore(states, acts, i - 1, p));
      AcquiresIsGets(states, acts, i - 1, p);
      assert GotBefore(states, acts, i, p) <==>
             GotBefore(states, acts, i - 1, p) || Gets(states, acts, i - 1, p);
    }
  }

  lemma OpenAnswers()
    ensures Answers(OpenTmp, false)
  {}

  /** In every run, with failing calls and reads or without, a process exits with status 0 if it put its file under the
      lock name before, and with status 1 otherwise. */
  lemma ExitTells(states: seq<State>, acts: seq<Action>, i: nat, p: Pid)
    requires IsRun(states, acts) && i < |states| && p in states[0].procs
    requires p in states[i].procs && states[i].procs[p].pc.Exited?
    ensures states[i].procs[p].pc.code == 0 || states[i].procs[p].pc.code == 1
    ensures states[i].procs[p].pc.code == 0 <==> exists k: nat :: k < i && Gets(states, acts, k, p)
  {
    RunsAnswer(states, acts, i, p);
  }

  // --- how long a process runs ----------------------------------------------------------

  /** The calls a process can still make if it breaks no more locks. */
  ghost function CallsLeft(s: State, p: Pid): nat
    requires p in s.procs
  {
    match s.procs[p].pc
    case OpenTmp => if Tmp(p) in s.names then 18 else 16
    case ClearTmp => 17
    case WritePid => 15
    case CloseTmp => 14
    case LinkLock => 13
    case OpenLock => 12
    case ReadPid => 11
    case Probe => 10
    case ClearTmp2 => 9
    case StatTmp => 8
    case FstatLock => 7
    case LinkTmp2 => 6
    case StatLock => 5
    case BreakLock => 4
    case DropTmp2 => 15
    case CloseStale => 14
    case ExitUnlink2 => 3
    case ExitClose => 2
    case ExitUnlink => 1
    case FinalUnlink => 1
    case Exited(_) => 0
    case Crashed => 0
  }

  /** The step in which `p` unlinks the lock name without an error. */
  ghost predicate Unlocks(s: State, a: Action, s': State, p: Pid) {
    a == Run(p) && p in s.procs && p in s'.procs && s.procs[p].pc.BreakLock? && s'.procs[p].pc.DropTmp2?
  }

  /** What one step may cost: twelve more calls if a lock is broken. */
  ghost predicate Uses(s: State, a: Action, s': State, p: Pid) {
    && p in s.procs && p in s'.procs
    && CallsLeft(s', p) + (if a == Run(p) then 1 else 0)
       <= CallsLeft(s, p) + if Unlocks(s, a, s', p) then 12 else 0
  }

  lemma MakingUses(s: State, s': State, p: Pid)
    requires p in s.procs && Making(s.procs[p].pc) && RunStep(s, s', p)
    ensures Uses(s, Run(p), s', p)
  {}

  lemma AskingUses(s: State, s': State, p: Pid)
    requires p in s.procs && Asking(s.procs[p].pc) && RunStep(s, s', p)
    ensures Uses(s, Run(p), s', p)
  {}

  lemma TestingUses(s: State, s': State, p: Pid)
    requires p in s.procs && Testing(s.procs[p].pc) && RunStep(s, s', p)
    ensures Uses(s, Run(p), s', p)
  {}

  lemma BreakingUses(s: State, s': State, p: Pid)
    requires p in s.procs && Breaking(s.procs[p].pc) && RunStep(s, s', p)
    ensures Uses(s, Run(p), s', p)
  {}

  lemma LeavingUses(s: State, s': State, p: Pid)
    requires p in s.procs && Leaving(s.procs[p].pc) && RunStep(s, s', p)
    ensures Uses(s, Run(p), s', p)
  {}

  lemma StepUses(s: State, a: Action, s': State, p: Pid)
    requires Step(s, a, s') && p in s.procs
    ensures Uses(s, a, s', p)
  {
    if a == Run(p) {
      hide RunStep, Uses;
      if Making(s.procs[p].pc) {
        MakingUses(s, s', p);
      } else if Asking(s.procs[p].pc) {
        AskingUses(s, s', p);
      } else if Testing(s.procs[p].pc) {
        TestingUses(s, s', p);
      } else if Breaking(s.procs[p].pc) {
        BreakingUses(s, s', p);
      } else {
        LeavingUses(s, s', p);
      }
    } else if a.Run? {
      hide RunStep;
      RunEffect(s, s', a.pid);
    }
  }

  /** The calls that `p` made in the first `i` steps, and the locks it broke in them. */
  ghost function CallsMade(acts: seq<Action>, i: nat, p: Pid): nat
    requires i <= |acts|
  {
    if i == 0 then 0 else CallsMade(acts, i - 1, p) + if acts[i - 1] == Run(p) then 1 else 0
  }

  ghost function LocksBroken(states: seq<State>, acts: seq<Action>, i: nat, p: Pid): nat
    requires |states| == |acts| + 1 && i <= |acts|
  {
    if i == 0 then 0
    else LocksBroken(states, acts, i - 1, p) + if Unlocks(states[i - 1], acts[i - 1], states[i], p) then 1 else 0
  }

  /** In every run a process makes at most eighteen calls, and twelve more for every lock it breaks. */
  lemma {:induction false} CallsBounded(states: seq<State>, acts: seq<Action>, i: nat, p: Pid)
    requires IsRun(states, acts) && i < |states| && p in states[0].procs
    ensures p in states[i].procs
    ensures CallsMade(acts, i, p) + CallsLeft(states[i], p) <= 18 + 12 * LocksBroken(states, acts, i, p)
  {
    hide Step, RunStep, Unlocks;
    if i > 0 {
      hide CallsLeft;
      CallsBounded(states, acts, i - 1, p);
      assert StepAt(states, acts, i - 1);
      StepUses(states[i - 1], acts[i - 1], states[i], p);
    }
  }

  /** The process goes on to `pc`, with or without closing its descriptor. */
  ghost function GoneTo(s: State, p: Pid, pc: Pc, close: bool): State
    requires p in s.procs
  {
    var me := s.procs[p];
    s.(procs := s.procs[p := me.(pc := pc, fd := if close then Closed else me.fd)])
  }

  /** Unlinking `n` fails, and the process goes on to `pc`. */
  ghost function NotUnlinked(s: State, p: Pid, n: Name, pc: Pc, close: bool): State
    requires p in s.procs
  {
    var me := s.procs[p];
    var fd := if close then Closed else me.fd;
    s.(procs := s.procs[p := me.(pc := pc, fd := fd, stuck := me.stuck + {n})])
  }

  lemma Fails(s: State, p: Pid, n: Name, pc: Pc, close: bool)
    requires p in s.procs
    ensures var me := s.procs[p];
            Unlinks(s, NotUnlinked(s, p, n, pc, close), p, n,
                    if close then me.(pc := pc, fd := Closed) else me.(pc := pc), false)
  {}

  /** The calls whose failure makes a process give up. */
  ghost predicate Vital(pc: Pc) {
    || Making(pc) || Testing(pc) || pc.LinkLock? || pc.OpenLock? || pc.StatLock? || pc.BreakLock?
  }

  lemma GivesUp(s: State, p: Pid) returns (s': State)
    requires p in s.procs && Vital(s.procs[p].pc) && (s.procs[p].pc.WritePid? ==> s.procs[p].fd.Open?)
    ensures RunStep(s, s', p) && p in s'.procs && Leaving(s'.procs[p].pc) && !Won(s'.procs[p].pc)
  {
    var me := s.procs[p];
    match me.pc
    case OpenTmp => s' := GoneTo(s, p, Exited(1), false);
    case ClearTmp => s' := NotUnlinked(s, p, Tmp(p), Exited(1), false);
    case WritePid => s' := GoneTo(s, p, ExitClose, false).(content := s.content[me.fd.ino := 0]);
    case CloseTmp => s' := GoneTo(s, p, ExitUnlink, true);
    case LinkLock => s' := GoneTo(s, p, ExitUnlink, false);
    case OpenLock => s' := GoneTo(s, p, ExitUnlink, false);
    case ClearTmp2 => s' := NotUnlinked(s, p, Tmp2(p), ExitUnlink, false);
    case StatTmp => s' := GoneTo(s, p, ExitClose, false);
    case FstatLock => s' := GoneTo(s, p, ExitClose, false);
    case LinkTmp2 => s' := GoneTo(s, p, ExitClose, false);
    case StatLock => s' := GoneTo(s, p, ExitUnlink2, false);
    case BreakLock => s' := GoneTo(s, p, ExitUnlink2, false);
  }

  lemma CleansUp(s: State, p: Pid) returns (s': State)
    requires p in s.procs && (s.procs[p].pc.DropTmp2? || Leaving(s.procs[p].pc))
    requires !s.procs[p].pc.Exited? && !s.procs[p].pc.Crashed?
    ensures RunStep(s, s', p) && p in s'.procs
  {
    match s.procs[p].pc
    case DropTmp2 =>
      s' := NotUnlinked(s, p, Tmp2(p), CloseStale, false);
      Fails(s, p, Tmp2(p), CloseStale, false);
    case ExitUnlink2 =>
      s' := NotUnlinked(s, p, Tmp2(p), ExitClose, false);
      Fails(s, p, Tmp2(p), ExitClose, false);
    case ExitClose =>
      s' := GoneTo(s, p, ExitUnlink, true);
    case ExitUnlink =>
      s' := NotUnlinked(s, p, Tmp(p), Exited(1), true);
      Fails(s, p, Tmp(p), Exited(1), true);
    case FinalUnlink =>
      s' := NotUnlinked(s, p, Tmp(p), Exited(0), false);
      Fails(s, p, Tmp(p), Exited(0), false);
  }

  /** Until it exits or crashes a process has a next step, and if a call fails that it cannot do without, it leaves and
      will not have the lock. */
  lemma NeverStuck(s: State, p: Pid) returns (s': State)
    requires Inv(s) && p in s.procs && !s.procs[p].pc.Exited? && !s.procs[p].pc.Crashed?
    ensures RunStep(s, s', p) && p in s'.procs
    ensures Vital(s.procs[p].pc) ==> Leaving(s'.procs[p].pc) && !Won(s'.procs[p].pc)
  {
    var me := s.procs[p];
    assert TmpInv(s, p) && LockInv(s, p);
    hide Inv, Private, Harmless;
    if Vital(me.pc) {
      s' := GivesUp(s, p);
    } else if me.pc.ReadPid? {
      s' := s.(procs := s.procs[p := me.(pc := Probe, seen := s.content[me.fd.ino])]);
    } else if me.pc.Probe? {
      s' := GoneTo(s, p, if ValidPid(s, me.seen) then ExitClose else ClearTmp2, false);
    } else if me.pc.CloseStale? {
      s' := GoneTo(s, p, LinkLock, true);
    } else {
      s' := CleansUp(s, p);
    }
  }

  // --- the tests before a lock is broken ------------------------------------------------

  /** The process has the file open, and the file has no other name than the one it was found under. */
  ghost predicate SawPlain(s: State, p: Pid, fd: Descriptor) {
    p in s.procs && s.procs[p].fd == fd && fd.Open? && |Links(s.names, fd.ino)| == 1
  }

  ghost predicate PlainBefore(states: seq<State>, i: nat, p: Pid, fd: Descriptor) {
    exists k: nat :: k <= i && k < |states| && SawPlain(states[k], p, fd)
  }

  /** It is about to make its second link, or has made it. */
  ghost predicate AfterFstat(pc: Pc) {
    pc.LinkTmp2? || pc.StatLock? || pc.BreakLock?
  }

  /** The second temporary name was removed and not made yet. */
  ghost predicate Cleared(pc: Pc) {
    pc.StatTmp? || pc.FstatLock? || pc.LinkTmp2?
  }

  ghost predicate Tested(s: State, p: Pid, plain: bool) {
    && p in s.procs
    && (Cleared(s.procs[p].pc) ==> Tmp2(p) !in s.names)
    && (AfterFstat(s.procs[p].pc) ==> plain)
  }

  lemma MakingTests(s: State, s': State, p: Pid, plain: bool)
    requires p in s.procs && Making(s.procs[p].pc) && RunStep(s, s', p) && Tested(s, p, plain)
    ensures Tested(s', p, plain || SawPlain(s, p, s.procs[p].fd))
    ensures p in s'.procs && (AfterFstat(s'.procs[p].pc) ==> s'.procs[p].fd == s.procs[p].fd)
  {}

  lemma AskingTests(s: State, s': State, p: Pid, plain: bool)
    requires p in s.procs && Asking(s.procs[p].pc) && RunStep(s, s', p) && Tested(s, p, plain)
    ensures Tested(s', p, plain || SawPlain(s, p, s.procs[p].fd))
    ensures p in s'.procs && (AfterFstat(s'.procs[p].pc) ==> s'.procs[p].fd == s.procs[p].fd)
  {}

  lemma TestingTests(s: State, s': State, p: Pid, plain: bool)
    requires p in s.procs && Testing(s.procs[p].pc) && RunStep(s, s', p) && Tested(s, p, plain)
    ensures Tested(s', p, plain || SawPlain(s, p, s.procs[p].fd))
    ensures p in s'.procs && (AfterFstat(s'.procs[p].pc) ==> s'.procs[p].fd == s.procs[p].fd)
  {}

  lemma BreakingTests(s: State, s': State, p: Pid, plain: bool)
    requires p in s.procs && Breaking(s.procs[p].pc) && RunStep(s, s', p) && Tested(s, p, plain)
    ensures Tested(s', p, plain || SawPlain(s, p, s.procs[p].fd))
    ensures p in s'.procs && (AfterFstat(s'.procs[p].pc) ==> s'.procs[p].fd == s.procs[p].fd)
  {}

  lemma LeavingTests(s: State, s': State, p: Pid, plain: bool)
    requires p in s.procs && Leaving(s.procs[p].pc) && RunStep(s, s', p) && Tested(s, p, plain)
    ensures Tested(s', p, plain || SawPlain(s, p, s.procs[p].fd))
    ensures p in s'.procs && (AfterFstat(s'.procs[p].pc) ==> s'.procs[p].fd == s.procs[p].fd)
  {}

  lemma RunTests(s: State, s': State, p: Pid, plain: bool)
    requires p in s.procs && RunStep(s, s', p) && Tested(s, p, plain)
    ensures Tested(s', p, plain || SawPlain(s, p, s.procs[p].fd))
    ensures p in s'.procs && (AfterFstat(s'.procs[p].pc) ==> s'.procs[p].fd == s.procs[p].fd)
  {
    hide RunStep, Tested, SawPlain, AfterFstat;
    if Making(s.procs[p].pc) {
      MakingTests(s, s', p, plain);
    } else if Asking(s.procs[p].pc) {
      AskingTests(s, s', p, plain);
    } else if Testing(s.procs[p].pc) {
      TestingTests(s, s', p, plain);
    } else if Breaking(s.procs[p].pc) {
      BreakingTests(s, s', p, plain);
    } else {
      LeavingTests(s, s', p, plain);
    }
  }

  lemma StepTests(s: State, a: Action, s': State, p: Pid, plain: bool)
    requires Step(s, a, s') && Tested(s, p, plain)
    ensures Tested(s', p, plain || (a == Run(p) && SawPlain(s, p, s.procs[p].fd)))
    ensures p in s'.procs && (AfterFstat(s'.procs[p].pc) ==> s'.procs[p].fd == s.procs[p].fd)
  {
    match a
    case Run(q) =>
      if q == p {
        RunTests(s, s', p, plain);
      } else {
        RunEffect(s, s', q);
        hide RunStep, SawPlain;
      }
    case Crash(q) =>
    case Die(o) =>
    case Release =>
  }

  /** In every run, failing calls or not: a process that is about to make its second link has removed the old one, and
      the file that it has open had only one name when it looked; so a lock with further links is never broken. */
  lemma {:induction false} OnlyPlainLocks(states: seq<State>, acts: seq<Action>, i: nat, p: Pid)
    requires IsRun(states, acts) && i < |states| && p in states[0].procs
    ensures p in states[i].procs
    ensures Tested(states[i], p, PlainBefore(states, i, p, states[i].procs[p].fd))
  {
    hide Step, RunStep, SawPlain, Cleared, AfterFstat, Tested;
    if i == 0 {
      OpenTests(states[0], p, PlainBefore(states, 0, p, states[0].procs[p].fd));
    } else {
      OnlyPlainLocks(states, acts, i - 1, p);
      assert StepAt(states, acts, i - 1);
      var s, s' := states[i - 1], states[i];
      var plain := PlainBefore(states, i - 1, p, s.procs[p].fd);
      StepTests(s, acts[i - 1], s', p, plain);
      if plain || SawPlain(s, p, s.procs[p].fd) {
        assert PlainBefore(states, i, p, s.procs[p].fd);
      }
      StillTested(s', p, plain || SawPlain(s, p, s.procs[p].fd), PlainBefore(states, i, p, s'.procs[p].fd));
    }
  }

  lemma OpenTests(s: State, p: Pid, plain: bool)
    requires p in s.procs && s.procs[p].pc.OpenTmp?
    ensures Tested(s, p, plain)
  {}

  lemma StillTested(s: State, p: Pid, plain: bool, more: bool)
    requires p in s.procs && Tested(s, p, plain) && (AfterFstat(s.procs[p].pc) && plain ==> more)
    ensures Tested(s, p, more)
  {}

  // --- temporary files ------------------------------------------------------------------

  /** Whether files with the temporary names of a process were there before it started, whether it gave up because it
      could not create the first, and whether it has tried to unlink an old second one. */
  datatype Past = Past(first: bool, second: bool, failed: bool, tried: bool)

  /** What the step from `s` to `s'` adds to the past of `p`. */
  ghost function After(past: Past, s: State, a: Action, s': State, p: Pid): Past {
    if a != Run(p) || p !in s.procs || p !in s'.procs then past
    else past.(failed := past.failed || (s.procs[p].pc.OpenTmp? && s'.procs[p].pc.Exited?),
               tried := past.tried || s.procs[p].pc.ClearTmp2?)
  }

  ghost predicate TidyFirst(s: State, p: Pid, past: Past)
    requires p in s.procs
  {
    var me := s.procs[p];
    && (me.pc.OpenTmp? ==> (Tmp(p) in s.names ==> past.first) && me.stuck == {} && !past.failed)
    && (me.pc.ClearTmp? ==> Tmp(p) in s.names && me.stuck == {} && !past.failed)
    && (HasTmp(me.pc) ==> Tmp(p) in s.names && Tmp(p) !in me.stuck && !past.failed)
    && (me.pc.Exited? ==>
          && (Tmp(p) in me.stuck ==> Tmp(p) in s.names)
          && (Tmp(p) in s.names ==> Tmp(p) in me.stuck || (past.failed && past.first)))
  }

  ghost predicate TidySecond(s: State, p: Pid, past: Past)
    requires p in s.procs
  {
    var me := s.procs[p];
    && (Tmp2(p) in s.names && !me.pc.Crashed? ==>
          Tmp2(p) in me.stuck || MayHaveGrabbed(me.pc) || (!past.tried && past.second))
    && (MayHaveGrabbed(me.pc) || me.pc.StatTmp? || me.pc.FstatLock? || me.pc.LinkTmp2? ==> past.tried)
  }

  ghost predicate Tidy(s: State, p: Pid, past: Past) {
    p in s.procs && TidyFirst(s, p, past) && TidySecond(s, p, past)
  }

  ghost predicate MayHaveGrabbed(pc: Pc) {
    pc.StatLock? || pc.BreakLock? || pc.DropTmp2? || pc.ExitUnlink2?
  }

  lemma MakingKeepsFirst(s: State, s': State, p: Pid, past: Past)
    requires p in s.procs && Making(s.procs[p].pc) && RunStep(s, s', p) && TidyFirst(s, p, past)
    ensures p in s'.procs && TidyFirst(s', p, After(past, s, Run(p), s', p))
  {}

  lemma AskingKeepsFirst(s: State, s': State, p: Pid, past: Past)
    requires p in s.procs && Asking(s.procs[p].pc) && RunStep(s, s', p) && TidyFirst(s, p, past)
    ensures p in s'.procs && TidyFirst(s', p, After(past, s, Run(p), s', p))
  {}

  lemma TestingKeepsFirst(s: State, s': State, p: Pid, past: Past)
    requires p in s.procs && Testing(s.procs[p].pc) && RunStep(s, s', p) && TidyFirst(s, p, past)
    ensures p in s'.procs && TidyFirst(s', p, After(past, s, Run(p), s', p))
  {}

  lemma BreakingKeepsFirst(s: State, s': State, p: Pid, past: Past)
    requires p in s.procs && Breaking(s.procs[p].pc) && RunStep(s, s', p) && TidyFirst(s, p, past)
    ensures p in s'.procs && TidyFirst(s', p, After(past, s, Run(p), s', p))
  {}

  lemma LeavingKeepsFirst(s: State, s': State, p: Pid, past: Past)
    requires p in s.procs && Leaving(s.procs[p].pc) && RunStep(s, s', p) && TidyFirst(s, p, past)
    ensures p in s'.procs && TidyFirst(s', p, After(past, s, Run(p), s', p))
  {}

  lemma OpenTmpKeepsSecond(s: State, s': State, p: Pid, past: Past)
    requires p in s.procs && s.procs[p].pc.OpenTmp? && RunStep(s, s', p) && TidySecond(s, p, past)
    ensures p in s'.procs && TidySecond(s', p, After(past, s, Run(p), s', p))
  {}

  lemma MakingKeepsSecond(s: State, s': State, p: Pid, past: Past)
    requires p in s.procs && Making(s.procs[p].pc) && RunStep(s, s', p) && TidySecond(s, p, past)
    ensures p in s'.procs && TidySecond(s', p, After(past, s, Run(p), s', p))
  {
    if s.procs[p].pc.OpenTmp? {
      hide *;
      OpenTmpKeepsSecond(s, s', p, past);
    }
  }

  lemma AskingKeepsSecond(s: State, s': State, p: Pid, past: Past)
    requires p in s.procs && Asking(s.procs[p].pc) && RunStep(s, s', p) && TidySecond(s, p, past)
    ensures p in s'.procs && TidySecond(s', p, After(past, s, Run(p), s', p))
  {}

  lemma TestingKeepsSecond(s: State, s': State, p: Pid, past: Past)
    requires p in s.procs && Testing(s.procs[p].pc) && RunStep(s, s', p) && TidySecond(s, p, past)
    ensures p in s'.procs && TidySecond(s', p, After(past, s, Run(p), s', p))
  {}

  lemma BreakingKeepsSecond(s: State, s': State, p: Pid, past: Past)
    requires p in s.procs && Breaking(s.procs[p].pc) && RunStep(s, s', p) && TidySecond(s, p, past)
    ensures p in s'.procs && TidySecond(s', p, After(past, s, Run(p), s', p))
  {}

  lemma LeavingKeepsSecond(s: State, s': State, p: Pid, past: Past)
    requires p in s.procs && Leaving(s.procs[p].pc) && RunStep(s, s', p) && TidySecond(s, p, past)
    ensures p in s'.procs && TidySecond(s', p, After(past, s, Run(p), s', p))
  {}

  lemma OwnStepKeepsTidy(s: State, s': State, p: Pid, past: Past)
    requires p in s.procs && RunStep(s, s', p) && Tidy(s, p, past)
    ensures Tidy(s', p, After(past, s, Run(p), s', p))
  {
    hide RunStep, TidyFirst, TidySecond;
    if Making(s.procs[p].pc) {
      MakingKeepsFirst(s, s', p, past);
      MakingKeepsSecond(s, s', p, past);
    } else if Asking(s.procs[p].pc) {
      AskingKeepsFirst(s, s', p, past);
      AskingKeepsSecond(s, s', p, past);
    } else if Testing(s.procs[p].pc) {
      TestingKeepsFirst(s, s', p, past);
      TestingKeepsSecond(s, s', p, past);
    } else if Breaking(s.procs[p].pc) {
      BreakingKeepsFirst(s, s', p, past);
      BreakingKeepsSecond(s, s', p, past);
    } else {
      LeavingKeepsFirst(s, s', p, past);
      LeavingKeepsSecond(s, s', p, past);
    }
  }

  lemma StepKeepsTidy(s: State, a: Action, s': State, p: Pid, past: Past)
    requires Step(s, a, s') && Tidy(s, p, past)
    ensures Tidy(s', p, After(past, s, a, s', p))
  {
    match a
    case Run(q) =>
      if q == p {
        OwnStepKeepsTidy(s, s', p, past);
      } else {
        RunEffect(s, s', q);
        hide RunStep;
        assert Tidy(s', p, past);
      }
    case Crash(q) =>
    case Die(o) =>
    case Release =>
  }

  /** The past of `p` in the `i`th state of a run. */
  ghost function PastOf(states: seq<State>, acts: seq<Action>, i: nat, p: Pid): Past
    requires i < |states| == |acts| + 1
  {
    if i == 0 then Past(Tmp(p) in states[0].names, Tmp2(p) in states[0].names, false, false)
    else After(PastOf(states, acts, i - 1, p), states[i - 1], acts[i - 1], states[i], p)
  }

  /** A process that exits, rather than crashing, leaves its first temporary name behind only if its last attempt to
      unlink it failed, or if the name was there before and the process gave up because it could not create the file.
      It leaves its second one only if its last attempt to unlink that failed, or if the name was there before and the
      process never came to breaking a lock.  Failing reads do not matter here. */
  lemma {:induction false} ExitLeavesNothing(states: seq<State>, acts: seq<Action>, i: nat, p: Pid)
    requires IsRun(states, acts) && i < |states| && p in states[0].procs
    ensures var s, past := states[i], PastOf(states, acts, i, p);
            && Tidy(s, p, past)
            && (s.procs[p].pc.Exited? ==>
                  && (Tmp(p) in s.procs[p].stuck ==> Tmp(p) in s.names)
                  && (Tmp(p) in s.names ==> Tmp(p) in s.procs[p].stuck || (past.failed && past.first))
                  && (Tmp2(p) in s.names ==> Tmp2(p) in s.procs[p].stuck || (!past.tried && past.second)))
  {
    hide Step, RunStep;
    if i > 0 {
      ExitLeavesNothing(states, acts, i - 1, p);
      assert StepAt(states, acts, i - 1);
      StepKeepsTidy(states[i - 1], acts[i - 1], states[i], p, PastOf(states, acts, i - 1, p));
    }
  }

  /** What the past was before the run does not change in it. */
  lemma {:induction false} PastStays(states: seq<State>, acts: seq<Action>, i: nat, p: Pid)
    requires IsRun(states, acts) && i < |states|
    ensures PastOf(states, acts, i, p).first == (Tmp(p) in states[0].names)
    ensures PastOf(states, acts, i, p).second == (Tmp2(p) in states[0].names)
  {
    hide Step, RunStep;
    if i > 0 {
      PastStays(states, acts, i - 1, p);
    }
  }

  // --- stale locks are broken, and live ones too when a read fails --------------------------

  /** Consecutive steps of one process. */
  ghost predicate SoloPath(path: seq<State>, p: Pid) {
    |path| > 0 && forall i: nat | i + 1 < |path| :: SoloStepAt(path, i, p)
  }

  ghost predicate SoloStepAt(path: seq<State>, i: nat, p: Pid)
    requires i + 1 < |path|
  {
    Step(path[i], Run(p), path[i + 1])
  }

  lemma Extend(path: seq<State>, p: Pid, s': State)
    requires SoloPath(path, p) && Step(path[|path| - 1], Run(p), s')
    ensures SoloPath(path + [s'], p)
  {
    var longer := path + [s'];
    forall i: nat | i + 1 < |longer| ensures SoloStepAt(longer, i, p) {
      if i + 1 < |path| {
        assert SoloStepAt(path, i, p);
      }
    }
  }

  /** The lock is an ordinary file with one link, and the process reads from it the ID of no running process. */
  ghost predicate Breakable(s: State, p: Pid, seen: Pid) {
    && p in s.procs && s.procs[p].pc.OpenLock?
    && Tmp(p) in s.names && Lock in s.names && s.names[Lock] in s.content
    && Links(s.names, s.names[Lock]) == {Lock}
    && (seen == s.content[s.names[Lock]] || (s.flakyRead && seen == 0)) && !ValidPid(s, seen)
  }

  lemma ReachProbed(s: State, p: Pid, seen: Pid) returns (path: seq<State>, t: State)
    requires Breakable(s, p, seen)
    ensures SoloPath(path, p) && path[0] == s && path[|path| - 1] == t
    ensures t == s.(procs := s.procs[p := s.procs[p].(pc := ClearTmp2, fd := Open(s.names[Lock]), seen := seen)])
  {
    var me := s.procs[p].(pc := ReadPid, fd := Open(s.names[Lock]));
    t := s.(procs := s.procs[p := me]);
    Extend([s], p, t);
    path := [s] + [t];
    me := me.(pc := Probe, seen := seen);
    t := s.(procs := s.procs[p := me]);
    Extend(path, p, t);
    path := path + [t];
    me := me.(pc := ClearTmp2);
    t := s.(procs := s.procs[p := me]);
    Extend(path, p, t);
    path := path + [t];
  }

  lemma ReachFstat(s: State, p: Pid, seen: Pid) returns (path: seq<State>, t: State)
    requires Breakable(s, p, seen)
    ensures SoloPath(path, p) && path[0] == s && path[|path| - 1] == t
    ensures t == s.(names := s.names - {Tmp2(p)}, procs := t.procs)
    ensures p in t.procs && t.procs == s.procs[p := t.procs[p]] && t.procs[p].owner == s.procs[p].owner
    ensures t.procs[p].pc.FstatLock? && t.procs[p].fd == Open(s.names[Lock])
  {
    path, t := ReachProbed(s, p, seen);
    var me := t.procs[p];
    me := me.(pc := StatTmp, stuck := me.stuck - {Tmp2(p)});
    t := s.(names := s.names - {Tmp2(p)}, procs := s.procs[p := me]);
    Extend(path, p, t);
    path := path + [t];
    me := me.(pc := FstatLock);
    t := t.(procs := s.procs[p := me]);
    Extend(path, p, t);
    path := path + [t];
  }

  lemma ReachStat(s: State, p: Pid, seen: Pid) returns (path: seq<State>, t: State)
    requires Breakable(s, p, seen)
    ensures SoloPath(path, p) && path[0] == s && path[|path| - 1] == t
    ensures t == s.(names := s.names[Tmp2(p) := s.names[Lock]], procs := t.procs)
    ensures p in t.procs && t.procs == s.procs[p := t.procs[p]] && t.procs[p].owner == s.procs[p].owner
    ensures t.procs[p].pc.StatLock? && t.procs[p].fd == Open(s.names[Lock])
  {
    path, t := ReachFstat(s, p, seen);
    var me, ino := t.procs[p].(pc := LinkTmp2), s.names[Lock];
    assert Links(t.names, ino) == {Lock};
    t := t.(procs := s.procs[p := me]);
    Extend(path, p, t);
    path := path + [t];
    me := me.(pc := StatLock);
    t := t.(names := s.names[Tmp2(p) := ino], procs := s.procs[p := me]);
    Extend(path, p, t);
    path := path + [t];
  }

  lemma ReachBreak(s: State, p: Pid, seen: Pid) returns (path: seq<State>, t: State)
    requires Breakable(s, p, seen)
    ensures SoloPath(path, p) && path[0] == s && path[|path| - 1] == t
    ensures t == s.(names := s.names[Tmp2(p) := s.names[Lock]], procs := t.procs)
    ensures p in t.procs && t.procs == s.procs[p := t.procs[p]] && t.procs[p].owner == s.procs[p].owner
    ensures t.procs[p].pc.BreakLock?
  {
    path, t := ReachStat(s, p, seen);
    assert Links(t.names, s.names[Lock]) == {Lock, Tmp2(p)};
    t := t.(procs := s.procs[p := t.procs[p].(pc := BreakLock)]);
    Extend(path, p, t);
    path := path + [t];
  }

  /** Left alone, a process that is about to link its file to the free lock name gets the lock, removes its temporary
      name and exits with status 0. */
  lemma LinksAndExits(s: State, p: Pid) returns (path: seq<State>, t: State)
    requires p in s.procs && s.procs[p].pc.LinkLock? && Lock !in s.names && Tmp(p) in s.names
    ensures SoloPath(path, p) && path[0] == s && path[|path| - 1] == t
    ensures p in t.procs && t.procs[p].pc == Exited(0) && t.procs[p].owner == s.procs[p].owner
    ensures t == s.(names := s.names[Lock := s.names[Tmp(p)]] - {Tmp(p)}, public := t.public, procs := t.procs,
                    holder := {p})
  {
    path := [s];
    t := s.(names := s.names[Lock := s.names[Tmp(p)]], public := s.public + {s.names[Tmp(p)]},
            procs := s.procs[p := s.procs[p].(pc := FinalUnlink)], holder := {p});
    Extend(path, p, t);
    path := path + [t];
    var u := t;
    t := t.(names := t.names - {Tmp(p)},
            procs := t.procs[p := t.procs[p].(pc := Exited(0), stuck := t.procs[p].stuck - {Tmp(p)})]);
    assert Unlinks(u, t, p, Tmp(p), u.procs[p].(pc := Exited(0)), true);
    Extend(path, p, t);
    path := path + [t];
  }

  /** Left alone, a process that reads a dead owner from the lock breaks it, gets the lock and says so. */
  lemma BreaksAndAcquires(s: State, p: Pid, seen: Pid) returns (path: seq<State>)
    requires Breakable(s, p, seen)
    ensures SoloPath(path, p) && path[0] == s
    ensures var t := path[|path| - 1];
            && p in t.procs && t.procs[p].pc == Exited(0) && t.procs[p].owner == s.procs[p].owner
            && Lock in t.names && t.names[Lock] == s.names[Tmp(p)] && Tmp(p) !in t.names && Tmp2(p) !in t.names
            && t.content == s.content && t.alive == s.alive && t.released == s.released
  {
    var t;
    path, t := ReachFree(s, p, seen);
    var rest;
    rest, t := LinksAndExits(t, p);
    path := Join(path, rest, p);
  }

  /** The stale lock is gone, and the process is about to try again. */
  lemma ReachFree(s: State, p: Pid, seen: Pid) returns (path: seq<State>, t: State)
    requires Breakable(s, p, seen)
    ensures SoloPath(path, p) && path[0] == s && path[|path| - 1] == t
    ensures t == s.(names := s.names - {Lock, Tmp2(p)}, procs := t.procs, holder := {})
    ensures p in t.procs && t.procs[p].pc.LinkLock? && t.procs[p].owner == s.procs[p].owner
  {
    path, t := ReachBreak(s, p, seen);
    t := t.(names := t.names - {Lock}, procs := t.procs[p := t.procs[p].(pc := DropTmp2)], holder := {});
    Extend(path, p, t);
    path := path + [t];
    t := t.(names := t.names - {Tmp2(p)},
            procs := t.procs[p := t.procs[p].(pc := CloseStale, stuck := t.procs[p].stuck - {Tmp2(p)})]);
    assert Unlinks(path[|path| - 1], t, p, Tmp2(p), path[|path| - 1].procs[p].(pc := CloseStale), true);
    Extend(path, p, t);
    path := path + [t];
    t := t.(procs := t.procs[p := t.procs[p].(pc := LinkLock, fd := Closed)]);
    Extend(path, p, t);
    path := path + [t];
    assert t.names == s.names - {Lock, Tmp2(p)};
  }

  ghost function Inodes(s: State): set<Inode> {
    (set n | n in s.names :: s.names[n]) + (set p | p in s.procs && s.procs[p].fd.Open? :: s.procs[p].fd.ino)
  }

  lemma {:induction false} Larger(inodes: set<Inode>) returns (ino: Inode)
    ensures forall i | i in inodes :: i < ino
  {
    ino := 0;
    if i :| i in inodes {
      ino := Larger(inodes - {i});
      ino := if ino <= i then i + 1 else ino;
      assert inodes == inodes - {i} + {i};
    }
  }

  /** Left alone, a process that starts while the lock name is free gets the lock for its owner and exits with status 0,
      whether or not an old file with its temporary name is in the way. */
  lemma GetsFreeLock(s: State, p: Pid) returns (path: seq<State>)
    requires p in s.procs && s.procs[p].pc.OpenTmp? && Lock !in s.names
    ensures SoloPath(path, p) && path[0] == s
    ensures var t := path[|path| - 1];
            && p in t.procs && t.procs[p].pc == Exited(0) && LockFileOf(t, s.procs[p].owner) && Tmp(p) !in t.names
            && (forall n | n in s.names && n != Tmp(p) :: n in t.names && t.names[n] == s.names[n])
            && t.alive == s.alive
  {
    path := [s];
    var t := s;
    if Tmp(p) in s.names {
      t := t.(procs := t.procs[p := t.procs[p].(pc := ClearTmp)]);
      Extend(path, p, t);
      path := path + [t];
      t := t.(names := t.names - {Tmp(p)},
              procs := t.procs[p := t.procs[p].(pc := OpenTmp, stuck := t.procs[p].stuck - {Tmp(p)})]);
      Extend(path, p, t);
      path := path + [t];
    }
    var rest := GetsFreeLockFirst(t, p);
    path := Join(path, rest, p);
  }

  lemma GetsFreeLockFirst(s: State, p: Pid) returns (path: seq<State>)
    requires p in s.procs && s.procs[p].pc.OpenTmp? && Lock !in s.names && Tmp(p) !in s.names
    ensures SoloPath(path, p) && path[0] == s
    ensures var t := path[|path| - 1];
            && p in t.procs && t.procs[p].pc == Exited(0) && LockFileOf(t, s.procs[p].owner) && Tmp(p) !in t.names
            && (forall n | n in s.names :: n in t.names && t.names[n] == s.names[n]) && t.alive == s.alive
  {
    var ino := Larger(Inodes(s));
    assert !Referenced(s, ino) by {
      assert forall n | n in s.names :: s.names[n] in Inodes(s);
      assert forall q | q in s.procs && s.procs[q].fd.Open? :: s.procs[q].fd.ino in Inodes(s);
    }
    path := [s];
    var t := s.(names := s.names[Tmp(p) := ino], content := s.content[ino := 0], public := s.public - {ino},
                procs := s.procs[p := s.procs[p].(pc := WritePid, fd := Open(ino))]);
    Extend(path, p, t);
    path := path + [t];
    t := t.(content := t.content[ino := t.procs[p].owner], procs := t.procs[p := t.procs[p].(pc := CloseTmp)]);
    Extend(path, p, t);
    path := path + [t];
    t := t.(procs := t.procs[p := t.procs[p].(pc := LinkLock, fd := Closed)]);
    Extend(path, p, t);
    path := path + [t];
    var rest, u := LinksAndExits(t, p);
    path := Join(path, rest, p);
  }

  /** The one assumption on system calls that mutual exclusion needs: when a read of the lock fails, the lock of a
      running owner that never released it can be taken away from it. */
  lemma FailedReadBreaksLiveLock(owner: Pid, p: Pid) returns (path: seq<State>)
    requires owner > 0
    ensures SoloPath(path, p) && Init(path[0]) && path[0].flakyRead && LockFileOf(path[0], owner)
    ensures var t := path[|path| - 1];
            && ValidPid(t, owner) && t.released == {} && p in t.procs && t.procs[p].pc == Exited(0)
            && Lock in t.names && t.names[Lock] != path[0].names[Lock]
  {
    var s := State(map[Lock := 0], map[0 := owner], map[p := Process(OpenTmp, owner + 1, Closed, 0, {})], {owner}, true,
                   {0}, {}, {});
    path := [s];
    var t := s.(names := s.names[Tmp(p) := 1], content := s.content[1 := 0], public := s.public - {1},
                procs := s.procs[p := s.procs[p].(pc := WritePid, fd := Open(1))]);
    assert !Referenced(s, 1);
    Extend(path, p, t);
    path := path + [t];
    t := t.(content := t.content[1 := owner + 1], procs := t.procs[p := t.procs[p].(pc := CloseTmp)]);
    Extend(path, p, t);
    path := path + [t];
    t := t.(procs := t.procs[p := t.procs[p].(pc := LinkLock, fd := Closed)]);
    Extend(path, p, t);
    path := path + [t];
    t := t.(procs := t.procs[p := t.procs[p].(pc := OpenLock)]);
    Extend(path, p, t);
    path := path + [t];
    assert Links(t.names, 0) == {Lock};
    var rest := BreaksAndAcquires(t, p, 0);
    path := Join(path, rest, p);
  }

  lemma {:induction false} Join(a: seq<State>, b: seq<State>, p: Pid) returns (path: seq<State>)
    requires SoloPath(a, p) && SoloPath(b, p) && a[|a| - 1] == b[0]
    ensures SoloPath(path, p) && path[0] == a[0] && path[|path| - 1] == b[|b| - 1]
  {
    path := a + b[1..];
    forall i: nat | i + 1 < |path| ensures SoloStepAt(path, i, p) {
      if i + 1 < |a| {
        assert SoloStepAt(a, i, p);
      } else {
        assert SoloStepAt(b, i + 1 - |a|, p);
      }
    }
  }

  // --- the -c flag ----------------------------------------------------------------------

  /** The lock is valid: it is there and names a running process. */
  ghost predicate ValidLock(s: State) {
    exists o :: LockFileOf(s, o) && ValidPid(s, o)
  }

  /** Exit status of a run that only checks; `opens` and `readable` say whether opening and reading the lock file
      succeed.  A failed read counts as process ID 0. */
  ghost function CheckOnly(s: State, opens: bool, readable: bool): (code: int) {
    if Lock !in s.names || !opens then 1
    else if readable && s.names[Lock] in s.content && ValidPid(s, s.content[s.names[Lock]]) then 1
    else 0
  }

  /** The manual promises status 0 exactly when the lock is not valid.  The program keeps that promise if and only if
      there is a lock file, and either it can be opened and read, or the call that fails errs on the right side: a lock
      that cannot be opened is taken for valid, one that cannot be read for invalid. */
  lemma CheckOnlyMeetsManual(s: State, opens: bool, readable: bool)
    ensures (CheckOnly(s, opens, readable) == 0 <==> !ValidLock(s)) <==>
            Lock in s.names && if !opens then ValidLock(s) else readable || !ValidLock(s)
  {
    if Lock in s.names && s.names[Lock] in s.content {
      assert LockFileOf(s, s.content[s.names[Lock]]);
    }
  }

  /** The three ways to fail: no lock file, a live lock that cannot be read, and a stale one that cannot be opened. */
  lemma CheckOnlyFails(owner: Pid)
    requires owner > 0
    ensures var none := State(map[], map[], map[], {owner}, false, {}, {}, {});
            !ValidLock(none) && CheckOnly(none, true, true) == 1
    ensures var live := State(map[Lock := 0], map[0 := owner], map[], {owner}, true, {0}, {}, {});
            ValidLock(live) && CheckOnly(live, true, false) == 0
    ensures var stale := State(map[Lock := 0], map[0 := owner], map[], {}, false, {0}, {}, {});
            !ValidLock(stale) && CheckOnly(stale, false, true) == 1
  {
    var live := State(map[Lock := 0], map[0 := owner], map[], {owner}, true, {0}, {}, {});
    assert LockFileOf(live, owner) && ValidPid(live, owner);
  }
}

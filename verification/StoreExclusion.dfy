/** Where the lock of a memory store does its work: exactly which stores are only ever edited by one update at
    a time, and two runs in which an appended learning is gone. */
module StoreExclusion {
  import opened Text
  import opened LearningsFile
  import opened StoreLock
  import opened StoreFiles
  import opened StoreRuns

  // ----- building runs

  lemma {:induction false} RunOn(w: World, schedule: seq<Action>, a: Action)
    ensures Run(w, schedule + [a]) == Stepped(w, Run(w, schedule), a)
  {
    assert (schedule + [a])[..|schedule|] == schedule;
  }

  /** Nobody holds a handle looked up under this key. */
  ghost predicate Unused(phase: map<Task, Phase>, key: Key) {
    forall u :: u in phase && HasHandle(phase[u]) ==> phase[u].key != key
  }

  /** Then a lock looked up under it is a new one, and free. */
  lemma {:induction false} FreshLock(s: State, key: Key)
    requires OneLockEach(s.locks, s.nextId) && HandlesCurrent(s.phase, s.locks) && GuardsMatch(s.phase, s.held)
    requires Unused(s.phase, key)
    ensures key !in Retained(s) && s.nextId !in s.held
  {
    if key in s.locks {
      RetainedIff(s, key);
      forall u | u in s.phase && HasHandle(s.phase[u]) ensures s.phase[u].lock != s.locks[key] {
        assert IsCurrent(s.locks, s.phase[u]);
      }
    }
    forall l | l in s.held ensures l < s.nextId { assert IsCurrent(s.locks, s.phase[s.held[l]]); }
  }

  lemma {:induction false} TakesFresh(w: World, s: State, t: Task)
    requires LockInv(w, s) && t in w.jobs && s.phase[t].Idle? && Unused(s.phase, LockKey(w, s, t))
    ensures var s' := Stepped(w, s, TakeHandle(t));
            && s'.phase == s.phase[t := Queued(LockKey(w, s, t), s.nextId)] && s.nextId !in s'.held
            && s'.made == s.made && s'.late == s.late && s'.stores == s.stores
  {
    FreshLock(s, LockKey(w, s, t));
  }

  lemma {:induction false} EntersFree(w: World, s: State, t: Task)
    requires s.phase.Keys == w.jobs.Keys && t in w.jobs && s.phase[t].Queued? && s.phase[t].lock !in s.held
    ensures var s', p := Stepped(w, s, Enter(t)), s.phase[t];
            && s'.phase == s.phase[t := Inside(p.key, p.lock, 0, None)]
            && s'.made == s.made && s'.late == s.late && s'.stores == s.stores
  {
  }

  /** A task whose key nobody uses gets in at once. */
  lemma {:induction false} GetsIn(w: World, schedule: seq<Action>, t: Task) returns (more: seq<Action>)
    requires t in w.jobs && Run(w, schedule).phase[t].Idle?
    requires Unused(Run(w, schedule).phase, LockKey(w, Run(w, schedule), t))
    ensures var s, s' := Run(w, schedule), Run(w, more);
            && s'.phase == s.phase[t := Inside(LockKey(w, s, t), s.nextId, 0, None)]
            && s'.made == s.made && s'.late == s.late && s'.stores == s.stores
  {
    LocksHold(w, schedule);
    TakesFresh(w, Run(w, schedule), t);
    RunOn(w, schedule, TakeHandle(t));
    more := schedule + [TakeHandle(t)];
    EntersFree(w, Run(w, more), t);
    RunOn(w, more, Enter(t));
    more := more + [Enter(t)];
  }

  lemma {:induction false} AtStart(w: World)
    ensures Run(w, []) == Init(w) && forall key :: Unused(Run(w, []).phase, key)
  {
  }

  // ----- exclusion

  ghost predicate Alone(w: World, s: State, t: Task, u: Task)
    requires s.phase.Keys == w.jobs.Keys && t in w.jobs && u in w.jobs
  {
    s.phase[t].Inside? && s.phase[u].Inside? ==> t == u
  }

  /** In no run are two tasks inside this store. */
  ghost predicate Exclusive(w: World, store: Key) {
    forall schedule: seq<Action>, t, u :: At(w, store, t) && At(w, store, u) ==> Alone(w, Run(w, schedule), t, u)
  }

  /** The lock keeps updates of a store apart exactly if any two of them look it up under one key: the
      directory is there from the start, or they spell it alike and canonically, or alike and neither
      writes. */
  lemma {:induction false} ExclusiveIff(w: World, store: Key)
    ensures Exclusive(w, store) <==> Sheltered(w, store)
  {
    if Sheltered(w, store) {
      ShelteredIsExclusive(w, store);
    } else {
      var t, u :| At(w, store, t) && At(w, store, u) && t != u && !Agree(w, t, u);
      UnshelteredIsNot(w, store, t, u);
    }
  }

  lemma {:induction false} ShelteredIsExclusive(w: World, store: Key)
    requires Sheltered(w, store)
    ensures Exclusive(w, store)
  {
    forall schedule: seq<Action>, t, u | At(w, store, t) && At(w, store, u)
      ensures Alone(w, Run(w, schedule), t, u)
    {
      LocksHold(w, schedule);
      MutualExclusion(w, Run(w, schedule), t, u);
    }
  }

  lemma {:induction false} UnshelteredIsNot(w: World, store: Key, t: Task, u: Task)
    requires At(w, store, t) && At(w, store, u) && t != u && !Agree(w, t, u)
    ensures !Exclusive(w, store)
  {
    var schedule := BothGetIn(w, t, u);
    assert !Alone(w, Run(w, schedule), t, u);
  }

  /** Two updates that do not agree can be inside together. */
  lemma {:induction false} BothGetIn(w: World, t: Task, u: Task) returns (schedule: seq<Action>)
    requires t in w.jobs && u in w.jobs && t != u && StoreOf(w, t) == StoreOf(w, u) && !Agree(w, t, u)
    ensures Run(w, schedule).phase[t].Inside? && Run(w, schedule).phase[u].Inside?
  {
    if w.jobs[t].path != w.jobs[u].path {
      AtStart(w);
      schedule := GetsIn(w, [], t);
      schedule := GetsIn(w, schedule, u);
    } else if w.jobs[t].plan != [] {
      schedule := OneMakesIt(w, t, u);
    } else {
      schedule := OneMakesIt(w, u, t);
    }
  }

  /** One of them makes the directory, and with it the other's key is a different one. */
  lemma {:induction false} OneMakesIt(w: World, t: Task, u: Task) returns (schedule: seq<Action>)
    requires t in w.jobs && u in w.jobs && t != u && StoreOf(w, t) == StoreOf(w, u)
    requires StoreOf(w, t) !in w.existing && w.jobs[t].path != StoreOf(w, t) && w.jobs[t].plan != []
    ensures Run(w, schedule).phase[t].Inside? && Run(w, schedule).phase[u].Inside?
  {
    schedule := GoesAhead(w, t);
    schedule := GetsIn(w, schedule, u);
  }

  lemma {:induction false} GoesAhead(w: World, t: Task) returns (schedule: seq<Action>)
    requires t in w.jobs && StoreOf(w, t) !in w.existing && w.jobs[t].plan != []
    ensures var s := Run(w, schedule);
            && StoreOf(w, t) in s.made && s.phase.Keys == w.jobs.Keys
            && s.phase[t].Inside? && s.phase[t].key == w.jobs[t].path
            && forall u :: u in s.phase && u != t ==> s.phase[u].Idle?
  {
    AtStart(w);
    schedule := GetsIn(w, [], t);
    schedule := MakesDir(w, schedule, t);
  }

  lemma {:induction false} MakesDir(w: World, schedule: seq<Action>, t: Task) returns (more: seq<Action>)
    requires t in w.jobs && w.jobs[t].plan != [] && StoreOf(w, t) !in Run(w, schedule).made
    requires var p := Run(w, schedule).phase[t]; p.Inside? && p.done == 0
    ensures var s, s' := Run(w, schedule), Run(w, more);
            && s'.made == s.made + {StoreOf(w, t)} && s'.stores == s.stores
            && s'.phase == if Writes(w, s, t) then s.phase else s.phase[t := Reading(w, s, t)]
  {
    var s := Run(w, schedule);
    more := schedule;
    if !Writes(w, s, t) {
      Reads(w, s, t);
      RunOn(w, more, Work(t));
      more := more + [Work(t)];
    }
    MakesIt(w, Run(w, more), t);
    RunOn(w, more, Work(t));
    more := more + [Work(t)];
  }

  /** The phase of a drop that has just read its file. */
  function Reading(w: World, s: State, t: Task): Phase
    requires t in w.jobs && t in s.phase && s.phase[t].Inside?
  {
    s.phase[t].(read := Some(StoreAt(s.stores, StoreOf(w, t)).learnings))
  }

  lemma {:induction false} Reads(w: World, s: State, t: Task)
    requires s.phase.Keys == w.jobs.Keys && t in w.jobs && s.phase[t].Inside?
    requires s.phase[t].done < |w.jobs[t].plan| && !Writes(w, s, t)
    ensures var s' := Stepped(w, s, Work(t));
            && s'.phase == s.phase[t := Reading(w, s, t)] && Writes(w, s', t)
            && s'.made == s.made && s'.late == s.late && s'.stores == s.stores
  {
  }

  lemma {:induction false} MakesIt(w: World, s: State, t: Task)
    requires s.phase.Keys == w.jobs.Keys && t in w.jobs && Writes(w, s, t) && StoreOf(w, t) !in s.made
    ensures Stepped(w, s, Work(t)) == s.(made := s.made + {StoreOf(w, t)})
  {
  }

  // ----- more pieces of runs

  /** Two states with the same disk. */
  ghost predicate SameDisk(s: State, s': State) {
    s'.made == s.made && s'.late == s.late && s'.stores == s.stores
  }

  lemma {:induction false} WritesIt(w: World, s: State, t: Task)
    requires s.phase.Keys == w.jobs.Keys && t in w.jobs && Writes(w, s, t) && StoreOf(w, t) in s.made
    ensures var s', p, store := Stepped(w, s, Work(t)), s.phase[t], StoreOf(w, t);
            && s'.phase == s.phase[t := Inside(p.key, p.lock, p.done + 1, None)]
            && s'.made == s.made && s'.late == s.late
            && s'.stores == s.stores[store := Written(StoreAt(s.stores, store), NextWrite(w, s, t))]
  {
  }

  /** The task's next effect reaches the disk. */
  lemma {:induction false} Edits(w: World, schedule: seq<Action>, t: Task) returns (more: seq<Action>)
    requires t in w.jobs && Writes(w, Run(w, schedule), t) && StoreOf(w, t) in Run(w, schedule).made
    ensures var s, s', p, store := Run(w, schedule), Run(w, more), Run(w, schedule).phase[t], StoreOf(w, t);
            && s'.phase == s.phase[t := Inside(p.key, p.lock, p.done + 1, None)]
            && s'.made == s.made && s'.late == s.late
            && s'.stores == s.stores[store := Written(StoreAt(s.stores, store), NextWrite(w, s, t))]
  {
    RunOn(w, schedule, Work(t));
    WritesIt(w, Run(w, schedule), t);
    more := schedule + [Work(t)];
  }

  lemma {:induction false} Leaves(w: World, s: State, t: Task)
    requires s.phase.Keys == w.jobs.Keys && t in w.jobs && s.phase[t].Inside? && s.phase[t].done == |w.jobs[t].plan|
    ensures var s', p := Stepped(w, s, Leave(t)), s.phase[t];
            s'.phase == s.phase[t := Leaving(p.key, p.lock, true)] && SameDisk(s, s')
  {
  }

  lemma {:induction false} LetsGo(w: World, s: State, t: Task)
    requires s.phase.Keys == w.jobs.Keys && t in w.jobs && s.phase[t].Leaving?
    ensures var s' := Stepped(w, s, DropHandle(t));
            s'.phase == s.phase[t := Finished(s.phase[t].complete)] && SameDisk(s, s')
  {
  }

  /** A task that is done with its plan leaves. */
  lemma {:induction false} Finishes(w: World, schedule: seq<Action>, t: Task) returns (more: seq<Action>)
    requires t in w.jobs
    requires Run(w, schedule).phase[t].Inside? && Run(w, schedule).phase[t].done == |w.jobs[t].plan|
    ensures Run(w, more).phase == Run(w, schedule).phase[t := Finished(true)]
    ensures SameDisk(Run(w, schedule), Run(w, more))
  {
    Leaves(w, Run(w, schedule), t);
    RunOn(w, schedule, Leave(t));
    more := schedule + [Leave(t)];
    LetsGo(w, Run(w, more), t);
    RunOn(w, more, DropHandle(t));
    more := more + [DropHandle(t)];
  }

  lemma {:induction false} Abandons(w: World, s: State, t: Task)
    requires s.phase.Keys == w.jobs.Keys && t in w.jobs && Writes(w, s, t)
    ensures var s', p := Stepped(w, s, Abandon(t)), s.phase[t];
            && s'.phase == s.phase[t := Leaving(p.key, p.lock, false)] && s'.late == s.late[t := NextWrite(w, s, t)]
            && s'.made == s.made && s'.stores == s.stores
  {
  }

  /** What a dropped request left lands once, and with it the directory is there. */
  lemma {:induction false} LandsOnce(w: World, s: State, t: Task)
    requires s.phase.Keys == w.jobs.Keys && t in w.jobs && t in s.late
    ensures var s', store := Stepped(w, s, Land(t)), StoreOf(w, t);
            && s'.phase == s.phase && t !in s'.late && store in s'.made
            && StoreAt(s'.stores, store) == Written(StoreAt(s.stores, store), s.late[t])
            && Stepped(w, s', Land(t)) == s'
  {
  }

  /** A request is dropped while the file system is about to write for it. */
  lemma {:induction false} GivesUp(w: World, schedule: seq<Action>, t: Task) returns (more: seq<Action>)
    requires t in w.jobs && Writes(w, Run(w, schedule), t)
    ensures var s, s' := Run(w, schedule), Run(w, more);
            && s'.phase == s.phase[t := Finished(false)] && s'.late == s.late[t := NextWrite(w, s, t)]
            && s'.made == s.made && s'.stores == s.stores
  {
    Abandons(w, Run(w, schedule), t);
    RunOn(w, schedule, Abandon(t));
    more := schedule + [Abandon(t)];
    LetsGo(w, Run(w, more), t);
    RunOn(w, more, DropHandle(t));
    more := more + [DropHandle(t)];
  }

  // ----- two lost appends

  /** Two updates of one store by one path: task 0 drops an id, task 1 appends a line without it. The store is
      empty. */
  ghost predicate IsRace(w: World, path: Path, store: Key, id: string, line: string) {
    && w.jobs == map[0 := Job(path, [DropId(id)]), 1 := Job(path, [AppendLine(line)])]
    && w.canon(path) == store && w.files == map[] && w.idOf(line) != Some(id)
  }

  /** Task 1 has finished, nobody asked to drop its line, and the line is gone. */
  ghost predicate LosesAppend(w: World, schedule: seq<Action>, store: Key, line: string) {
    && At(w, store, 1) && w.jobs[1].plan == [AppendLine(line)] && NobodyDrops(w, store, line)
    && Run(w, schedule).phase[1] == Finished(true)
    && line !in Entries(StoreAt(Run(w, schedule).stores, store).learnings)
  }

  lemma {:induction false} DropOfNothing(idOf: string -> Option<string>, id: string)
    ensures Drop(idOf, "", id) == "" && Entries("") == []
  {
  }

  /** Task 0 has read an empty file and is about to write, task 1 has not started. */
  ghost predicate HasRead(s: State, store: Key, key: Key) {
    && 0 in s.phase && 1 in s.phase
    && s.phase[0].Inside? && s.phase[0].key == key && s.phase[0].done == 0 && s.phase[0].read == Some("")
    && s.phase[1].Idle? && s.phase.Keys == {0, 1}
    && store in s.made
  }

  /** In a new store task 0 has made the directory by then. */
  lemma {:induction false} ReadsNew(w: World, path: Path, store: Key, id: string, line: string)
    returns (schedule: seq<Action>)
    requires IsRace(w, path, store, id, line) && store !in w.existing
    ensures HasRead(Run(w, schedule), store, path)
  {
    AtStart(w);
    schedule := GetsIn(w, [], 0);
    schedule := MakesDir(w, schedule, 0);
  }

  lemma {:induction false} ReadsOld(w: World, path: Path, store: Key, id: string, line: string)
    returns (schedule: seq<Action>)
    requires IsRace(w, path, store, id, line) && store in w.existing
    ensures HasRead(Run(w, schedule), store, store)
  {
    AtStart(w);
    schedule := GetsIn(w, [], 0);
    Reads(w, Run(w, schedule), 0);
    RunOn(w, schedule, Work(0));
    schedule := schedule + [Work(0)];
  }

  /** Task 1 appends, whatever task 0 has yet to write, and leaves. */
  lemma {:induction false} AppendsMeanwhile(w: World, schedule: seq<Action>, line: string) returns (more: seq<Action>)
    requires 1 in w.jobs && w.jobs[1].plan == [AppendLine(line)] && Run(w, schedule).phase[1].Idle?
    requires StoreOf(w, 1) in Run(w, schedule).made && Unused(Run(w, schedule).phase, StoreOf(w, 1))
    ensures var s, s' := Run(w, schedule), Run(w, more);
            s'.phase == s.phase[1 := Finished(true)] && s'.made == s.made && s'.late == s.late
  {
    more := GetsIn(w, schedule, 1);
    more := Edits(w, more, 1);
    more := Finishes(w, more, 1);
  }

  /** What task 0 writes at last is empty. */
  lemma {:induction false} Rewrites(w: World, schedule: seq<Action>, id: string) returns (more: seq<Action>)
    requires 0 in w.jobs && w.jobs[0].plan == [DropId(id)] && StoreOf(w, 0) in Run(w, schedule).made
    requires var p := Run(w, schedule).phase[0]; p.Inside? && p.done == 0 && p.read == Some("")
    ensures Run(w, more).phase == Run(w, schedule).phase[0 := Finished(true)]
    ensures StoreAt(Run(w, more).stores, StoreOf(w, 0)).learnings == ""
  {
    WritesEmpty(w, Run(w, schedule), id);
    more := Edits(w, schedule, 0);
    assert StoreAt(Run(w, more).stores, StoreOf(w, 0)).learnings == "";
    more := Finishes(w, more, 0);
  }

  lemma {:induction false} WritesEmpty(w: World, s: State, id: string)
    requires 0 in w.jobs && w.jobs[0].plan == [DropId(id)] && StoreOf(w, 0) in s.made
    requires 0 in s.phase && s.phase[0].Inside? && s.phase[0].done == 0 && s.phase[0].read == Some("")
    ensures Writes(w, s, 0) && NextWrite(w, s, 0) == SetLearnings("")
  {
    DropOfNothing(w.idOf, id);
  }

  lemma {:induction false} LandsEmpty(w: World, schedule: seq<Action>) returns (more: seq<Action>)
    requires 0 in w.jobs && 0 in Run(w, schedule).late && Run(w, schedule).late[0] == SetLearnings("")
    ensures Run(w, more).phase == Run(w, schedule).phase
    ensures StoreAt(Run(w, more).stores, StoreOf(w, 0)).learnings == ""
  {
    RunOn(w, schedule, Land(0));
    more := schedule + [Land(0)];
  }

  lemma {:induction false} NobodyWants(w: World, path: Path, store: Key, id: string, line: string)
    requires IsRace(w, path, store, id, line)
    ensures At(w, store, 0) && At(w, store, 1) && w.jobs[0].plan == [DropId(id)] && w.jobs[1].plan == [AppendLine(line)]
    ensures NobodyDrops(w, store, line)
  {
  }

  /** A new store: the drop looks its lock up under the path as given, makes the directory, and with it the
      append uses another lock. What the drop then writes does not have the line. */
  lemma {:induction false} ANewStoreLosesAnAppend(w: World, path: Path, store: Key, id: string, line: string)
    returns (schedule: seq<Action>)
    requires IsRace(w, path, store, id, line) && store !in w.existing && path != store
    ensures LosesAppend(w, schedule, store, line) && Run(w, schedule).phase[0] == Finished(true)
  {
    NobodyWants(w, path, store, id, line);
    schedule := ReadsNew(w, path, store, id, line);
    schedule := AppendsMeanwhile(w, schedule, line);
    schedule := Rewrites(w, schedule, id);
    DropOfNothing(w.idOf, id);
  }

  /** A store that is there: the drop is dropped while it writes, the append comes next, and then what the
      drop left to the file system replaces the file. */
  lemma {:induction false} ALateRewriteLosesAnAppend(w: World, path: Path, store: Key, id: string, line: string)
    returns (schedule: seq<Action>)
    requires IsRace(w, path, store, id, line) && store in w.existing
    ensures Sheltered(w, store) && LosesAppend(w, schedule, store, line)
  {
    NobodyWants(w, path, store, id, line);
    schedule := ReadsOld(w, path, store, id, line);
    WritesEmpty(w, Run(w, schedule), id);
    schedule := GivesUp(w, schedule, 0);
    schedule := AppendsMeanwhile(w, schedule, line);
    schedule := LandsEmpty(w, schedule);
    DropOfNothing(w.idOf, id);
  }
}

/** What every step of an update keeps of a store's files, as long as only one update at a time can be inside
    and nothing lands late there: they are the logged turns replayed one after the other, and a task inside
    owns the last turn. */
module StoreFiles {
  import opened Text
  import opened LearningsFile
  import opened StoreLock

  // ----- what every step keeps: files

  /** The effects a turn performed. */
  ghost function Performed(w: World, c: Commit): seq<Effect> {
    (if c.task in w.jobs && c.count <= |w.jobs[c.task].plan| then w.jobs[c.task].plan[..c.count] else []) +
    if c.torn == "" then [] else [TornAppend(c.torn)]
  }

  ghost function ReplayTurns(w: World, contents: Store, log: seq<Commit>): Store {
    if log == [] then contents
    else Replay(w.idOf, ReplayTurns(w, contents, log[..|log| - 1]), Performed(w, log[|log| - 1]))
  }

  /** The task works on this store. */
  predicate At(w: World, store: Key, t: Task) {
    t in w.jobs && StoreOf(w, t) == store
  }

  /** A turn belongs to a task of this store that got in; if the task is done with it, the turn
      is its whole plan. */
  ghost predicate TurnSound(w: World, phase: map<Task, Phase>, store: Key, c: Commit)
    requires phase.Keys == w.jobs.Keys
  {
    && At(w, store, c.task) && c.count <= |w.jobs[c.task].plan|
    && (var p := phase[c.task];
        && !p.Idle? && !p.Queued?
        && ((p.Leaving? || p.Finished?) && p.complete ==> c == Commit(c.task, |w.jobs[c.task].plan|, "")))
  }

  ghost predicate LogSound(w: World, phase: map<Task, Phase>, store: Key, log: seq<Commit>)
    requires phase.Keys == w.jobs.Keys
  {
    && (forall i :: 0 <= i < |log| ==> TurnSound(w, phase, store, log[i]))
    && (forall i, j :: 0 <= i < j < |log| ==> log[i].task != log[j].task)
  }

  /** A task inside owns the last turn of its store, and what a drop has read is still there. */
  ghost predicate TurnOpen(w: World, t: Task, p: Phase, contents: Store, log: seq<Commit>)
    requires t in w.jobs && p.Inside?
  {
    && p.done <= |w.jobs[t].plan|
    && log != [] && log[|log| - 1] == Commit(t, p.done, "")
    && (p.read.Some? ==>
          p.done < |w.jobs[t].plan| && w.jobs[t].plan[p.done].DropId? && p.read.value == contents.learnings)
  }

  ghost predicate TurnsOpen(w: World, phase: map<Task, Phase>, store: Key, contents: Store, log: seq<Commit>) {
    forall t :: t in phase && At(w, store, t) && phase[t].Inside? ==> TurnOpen(w, t, phase[t], contents, log)
  }

  ghost predicate HasTurn(log: seq<Commit>, t: Task) {
    exists i :: 0 <= i < |log| && log[i].task == t
  }

  predicate MustHaveTurn(p: Phase) {
    p.Leaving? || (p.Finished? && p.complete)
  }

  /** Whoever got in and was not cancelled has a turn in the log. */
  ghost predicate Logged(w: World, phase: map<Task, Phase>, store: Key, log: seq<Commit>) {
    forall t :: t in phase && At(w, store, t) && MustHaveTurn(phase[t]) ==> HasTurn(log, t)
  }

  ghost predicate TurnsAgree(w: World, phase: map<Task, Phase>, store: Key, contents: Store, log: seq<Commit>)
    requires phase.Keys == w.jobs.Keys
  {
    && contents == ReplayTurns(w, StoreAt(w.files, store), log)
    && LogSound(w, phase, store, log)
    && TurnsOpen(w, phase, store, contents, log)
    && Logged(w, phase, store, log)
  }

  ghost predicate FileInv(w: World, s: State, store: Key)
    requires s.phase.Keys == w.jobs.Keys
  {
    TurnsAgree(w, s.phase, store, StoreAt(s.stores, store), LogAt(s.log, store))
  }

  // ----- steps that touch neither files nor log

  /** Phase changes that go without. */
  ghost predicate Quiet(w: World, t: Task, p: Phase, p': Phase)
    requires t in w.jobs
  {
    || p' == p
    || ((p.Idle? || p.Queued?) && (p'.Idle? || p'.Queued?))
    || (p.Inside? && p'.Leaving? && (p'.complete ==> p.done == |w.jobs[t].plan|))
    || (p.Leaving? && p'.Finished? && p'.complete == p.complete)
    || (p.Queued? && p' == Finished(false))
  }

  lemma {:induction false} QuietSound(w: World, phase: map<Task, Phase>, t: Task, p: Phase, store: Key, contents: Store,
      log: seq<Commit>)
    requires phase.Keys == w.jobs.Keys && TurnsAgree(w, phase, store, contents, log)
    requires t in w.jobs && (At(w, store, t) ==> Quiet(w, t, phase[t], p))
    ensures phase[t := p].Keys == w.jobs.Keys && LogSound(w, phase[t := p], store, log)
  {
    forall i | 0 <= i < |log|
      ensures TurnSound(w, phase[t := p], store, log[i])
    {
      assert TurnSound(w, phase, store, log[i]);
      if log[i].task == t && phase[t].Inside? {
        assert TurnOpen(w, t, phase[t], contents, log);
        assert i == |log| - 1;
      }
    }
  }

  lemma {:induction false} QuietKeeps(w: World, phase: map<Task, Phase>, t: Task, p: Phase, store: Key, contents: Store,
      log: seq<Commit>)
    requires phase.Keys == w.jobs.Keys && TurnsAgree(w, phase, store, contents, log)
    requires t in w.jobs && (At(w, store, t) ==> Quiet(w, t, phase[t], p))
    ensures phase[t := p].Keys == w.jobs.Keys && TurnsAgree(w, phase[t := p], store, contents, log)
  {
    QuietSound(w, phase, t, p, store, contents, log);
    if At(w, store, t) && phase[t].Inside? {
      assert TurnOpen(w, t, phase[t], contents, log);
      assert log[|log| - 1].task == t;
    }
  }

  /** A drop reads. */
  lemma {:induction false} ReadKeeps(w: World, phase: map<Task, Phase>, t: Task, store: Key, contents: Store,
      log: seq<Commit>)
    requires phase.Keys == w.jobs.Keys && TurnsAgree(w, phase, store, contents, log)
    requires At(w, store, t) && phase[t].Inside? && phase[t].done < |w.jobs[t].plan|
    requires w.jobs[t].plan[phase[t].done].DropId?
    ensures var phase' := phase[t := phase[t].(read := Some(contents.learnings))];
            phase'.Keys == w.jobs.Keys && TurnsAgree(w, phase', store, contents, log)
  {
    var phase' := phase[t := phase[t].(read := Some(contents.learnings))];
    assert TurnOpen(w, t, phase[t], contents, log);
    forall i | 0 <= i < |log| ensures TurnSound(w, phase', store, log[i]) { assert TurnSound(w, phase, store, log[i]); }
  }

  // ----- entering and working

  /** None of the store's tasks but `t` is inside. */
  ghost predicate OnlyInside(w: World, phase: map<Task, Phase>, store: Key, t: Task) {
    forall u :: u in phase && At(w, store, u) && phase[u].Inside? ==> u == t
  }

  lemma {:induction false} BeginKeeps(w: World, phase: map<Task, Phase>, t: Task, p: Phase, store: Key, contents: Store,
      log: seq<Commit>)
    requires phase.Keys == w.jobs.Keys && TurnsAgree(w, phase, store, contents, log)
    requires At(w, store, t) && phase[t].Queued? && OnlyInside(w, phase, store, t)
    requires p.Inside? && p.done == 0 && p.read.None?
    ensures phase[t := p].Keys == w.jobs.Keys && TurnsAgree(w, phase[t := p], store, contents, log + [Commit(t, 0, "")])
  {
    var log' := log + [Commit(t, 0, "")];
    assert log'[..|log|] == log && Performed(w, Commit(t, 0, "")) == [];
    BeginSound(w, phase, t, p, store, log);
    TurnsStay(w, phase, phase[t := p], store, t, log, log');
  }

  lemma {:induction false} BeginSound(w: World, phase: map<Task, Phase>, t: Task, p: Phase, store: Key,
      log: seq<Commit>)
    requires phase.Keys == w.jobs.Keys && LogSound(w, phase, store, log)
    requires At(w, store, t) && phase[t].Queued? && p.Inside?
    ensures phase[t := p].Keys == w.jobs.Keys && LogSound(w, phase[t := p], store, log + [Commit(t, 0, "")])
  {
    var log' := log + [Commit(t, 0, "")];
    forall i | 0 <= i < |log'|
      ensures TurnSound(w, phase[t := p], store, log'[i])
      ensures i < |log| ==> log'[i].task != t
    {
      if i < |log| { assert TurnSound(w, phase, store, log[i]); }
    }
  }

  ghost predicate Grows(log: seq<Commit>, log': seq<Commit>) {
    |log| <= |log'| && forall i :: 0 <= i < |log| ==> log'[i].task == log[i].task
  }

  /** Turns of others do not go away. */
  lemma {:induction false} TurnsStay(w: World, phase: map<Task, Phase>, phase': map<Task, Phase>, store: Key, t: Task,
      log: seq<Commit>, log': seq<Commit>)
    requires Logged(w, phase, store, log) && Grows(log, log')
    requires phase'.Keys == phase.Keys && forall u :: u in phase && u != t ==> phase'[u] == phase[u]
    requires t in phase && MustHaveTurn(phase'[t]) ==> HasTurn(log', t)
    ensures Logged(w, phase', store, log')
  {
    forall u | u in phase' && At(w, store, u) && MustHaveTurn(phase'[u])
      ensures HasTurn(log', u)
    {
      if u != t {
        var i :| 0 <= i < |log| && log[i].task == u;
        assert log'[i].task == u;
      }
    }
  }

  /** One more effect of the open turn, whatever interleaving led here. */
  lemma {:induction false} PerformedMore(w: World, t: Task, contents: Store, log: seq<Commit>, n: nat)
    requires t in w.jobs && log != [] && log[|log| - 1] == Commit(t, n, "") && n < |w.jobs[t].plan|
    ensures ReplayTurns(w, contents, LastTurn(log, t, n + 1, "")) ==
            Apply(w.idOf, ReplayTurns(w, contents, log), w.jobs[t].plan[n])
  {
    var log' := LastTurn(log, t, n + 1, "");
    assert log'[..|log'| - 1] == log[..|log| - 1];
    var more := Performed(w, Commit(t, n + 1, ""));
    assert more[..|more| - 1] == Performed(w, Commit(t, n, ""));
  }

  /** And a torn one. */
  lemma {:induction false} PerformedTorn(w: World, t: Task, contents: Store, log: seq<Commit>, n: nat, fragment: string)
    requires t in w.jobs && log != [] && log[|log| - 1] == Commit(t, n, "")
    requires n <= |w.jobs[t].plan| && fragment != ""
    ensures ReplayTurns(w, contents, LastTurn(log, t, n, fragment)) ==
            Apply(w.idOf, ReplayTurns(w, contents, log), TornAppend(fragment))
  {
    var log' := LastTurn(log, t, n, fragment);
    assert log'[..|log'| - 1] == log[..|log| - 1];
    var more := Performed(w, Commit(t, n, fragment));
    assert more[..|more| - 1] == Performed(w, Commit(t, n, ""));
  }

  lemma {:induction false} LastTurnSound(w: World, phase: map<Task, Phase>, t: Task, p: Phase, store: Key,
      log: seq<Commit>, n: nat, torn: string)
    requires phase.Keys == w.jobs.Keys && LogSound(w, phase, store, log)
    requires At(w, store, t) && phase[t].Inside? && n <= |w.jobs[t].plan| && log != [] && log[|log| - 1].task == t
    requires p.Inside? || (p.Leaving? && !p.complete)
    ensures phase[t := p].Keys == w.jobs.Keys && LogSound(w, phase[t := p], store, LastTurn(log, t, n, torn))
    ensures Grows(log, LastTurn(log, t, n, torn)) && HasTurn(LastTurn(log, t, n, torn), t)
  {
    var log' := LastTurn(log, t, n, torn);
    assert log'[|log| - 1].task == t;
    forall i | 0 <= i < |log'|
      ensures TurnSound(w, phase[t := p], store, log'[i])
    {
      assert TurnSound(w, phase, store, log[i]);
      assert i < |log| - 1 ==> log[i].task != log[|log| - 1].task;
    }
  }

  /** The open turn of the only task inside moves on or ends. */
  lemma {:induction false} TurnMoves(w: World, phase: map<Task, Phase>, t: Task, p: Phase, store: Key, contents: Store,
      log: seq<Commit>, contents': Store, log': seq<Commit>)
    requires phase.Keys == w.jobs.Keys && TurnsAgree(w, phase, store, contents, log)
    requires At(w, store, t) && phase[t].Inside? && OnlyInside(w, phase, store, t)
    requires Grows(log, log') && HasTurn(log', t) && contents' == ReplayTurns(w, StoreAt(w.files, store), log')
    requires phase[t := p].Keys == w.jobs.Keys && LogSound(w, phase[t := p], store, log')
    requires p.Inside? ==> TurnOpen(w, t, p, contents', log')
    ensures TurnsAgree(w, phase[t := p], store, contents', log')
  {
    TurnsStay(w, phase, phase[t := p], store, t, log, log');
  }

  lemma {:induction false} CommitKeeps(w: World, phase: map<Task, Phase>, t: Task, store: Key, contents: Store,
      log: seq<Commit>, contents': Store)
    requires phase.Keys == w.jobs.Keys && TurnsAgree(w, phase, store, contents, log)
    requires At(w, store, t) && phase[t].Inside? && OnlyInside(w, phase, store, t)
    requires phase[t].done < |w.jobs[t].plan| && contents' == Apply(w.idOf, contents, w.jobs[t].plan[phase[t].done])
    ensures var p := phase[t];
            var phase' := phase[t := Inside(p.key, p.lock, p.done + 1, None)];
            phase'.Keys == w.jobs.Keys && TurnsAgree(w, phase', store, contents', LastTurn(log, t, p.done + 1, ""))
  {
    var p := phase[t];
    var p', log' := Inside(p.key, p.lock, p.done + 1, None), LastTurn(log, t, p.done + 1, "");
    assert TurnOpen(w, t, p, contents, log);
    PerformedMore(w, t, StoreAt(w.files, store), log, p.done);
    LastTurnSound(w, phase, t, p', store, log, p.done + 1, "");
    TurnMoves(w, phase, t, p', store, contents, log, contents', log');
  }

  lemma {:induction false} TornKeeps(w: World, phase: map<Task, Phase>, t: Task, store: Key, contents: Store,
      log: seq<Commit>, fragment: string)
    requires phase.Keys == w.jobs.Keys && TurnsAgree(w, phase, store, contents, log)
    requires At(w, store, t) && phase[t].Inside? && OnlyInside(w, phase, store, t) && fragment != ""
    ensures var p := phase[t];
            var phase' := phase[t := Leaving(p.key, p.lock, false)];
            && phase'.Keys == w.jobs.Keys
            && TurnsAgree(w, phase', store, contents.(learnings := contents.learnings + fragment),
               LastTurn(log, t, p.done, fragment))
  {
    var p := phase[t];
    var p', contents' := Leaving(p.key, p.lock, false), contents.(learnings := contents.learnings + fragment);
    assert TurnOpen(w, t, p, contents, log);
    PerformedTorn(w, t, StoreAt(w.files, store), log, p.done, fragment);
    LastTurnSound(w, phase, t, p', store, log, p.done, fragment);
    TurnMoves(w, phase, t, p', store, contents, log, contents', LastTurn(log, t, p.done, fragment));
  }

  // ----- every step

  lemma {:induction false} AloneInside(w: World, s: State, t: Task)
    requires LockInv(w, s) && t in w.jobs && Sheltered(w, StoreOf(w, t))
    requires s.phase[t].Inside? || (s.phase[t].Queued? && s.phase[t].lock !in s.held)
    ensures OnlyInside(w, s.phase, StoreOf(w, t), t)
  {
    forall u | u in s.phase && At(w, StoreOf(w, t), u) && s.phase[u].Inside?
      ensures u == t
    {
      MutualExclusion(w, s, t, u);
    }
  }

  /** A step changes the phase of its task, and files and log of its store. */
  lemma {:induction false} StepIsLocal(w: World, s: State, a: Action, store: Key, s': State)
    requires s.phase.Keys == w.jobs.Keys && Next(w, s, a) == Some(s') && !At(w, store, a.t)
    ensures IsLocal(s, a.t, store, s')
  {
    if a.Work? {
      WorkIsLocal(w, s, a.t, store, s');
    } else if a.TakeHandle? {
      TakeIsQuiet(s, a.t, LockKey(w, s, a.t));
    } else if a.Land? {
      assert s.phase == s.phase[a.t := s.phase[a.t]];
    }
  }

  /** The phase of `t` is all that may differ between two states, but for what is on disk elsewhere. */
  ghost predicate IsLocal(s: State, t: Task, store: Key, s': State) {
    && t in s.phase && t in s'.phase && s'.phase == s.phase[t := s'.phase[t]]
    && StoreAt(s'.stores, store) == StoreAt(s.stores, store) && LogAt(s'.log, store) == LogAt(s.log, store)
  }

  lemma {:induction false} WorkIsLocal(w: World, s: State, t: Task, store: Key, s': State)
    requires s.phase.Keys == w.jobs.Keys && Next(w, s, Work(t)) == Some(s') && !At(w, store, t)
    ensures IsLocal(s, t, store, s')
  {
    var contents := StoreAt(s.stores, StoreOf(w, t));
    if !Writes(w, s, t) {
      ReadIsLocal(s, t, contents, store);
    } else if StoreOf(w, t) !in s.made {
      MakeDirIsLocal(s, t, StoreOf(w, t), store);
    } else {
      CommitIsLocal(s, t, StoreOf(w, t), Written(contents, NextWrite(w, s, t)), store);
    }
  }

  lemma {:induction false} ReadIsLocal(s: State, t: Task, contents: Store, store: Key)
    requires t in s.phase && s.phase[t].Inside?
    ensures IsLocal(s, t, store, Read(s, t, contents))
  {
  }

  lemma {:induction false} MakeDirIsLocal(s: State, t: Task, at: Key, store: Key)
    requires t in s.phase
    ensures IsLocal(s, t, store, s.(made := s.made + {at}))
  {
    assert s.phase == s.phase[t := s.phase[t]];
  }

  lemma {:induction false} CommitIsLocal(s: State, t: Task, at: Key, contents: Store, store: Key)
    requires t in s.phase && s.phase[t].Inside? && store != at
    ensures IsLocal(s, t, store, Commits(s, t, at, contents))
  {
  }

  lemma {:induction false} ElsewhereKeeps(w: World, s: State, a: Action, store: Key, s': State)
    requires s.phase.Keys == w.jobs.Keys && FileInv(w, s, store) && Next(w, s, a) == Some(s') && !At(w, store, a.t)
    ensures s'.phase.Keys == w.jobs.Keys && FileInv(w, s', store)
  {
    StepIsLocal(w, s, a, store, s');
    QuietKeeps(w, s.phase, a.t, s'.phase[a.t], store, StoreAt(s.stores, store), LogAt(s.log, store));
  }

  /** Nobody came between a drop's reading and its writing: what it writes is what the drop makes of the
      file as it is. */
  lemma {:induction false} WritesAsPlanned(w: World, s: State, t: Task)
    requires s.phase.Keys == w.jobs.Keys && t in w.jobs && Writes(w, s, t) && FileInv(w, s, StoreOf(w, t))
    requires StoreOf(w, t) in s.made
    ensures var contents := StoreAt(s.stores, StoreOf(w, t));
            Written(contents, NextWrite(w, s, t)) == Apply(w.idOf, contents, w.jobs[t].plan[s.phase[t].done])
  {
    assert TurnOpen(w, t, s.phase[t], StoreAt(s.stores, StoreOf(w, t)), LogAt(s.log, StoreOf(w, t)));
  }

  lemma {:induction false} WorkKeeps(w: World, s: State, t: Task, store: Key)
    requires LockInv(w, s) && FileInv(w, s, store) && Sheltered(w, store) && At(w, store, t)
    requires s.phase[t].Inside? && s.phase[t].done < |w.jobs[t].plan|
    ensures var s' := Perform(w, s, t); s'.phase.Keys == w.jobs.Keys && FileInv(w, s', store)
  {
    var contents, log := StoreAt(s.stores, store), LogAt(s.log, store);
    if !Writes(w, s, t) {
      ReadKeeps(w, s.phase, t, store, contents, log);
    } else if store in s.made {
      WritesAsPlanned(w, s, t);
      AloneInside(w, s, t);
      WriteKeeps(w, s, t, store, Written(contents, NextWrite(w, s, t)));
    }
  }

  lemma {:induction false} WriteKeeps(w: World, s: State, t: Task, store: Key, contents: Store)
    requires s.phase.Keys == w.jobs.Keys && FileInv(w, s, store) && At(w, store, t) && s.phase[t].Inside?
    requires OnlyInside(w, s.phase, store, t) && s.phase[t].done < |w.jobs[t].plan|
    requires contents == Apply(w.idOf, StoreAt(s.stores, store), w.jobs[t].plan[s.phase[t].done])
    ensures var s' := Commits(s, t, store, contents); s'.phase.Keys == w.jobs.Keys && FileInv(w, s', store)
  {
    CommitKeeps(w, s.phase, t, store, StoreAt(s.stores, store), LogAt(s.log, store), contents);
  }

  /** Every step at a sheltered store, unless it lands a late write there. */
  lemma {:induction false} NextFiles(w: World, s: State, a: Action, store: Key)
    requires LockInv(w, s) && FileInv(w, s, store) && Sheltered(w, store) && Next(w, s, a).Some?
    requires At(w, store, a.t) ==> !a.Land?
    ensures var s' := Next(w, s, a).value; s'.phase.Keys == w.jobs.Keys && FileInv(w, s', store)
  {
    if !At(w, store, a.t) {
      ElsewhereKeeps(w, s, a, store, Next(w, s, a).value);
    } else if a.Work? {
      WorkKeeps(w, s, a.t, store);
    } else if a.Enter? || a.Break? {
      TurnKeeps(w, s, a, store);
    } else {
      QuietStep(w, s, a, store);
    }
  }

  lemma {:induction false} TurnKeeps(w: World, s: State, a: Action, store: Key)
    requires LockInv(w, s) && FileInv(w, s, store) && Sheltered(w, store) && Next(w, s, a).Some?
    requires At(w, store, a.t) && (a.Enter? || a.Break?)
    ensures var s' := Next(w, s, a).value; s'.phase.Keys == w.jobs.Keys && FileInv(w, s', store)
  {
    var s' := Next(w, s, a).value;
    AloneInside(w, s, a.t);
    match a
    case Enter(t) => BeginKeeps(w, s.phase, t, s'.phase[t], store, StoreAt(s.stores, store), LogAt(s.log, store));
    case Break(t, fragment) => TornKeeps(w, s.phase, t, store, StoreAt(s.stores, store), LogAt(s.log, store), fragment);
  }

  lemma {:induction false} QuietStep(w: World, s: State, a: Action, store: Key)
    requires s.phase.Keys == w.jobs.Keys && FileInv(w, s, store) && Next(w, s, a).Some?
    requires !a.Work? && !a.Enter? && !a.Break? && !a.Land?
    ensures var s' := Next(w, s, a).value; s'.phase.Keys == w.jobs.Keys && FileInv(w, s', store)
  {
    var s' := Next(w, s, a).value;
    IsQuiet(w, s, a, s');
    QuietKeeps(w, s.phase, a.t, s'.phase[a.t], store, StoreAt(s.stores, store), LogAt(s.log, store));
  }

  lemma {:induction false} IsQuiet(w: World, s: State, a: Action, s': State)
    requires s.phase.Keys == w.jobs.Keys && Next(w, s, a) == Some(s')
    requires !a.Work? && !a.Enter? && !a.Break? && !a.Land?
    ensures s'.phase == s.phase[a.t := s'.phase[a.t]] && s'.stores == s.stores && s'.log == s.log
    ensures Quiet(w, a.t, s.phase[a.t], s'.phase[a.t])
  {
    if a.TakeHandle? {
      TakeIsQuiet(s, a.t, LockKey(w, s, a.t));
    } else if a.Abandon? {
      assert s' == Release(s, a.t, false).(late := s'.late);
    }
  }

  lemma {:induction false} TakeIsQuiet(s: State, t: Task, key: Key)
    requires t in s.phase && s.phase[t].Idle?
    ensures var s' := MemLock(s, t, key);
            && s'.phase == s.phase[t := s'.phase[t]] && s'.phase[t].Queued?
            && s'.stores == s.stores && s'.log == s.log
  {
  }
}

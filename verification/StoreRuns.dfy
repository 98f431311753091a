/** Whole runs of concurrent updates, and what they mean for the learnings. */
module StoreRuns {
  import opened Text
  import opened LearningsFile
  import opened StoreLock
  import opened StoreFiles

  /** A step that is not enabled is passed over. */
  function Stepped(w: World, s: State, a: Action): (s': State)
    requires s.phase.Keys == w.jobs.Keys
    ensures s'.phase.Keys == w.jobs.Keys
  {
    Or(Next(w, s, a), s)
  }

  /** A run performs the enabled steps of a schedule. */
  function Run(w: World, schedule: seq<Action>): (s: State)
    ensures s.phase.Keys == w.jobs.Keys
  {
    if schedule == [] then Init(w)
    else Stepped(w, Run(w, schedule[..|schedule| - 1]), schedule[|schedule| - 1])
  }

  /** Whatever the schedule, lock map, handles, guards and directories are in order. */
  lemma {:induction false} LocksHold(w: World, schedule: seq<Action>)
    ensures LockInv(w, Run(w, schedule))
  {
    if schedule != [] {
      var n := |schedule| - 1;
      LocksHold(w, schedule[..n]);
      if Next(w, Run(w, schedule[..n]), schedule[n]).Some? { NextLocks(w, Run(w, schedule[..n]), schedule[n]); }
    }
  }

  ghost predicate Calm(w: World, a: Action, store: Key) {
    a.Land? ==> !At(w, store, a.t)
  }

  /** No write of a dropped request lands late in this store. */
  ghost predicate NothingLands(w: World, schedule: seq<Action>, store: Key) {
    forall i :: 0 <= i < |schedule| ==> Calm(w, schedule[i], store)
  }

  lemma {:induction false} FilesHold(w: World, schedule: seq<Action>, store: Key)
    requires Sheltered(w, store) && NothingLands(w, schedule, store)
    ensures FileInv(w, Run(w, schedule), store)
  {
    if schedule == [] {
      AtFirst(w, store);
    } else {
      var n := |schedule| - 1;
      FilesHold(w, schedule[..n], store);
      LocksHold(w, schedule[..n]);
      assert Calm(w, schedule[n], store);
      FilesHoldOn(w, Run(w, schedule[..n]), schedule[n], store);
    }
  }

  lemma {:induction false} AtFirst(w: World, store: Key)
    ensures Init(w).phase.Keys == w.jobs.Keys && FileInv(w, Init(w), store)
  {
  }

  lemma {:induction false} FilesHoldOn(w: World, s: State, a: Action, store: Key)
    requires LockInv(w, s) && FileInv(w, s, store) && Sheltered(w, store) && Calm(w, a, store)
    ensures var s' := Stepped(w, s, a); s'.phase.Keys == w.jobs.Keys && FileInv(w, s', store)
  {
    if Next(w, s, a).Some? { NextFiles(w, s, a, store); }
  }

  /** In every run, for every store whose updates agree on a lock and where nothing lands late: one lock among
      all live handles, one task inside, and the files are the turns of the store's log one after the other,
      each task at most once, everyone who finished without an error with their whole plan. */
  lemma {:induction false} RunsAreSerializable(w: World, schedule: seq<Action>, t: Task, u: Task)
    requires t in w.jobs && u in w.jobs && StoreOf(w, t) == StoreOf(w, u)
    requires Sheltered(w, StoreOf(w, t)) && NothingLands(w, schedule, StoreOf(w, t))
    ensures var s, store := Run(w, schedule), StoreOf(w, t);
            var log := LogAt(s.log, store);
            && s.phase.Keys == w.jobs.Keys
            && (HasHandle(s.phase[t]) && HasHandle(s.phase[u]) ==> s.phase[t].lock == s.phase[u].lock)
            && (s.phase[t].Inside? && s.phase[u].Inside? ==> t == u)
            && StoreAt(s.stores, store) == ReplayTurns(w, StoreAt(w.files, store), log)
            && (forall i, j :: 0 <= i < j < |log| ==> log[i].task != log[j].task)
            && (s.phase[t] == Finished(true) ==> Commit(t, |w.jobs[t].plan|, "") in log)
  {
    var s, store := Run(w, schedule), StoreOf(w, t);
    LocksHold(w, schedule);
    MutualExclusion(w, s, t, u);
    FilesHold(w, schedule, store);
    if s.phase[t] == Finished(true) { FinishedIsLogged(w, s, t); }
  }

  lemma {:induction false} FinishedIsLogged(w: World, s: State, t: Task)
    requires s.phase.Keys == w.jobs.Keys && t in w.jobs && FileInv(w, s, StoreOf(w, t)) && s.phase[t] == Finished(true)
    ensures Commit(t, |w.jobs[t].plan|, "") in LogAt(s.log, StoreOf(w, t))
  {
    var log := LogAt(s.log, StoreOf(w, t));
    assert HasTurn(log, t);
    var i :| 0 <= i < |log| && log[i].task == t;
    assert TurnSound(w, s.phase, StoreOf(w, t), log[i]);
  }

  /** In such runs nobody comes between a drop's reading and its writing: whenever a drop is about to write,
      what it has read is the file as it is. */
  lemma {:induction false} DropSeesItsReading(w: World, schedule: seq<Action>, t: Task)
    requires t in w.jobs && Sheltered(w, StoreOf(w, t)) && NothingLands(w, schedule, StoreOf(w, t))
    ensures var s, store := Run(w, schedule), StoreOf(w, t);
            Writes(w, s, t) && store in s.made && w.jobs[t].plan[s.phase[t].done].DropId? ==>
              && s.phase[t].read == Some(StoreAt(s.stores, store).learnings)
              && Written(StoreAt(s.stores, store), NextWrite(w, s, t)) ==
                 Apply(w.idOf, StoreAt(s.stores, store), w.jobs[t].plan[s.phase[t].done])
  {
    var s, store := Run(w, schedule), StoreOf(w, t);
    FilesHold(w, schedule, store);
    if Writes(w, s, t) && store in s.made {
      assert TurnOpen(w, t, s.phase[t], StoreAt(s.stores, store), LogAt(s.log, store));
      WritesAsPlanned(w, s, t);
    }
  }

  // ----- what that means for the learnings

  /** Effects on the list of entries. */
  ghost function ReplayEntries(idOf: string -> Option<string>, lines: seq<string>, es: seq<Effect>): seq<string> {
    if es == [] then lines
    else
      var before := ReplayEntries(idOf, lines, es[..|es| - 1]);
      match es[|es| - 1]
      case WriteBank(_) => before
      case AppendLine(line) => before + [line]
      case DropId(id) => Without(idOf, before, id)
      case TornAppend(_) => before
  }

  /** Nothing was torn. */
  ghost predicate Whole(es: seq<Effect>) {
    forall i :: 0 <= i < |es| ==> !es[i].TornAppend?
  }

  ghost predicate AppendsLines(es: seq<Effect>) {
    forall i :: 0 <= i < |es| && es[i].AppendLine? ==> IsLine(es[i].line)
  }

  /** On a file that ends in a line break, editing text is editing the list of entries. */
  lemma {:induction false} ReplayIsOnEntries(idOf: string -> Option<string>, s: Store, es: seq<Effect>)
    requires Terminated(s.learnings) && AppendsLines(es) && Whole(es)
    ensures Terminated(Replay(idOf, s, es).learnings)
    ensures Entries(Replay(idOf, s, es).learnings) == ReplayEntries(idOf, Entries(s.learnings), es)
  {
    if es != [] {
      ReplayIsOnEntries(idOf, s, es[..|es| - 1]);
      var text := Replay(idOf, s, es[..|es| - 1]).learnings;
      match es[|es| - 1]
      case WriteBank(_) =>
      case AppendLine(line) => AppendAddsEntryIff(text, line);
      case DropId(id) => DropRemovesExactly(idOf, text, id);
    }
  }

  /** An appended entry is lost only to a later drop of its own id. */
  lemma {:induction false} AppendSurvives(idOf: string -> Option<string>, lines: seq<string>, es: seq<Effect>, i: nat)
    requires i < |es| && es[i].AppendLine?
    requires forall j :: i < j < |es| && es[j].DropId? ==> !Carries(idOf, es[i].line, es[j].id)
    ensures es[i].line in ReplayEntries(idOf, lines, es)
  {
    var n := |es| - 1;
    if i < n {
      AppendSurvives(idOf, lines, es[..n], i);
      match es[n]
      case WriteBank(_) =>
      case AppendLine(_) =>
      case TornAppend(_) =>
      case DropId(id) => WithoutKeeps(idOf, ReplayEntries(idOf, lines, es[..n]), id);
    }
  }

  /** All effects of a log, flattened. */
  ghost function AllEffects(w: World, log: seq<Commit>): seq<Effect> {
    if log == [] then [] else AllEffects(w, log[..|log| - 1]) + Performed(w, log[|log| - 1])
  }

  lemma {:induction false} ReplayConcat(idOf: string -> Option<string>, s: Store, es: seq<Effect>, fs: seq<Effect>)
    ensures Replay(idOf, s, es + fs) == Replay(idOf, Replay(idOf, s, es), fs)
    decreases |fs|
  {
    if fs == [] {
      assert es + fs == es;
    } else {
      assert (es + fs)[..|es + fs| - 1] == es + fs[..|fs| - 1];
      ReplayConcat(idOf, s, es, fs[..|fs| - 1]);
    }
  }

  lemma {:induction false} TurnsAreEffects(w: World, store: Store, log: seq<Commit>)
    ensures ReplayTurns(w, store, log) == Replay(w.idOf, store, AllEffects(w, log))
  {
    if log != [] {
      TurnsAreEffects(w, store, log[..|log| - 1]);
      ReplayConcat(w.idOf, store, AllEffects(w, log[..|log| - 1]), Performed(w, log[|log| - 1]));
    }
  }

  lemma {:induction false} EffectsOfTurn(w: World, log: seq<Commit>, i: nat)
    requires i < |log|
    ensures forall e :: e in Performed(w, log[i]) ==> e in AllEffects(w, log)
  {
    if i < |log| - 1 {
      EffectsOfTurn(w, log[..|log| - 1], i);
    }
  }

  lemma {:induction false} EffectsComeFromPlans(w: World, log: seq<Commit>, e: Effect)
    requires e in AllEffects(w, log) && !e.TornAppend?
    ensures exists i :: 0 <= i < |log| && log[i].task in w.jobs && e in w.jobs[log[i].task].plan
  {
    var n := |log| - 1;
    if e in Performed(w, log[n]) {
      assert log[n].task in w.jobs && e in w.jobs[log[n].task].plan;
    } else {
      EffectsComeFromPlans(w, log[..n], e);
      var i :| 0 <= i < n && log[..n][i].task in w.jobs && e in w.jobs[log[..n][i].task].plan;
      assert log[i].task in w.jobs && e in w.jobs[log[i].task].plan;
    }
  }

  ghost predicate PlansAppendLines(w: World) {
    forall t :: t in w.jobs ==> AppendsLines(w.jobs[t].plan) && Whole(w.jobs[t].plan)
  }

  ghost predicate Untorn(log: seq<Commit>) {
    forall i :: 0 <= i < |log| ==> log[i].torn == ""
  }

  lemma {:induction false} UntornIsWhole(w: World, log: seq<Commit>)
    requires Untorn(log) && forall t :: t in w.jobs ==> Whole(w.jobs[t].plan)
    ensures Whole(AllEffects(w, log))
  {
    if log != [] { UntornIsWhole(w, log[..|log| - 1]); }
  }

  /** The step breaks off no append to this store. */
  ghost predicate Spares(w: World, a: Action, store: Key) {
    a.Break? ==> !At(w, store, a.t)
  }

  ghost predicate NothingBreaks(w: World, schedule: seq<Action>, store: Key) {
    forall i :: 0 <= i < |schedule| ==> Spares(w, schedule[i], store)
  }

  lemma {:induction false} NothingIsTorn(w: World, schedule: seq<Action>, store: Key)
    requires NothingBreaks(w, schedule, store)
    ensures Untorn(LogAt(Run(w, schedule).log, store))
  {
    if schedule != [] {
      var n := |schedule| - 1;
      NothingIsTorn(w, schedule[..n], store);
      assert Spares(w, schedule[n], store);
      StepTearsNothing(w, Run(w, schedule[..n]), schedule[n], store);
    }
  }

  lemma {:induction false} StepTearsNothing(w: World, s: State, a: Action, store: Key)
    requires s.phase.Keys == w.jobs.Keys && Untorn(LogAt(s.log, store)) && Spares(w, a, store)
    ensures Untorn(LogAt(Stepped(w, s, a).log, store))
  {
    match Next(w, s, a)
    case None =>
    case Some(s') =>
      if At(w, store, a.t) { TurnTearsNothing(w, s, a, store, s'); } else { StepIsLocal(w, s, a, store, s'); }
  }

  lemma {:induction false} TurnTearsNothing(w: World, s: State, a: Action, store: Key, s': State)
    requires s.phase.Keys == w.jobs.Keys && Untorn(LogAt(s.log, store)) && At(w, store, a.t)
    requires Next(w, s, a) == Some(s') && !a.Break?
    ensures Untorn(LogAt(s'.log, store))
  {
    if a.Work? {
      WorkTearsNothing(w, s, a.t, s');
    } else if !a.Enter? && !a.Land? {
      IsQuiet(w, s, a, s');
    }
  }

  lemma {:induction false} WorkTearsNothing(w: World, s: State, t: Task, s': State)
    requires s.phase.Keys == w.jobs.Keys && t in w.jobs && Next(w, s, Work(t)) == Some(s')
    requires Untorn(LogAt(s.log, StoreOf(w, t)))
    ensures Untorn(LogAt(s'.log, StoreOf(w, t)))
  {
    if Writes(w, s, t) && StoreOf(w, t) in s.made {
      CommitTearsNothing(s, t, StoreOf(w, t), Written(StoreAt(s.stores, StoreOf(w, t)), NextWrite(w, s, t)));
    } else {
      assert s'.log == s.log;
    }
  }

  lemma {:induction false} CommitTearsNothing(s: State, t: Task, store: Key, contents: Store)
    requires t in s.phase && s.phase[t].Inside? && Untorn(LogAt(s.log, store))
    ensures Untorn(LogAt(Commits(s, t, store, contents).log, store))
  {
  }

  /** In every run in which no append to a store breaks off, the entries of its file are the initial
      ones edited by the log's effects. */
  lemma {:induction false} FilesAreEditedLists(w: World, schedule: seq<Action>, store: Key)
    requires Sheltered(w, store) && NothingLands(w, schedule, store) && NothingBreaks(w, schedule, store)
    requires PlansAppendLines(w) && Terminated(StoreAt(w.files, store).learnings)
    ensures var s := Run(w, schedule);
            Entries(StoreAt(s.stores, store).learnings) ==
            ReplayEntries(w.idOf, Entries(StoreAt(w.files, store).learnings), AllEffects(w, LogAt(s.log, store)))
  {
    var s, file := Run(w, schedule), StoreAt(w.files, store);
    var log := LogAt(s.log, store);
    var es := AllEffects(w, log);
    FilesHold(w, schedule, store);
    TurnsAreEffects(w, file, log);
    NothingIsTorn(w, schedule, store);
    UntornIsWhole(w, log);
    forall j | 0 <= j < |es|
      ensures es[j].AppendLine? ==> IsLine(es[j].line)
    {
      if es[j].AppendLine? { EffectsComeFromPlans(w, log, es[j]); }
    }
    ReplayIsOnEntries(w.idOf, file, es);
  }

  /** No update of the store asks to drop this line's id. */
  ghost predicate NobodyDrops(w: World, store: Key, line: string) {
    forall u, id :: At(w, store, u) && DropId(id) in w.jobs[u].plan ==> !Carries(w.idOf, line, id)
  }

  /** No append is lost where updates agree on a lock, nothing lands late and no append breaks off: whatever
      the schedule, the line of a finished update is in its store unless somebody asked to drop that line's
      own id. */
  lemma {:induction false} NoAppendIsLost(w: World, schedule: seq<Action>, t: Task, line: string)
    requires t in w.jobs && Sheltered(w, StoreOf(w, t))
    requires NothingLands(w, schedule, StoreOf(w, t)) && NothingBreaks(w, schedule, StoreOf(w, t))
    requires PlansAppendLines(w) && Terminated(StoreAt(w.files, StoreOf(w, t)).learnings)
    requires AppendLine(line) in w.jobs[t].plan && NobodyDrops(w, StoreOf(w, t), line)
    ensures var s := Run(w, schedule);
            && s.phase.Keys == w.jobs.Keys
            && (s.phase[t] == Finished(true) ==> line in Entries(StoreAt(s.stores, StoreOf(w, t)).learnings))
  {
    var s, store := Run(w, schedule), StoreOf(w, t);
    FilesHold(w, schedule, store);
    FilesAreEditedLists(w, schedule, store);
    if s.phase[t] == Finished(true) {
      FinishedIsLogged(w, s, t);
      LineSurvives(w, s, LogAt(s.log, store), t, line, Entries(StoreAt(w.files, store).learnings));
    }
  }

  lemma {:induction false} LineSurvives(w: World, s: State, log: seq<Commit>, t: Task, line: string, lines: seq<string>)
    requires s.phase.Keys == w.jobs.Keys && t in w.jobs && LogSound(w, s.phase, StoreOf(w, t), log)
    requires Commit(t, |w.jobs[t].plan|, "") in log && AppendLine(line) in w.jobs[t].plan
    requires NobodyDrops(w, StoreOf(w, t), line)
    ensures line in ReplayEntries(w.idOf, lines, AllEffects(w, log))
  {
    var es := AllEffects(w, log);
    var i :| 0 <= i < |log| && log[i] == Commit(t, |w.jobs[t].plan|, "");
    assert Performed(w, log[i]) == w.jobs[t].plan;
    EffectsOfTurn(w, log, i);
    forall j | 0 <= j < |es| && es[j].DropId?
      ensures !Carries(w.idOf, line, es[j].id)
    {
      EffectsComeFromPlans(w, log, es[j]);
      var k :| 0 <= k < |log| && log[k].task in w.jobs && es[j] in w.jobs[log[k].task].plan;
      assert TurnSound(w, s.phase, StoreOf(w, t), log[k]);
    }
    var j :| 0 <= j < |es| && es[j] == AppendLine(line);
    AppendSurvives(w.idOf, lines, es, j);
  }

  /** Where the directory is there, an append can break off anywhere in its line: that part is in the file, and
      the task gives up its guard without having finished. */
  lemma {:induction false} BreaksOff(w: World, s: State, t: Task, line: string, fragment: string)
    requires s.phase.Keys == w.jobs.Keys && t in w.jobs && s.phase[t].Inside? && s.phase[t].done < |w.jobs[t].plan|
    requires w.jobs[t].plan[s.phase[t].done] == AppendLine(line) && StoreOf(w, t) in s.made
    requires fragment != "" && fragment <= line + "\n" && fragment != line + "\n"
    ensures var s', store := Stepped(w, s, Break(t, fragment)), StoreOf(w, t);
            && s'.phase[t].Leaving? && !s'.phase[t].complete && s.phase[t].lock !in s'.held
            && StoreAt(s'.stores, store).learnings == StoreAt(s.stores, store).learnings + fragment
            && StoreAt(s'.stores, store).bank == StoreAt(s.stores, store).bank
  {
  }

  /** Whatever part of a line a broken append leaves, it stands in the last line of the file, and the
      next append runs into it: the entries are not the ones before and the line. */
  lemma {:induction false} ATornAppendSwallows(idOf: string -> Option<string>, s: Store, half: string, fragment: string,
      line: string)
    requires IsLine(half) && IsLine(line) && IsFragment(AppendLine(half), fragment)
    ensures var torn := Apply(idOf, s, TornAppend(fragment));
            && !Terminated(torn.learnings)
            && Entries(Apply(idOf, torn, AppendLine(line)).learnings) != Entries(torn.learnings) + [line]
  {
    assert fragment == (half + "\n")[..|fragment|] == half[..|fragment|];
    StartsPlain(half);
    LastLineGrows(s.learnings, fragment);
    AppendAddsEntryIff(s.learnings + fragment, line);
  }
}

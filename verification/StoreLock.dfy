/** Concurrent updates of memory stores. Every task asks the lock map for a lock, waits for the guard,
    edits its store's files step by step, and lets go; the lock map forgets locks nobody holds. A lock is
    looked up under the canonical path of the store's directory, or under the path as it was given while
    that directory does not exist; the first thing an update writes makes it. Any interleaving of these
    steps is a run. */
module StoreLock {
  import opened Text
  import opened LearningsFile

  type Path = string
  type Key = string
  type LockId = nat
  type Task = nat

  // ----- one update

  datatype LearningField = Absent | NotAnObject | Object(text: string, line: string)

  /** An update request; the line of a learning is its serialized record. */
  datatype Request = Request(bank: Option<string>, learning: LearningField, dropId: Option<string>)

  /** A torn append is what an append that fails half-way leaves behind; no request asks for one. */
  datatype Effect =
    | WriteBank(text: string)
    | AppendLine(line: string)
    | DropId(id: string)
    | TornAppend(fragment: string)

  datatype Store = Store(bank: string, learnings: string)

  predicate Rejected(learning: LearningField) {
    match learning
    case Absent => false
    case NotAnObject => true
    case Object(text, _) => Trim(text) == "" || |Trim(text)| > 10_000
  }

  /** The file effects of a request, in program order: a rejected learning stops it after the bank. */
  function Plan(req: Request): seq<Effect> {
    (if req.bank.Some? then [WriteBank(req.bank.value)] else []) +
    if Rejected(req.learning) then []
    else
      (if req.learning.Object? then [AppendLine(req.learning.line)] else []) +
      (if req.dropId.Some? then [DropId(req.dropId.value)] else [])
  }

  function Apply(idOf: string -> Option<string>, s: Store, e: Effect): Store {
    match e
    case WriteBank(text) => s.(bank := text)
    case AppendLine(line) => s.(learnings := Append(s.learnings, line))
    case DropId(id) => s.(learnings := Drop(idOf, s.learnings, id))
    case TornAppend(fragment) => s.(learnings := s.learnings + fragment)
  }

  function Replay(idOf: string -> Option<string>, s: Store, es: seq<Effect>): Store {
    if es == [] then s else Apply(idOf, Replay(idOf, s, es[..|es| - 1]), es[|es| - 1])
  }

  // ----- the running system

  /** The path by which a task names its store, and the effects it wants there. */
  datatype Job = Job(path: Path, plan: seq<Effect>)

  /** What does not change during a run: how records are read, which directory a path leads to, the
      updates, the directories that exist at the start, and the files in them. */
  datatype World = World(
    idOf: string -> Option<string>,
    canon: Path -> Key,
    jobs: map<Task, Job>,
    existing: set<Key>,
    files: map<Key, Store>)

  /** Handles remember the key they were looked up under. `Inside` counts the effects performed and
      remembers what a drop in progress has read. */
  datatype Phase =
    | Idle
    | Queued(key: Key, lock: LockId)
    | Inside(key: Key, lock: LockId, done: nat, read: Option<string>)
    | Leaving(key: Key, lock: LockId, complete: bool)
    | Finished(complete: bool)

  /** What reaches the disk in one go. */
  datatype Write = MakeDir | SetBank(text: string) | Extend(text: string) | SetLearnings(text: string)

  /** A task's turn at a store: the first `count` effects of its plan, and the fragment of the next one
      if that was torn. */
  datatype Commit = Commit(task: Task, count: nat, torn: string)

  /** `made` are the directories there now; `late` is what dropped requests have left to the file system
      and has not reached the disk yet. */
  datatype State = State(
    phase: map<Task, Phase>,
    locks: map<Key, LockId>,
    held: map<LockId, Task>,
    nextId: LockId,
    made: set<Key>,
    late: map<Task, Write>,
    stores: map<Key, Store>,
    log: map<Key, seq<Commit>>)

  predicate HasHandle(p: Phase) {
    p.Queued? || p.Inside? || p.Leaving?
  }

  function StoreAt(stores: map<Key, Store>, key: Key): Store {
    if key in stores then stores[key] else Store("", "")
  }

  function LogAt(log: map<Key, seq<Commit>>, key: Key): seq<Commit> {
    if key in log then log[key] else []
  }

  function Init(w: World): State {
    State(map t | t in w.jobs :: Idle, map[], map[], 0, w.existing, map[], w.files, map[])
  }

  /** The directory a task's updates go to, whatever spelling it uses. */
  function StoreOf(w: World, t: Task): Key
    requires t in w.jobs
  {
    w.canon(w.jobs[t].path)
  }

  // ----- the lock map

  /** Canonical if the directory exists, else as given. */
  function LockKey(w: World, s: State, t: Task): Key
    requires t in w.jobs
  {
    if StoreOf(w, t) in s.made then StoreOf(w, t) else w.jobs[t].path
  }

  function StrongCount(s: State, lock: LockId): nat {
    |set k | k in s.locks && s.locks[k] == lock| + |Holders(s, lock)|
  }

  function Holders(s: State, lock: LockId): set<Task> {
    set t | t in s.phase && HasHandle(s.phase[t]) && s.phase[t].lock == lock
  }

  /** Entries somebody besides the map still refers to. */
  function Retained(s: State): map<Key, LockId> {
    map k | k in s.locks && StrongCount(s, s.locks[k]) > 1 :: s.locks[k]
  }

  /** Look a lock up, after evicting the idle ones. */
  function MemLock(s: State, t: Task, key: Key): (s': State)
    requires t in s.phase
    ensures s'.phase.Keys == s.phase.Keys
  {
    TakeFrom(s, t, key, Retained(s))
  }

  function TakeFrom(s: State, t: Task, key: Key, kept: map<Key, LockId>): (s': State)
    requires t in s.phase
    ensures s'.phase.Keys == s.phase.Keys
  {
    if key in kept then s.(locks := kept, phase := s.phase[t := Queued(key, kept[key])])
    else
      s.(locks := kept[key := s.nextId], nextId := s.nextId + 1, phase := s.phase[t := Queued(key, s.nextId)])
  }

  // ----- steps

  datatype Action =
    | TakeHandle(t: Task)
    | Enter(t: Task)
    | Cancel(t: Task)
    | Work(t: Task)
    | Fail(t: Task)
    | Break(t: Task, fragment: string)
    | Abandon(t: Task)
    | Land(t: Task)
    | Leave(t: Task)
    | DropHandle(t: Task)

  /** The step, if the task is where the action needs it. `Fail` is an error between writes or a request
      dropped there, `Break` an append that writes only part of its line, `Cancel` a request dropped while
      it waits. `Abandon` is a request dropped during a write that the file system completes without it,
      after the guard is gone; `Land` is when it does. */
  function Next(w: World, s: State, a: Action): (next: Option<State>)
    requires s.phase.Keys == w.jobs.Keys
    ensures next.Some? ==> next.value.phase.Keys == w.jobs.Keys
  {
    if a.t !in w.jobs then None
    else
      var store, p := StoreOf(w, a.t), s.phase[a.t];
      match a
      case TakeHandle(t) => if p.Idle? then Some(MemLock(s, t, LockKey(w, s, t))) else None
      case Enter(t) => if p.Queued? && p.lock !in s.held then Some(Begin(s, t, store)) else None
      case Cancel(t) => if p.Queued? then Some(Finish(s, t, false)) else None
      case Work(t) => if p.Inside? && p.done < |w.jobs[t].plan| then Some(Perform(w, s, t)) else None
      case Fail(t) => if p.Inside? then Some(Release(s, t, false)) else None
      case Break(t, fragment) =>
        if Writes(w, s, t) && store in s.made && IsFragment(w.jobs[t].plan[p.done], fragment) then
          Some(Torn(s, t, store, fragment))
        else None
      case Abandon(t) => if Writes(w, s, t) then Some(Abandoned(w, s, t)) else None
      case Land(t) => if t in s.late then Some(Landed(s, t, store)) else None
      case Leave(t) => if p.Inside? && p.done == |w.jobs[t].plan| then Some(Release(s, t, true)) else None
      case DropHandle(t) => if p.Leaving? then Some(Finish(s, t, p.complete)) else None
  }

  function Begin(s: State, t: Task, store: Key): (s': State)
    requires t in s.phase && s.phase[t].Queued?
    ensures s'.phase.Keys == s.phase.Keys
  {
    var p := s.phase[t];
    s.(held := s.held[p.lock := t], phase := s.phase[t := Inside(p.key, p.lock, 0, None)],
       log := s.log[store := LogAt(s.log, store) + [Commit(t, 0, "")]])
  }

  /** The task is about to write: a drop has read the file it rewrites. */
  predicate Writes(w: World, s: State, t: Task)
    requires t in w.jobs && t in s.phase
  {
    var p := s.phase[t];
    p.Inside? && p.done < |w.jobs[t].plan| && (w.jobs[t].plan[p.done].DropId? ==> p.read.Some?)
  }

  /** What it is about to write: the directory comes first, and a drop writes what it computed from its
      reading. */
  function NextWrite(w: World, s: State, t: Task): Write
    requires t in w.jobs && t in s.phase && Writes(w, s, t)
  {
    if StoreOf(w, t) !in s.made then MakeDir
    else
      match w.jobs[t].plan[s.phase[t].done]
      case WriteBank(text) => SetBank(text)
      case AppendLine(line) => Extend(line + "\n")
      case DropId(id) => SetLearnings(Drop(w.idOf, s.phase[t].read.value, id))
      case TornAppend(fragment) => Extend(fragment)
  }

  function Written(store: Store, op: Write): Store {
    match op
    case MakeDir => store
    case SetBank(text) => store.(bank := text)
    case Extend(text) => store.(learnings := store.learnings + text)
    case SetLearnings(text) => store.(learnings := text)
  }

  /** Read the file, make the directory, or write: one step each. */
  function Perform(w: World, s: State, t: Task): (s': State)
    requires t in w.jobs && t in s.phase && s.phase[t].Inside? && s.phase[t].done < |w.jobs[t].plan|
    ensures s'.phase.Keys == s.phase.Keys
  {
    var store := StoreOf(w, t);
    if !Writes(w, s, t) then Read(s, t, StoreAt(s.stores, store))
    else if store !in s.made then s.(made := s.made + {store})
    else Commits(s, t, store, Written(StoreAt(s.stores, store), NextWrite(w, s, t)))
  }

  function Read(s: State, t: Task, contents: Store): (s': State)
    requires t in s.phase && s.phase[t].Inside?
    ensures s'.phase.Keys == s.phase.Keys
  {
    s.(phase := s.phase[t := s.phase[t].(read := Some(contents.learnings))])
  }

  /** Put the store's new contents on disk and count the effect. */
  function Commits(s: State, t: Task, store: Key, contents: Store): (s': State)
    requires t in s.phase && s.phase[t].Inside?
    ensures s'.phase.Keys == s.phase.Keys
  {
    var p := s.phase[t];
    s.(stores := s.stores[store := contents], log := s.log[store := LastTurn(LogAt(s.log, store), t, p.done + 1, "")],
       phase := s.phase[t := Inside(p.key, p.lock, p.done + 1, None)])
  }

  /** The log with its last turn replaced. */
  function LastTurn(log: seq<Commit>, t: Task, count: nat, torn: string): seq<Commit> {
    if log == [] then [] else log[..|log| - 1] + [Commit(t, count, torn)]
  }

  /** Some of what an append would write, but not all. */
  predicate IsFragment(e: Effect, fragment: string) {
    e.AppendLine? && fragment != "" && fragment < e.line + "\n"
  }

  /** The fragment is on disk and in the log, and the task is on its way out. */
  function Torn(s: State, t: Task, store: Key, fragment: string): (s': State)
    requires t in s.phase && s.phase[t].Inside?
    ensures s'.phase.Keys == s.phase.Keys
  {
    var contents := StoreAt(s.stores, store);
    Release(s, t, false).(
      stores := s.stores[store := contents.(learnings := contents.learnings + fragment)],
      log := s.log[store := LastTurn(LogAt(s.log, store), t, s.phase[t].done, fragment)])
  }

  function Release(s: State, t: Task, complete: bool): (s': State)
    requires t in s.phase && s.phase[t].Inside?
    ensures s'.phase.Keys == s.phase.Keys
  {
    var p := s.phase[t];
    s.(held := s.held - {p.lock}, phase := s.phase[t := Leaving(p.key, p.lock, complete)])
  }

  function Finish(s: State, t: Task, complete: bool): (s': State)
    requires t in s.phase
    ensures s'.phase.Keys == s.phase.Keys
  {
    s.(phase := s.phase[t := Finished(complete)])
  }

  /** The guard goes, the write is still to come. */
  function Abandoned(w: World, s: State, t: Task): (s': State)
    requires t in w.jobs && t in s.phase && Writes(w, s, t)
    ensures s'.phase.Keys == s.phase.Keys
  {
    Release(s, t, false).(late := s.late[t := NextWrite(w, s, t)])
  }

  function Landed(s: State, t: Task, store: Key): State
    requires t in s.late
  {
    s.(made := s.made + {store}, late := s.late - {t},
       stores := s.stores[store := Written(StoreAt(s.stores, store), s.late[t])])
  }

  // ----- what every step keeps: locks

  /** Each key has its own lock. */
  ghost predicate OneLockEach(locks: map<Key, LockId>, nextId: LockId) {
    && (forall k, l :: k in locks && l in locks && locks[k] == locks[l] ==> k == l)
    && (forall k :: k in locks ==> locks[k] < nextId)
  }

  /** A live handle is the lock its key maps to. */
  ghost predicate HandlesCurrent(phase: map<Task, Phase>, locks: map<Key, LockId>) {
    forall t :: t in phase && HasHandle(phase[t]) ==> IsCurrent(locks, phase[t])
  }

  predicate IsCurrent(locks: map<Key, LockId>, p: Phase)
    requires HasHandle(p)
  {
    p.key in locks && locks[p.key] == p.lock
  }

  /** The guard's owner is the task inside. */
  ghost predicate GuardsMatch(phase: map<Task, Phase>, held: map<LockId, Task>) {
    && (forall l :: l in held ==> held[l] in phase && phase[held[l]].Inside? && phase[held[l]].lock == l)
    && (forall t :: t in phase && phase[t].Inside? ==> phase[t].lock in held && held[phase[t].lock] == t)
  }

  /** A handle was looked up under the canonical key of a directory that exists, or under the given path
      of one that did not exist at the start. */
  ghost predicate KeysSpelled(w: World, phase: map<Task, Phase>, made: set<Key>)
    requires phase.Keys == w.jobs.Keys
  {
    forall t :: t in phase && HasHandle(phase[t]) ==> IsSpelled(w, made, t, phase[t])
  }

  predicate IsSpelled(w: World, made: set<Key>, t: Task, p: Phase)
    requires t in w.jobs && HasHandle(p)
  {
    || (p.key == StoreOf(w, t) && StoreOf(w, t) in made)
    || (p.key == w.jobs[t].path && StoreOf(w, t) !in w.existing)
  }

  /** An update that writes goes to this directory. */
  ghost predicate Wanted(w: World, store: Key) {
    exists t :: t in w.jobs && StoreOf(w, t) == store && w.jobs[t].plan != []
  }

  /** Directories stay, and only updates that write make them. */
  ghost predicate DirsMade(w: World, made: set<Key>, late: map<Task, Write>) {
    && w.existing <= made
    && (forall k :: k in made && k !in w.existing ==> Wanted(w, k))
    && (forall t :: t in late ==> t in w.jobs && w.jobs[t].plan != [])
  }

  ghost predicate LockInv(w: World, s: State) {
    && s.phase.Keys == w.jobs.Keys
    && OneLockEach(s.locks, s.nextId) && HandlesCurrent(s.phase, s.locks) && GuardsMatch(s.phase, s.held)
    && KeysSpelled(w, s.phase, s.made) && DirsMade(w, s.made, s.late)
  }

  /** With one lock a key, an entry survives eviction exactly when a task holds its lock. */
  lemma {:induction false} RetainedIff(s: State, k: Key)
    requires OneLockEach(s.locks, s.nextId) && k in s.locks
    ensures k in Retained(s) <==> exists t :: t in s.phase && HasHandle(s.phase[t]) && s.phase[t].lock == s.locks[k]
  {
    var keys := set k' | k' in s.locks && s.locks[k'] == s.locks[k];
    assert keys == {k} && |keys| == 1;
    var holders := Holders(s, s.locks[k]);
    if t :| t in s.phase && HasHandle(s.phase[t]) && s.phase[t].lock == s.locks[k] {
      assert t in holders && holders != {};
    } else {
      assert holders == {};
    }
  }

  lemma {:induction false} MemLockLocks(w: World, s: State, t: Task)
    requires LockInv(w, s) && t in w.jobs && s.phase[t].Idle?
    ensures LockInv(w, MemLock(s, t, LockKey(w, s, t)))
  {
    RetainedHolds(s);
    TakeFromLocks(w, s, t, LockKey(w, s, t), Retained(s));
  }

  /** Some task holds a handle that was looked up under this key. */
  ghost predicate Held(phase: map<Task, Phase>, key: Key) {
    exists u :: u in phase && HasHandle(phase[u]) && phase[u].key == key
  }

  /** After a look-up the map has exactly the keys under which tasks hold handles. */
  lemma {:induction false} LookUpEvicts(w: World, s: State, t: Task, k: Key)
    requires LockInv(w, s) && t in w.jobs && s.phase[t].Idle?
    ensures var s' := MemLock(s, t, LockKey(w, s, t)); k in s'.locks <==> Held(s'.phase, k)
  {
    var key := LockKey(w, s, t);
    MemLockLocks(w, s, t);
    if Held(MemLock(s, t, key).phase, k) { HeldIsIn(MemLock(s, t, key), k); }
    if k in Retained(s) { KeptIsHeld(s, k); }
    TakenIsHeld(s, t, key, Retained(s), k);
  }

  lemma {:induction false} HeldIsIn(s: State, k: Key)
    requires HandlesCurrent(s.phase, s.locks) && Held(s.phase, k)
    ensures k in s.locks
  {
    var u :| u in s.phase && HasHandle(s.phase[u]) && s.phase[u].key == k;
    assert IsCurrent(s.locks, s.phase[u]);
  }

  lemma {:induction false} KeptIsHeld(s: State, k: Key)
    requires OneLockEach(s.locks, s.nextId) && HandlesCurrent(s.phase, s.locks) && k in Retained(s)
    ensures Held(s.phase, k)
  {
    RetainedIff(s, k);
    var u :| u in s.phase && HasHandle(s.phase[u]) && s.phase[u].lock == s.locks[k];
    assert IsCurrent(s.locks, s.phase[u]);
  }

  lemma {:induction false} TakenIsHeld(s: State, t: Task, key: Key, kept: map<Key, LockId>, k: Key)
    requires t in s.phase && s.phase[t].Idle? && (k in kept ==> Held(s.phase, k))
    ensures var s' := TakeFrom(s, t, key, kept); k in s'.locks ==> Held(s'.phase, k)
  {
    var s' := TakeFrom(s, t, key, kept);
    assert HasHandle(s'.phase[t]) && s'.phase[t].key == key;
    if k in kept {
      var u :| u in s.phase && HasHandle(s.phase[u]) && s.phase[u].key == k;
      assert s'.phase[u] == s.phase[u];
    }
  }

  /** Eviction only drops entries, and none that a task holds. */
  lemma {:induction false} RetainedHolds(s: State)
    requires OneLockEach(s.locks, s.nextId) && HandlesCurrent(s.phase, s.locks)
    ensures Part(s, Retained(s)) && HoldersKept(s, Retained(s))
  {
    forall u | u in s.phase && HasHandle(s.phase[u])
      ensures s.phase[u].key in Retained(s)
    {
      assert IsCurrent(s.locks, s.phase[u]);
      RetainedIff(s, s.phase[u].key);
    }
  }

  ghost predicate Part(s: State, kept: map<Key, LockId>) {
    forall k :: k in kept ==> k in s.locks && kept[k] == s.locks[k]
  }

  ghost predicate HoldersKept(s: State, kept: map<Key, LockId>) {
    forall u :: u in s.phase && HasHandle(s.phase[u]) ==> s.phase[u].key in kept
  }

  lemma {:induction false} TakeFromLocks(w: World, s: State, t: Task, key: Key, kept: map<Key, LockId>)
    requires LockInv(w, s) && t in w.jobs && s.phase[t].Idle?
    requires key == LockKey(w, s, t) && Part(s, kept) && HoldersKept(s, kept)
    ensures LockInv(w, TakeFrom(s, t, key, kept))
  {
    TakeFromOneLock(s, t, key, kept);
    TakeFromGuards(s, t, key, kept);
    TakeFromHandles(s, t, key, kept);
    TakeFromSpelling(w, s, t, key, kept);
  }

  lemma {:induction false} TakeFromHandles(s: State, t: Task, key: Key, kept: map<Key, LockId>)
    requires HandlesCurrent(s.phase, s.locks) && t in s.phase && Part(s, kept) && HoldersKept(s, kept)
    ensures var s' := TakeFrom(s, t, key, kept); HandlesCurrent(s'.phase, s'.locks)
  {
    var s' := TakeFrom(s, t, key, kept);
    forall u | u in s'.phase && HasHandle(s'.phase[u])
      ensures IsCurrent(s'.locks, s'.phase[u])
    {
      if u != t { assert IsCurrent(s.locks, s.phase[u]); }
    }
  }

  lemma {:induction false} TakeFromSpelling(w: World, s: State, t: Task, key: Key, kept: map<Key, LockId>)
    requires s.phase.Keys == w.jobs.Keys && KeysSpelled(w, s.phase, s.made) && w.existing <= s.made
    requires t in w.jobs && key == LockKey(w, s, t)
    ensures var s' := TakeFrom(s, t, key, kept); s'.phase.Keys == w.jobs.Keys && KeysSpelled(w, s'.phase, s'.made)
  {
    var s' := TakeFrom(s, t, key, kept);
    forall u | u in s'.phase && HasHandle(s'.phase[u])
      ensures IsSpelled(w, s'.made, u, s'.phase[u])
    {
      if u != t { assert IsSpelled(w, s.made, u, s.phase[u]); }
    }
  }

  lemma {:induction false} TakeFromOneLock(s: State, t: Task, key: Key, kept: map<Key, LockId>)
    requires OneLockEach(s.locks, s.nextId) && t in s.phase && Part(s, kept)
    ensures var s' := TakeFrom(s, t, key, kept); OneLockEach(s'.locks, s'.nextId)
  {
  }

  lemma {:induction false} TakeFromGuards(s: State, t: Task, key: Key, kept: map<Key, LockId>)
    requires GuardsMatch(s.phase, s.held) && t in s.phase && s.phase[t].Idle?
    ensures var s' := TakeFrom(s, t, key, kept); GuardsMatch(s'.phase, s'.held)
  {
    forall l | l in s.held ensures s.held[l] != t { assert s.phase[s.held[l]].Inside?; }
  }

  /** What one task's step may do to its phase, the guards and the directories when it takes no handle. */
  ghost predicate Moves(w: World, s: State, t: Task, p: Phase, held: map<LockId, Task>)
    requires t in w.jobs && t in s.phase
  {
    && (HasHandle(p) ==> HasHandle(s.phase[t]) && p.key == s.phase[t].key && p.lock == s.phase[t].lock)
    && if s.phase[t].Inside? && !p.Inside? then held == s.held - {s.phase[t].lock}
       else if p.Inside? && !s.phase[t].Inside? then p.lock !in s.held && held == s.held[p.lock := t]
       else held == s.held
  }

  lemma {:induction false} MovesGuards(w: World, s: State, t: Task, p: Phase, held: map<LockId, Task>)
    requires t in w.jobs && t in s.phase && Moves(w, s, t, p, held) && GuardsMatch(s.phase, s.held)
    ensures GuardsMatch(s.phase[t := p], held)
  {
  }

  lemma {:induction false} MovesHandles(w: World, s: State, t: Task, p: Phase, held: map<LockId, Task>, made: set<Key>)
    requires LockInv(w, s) && t in w.jobs && Moves(w, s, t, p, held) && s.made <= made
    ensures s.phase[t := p].Keys == w.jobs.Keys
    ensures HandlesCurrent(s.phase[t := p], s.locks) && KeysSpelled(w, s.phase[t := p], made)
  {
    var phase := s.phase[t := p];
    forall u | u in phase && HasHandle(phase[u])
      ensures IsCurrent(s.locks, phase[u]) && IsSpelled(w, made, u, phase[u])
    {
      assert IsCurrent(s.locks, s.phase[u]) && IsSpelled(w, s.made, u, s.phase[u]);
    }
  }

  lemma {:induction false} StepLocks(w: World, s: State, t: Task, p: Phase, s': State)
    requires LockInv(w, s) && t in w.jobs && Moves(w, s, t, p, s'.held) && s'.phase == s.phase[t := p]
    requires s'.locks == s.locks && s'.nextId == s.nextId && s.made <= s'.made && DirsMade(w, s'.made, s'.late)
    ensures LockInv(w, s')
  {
    MovesGuards(w, s, t, p, s'.held);
    MovesHandles(w, s, t, p, s'.held, s'.made);
  }

  lemma {:induction false} DirMade(w: World, s: State, t: Task)
    requires DirsMade(w, s.made, s.late) && t in w.jobs && w.jobs[t].plan != []
    ensures DirsMade(w, s.made + {StoreOf(w, t)}, s.late)
  {
    assert Wanted(w, StoreOf(w, t));
  }

  lemma {:induction false} PerformLocks(w: World, s: State, t: Task)
    requires LockInv(w, s) && t in w.jobs && s.phase[t].Inside? && s.phase[t].done < |w.jobs[t].plan|
    ensures LockInv(w, Perform(w, s, t))
  {
    if !Writes(w, s, t) {
      ReadLocks(w, s, t, StoreAt(s.stores, StoreOf(w, t)));
    } else if StoreOf(w, t) !in s.made {
      MakeDirLocks(w, s, t);
    } else {
      CommitLocks(w, s, t, Written(StoreAt(s.stores, StoreOf(w, t)), NextWrite(w, s, t)));
    }
  }

  lemma {:induction false} ReadLocks(w: World, s: State, t: Task, contents: Store)
    requires LockInv(w, s) && t in w.jobs && s.phase[t].Inside?
    ensures LockInv(w, Read(s, t, contents))
  {
    StepLocks(w, s, t, s.phase[t].(read := Some(contents.learnings)), Read(s, t, contents));
  }

  lemma {:induction false} MakeDirLocks(w: World, s: State, t: Task)
    requires LockInv(w, s) && t in w.jobs && s.phase[t].Inside? && w.jobs[t].plan != []
    ensures LockInv(w, s.(made := s.made + {StoreOf(w, t)}))
  {
    DirMade(w, s, t);
    assert s.phase == s.phase[t := s.phase[t]];
    StepLocks(w, s, t, s.phase[t], s.(made := s.made + {StoreOf(w, t)}));
  }

  lemma {:induction false} CommitLocks(w: World, s: State, t: Task, contents: Store)
    requires LockInv(w, s) && t in w.jobs && s.phase[t].Inside?
    ensures LockInv(w, Commits(s, t, StoreOf(w, t), contents))
  {
    var p := s.phase[t];
    StepLocks(w, s, t, Inside(p.key, p.lock, p.done + 1, None), Commits(s, t, StoreOf(w, t), contents));
  }

  lemma {:induction false} AbandonLocks(w: World, s: State, t: Task)
    requires LockInv(w, s) && t in w.jobs && Writes(w, s, t)
    ensures LockInv(w, Abandoned(w, s, t))
  {
    var s' := Abandoned(w, s, t);
    StepLocks(w, s, t, s'.phase[t], s');
  }

  lemma {:induction false} LandLocks(w: World, s: State, t: Task)
    requires LockInv(w, s) && t in w.jobs && t in s.late
    ensures LockInv(w, Landed(s, t, StoreOf(w, t)))
  {
    var s' := Landed(s, t, StoreOf(w, t));
    DirMade(w, s, t);
    assert s'.phase == s.phase[t := s.phase[t]];
    StepLocks(w, s, t, s.phase[t], s');
  }

  /** Every step keeps the lock map, the guards and the directories in order. */
  lemma {:induction false} NextLocks(w: World, s: State, a: Action)
    requires LockInv(w, s) && Next(w, s, a).Some?
    ensures LockInv(w, Next(w, s, a).value)
  {
    var t := a.t;
    if a.TakeHandle? {
      MemLockLocks(w, s, t);
    } else if a.Work? {
      PerformLocks(w, s, t);
    } else if a.Abandon? {
      AbandonLocks(w, s, t);
    } else if a.Land? {
      LandLocks(w, s, t);
    } else {
      PlainLocks(w, s, a);
    }
  }

  lemma {:induction false} PlainLocks(w: World, s: State, a: Action)
    requires LockInv(w, s) && Next(w, s, a).Some?
    requires !a.TakeHandle? && !a.Work? && !a.Abandon? && !a.Land?
    ensures LockInv(w, Next(w, s, a).value)
  {
    var s' := Next(w, s, a).value;
    StepLocks(w, s, a.t, s'.phase[a.t], s');
  }

  // ----- who can be inside

  /** Two updates of one store look their lock up under one key: its directory is there from the start, or
      they spell it alike and canonically, or alike and neither makes it. */
  predicate Agree(w: World, t: Task, u: Task)
    requires t in w.jobs && u in w.jobs
  {
    || StoreOf(w, t) in w.existing
    || (w.jobs[t].path == w.jobs[u].path
        && (w.jobs[t].path == StoreOf(w, t) || (w.jobs[t].plan == [] && w.jobs[u].plan == [])))
  }

  ghost predicate Sheltered(w: World, store: Key) {
    forall t, u :: t in w.jobs && u in w.jobs && t != u && StoreOf(w, t) == store && StoreOf(w, u) == store ==>
      Agree(w, t, u)
  }

  /** The handles of a sheltered store are one lock. */
  lemma {:induction false} SameLock(w: World, s: State, t: Task, u: Task)
    requires LockInv(w, s) && t in w.jobs && u in w.jobs && t != u && StoreOf(w, t) == StoreOf(w, u)
    requires Sheltered(w, StoreOf(w, t)) && HasHandle(s.phase[t]) && HasHandle(s.phase[u])
    ensures s.phase[t].key == s.phase[u].key && s.phase[t].lock == s.phase[u].lock
  {
    var store := StoreOf(w, t);
    assert IsSpelled(w, s.made, t, s.phase[t]) && IsSpelled(w, s.made, u, s.phase[u]);
    assert IsCurrent(s.locks, s.phase[t]) && IsCurrent(s.locks, s.phase[u]);
    assert Agree(w, t, u);
    if store !in w.existing && w.jobs[t].path != store { NeverMade(w, s, t); }
  }

  lemma {:induction false} NeverMade(w: World, s: State, t: Task)
    requires t in w.jobs && Sheltered(w, StoreOf(w, t)) && DirsMade(w, s.made, s.late)
    requires StoreOf(w, t) !in w.existing && w.jobs[t].path != StoreOf(w, t) && w.jobs[t].plan == []
    ensures StoreOf(w, t) !in s.made
  {
    forall v | v in w.jobs && StoreOf(w, v) == StoreOf(w, t)
      ensures w.jobs[v].plan == []
    {
      if v != t { assert Agree(w, t, v); }
    }
  }

  /** Nobody else is inside a sheltered store. */
  lemma {:induction false} MutualExclusion(w: World, s: State, t: Task, u: Task)
    requires LockInv(w, s) && t in w.jobs && u in w.jobs && StoreOf(w, t) == StoreOf(w, u) &&
             Sheltered(w, StoreOf(w, t))
    ensures HasHandle(s.phase[t]) && HasHandle(s.phase[u]) ==> s.phase[t].lock == s.phase[u].lock
    ensures s.phase[t].Inside? && s.phase[u].Inside? ==> t == u
  {
    if t != u && HasHandle(s.phase[t]) && HasHandle(s.phase[u]) { SameLock(w, s, t, u); }
  }
}

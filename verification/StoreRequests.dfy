/** What posted memory requests ask for, and what becomes of the bank they post. */
module StoreRequests {
  import opened Text
  import opened LearningsFile
  import opened StoreLock
  import opened StoreFiles
  import opened StoreRuns

  datatype Update = Update(path: Path, req: Request)

  function JobsOf(updates: map<Task, Update>): map<Task, Job> {
    map t | t in updates :: Job(updates[t].path, Plan(updates[t].req))
  }

  // ----- the effects of one request

  /** A learning with a text of 1 to 10,000 characters without the white space around it. */
  predicate HasText(learning: LearningField) {
    learning.Object? && 1 <= |Trim(learning.text)| <= 10_000
  }

  /** Nothing that comes after the learning is done unless there is none, or it has a text. */
  predicate Proceeds(req: Request) {
    req.learning.Absent? || HasText(req.learning)
  }

  /** A posted bank is written before anything else and once, whatever the learning. */
  ghost predicate WritesBankFirst(req: Request, plan: seq<Effect>) {
    match req.bank
    case None => forall i :: 0 <= i < |plan| ==> !plan[i].WriteBank?
    case Some(text) => plan != [] && plan[0] == WriteBank(text) && forall i :: 1 <= i < |plan| ==> !plan[i].WriteBank?
  }

  /** A learning with a text is appended once. */
  ghost predicate AppendsLearning(req: Request, plan: seq<Effect>) {
    && (HasText(req.learning) <==> exists i :: 0 <= i < |plan| && plan[i].AppendLine?)
    && (forall i :: 0 <= i < |plan| && plan[i].AppendLine? ==>
       req.learning.Object? && plan[i].line == req.learning.line)
    && (forall i, j :: 0 <= i < j < |plan| ==> !(plan[i].AppendLine? && plan[j].AppendLine?))
  }

  /** A posted id is dropped once, at the end, unless the learning stopped the request. */
  ghost predicate DropsLast(req: Request, plan: seq<Effect>) {
    && (req.dropId.Some? && Proceeds(req) <==> exists i :: 0 <= i < |plan| && plan[i].DropId?)
    && (forall i :: 0 <= i < |plan| && plan[i].DropId? ==> i == |plan| - 1 && Some(plan[i].id) == req.dropId)
  }

  lemma {:induction false} BankOfPlan(req: Request)
    ensures WritesBankFirst(req, Plan(req))
  {
  }

  lemma {:induction false} PlanParts(req: Request)
    ensures var bank := if req.bank.Some? then [WriteBank(req.bank.value)] else [];
            var line := if HasText(req.learning) then [AppendLine(req.learning.line)] else [];
            var drop := if req.dropId.Some? && Proceeds(req) then [DropId(req.dropId.value)] else [];
            Plan(req) == bank + line + drop
  {
  }

  lemma {:induction false} LearningOfPlan(req: Request)
    ensures AppendsLearning(req, Plan(req))
  {
    PlanParts(req);
    if HasText(req.learning) {
      assert Plan(req)[if req.bank.Some? then 1 else 0].AppendLine?;
    }
  }

  lemma {:induction false} DropOfPlan(req: Request)
    ensures DropsLast(req, Plan(req))
  {
    PlanParts(req);
    if req.dropId.Some? && Proceeds(req) {
      assert Plan(req)[|Plan(req)| - 1].DropId?;
    }
  }

  lemma {:induction false} PlanIsWhole(req: Request)
    requires req.learning.Object? ==> IsLine(req.learning.line)
    ensures AppendsLines(Plan(req)) && Whole(Plan(req))
  {
  }

  /** Posted updates meet the conditions on plans, and do what they ask for: the bank first, then the learning,
      then the drop, each once; a learning without a proper text stops the request after the bank. */
  lemma {:induction false} RequestsAreJobs(w: World, updates: map<Task, Update>, t: Task)
    requires t in updates && w.jobs == JobsOf(updates)
    requires forall u :: u in updates && updates[u].req.learning.Object? ==> IsLine(updates[u].req.learning.line)
    ensures PlansAppendLines(w)
    ensures w.jobs[t].path == updates[t].path
    ensures WritesBankFirst(updates[t].req, w.jobs[t].plan)
    ensures AppendsLearning(updates[t].req, w.jobs[t].plan)
    ensures DropsLast(updates[t].req, w.jobs[t].plan)
  {
    forall u | u in w.jobs
      ensures AppendsLines(w.jobs[u].plan) && Whole(w.jobs[u].plan)
    {
      PlanIsWhole(updates[u].req);
    }
    BankOfPlan(updates[t].req);
    LearningOfPlan(updates[t].req);
    DropOfPlan(updates[t].req);
  }

  // ----- the bank

  /** The bank after these effects: the text of the last one that writes it, else what it was. */
  ghost predicate IsBankAfter(bank: string, es: seq<Effect>, bank': string) {
    if forall i :: 0 <= i < |es| ==> !es[i].WriteBank? then bank' == bank
    else exists i :: LastBankWrite(es, i, bank')
  }

  ghost predicate LastBankWrite(es: seq<Effect>, i: int, text: string) {
    0 <= i < |es| && es[i] == WriteBank(text) && forall j :: i < j < |es| ==> !es[j].WriteBank?
  }

  lemma {:induction false} ReplayedBank(idOf: string -> Option<string>, s: Store, es: seq<Effect>)
    ensures IsBankAfter(s.bank, es, Replay(idOf, s, es).bank)
  {
    if es != [] {
      var n := |es| - 1;
      ReplayedBank(idOf, s, es[..n]);
      if es[n].WriteBank? {
        assert LastBankWrite(es, n, es[n].text);
      } else if exists i :: 0 <= i < n && es[i].WriteBank? {
        var j :| 0 <= j < n && es[j].WriteBank?;
        assert es[..n][j].WriteBank?;
        var i :| LastBankWrite(es[..n], i, Replay(idOf, s, es[..n]).bank);
        assert LastBankWrite(es, i, Replay(idOf, s, es).bank);
      }
    }
  }

  /** In every run, where updates agree on a lock and nothing lands late, the bank is the last one that a logged
      turn wrote; a finished update that posts a bank has such a write, and if no turn has one the bank is as it
      was. */
  lemma {:induction false} BankIsLastWritten(w: World, schedule: seq<Action>, t: Task, text: string)
    requires t in w.jobs && Sheltered(w, StoreOf(w, t)) && NothingLands(w, schedule, StoreOf(w, t))
    ensures var s, store := Run(w, schedule), StoreOf(w, t);
            var es := AllEffects(w, LogAt(s.log, store));
            && s.phase.Keys == w.jobs.Keys
            && IsBankAfter(StoreAt(w.files, store).bank, es, StoreAt(s.stores, store).bank)
            && (s.phase[t] == Finished(true) && WriteBank(text) in w.jobs[t].plan ==> WriteBank(text) in es)
  {
    var s, store := Run(w, schedule), StoreOf(w, t);
    var log := LogAt(s.log, store);
    FilesHold(w, schedule, store);
    TurnsAreEffects(w, StoreAt(w.files, store), log);
    ReplayedBank(w.idOf, StoreAt(w.files, store), AllEffects(w, log));
    if s.phase[t] == Finished(true) {
      FinishedIsLogged(w, s, t);
      var i :| 0 <= i < |log| && log[i] == Commit(t, |w.jobs[t].plan|, "");
      assert Performed(w, log[i]) == w.jobs[t].plan;
      EffectsOfTurn(w, log, i);
    }
  }
}

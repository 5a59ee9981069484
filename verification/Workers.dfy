/** A worker (internal/worker/worker.go): claim, execute, report. It holds no
    state between tasks, and it decides nothing. */
module Workers {
  import opened Prelude
  import opened Names
  import opened Core
  import opened Tables
  import opened Invariants
  import opened Transactions
  import opened TaskSteps
  import opened Advancing
  import opened Behaviours
  import opened Agreement
  import opened LedgerFrames
  import opened Memory
  import opened TaskEngine
  import opened Executor
  import opened Engine

  /** The registry, as far as the ledger's guarantee depends on it. */
  function Classes(tools: Registry): Tools {
    map name | name in tools :: tools[name].class_
  }

  lemma ClaimedKeeps(s: State, id: TaskId, worker: string, ttl: int)
    requires InGoodOrder(s)
    ensures var t := ClaimTx(s, id, worker, s.clock, ttl).st; InGoodOrder(t) && Evolves(s, t)
  {
    hide Inv, Evolves, ClaimTx, NoEarlyAnswers;
    ClaimKeepsInv(s, id, worker, s.clock, ttl);
    ClaimKeepsLedger(s, id, worker, s.clock, ttl);
    SameAnswers(s, ClaimTx(s, id, worker, s.clock, ttl).st);
  }

  /** What a worker reports, the tables in which it does, those its report left,
      and what the engine did about it next. */
  datatype Report =
    | Silent
    | Completed(at: State, result: Json, mid: State, turns: seq<Turn>)
    | Failed(at: State, escalated: bool, mid: State, turns: seq<Turn>, swap: State)

  ghost function ReportDeeds(deeds: seq<Deed>, report: Report, t: State): seq<Deed> {
    match report
    case Silent => deeds
    case Completed(at, _, mid, turns) => TurnDeeds(Written(deeds, at, mid), turns)
    case Failed(at, _, mid, turns, swap) =>
      if turns != [] then TurnDeeds(Written(deeds, at, mid), turns) else Written(Written(deeds, at, mid), swap, t)
  }

  /** The report is of what came of the execution, under the token of the claim: a
      result is a completion, and only of what the ledger holds; an error is a
      failure, escalated exactly if the execution was. */
  ghost predicate Reports(tools: Registry, id: TaskId, token: int, delay: int, r: Execution, t: State, report: Report) {
    match r
    case Done(result) =>
      && report.Completed? && report.at == t && report.result == result
      && report.mid == CompleteTx(t, id, token, result, t.clock).st
      && Executed(Classes(tools), [t], id, result, 0)
    case NotDone(error) =>
      && report.Failed? && report.at == t && (report.escalated <==> error.Escalated?)
      && report.mid == FailTx(t, id, token, "tool failed", report.escalated, delay, t.clock).st
  }

  /** One delivery, worked on: the claim, others in between, one attempt under it,
      and its report. */
  datatype Work = Work(claim: Claim, begun: State, attempt: Attempt, ended: State, sent: bool, got: Execution,
                       report: Report)

  ghost predicate Worked(tools: Registry, id: TaskId, answer: Resolution, tool: ToolResult, lost: bool, delay: int,
                         claimed: State, w: Work) {
    && id in claimed.tasks && id in claimed.leases && w.claim == Claim.Claim(claimed.tasks[id], claimed.leases[id])
    && Evolves(claimed, w.begun)
    && Attempted(tools, id, w.claim.task, answer, tool, w.begun, w.attempt, w.ended, w.sent, w.got)
    && if lost then w.report.Silent? else Reports(tools, id, w.claim.lease.token, delay, w.got, w.ended, w.report)
  }

  ghost function WorkDeeds(deeds: seq<Deed>, tools: Registry, answer: Resolution, s: State, claimed: State, w: Work,
                           t: State): seq<Deed>
    requires w.claim.task.tool in tools && tools[w.claim.task.tool].class_.HasConsequence() ==>
               KeyOf(w.claim.task) in w.attempt.read.effects
  {
    ReportDeeds(AttemptDeeds(Written(deeds, s, claimed), tools, w.claim.task, answer, w.begun, w.attempt, w.ended,
                             w.sent), w.report, t)
  }

  /** The last third of execute: what came of the execution is reported. */
  method ReportOn(store: Store, cfg: Config, tools: Registry, id: TaskId, token: int, r: Execution, delay: int,
                  gen: nat -> TaskId, now: Time, passes: nat) returns (ghost report: Report)
    requires InGoodOrder(store.st) && cfg.maxAttempts >= 1
    requires r.Done? ==> Executed(Classes(tools), [store.st], id, r.result, 0)
    modifies store
    ensures InGoodOrder(store.st) && Evolves(old(store.st), store.st)
    ensures Reports(tools, id, token, delay, r, old(store.st), report)
    ensures store.deeds == ReportDeeds(old(store.deeds), report, store.st)
  {
    hide InGoodOrder, Evolves, CompleteTx, FailTx, Written, TurnDeeds, Executed;
    ghost var d := store.st;
    match r {
      case NotDone(error) =>
        ghost var mid, turns, read, swap;
        var err;
        err, mid, turns, read, swap :=
          ReportFailure(store, cfg, id, token, "tool failed", error == Escalated, delay, gen, now, passes);
        EvolvesTransitive(d, mid, store.st);
        report := Failed(d, error == Escalated, mid, turns, swap);
      case Done(value) =>
        ghost var mid, turns;
        var err;
        err, mid, turns := ReportComplete(store, cfg, id, token, value, gen, now, passes);
        EvolvesTransitive(d, mid, store.st);
        report := Completed(d, value, mid, turns);
    }
  }

  /** Everything one worker does with one delivery, which may be a duplicate, or
      of a task that does not exist. lost says that a heartbeat was refused while
      the tool ran: then nothing is reported. */
  method WorkOn(store: Store, cfg: Config, tools: Registry, id: TaskId, worker: string, answer: Resolution,
                tool: ToolResult,
                lost: bool, delay: int, gen: nat -> TaskId, now: Time, passes: nat)
    returns (claimed: bool, ghost mine: State, ghost w: Option<Work>)
    requires InGoodOrder(store.st) && cfg.maxAttempts >= 1
    modifies store
    ensures InGoodOrder(store.st) && Evolves(old(store.st), store.st)
    ensures claimed <==> ClaimTx(old(store.st), id, worker, old(store.st).clock, cfg.ttl).Commit?
    ensures claimed <==> w.Some?
    ensures !claimed ==> store.st == old(store.st) && store.deeds == old(store.deeds)
    ensures claimed ==>
              && mine == ClaimTx(old(store.st), id, worker, old(store.st).clock, cfg.ttl).st
              && Worked(tools, id, answer, tool, lost, delay, mine, w.value)
              && store.deeds == WorkDeeds(old(store.deeds), tools, answer, old(store.st), mine, w.value, store.st)
  {
    hide InGoodOrder, Inv, Evolves, NoEarlyAnswers, ClaimTx, CompleteTx, FailTx, KeyOf, CommittedWith, Attempted,
         AttemptDeeds, Written, TurnDeeds, Executed, Reports, ReportDeeds, MaySend, HandedOver, Sends;
    ghost var a := store.st;
    w := None;
    NothingWritten(store.deeds, a);
    ClaimedKeeps(a, id, worker, cfg.ttl);
    ClaimAborts(a, id, worker, a.clock, cfg.ttl);
    var claim, err := ClaimTask(store, id, worker, cfg.ttl);
    mine := store.st;
    if err.Some? { return false, mine, w; }
    claimed := true;
    Interfere(store);
    ghost var c := store.st;
    EvolvesTransitive(a, mine, c);
    TaskKeeps(mine, c, id);
    ghost var tried;
    var r, sent;
    r, sent, tried := Execute(store, tools, id, claim.task, answer, tool);
    ghost var d := store.st;
    EvolvesTransitive(a, c, d);
    w := Some(Work(claim, c, tried, d, sent, r, Silent));
    SilentDeeds(store.deeds, d);
    if lost { return; }
    if r.Done? { ExecutedTask(tools, id, mine, c, d, r.result); }
    ghost var report := ReportOn(store, cfg, tools, id, claim.lease.token, r, delay, gen, now, passes);
    w := Some(w.value.(report := report));
    EvolvesTransitive(a, d, store.st);
  }

  lemma SilentDeeds(deeds: seq<Deed>, t: State)
    ensures ReportDeeds(deeds, Silent, t) == deeds
  {
  }

  lemma ExecutedTask(tools: Registry, id: TaskId, mine: State, c: State, d: State, result: Json)
    requires id in mine.tasks && Evolves(mine, c) && Evolves(c, d)
    requires var task := mine.tasks[id];
             task.tool in tools &&
             (tools[task.tool].class_.HasConsequence() ==> CommittedWith(d, KeyOf(task), result))
    ensures Executed(Classes(tools), [d], id, result, 0)
  {
    hide KeyOf, CommittedWith, Evolves;
    TaskKeeps(mine, c, id);
    TaskKeeps(c, d, id);
    ClassOf(tools, mine.tasks[id].tool);
  }

  lemma ClassOf(tools: Registry, tool: string)
    ensures tool in tools ==> tool in Classes(tools) && Classes(tools)[tool] == tools[tool].class_
  {
  }

  lemma ClaimAborts(s: State, id: TaskId, worker: string, now: Time, ttl: int)
    ensures ClaimTx(s, id, worker, now, ttl).Abort? ==> ClaimTx(s, id, worker, now, ttl).st == s
  {
    hide Log;
  }
}

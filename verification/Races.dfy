/** What the proofs about races share: how the tasks change at a step, and identifiers that nobody uses yet. */
module Races {
  import opened Wrappers
  import opened Ledger
  import opened Server
  import opened ServerInvariant

  // ---------- Steps ----------

  /** The first program counter of a claim or a request. */
  predicate JustStarted(task: Task) {
    task.BarkObserve? || task.ArkadeCheck? || task.NameObserve? || task.CreateCheckActive? || task.VerifyBark?
  }

  /** Tasks stay as they are, disappear, or start. */
  ghost predicate TasksAtRest(s: State, s': State) {
    forall tid :: tid in s'.tasks ==> (tid in s.tasks && s'.tasks[tid] == s.tasks[tid]) || JustStarted(s'.tasks[tid])
  }

  ghost predicate RowsStay(t: Table<Invoice>, t': Table<Invoice>) {
    forall id :: id in t.rows ==> id in t'.rows && t'.rows[id] == t.rows[id]
  }

  lemma OtherStepsRest(cfg: Config, s: State, step: Step)
    requires Can(cfg, s, step) && !step.TaskStep?
    ensures TasksAtRest(s, Do(cfg, s, step))
  {
  }

  lemma PublisherKeepsRows(cfg: Config, s: State, move: PublisherStep)
    requires CanPublish(cfg, s, move)
    ensures var s' := Publish(cfg, s, move);
      s'.db.invoices == s.db.invoices && s'.db.names == s.db.names && s'.how == s.how
  {
  }

  lemma OtherStepsKeepNames(cfg: Config, s: State, step: Step)
    requires Can(cfg, s, step) && !step.TaskStep?
    ensures var s' := Do(cfg, s, step); s'.how == s.how && s'.db.names == s.db.names
  {
    if step.PublisherMoves? {
      PublisherKeepsRows(cfg, s, step.move);
    }
  }

  lemma OtherStepsKeepRows(cfg: Config, s: State, step: Step)
    requires Can(cfg, s, step) && !step.TaskStep? && Keyed(s.db.invoices)
    ensures RowsStay(s.db.invoices, Do(cfg, s, step).db.invoices)
  {
    if step.IssueInvoice? {
      IssueKeepsRows(s.db, step.kind, step.row, step.request);
    } else if step.PublisherMoves? {
      PublisherKeepsRows(cfg, s, step.move);
    }
  }

  lemma IssueKeepsRows(db: Db, kind: Kind, row: Invoice, request: Option<string>)
    requires Keyed(db.invoices) && !kind.NameRow? && row.id == TableOf(db, kind).next
    ensures RowsStay(db.invoices, Issue(db, kind, row, request).invoices)
  {
    assert db.invoices.next !in db.invoices.rows;
  }

  /** Every other task stays as it is, and this one becomes what its move says. */
  lemma TaskStepMoves(cfg: Config, s: State, tid: nat, reply: Reply)
    requires CanAdvance(cfg, s, tid, reply)
    ensures var move, s' := Advance(cfg, s, tid, reply), Do(cfg, s, TaskStep(tid, reply));
      && (forall other :: other in s'.tasks ==>
            if other == tid then move.next == Some(s'.tasks[tid])
              else other in s.tasks && s'.tasks[other] == s.tasks[other])
      && s'.db == Apply(s, move.effect).db && s'.how == Apply(s, move.effect).how
  {
    EffectLeavesTasks(s, Advance(cfg, s, tid, reply).effect);
  }

  lemma EffectLeavesTasks(s: State, effect: Effect)
    ensures Apply(s, effect).tasks == s.tasks
  {
  }

  /** What a race between tasks may rely on. */
  ghost predicate Sound(cfg: Config, s: State) {
    && TasksOk(cfg, s) && WalletOk(s.wallet, s.now)
    && Keyed(s.db.invoices) && InvoicesOk(cfg, s.db.arkade, ArkadeRow) && CustomKeyed(s.db.names.invoices)
  }

  lemma InvIsSound(cfg: Config, s: State)
    requires Inv(cfg, s)
    ensures Sound(cfg, s)
  {
  }

  // ---------- Unused identifiers ----------

  lemma {:induction false} BoundOf(used: set<nat>) returns (bound: nat)
    ensures forall n :: n in used ==> n < bound
    decreases |used|
  {
    if used == {} {
      bound := 0;
    } else {
      var n :| n in used;
      var rest := BoundOf(used - {n});
      bound := if n < rest then rest else n + 1;
      assert forall other :: other in used ==> other == n || other in used - {n};
    }
  }

  lemma UnusedTask(s: State) returns (tid: nat)
    ensures tid !in s.tasks
  {
    tid := BoundOf(s.tasks.Keys);
  }

  lemma {:induction false} LengthBound(used: set<string>) returns (bound: nat)
    ensures forall text :: text in used ==> |text| < bound
    decreases |used|
  {
    if used == {} {
      bound := 0;
    } else {
      var text :| text in used;
      var rest := LengthBound(used - {text});
      bound := if |text| < rest then rest else |text| + 1;
    }
  }

  lemma UnusedString(used: set<string>) returns (text: string)
    ensures text !in used
  {
    var bound := LengthBound(used);
    text := seq(bound, _ => 'x');
  }
}

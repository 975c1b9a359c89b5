/**
 Arkade swaps claimed in vain. A claim takes the swap's preimage from the client and settles the row in a later step,
 while another claim may cancel the row on its expiry. For every pending Arkade invoice of every reachable state, this
 file says exactly when some run ends with the swap claimed and the invoice cancelled.
 */
module ArkadeClaims {
  import opened Ledger
  import opened Server
  import opened ServerInvariant
  import opened ServerProof
  import opened Guarantees
  import opened Scenarios
  import opened Races
  import opened StaleClaims

  function SwapOf(row: Invoice): string {
    if row.backend.Arkade? then row.backend.swapId else ""
  }

  ghost predicate SwapClaimed(s: State, swapId: string) {
    exists preimage :: (swapId, preimage) in s.wallet.claimed
  }

  /** The swap of this invoice was claimed, and the invoice is cancelled. */
  ghost predicate WastesClaim(s: State, id: Id) {
    && id in s.db.arkade.rows && s.db.arkade.rows[id].state.Cancelled?
    && SwapClaimed(s, SwapOf(s.db.arkade.rows[id]))
  }

  ghost predicate CanWasteClaim(cfg: Config, s: State, id: Id) {
    exists s' :: Follows(cfg, s, s') && WastesClaim(s', id)
  }

  predicate Claims(task: Task, id: Id) { task.ArkadeClaim? && task.row.id == id }

  ghost predicate SomeClaims(s: State, id: Id) {
    exists tid :: tid in s.tasks && Claims(s.tasks[tid], id)
  }

  /** The swap is claimed, or being claimed, or the invoice has not expired, so that a claim can still start. */
  ghost predicate ClaimAtRisk(s: State, id: Id)
    requires id in s.db.arkade.rows
  {
    var row := s.db.arkade.rows[id];
    !HasExpired(row, s.now) || SwapClaimed(s, SwapOf(row)) || SomeClaims(s, id)
  }

  // ---------- The swap stays unclaimed ----------

  ghost predicate NeverClaimed(s: State, id: Id) {
    id in s.db.arkade.rows && !ClaimAtRisk(s, id)
  }

  lemma SameSwap(s: State, s': State, id: Id)
    requires Evolves(s, s') && id in s.db.arkade.rows
    ensures id in s'.db.arkade.rows && SwapOf(s'.db.arkade.rows[id]) == SwapOf(s.db.arkade.rows[id])
    ensures HasExpired(s.db.arkade.rows[id], s.now) ==> HasExpired(s'.db.arkade.rows[id], s'.now)
  {
  }

  lemma RestKeepsUnclaimed(s: State, s': State, id: Id)
    requires NeverClaimed(s, id) && Evolves(s, s') && TasksAtRest(s, s') && s'.wallet.claimed == s.wallet.claimed
    ensures NeverClaimed(s', id)
  {
    SameSwap(s, s', id);
  }

  lemma OtherStepsClaimNothing(cfg: Config, s: State, step: Step)
    requires Can(cfg, s, step) && !step.TaskStep?
    ensures Do(cfg, s, step).wallet.claimed == s.wallet.claimed
  {
  }

  /** An expired row is not claimed any more. */
  lemma ClaimComesFrom(cfg: Config, s: State, tid: nat, reply: Reply, id: Id)
    requires CanAdvance(cfg, s, tid, reply) && TaskOk(cfg, s, s.tasks[tid])
    requires id in s.db.arkade.rows && HasExpired(s.db.arkade.rows[id], s.now)
    ensures var next := Advance(cfg, s, tid, reply).next; next.Some? ==> !Claims(next.value, id)
  {
  }

  lemma ClaimsOwnSwap(cfg: Config, s: State, tid: nat, reply: Reply)
    requires CanAdvance(cfg, s, tid, reply)
    ensures var effect := Advance(cfg, s, tid, reply).effect;
      effect.ClaimSwap? ==> s.tasks[tid].ArkadeClaim? && effect.swapId == SwapOf(s.tasks[tid].row)
  {
  }

  lemma ClaimHasClone(cfg: Config, s: State, task: Task)
    requires TaskOk(cfg, s, task) && task.ArkadeClaim?
    ensures CloneOf(s.db.arkade, task.row)
  {
  }

  /** Other rows have other swaps. */
  lemma OwnSwapUnclaimed(cfg: Config, s: State, tid: nat, reply: Reply, id: Id)
    requires InvoicesOk(cfg, s.db.arkade, ArkadeRow) && CanAdvance(cfg, s, tid, reply)
    requires s.tasks[tid].ArkadeClaim? ==> CloneOf(s.db.arkade, s.tasks[tid].row)
    requires id in s.db.arkade.rows && !Claims(s.tasks[tid], id)
    ensures var effect := Advance(cfg, s, tid, reply).effect;
      effect.ClaimSwap? ==> effect.swapId != SwapOf(s.db.arkade.rows[id])
  {
    ClaimsOwnSwap(cfg, s, tid, reply);
    if s.tasks[tid].ArkadeClaim? {
      OtherSwap(cfg, s.db.arkade, s.tasks[tid].row, id);
    }
  }

  lemma OtherSwap(cfg: Config, t: Table<Invoice>, row: Invoice, id: Id)
    requires InvoicesOk(cfg, t, ArkadeRow) && CloneOf(t, row) && id in t.rows && row.id != id
    ensures SwapOf(row) != SwapOf(t.rows[id])
  {
    assert t.rows[row.id].backend == row.backend && row.backend.Arkade? && t.rows[id].backend.Arkade?;
  }

  lemma EffectClaims(s: State, effect: Effect, swapId: string)
    requires !SwapClaimed(s, swapId) && (effect.ClaimSwap? ==> effect.swapId != swapId)
    ensures !SwapClaimed(Apply(s, effect), swapId)
  {
    match effect
    case ClaimSwap(_, _) =>
    case _ => assert Apply(s, effect).wallet.claimed == s.wallet.claimed;
  }

  lemma TaskStepWallet(cfg: Config, s: State, tid: nat, reply: Reply)
    requires CanAdvance(cfg, s, tid, reply)
    ensures Do(cfg, s, TaskStep(tid, reply)).wallet == Apply(s, Advance(cfg, s, tid, reply).effect).wallet
  {
  }

  lemma TaskStepLeavesSwap(cfg: Config, s: State, tid: nat, reply: Reply, id: Id)
    requires Sound(cfg, s) && CanAdvance(cfg, s, tid, reply) && NeverClaimed(s, id)
    ensures !SwapClaimed(Do(cfg, s, TaskStep(tid, reply)), SwapOf(s.db.arkade.rows[id]))
  {
    assert TaskOk(cfg, s, s.tasks[tid]) && !Claims(s.tasks[tid], id);
    if s.tasks[tid].ArkadeClaim? {
      ClaimHasClone(cfg, s, s.tasks[tid]);
    }
    TaskStepWallet(cfg, s, tid, reply);
    OwnSwapUnclaimed(cfg, s, tid, reply, id);
    EffectClaims(s, Advance(cfg, s, tid, reply).effect, SwapOf(s.db.arkade.rows[id]));
  }

  lemma TaskStepKeepsUnclaimed(cfg: Config, s: State, tid: nat, reply: Reply, id: Id)
    requires Sound(cfg, s) && CanAdvance(cfg, s, tid, reply)
    requires NeverClaimed(s, id) && Evolves(s, Do(cfg, s, TaskStep(tid, reply)))
    ensures NeverClaimed(Do(cfg, s, TaskStep(tid, reply)), id)
  {
    assert TaskOk(cfg, s, s.tasks[tid]);
    TaskStepMoves(cfg, s, tid, reply);
    TaskStepLeavesSwap(cfg, s, tid, reply, id);
    SameSwap(s, Do(cfg, s, TaskStep(tid, reply)), id);
    ClaimComesFrom(cfg, s, tid, reply, id);
  }

  lemma StepKeepsUnclaimed(cfg: Config, s: State, step: Step, id: Id)
    requires Sound(cfg, s) && Can(cfg, s, step) && Evolves(s, Do(cfg, s, step)) && NeverClaimed(s, id)
    ensures NeverClaimed(Do(cfg, s, step), id)
  {
    if step.TaskStep? {
      TaskStepKeepsUnclaimed(cfg, s, step.tid, step.reply, id);
    } else {
      OtherStepsRest(cfg, s, step);
      OtherStepsClaimNothing(cfg, s, step);
      RestKeepsUnclaimed(s, Do(cfg, s, step), id);
    }
  }

  lemma {:induction false} RunKeepsUnclaimed(cfg: Config, s: State, steps: seq<Step>, id: Id)
    requires Inv(cfg, s) && Legal(cfg, s, steps) && NeverClaimed(s, id)
    ensures NeverClaimed(Run(cfg, s, steps), id)
    decreases |steps|
  {
    if steps != [] {
      StepOk(cfg, s, steps[0]);
      InvIsSound(cfg, s);
      StepKeepsUnclaimed(cfg, s, steps[0], id);
      RunKeepsUnclaimed(cfg, Do(cfg, s, steps[0]), steps[1..], id);
    }
  }

  lemma WastedOnlyAtRisk(cfg: Config, s: State, s': State, id: Id)
    requires Reachable(cfg, s) && Follows(cfg, s, s') && id in s.db.arkade.rows && WastesClaim(s', id)
    ensures ClaimAtRisk(s, id)
  {
    if !ClaimAtRisk(s, id) {
      ReachableInv(cfg, s);
      var steps: seq<Step> :| Legal(cfg, s, steps) && Run(cfg, s, steps) == s';
      RunKeepsUnclaimed(cfg, s, steps, id);
      assert false;
    }
  }

  // ---------- The claim is wasted ----------

  /** The client hands out the preimage, and the claim goes no further for now. */
  lemma ClaimYields(cfg: Config, start: State, s: State, tid: nat, id: Id) returns (s': State)
    requires Follows(cfg, start, s) && tid in s.tasks && Claims(s.tasks[tid], id) && TaskOk(cfg, s, s.tasks[tid])
    requires id in s.db.arkade.rows
    ensures Follows(cfg, start, s') && s'.db == s.db && SwapClaimed(s', SwapOf(s.db.arkade.rows[id]))
  {
    s' := TaskSteps(cfg, start, s, tid, Preimage("preimage"));
    assert (SwapOf(s.db.arkade.rows[id]), "preimage") in s'.wallet.claimed;
  }

  lemma ClaimStarts(cfg: Config, s: State, tid: nat, id: Id) returns (s': State)
    requires tid !in s.tasks && IsPending(s.db.arkade, id) && s.db.arkade.rows[id].id == id
      && !HasExpired(s.db.arkade.rows[id], s.now)
    ensures Follows(cfg, s, s') && s'.db == s.db && s'.wallet == s.wallet && tid in s'.tasks
      && Claims(s'.tasks[tid], id)
  {
    FollowsItself(cfg, s);
    FollowsStep(cfg, s, s, StartArkade(tid, id));
    s' := TaskSteps(cfg, s, Do(cfg, s, StartArkade(tid, id)), tid, NoReply);
  }

  lemma SwapGetsClaimed(cfg: Config, s: State, id: Id) returns (s': State)
    requires Reachable(cfg, s) && IsPending(s.db.arkade, id) && ClaimAtRisk(s, id)
    ensures Follows(cfg, s, s') && s'.db == s.db && SwapClaimed(s', SwapOf(s.db.arkade.rows[id]))
  {
    FollowsItself(cfg, s);
    if SwapClaimed(s, SwapOf(s.db.arkade.rows[id])) {
      s' := s;
    } else {
      var tid: nat;
      if SomeClaims(s, id) {
        tid :| tid in s.tasks && Claims(s.tasks[tid], id);
        s' := s;
      } else {
        tid := UnusedTask(s);
        ReachableInvoices(cfg, s, ArkadeRow);
        s' := ClaimStarts(cfg, s, tid, id);
        ReachableOnwards(cfg, s, s');
      }
      ReachableTasks(cfg, s');
      s' := ClaimYields(cfg, s, s', tid, id);
    }
  }

  /** Another claim starts, waits for the expiry, and cancels. */
  lemma AnotherCancels(cfg: Config, start: State, s: State, tid: nat, id: Id) returns (s': State)
    requires Follows(cfg, start, s) && tid !in s.tasks && IsPending(s.db.arkade, id) && s.db.arkade.rows[id].id == id
    ensures Follows(cfg, start, s') && id in s'.db.arkade.rows && s'.db.arkade.rows[id].state.Cancelled?
    ensures s'.wallet == s.wallet && SwapOf(s'.db.arkade.rows[id]) == SwapOf(s.db.arkade.rows[id])
  {
    var row := s.db.arkade.rows[id];
    s' := CheckAfterExpiry(cfg, start, s, tid, id);
    s' := ArkadeCancelsAlone(cfg, start, s', tid, row, s'.tasks[tid].checkedAt);
  }

  lemma CheckAfterExpiry(cfg: Config, start: State, s: State, tid: nat, id: Id) returns (s': State)
    requires Follows(cfg, start, s) && tid !in s.tasks && IsPending(s.db.arkade, id)
    ensures Follows(cfg, start, s') && s'.db == s.db && s'.wallet == s.wallet
    ensures tid in s'.tasks && s'.tasks[tid].ArkadeCancel? && s'.tasks[tid].row == s.db.arkade.rows[id]
  {
    var later := Later(s.now, s.db.arkade.rows[id].bolt11.expiry);
    FollowsStep(cfg, start, s, StartArkade(tid, id));
    var s1 := Do(cfg, s, StartArkade(tid, id));
    FollowsStep(cfg, start, s1, Tick(later));
    s' := TaskSteps(cfg, start, Do(cfg, s1, Tick(later)), tid, NoReply);
  }

  lemma AtRiskIsWasted(cfg: Config, s: State, id: Id)
    requires Reachable(cfg, s) && IsPending(s.db.arkade, id) && ClaimAtRisk(s, id)
    ensures CanWasteClaim(cfg, s, id)
  {
    ReachableInvoices(cfg, s, ArkadeRow);
    var s1 := SwapGetsClaimed(cfg, s, id);
    var tid := UnusedTask(s1);
    var s2 := AnotherCancels(cfg, s, s1, tid, id);
    assert WastesClaim(s2, id);
  }

  /**
   Exactly when a pending Arkade invoice can still end cancelled with its swap claimed: while it has not expired, or
   once its swap is claimed, or while a claim of it is in flight.
   */
  lemma WastedClaimIff(cfg: Config, s: State, id: Id)
    requires Reachable(cfg, s) && IsPending(s.db.arkade, id)
    ensures CanWasteClaim(cfg, s, id) <==> ClaimAtRisk(s, id)
  {
    if CanWasteClaim(cfg, s, id) {
      var s' :| Follows(cfg, s, s') && WastesClaim(s', id);
      WastedOnlyAtRisk(cfg, s, s', id);
    }
    if ClaimAtRisk(s, id) {
      AtRiskIsWasted(cfg, s, id);
    }
  }
}

/**
 Payments lost to stale observations. A claim decides on what it saw of barkd, and barkd may have accepted a payment
 since. For every pending row of every reachable state, this file says exactly when some run loses a payment that was
 accepted in time.
 */
module StaleClaims {
  import opened Wrappers
  import opened Barkd
  import opened Ledger
  import opened Server
  import opened ServerInvariant
  import opened ServerProof
  import opened Guarantees
  import opened Scenarios
  import opened Races

  // ---------- Bark invoices ----------

  /** The invoice is cancelled although barkd accepted a payment for it no later than its expiry. */
  ghost predicate LosesPayment(s: State, id: Id) {
    && id in s.db.invoices.rows && s.db.invoices.rows[id].state.Cancelled?
    && AcceptedInTime(s, PaymentHashOf(s.db.invoices.rows[id]), s.db.invoices.rows[id].bolt11)
  }

  ghost predicate CanLosePayment(cfg: Config, s: State, id: Id) {
    exists s' :: Follows(cfg, s, s') && LosesPayment(s', id)
  }

  /** A claim on this row that saw no payment, and has not looked again since. */
  predicate HoldsUnpaidSight(task: Task, id: Id) {
    (task.BarkApply? && task.row.id == id && Unpaid(task.seen)) || (task.BarkCancel? && task.row.id == id)
  }

  ghost predicate StaleSight(s: State, id: Id) {
    exists tid :: tid in s.tasks && HoldsUnpaidSight(s.tasks[tid], id)
  }

  ghost predicate Accepted(s: State, id: Id)
    requires id in s.db.invoices.rows
  {
    PaymentHashOf(s.db.invoices.rows[id]) in s.wallet.acceptedAt
  }

  /** Once barkd has accepted, only a claim that looked before can cancel; before that, any claim still to come may. */
  ghost predicate PaymentAtRisk(s: State, id: Id)
    requires id in s.db.invoices.rows
  {
    var row := s.db.invoices.rows[id];
    if Accepted(s, id) then AcceptedInTime(s, PaymentHashOf(row), row.bolt11) && StaleSight(s, id)
      else s.now <= row.bolt11.expiry
  }

  // ---------- The invoice cannot be lost ----------

  /** The payment is accepted, and every claim in flight either knows it or has not looked yet. */
  ghost predicate PaymentSafe(s: State, id: Id) {
    && id in s.db.invoices.rows && !s.db.invoices.rows[id].state.Cancelled?
    && Accepted(s, id) && !StaleSight(s, id)
  }

  lemma AcceptedStays(s: State, s': State, id: Id)
    requires Evolves(s, s') && id in s.db.invoices.rows && Accepted(s, id)
    ensures id in s'.db.invoices.rows && Accepted(s', id)
  {
  }

  /** An unpaid sight comes from an earlier one, or from looking while nothing is accepted. */
  lemma SightComesFrom(cfg: Config, s: State, tid: nat, reply: Reply, id: Id)
    requires WalletOk(s.wallet, s.now) && CanAdvance(cfg, s, tid, reply) && TaskOk(cfg, s, s.tasks[tid])
    requires id in s.db.invoices.rows && Accepted(s, id)
    requires var next := Advance(cfg, s, tid, reply).next; next.Some? && HoldsUnpaidSight(next.value, id)
    ensures HoldsUnpaidSight(s.tasks[tid], id)
  {
  }

  lemma OnlySightCancels(cfg: Config, s: State, tid: nat, reply: Reply, id: Id)
    requires CanAdvance(cfg, s, tid, reply) && id in s.db.invoices.rows && !s.db.invoices.rows[id].state.Cancelled?
    requires !HoldsUnpaidSight(s.tasks[tid], id)
    ensures var after := Apply(s, Advance(cfg, s, tid, reply).effect).db.invoices;
      id in after.rows && !after.rows[id].state.Cancelled?
  {
    if Cancels(Advance(cfg, s, tid, reply).effect, id) {
      CancelsOnSight(cfg, s, tid, reply, id);
      assert false;
    }
    EffectKeepsUncancelled(s, Advance(cfg, s, tid, reply).effect, id);
  }

  predicate Cancels(effect: Effect, id: Id) { effect.CancelRow? && effect.kind.BarkRow? && effect.id == id }

  lemma CancelsOnSight(cfg: Config, s: State, tid: nat, reply: Reply, id: Id)
    requires CanAdvance(cfg, s, tid, reply) && Cancels(Advance(cfg, s, tid, reply).effect, id)
    ensures HoldsUnpaidSight(s.tasks[tid], id)
  {
  }

  lemma EffectKeepsUncancelled(s: State, effect: Effect, id: Id)
    requires !Cancels(effect, id) && id in s.db.invoices.rows && !s.db.invoices.rows[id].state.Cancelled?
    ensures var after := Apply(s, effect).db.invoices; id in after.rows && !after.rows[id].state.Cancelled?
  {
    match effect
    case SettleRow(kind, other, preimage) =>
    case CancelRow(kind, other, _) =>
    case _ => assert Apply(s, effect).db.invoices == s.db.invoices;
  }

  lemma TaskStepKeepsSafe(cfg: Config, s: State, tid: nat, reply: Reply, id: Id)
    requires TasksOk(cfg, s) && WalletOk(s.wallet, s.now) && CanAdvance(cfg, s, tid, reply)
    requires PaymentSafe(s, id) && Evolves(s, Do(cfg, s, TaskStep(tid, reply)))
    ensures PaymentSafe(Do(cfg, s, TaskStep(tid, reply)), id)
  {
    var s' := Do(cfg, s, TaskStep(tid, reply));
    TaskStepMoves(cfg, s, tid, reply);
    AcceptedStays(s, s', id);
    assert TaskOk(cfg, s, s.tasks[tid]) && !HoldsUnpaidSight(s.tasks[tid], id);
    OnlySightCancels(cfg, s, tid, reply, id);
    forall other | other in s'.tasks ensures !HoldsUnpaidSight(s'.tasks[other], id) {
      if other == tid && HoldsUnpaidSight(s'.tasks[tid], id) {
        SightComesFrom(cfg, s, tid, reply, id);
      }
    }
  }

  lemma RestKeepsSafe(s: State, s': State, id: Id)
    requires PaymentSafe(s, id) && Evolves(s, s') && TasksAtRest(s, s') && RowsStay(s.db.invoices, s'.db.invoices)
    ensures PaymentSafe(s', id)
  {
    AcceptedStays(s, s', id);
  }

  lemma StepKeepsSafe(cfg: Config, s: State, step: Step, id: Id)
    requires Sound(cfg, s) && Can(cfg, s, step) && Evolves(s, Do(cfg, s, step)) && PaymentSafe(s, id)
    ensures PaymentSafe(Do(cfg, s, step), id)
  {
    if step.TaskStep? {
      TaskStepKeepsSafe(cfg, s, step.tid, step.reply, id);
    } else {
      OtherStepsRest(cfg, s, step);
      OtherStepsKeepRows(cfg, s, step);
      RestKeepsSafe(s, Do(cfg, s, step), id);
    }
  }

  lemma {:induction false} RunKeepsSafe(cfg: Config, s: State, steps: seq<Step>, id: Id)
    requires Inv(cfg, s) && Legal(cfg, s, steps) && PaymentSafe(s, id)
    ensures PaymentSafe(Run(cfg, s, steps), id)
    decreases |steps|
  {
    if steps != [] {
      StepOk(cfg, s, steps[0]);
      InvIsSound(cfg, s);
      StepKeepsSafe(cfg, s, steps[0], id);
      RunKeepsSafe(cfg, Do(cfg, s, steps[0]), steps[1..], id);
    }
  }

  /** In a later state the payment is accepted in time only if it is now, or still can be. */
  lemma LaterAcceptance(s: State, s': State, id: Id)
    requires Evolves(s, s') && id in s.db.invoices.rows && id in s'.db.invoices.rows
    requires var row' := s'.db.invoices.rows[id]; AcceptedInTime(s', PaymentHashOf(row'), row'.bolt11)
    ensures var row := s.db.invoices.rows[id];
      if Accepted(s, id) then AcceptedInTime(s, PaymentHashOf(row), row.bolt11) else s.now <= row.bolt11.expiry
  {
  }

  lemma LostOnlyAtRisk(cfg: Config, s: State, s': State, id: Id)
    requires Reachable(cfg, s) && Follows(cfg, s, s') && IsPending(s.db.invoices, id) && LosesPayment(s', id)
    ensures PaymentAtRisk(s, id)
  {
    FollowsEvolves(cfg, s, s');
    LaterAcceptance(s, s', id);
    if Accepted(s, id) && !StaleSight(s, id) {
      ReachableInv(cfg, s);
      var steps: seq<Step> :| Legal(cfg, s, steps) && Run(cfg, s, steps) == s';
      RunKeepsSafe(cfg, s, steps, id);
      assert false;
    }
  }

  // ---------- The invoice can be lost ----------

  function Later(now: Time, expiry: Time): Time { if now <= expiry then expiry + 1 else now }

  /** A claim that holds on to its unpaid sight until the invoice has expired. */
  lemma SightLosesPayment(cfg: Config, start: State, s: State, tid: nat, id: Id) returns (s': State)
    requires Follows(cfg, start, s) && tid in s.tasks && TaskOk(cfg, s, s.tasks[tid])
      && HoldsUnpaidSight(s.tasks[tid], id)
    requires IsPending(s.db.invoices, id)
      && AcceptedInTime(s, PaymentHashOf(s.db.invoices.rows[id]), s.db.invoices.rows[id].bolt11)
    ensures Follows(cfg, start, s') && LosesPayment(s', id)
  {
    var task := s.tasks[tid];
    if task.BarkCancel? {
      s' := BarkCancelsAlone(cfg, start, s, tid, task.row, task.why);
    } else {
      s' := SightExpires(cfg, start, s, tid, id);
      s' := BarkCancelsAlone(cfg, start, s', tid, task.row, s'.tasks[tid].why);
    }
  }

  lemma SightExpires(cfg: Config, start: State, s: State, tid: nat, id: Id) returns (s': State)
    requires Follows(cfg, start, s) && tid in s.tasks && s.tasks[tid].BarkApply? && Unpaid(s.tasks[tid].seen)
    ensures Follows(cfg, start, s') && s'.db == s.db && s'.wallet == s.wallet
    ensures tid in s'.tasks && s'.tasks[tid].BarkCancel? && s'.tasks[tid].row == s.tasks[tid].row
  {
    var later := Later(s.now, s.tasks[tid].row.bolt11.expiry);
    FollowsStep(cfg, start, s, Tick(later));
    s' := TaskSteps(cfg, start, Do(cfg, s, Tick(later)), tid, NoReply);
  }

  lemma PaymentAccepted(cfg: Config, start: State, s: State, hash: string) returns (s': State)
    requires Follows(cfg, start, s) && hash !in s.wallet.acceptedAt
    ensures Follows(cfg, start, s') && s'.tasks == s.tasks && s'.db == s.db && s'.now == s.now
    ensures s'.wallet.history == s.wallet.history && hash in s'.wallet.acceptedAt && s'.wallet.acceptedAt[hash] == s.now
  {
    var accepted := Receive(hash, "payment-accepted", None);
    FollowsStep(cfg, start, s, SetReceive(accepted));
    s' := Do(cfg, s, SetReceive(accepted));
  }

  /** A claim starts now and sees nothing. */
  lemma ClaimLooksNow(cfg: Config, s: State, tid: nat, id: Id) returns (s': State)
    requires tid !in s.tasks && IsPending(s.db.invoices, id) && WalletOk(s.wallet, s.now) && !Accepted(s, id)
      && Keyed(s.db.invoices)
    ensures Follows(cfg, s, s') && s'.db == s.db && s'.wallet == s.wallet && s'.now == s.now
    ensures tid in s'.tasks && s'.tasks[tid].BarkApply? && HoldsUnpaidSight(s'.tasks[tid], id)
  {
    FollowsItself(cfg, s);
    FollowsStep(cfg, s, s, StartBark(tid, id));
    s' := TaskSteps(cfg, s, Do(cfg, s, StartBark(tid, id)), tid, NoReply);
  }

  lemma AtRiskIsLost(cfg: Config, s: State, id: Id)
    requires Reachable(cfg, s) && IsPending(s.db.invoices, id) && PaymentAtRisk(s, id)
    ensures CanLosePayment(cfg, s, id)
  {
    if Accepted(s, id) {
      var tid :| tid in s.tasks && HoldsUnpaidSight(s.tasks[tid], id);
      ReachableTasks(cfg, s);
      FollowsItself(cfg, s);
      var s1 := SightLosesPayment(cfg, s, s, tid, id);
    } else {
      var tid := UnusedTask(s);
      ReachableWallet(cfg, s);
      ReachableInvoices(cfg, s, BarkRow);
      var s1 := ClaimLooksNow(cfg, s, tid, id);
      var s2 := PaymentAccepted(cfg, s, s1, PaymentHashOf(s.db.invoices.rows[id]));
      ReachableOnwards(cfg, s, s2);
      ReachableTasks(cfg, s2);
      var s3 := SightLosesPayment(cfg, s, s2, tid, id);
    }
  }

  /**
   Exactly when a pending invoice can still lose a payment that was accepted in time: while a claim holds a sight older
   than the acceptance; or, with nothing accepted yet, while the invoice can still be paid in time.
   */
  lemma StaleCancellationIff(cfg: Config, s: State, id: Id)
    requires Reachable(cfg, s) && IsPending(s.db.invoices, id)
    ensures CanLosePayment(cfg, s, id) <==> PaymentAtRisk(s, id)
  {
    if CanLosePayment(cfg, s, id) {
      var s' :| Follows(cfg, s, s') && LosesPayment(s', id);
      LostOnlyAtRisk(cfg, s, s', id);
    }
    if PaymentAtRisk(s, id) {
      AtRiskIsLost(cfg, s, id);
    }
  }

  /**
   Such states are reached: for any address that invoices can be issued to, some run loses a payment accepted in time.
   */
  lemma SomeRunLosesPayment(cfg: Config, address: string)
    requires FaithfulAddresses(cfg) && cfg.parse(address) == Some(BarkAddress(address, true))
    ensures exists s, id :: Reachable(cfg, s) && LosesPayment(s, id)
  {
    var bolt11 := Bolt11("lnbc", "hash", 60 * MICROS);
    var row := Invoice(0, Bark, address, bolt11, 1_000, Some("hash"), "", Pending, Some(bolt11.expiry), None);
    var s0 := Init(0);
    FollowsItself(cfg, s0);
    FollowsStep(cfg, s0, s0, IssueInvoice(BarkRow, row, None));
    var s1 := Do(cfg, s0, IssueInvoice(BarkRow, row, None));
    assert Reachable(cfg, s1);
    StaleCancellationIff(cfg, s1, 0);
    var s2 :| Follows(cfg, s1, s2) && LosesPayment(s2, 0);
    ReachableOnwards(cfg, s1, s2);
  }
}

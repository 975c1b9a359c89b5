/**
 Lightning fees lost to stale observations. A claim of a reservation looks at the receive first and at the Ark history
 second, and then decides on both. For every pending reservation of every reachable state, this file says exactly when
 some run cancels it as expired although its Lightning fee was accepted in time.
 */
module StaleReservations {
  import opened Barkd
  import opened Ledger
  import opened Server
  import opened ServerInvariant
  import opened ServerProof
  import opened Guarantees
  import opened Scenarios
  import opened Races
  import opened StaleClaims

  ghost predicate FeeInTime(s: State, id: Id)
    requires id in s.db.names.invoices.rows
  {
    AcceptedInTime(s, CustomPaymentHashOf(s.db.names.invoices.rows[id]), s.db.names.invoices.rows[id].bolt11)
  }

  /** The reservation was cancelled as expired although barkd accepted its fee no later than that invoice's expiry. */
  ghost predicate LosesFee(s: State, id: Id) {
    id in s.db.names.invoices.rows && Expired(s, id) && FeeInTime(s, id)
  }

  /** Cancelled as expired, not for a name that was taken. */
  ghost predicate Expired(s: State, id: Id) {
    Key(NameRow, id) in s.how && s.how[Key(NameRow, id)].ExpiredUnpaid?
  }

  ghost predicate CanLoseFee(cfg: Config, s: State, id: Id) {
    exists s' :: Follows(cfg, s, s') && LosesFee(s', id)
  }

  /** A claim that found neither payment, and has not looked again since. */
  predicate PastBothLooks(task: Task, id: Id) {
    (task.NameExpiry? || task.NameCancel?) && task.invoice.id == id
  }

  /** A claim that saw no Lightning payment and is about to look for an Ark payment. */
  predicate PastFirstLook(task: Task, id: Id) {
    task.NameArk? && task.invoice.id == id && Unpaid(task.seen)
  }

  ghost predicate SomePastBoth(s: State, id: Id) {
    exists tid :: tid in s.tasks && PastBothLooks(s.tasks[tid], id)
  }

  ghost predicate SomePastFirst(s: State, id: Id) {
    exists tid :: tid in s.tasks && PastFirstLook(s.tasks[tid], id)
  }

  ghost predicate FeeAccepted(s: State, id: Id)
    requires id in s.db.names.invoices.rows
  {
    CustomPaymentHashOf(s.db.names.invoices.rows[id]) in s.wallet.acceptedAt
  }

  /** The search for an Ark payment of this fee succeeds. */
  ghost predicate ArkFeeFound(history: seq<Movement>, invoice: CustomInvoice) {
    ReceivedArkPayment(history, invoice.feeReceiveAddress, FeeSats(invoice)).Some?
  }

  /**
   Past both looks, a claim can only cancel. One that is past the first look still saves the reservation if an Ark
   payment is there. With nothing accepted, a claim still to come sees no Lightning payment either.
   */
  ghost predicate FeeAtRisk(s: State, id: Id)
    requires id in s.db.names.invoices.rows
  {
    var invoice := s.db.names.invoices.rows[id];
    if FeeAccepted(s, id) then
      FeeInTime(s, id) && (SomePastBoth(s, id) || (SomePastFirst(s, id) && !ArkFeeFound(s.wallet.history, invoice)))
    else
      s.now <= invoice.bolt11.expiry && (SomePastBoth(s, id) || !ArkFeeFound(s.wallet.history, invoice))
  }

  // ---------- The fee cannot be lost ----------

  /** No claim is past both looks, and none can get there: the Ark payment is there, or the Lightning one was seen. */
  ghost predicate FeeSafe(s: State, id: Id) {
    && id in s.db.names.invoices.rows && !Expired(s, id) && !SomePastBoth(s, id)
    && (ArkFeeFound(s.wallet.history, s.db.names.invoices.rows[id]) || (FeeAccepted(s, id) && !SomePastFirst(s, id)))
  }

  lemma FoundStays(history: seq<Movement>, history': seq<Movement>, invoice: CustomInvoice)
    requires history <= history' && ArkFeeFound(history, invoice)
    ensures ArkFeeFound(history', invoice)
  {
    var address, fee := invoice.feeReceiveAddress, FeeSats(invoice);
    ReceivedArkPaymentMeaning(history, address, fee);
    ReceivedArkPaymentMeaning(history', address, fee);
    var m: nat, d: nat :| PaysAt(history, m, d, address, fee);
    assert history'[m] == history[m];
    assert PaysAt(history', m, d, address, fee);
  }

  lemma SameReservation(s: State, s': State, id: Id)
    requires Evolves(s, s') && id in s.db.names.invoices.rows
    ensures id in s'.db.names.invoices.rows
    ensures var before, after := s.db.names.invoices.rows[id], s'.db.names.invoices.rows[id];
      && CustomPaymentHashOf(after) == CustomPaymentHashOf(before) && after.bolt11 == before.bolt11
      && after.feeReceiveAddress == before.feeReceiveAddress && FeeSats(after) == FeeSats(before)
  {
  }

  lemma KnownStays(s: State, s': State, id: Id)
    requires Evolves(s, s') && id in s.db.names.invoices.rows
    ensures id in s'.db.names.invoices.rows && (FeeAccepted(s, id) ==> FeeAccepted(s', id))
    ensures ArkFeeFound(s.wallet.history, s.db.names.invoices.rows[id]) ==>
      ArkFeeFound(s'.wallet.history, s'.db.names.invoices.rows[id])
  {
    SameReservation(s, s', id);
    if ArkFeeFound(s.wallet.history, s.db.names.invoices.rows[id]) {
      FoundStays(s.wallet.history, s'.wallet.history, s.db.names.invoices.rows[id]);
    }
  }

  /** Getting past the second look takes being past the first with no Ark payment there. */
  lemma PastBothComesFrom(cfg: Config, s: State, tid: nat, reply: Reply, id: Id)
    requires CanAdvance(cfg, s, tid, reply) && TaskOk(cfg, s, s.tasks[tid]) && id in s.db.names.invoices.rows
    requires var next := Advance(cfg, s, tid, reply).next; next.Some? && PastBothLooks(next.value, id)
    ensures PastBothLooks(s.tasks[tid], id)
         || (PastFirstLook(s.tasks[tid], id) && !ArkFeeFound(s.wallet.history, s.db.names.invoices.rows[id]))
  {
  }

  /** Getting past the first look takes looking while nothing is accepted. */
  lemma PastFirstComesFrom(cfg: Config, s: State, tid: nat, reply: Reply, id: Id)
    requires WalletOk(s.wallet, s.now) && CanAdvance(cfg, s, tid, reply) && TaskOk(cfg, s, s.tasks[tid])
    requires id in s.db.names.invoices.rows
    requires var next := Advance(cfg, s, tid, reply).next; next.Some? && PastFirstLook(next.value, id)
    ensures !FeeAccepted(s, id)
  {
  }

  predicate Expires(effect: Effect, id: Id) { effect.CancelName? && effect.cause.ExpiredUnpaid? && effect.id == id }

  lemma ExpiresPastBoth(cfg: Config, s: State, tid: nat, reply: Reply, id: Id)
    requires CanAdvance(cfg, s, tid, reply) && Expires(Advance(cfg, s, tid, reply).effect, id)
    ensures PastBothLooks(s.tasks[tid], id)
  {
  }

  /** How a reservation may leave Pending: never as expired but by that effect. */
  predicate CausesFit(effect: Effect) {
    match effect
    case SettleRow(kind, _, _) => !kind.NameRow?
    case CancelRow(kind, _, _) => !kind.NameRow?
    case _ => true
  }

  lemma AdvanceCausesFit(cfg: Config, s: State, tid: nat, reply: Reply)
    requires CanAdvance(cfg, s, tid, reply)
    ensures CausesFit(Advance(cfg, s, tid, reply).effect)
  {
  }

  lemma EffectExpires(s: State, effect: Effect, id: Id)
    requires CausesFit(effect) && !Expires(effect, id) && !Expired(s, id)
    ensures !Expired(Apply(s, effect), id)
  {
  }

  lemma TaskStepKeepsUnexpired(cfg: Config, s: State, tid: nat, reply: Reply, id: Id)
    requires CanAdvance(cfg, s, tid, reply) && !Expired(s, id) && !SomePastBoth(s, id)
    ensures !Expired(Do(cfg, s, TaskStep(tid, reply)), id)
  {
    TaskStepMoves(cfg, s, tid, reply);
    AdvanceCausesFit(cfg, s, tid, reply);
    if Expires(Advance(cfg, s, tid, reply).effect, id) {
      ExpiresPastBoth(cfg, s, tid, reply, id);
      assert false;
    }
    EffectExpires(s, Advance(cfg, s, tid, reply).effect, id);
  }

  lemma TaskStepKeepsFeeSafe(cfg: Config, s: State, tid: nat, reply: Reply, id: Id)
    requires TasksOk(cfg, s) && WalletOk(s.wallet, s.now) && CanAdvance(cfg, s, tid, reply)
    requires FeeSafe(s, id) && Evolves(s, Do(cfg, s, TaskStep(tid, reply)))
    ensures FeeSafe(Do(cfg, s, TaskStep(tid, reply)), id)
  {
    var s' := Do(cfg, s, TaskStep(tid, reply));
    TaskStepMoves(cfg, s, tid, reply);
    TaskStepKeepsUnexpired(cfg, s, tid, reply, id);
    KnownStays(s, s', id);
    assert TaskOk(cfg, s, s.tasks[tid]);
    forall other | other in s'.tasks
      ensures !PastBothLooks(s'.tasks[other], id)
      ensures FeeAccepted(s, id) && PastFirstLook(s'.tasks[other], id) ==> SomePastFirst(s, id)
    {
      if other == tid && PastBothLooks(s'.tasks[tid], id) {
        PastBothComesFrom(cfg, s, tid, reply, id);
      }
      if other == tid && PastFirstLook(s'.tasks[tid], id) {
        PastFirstComesFrom(cfg, s, tid, reply, id);
      }
    }
  }

  lemma RestKeepsFeeSafe(s: State, s': State, id: Id)
    requires FeeSafe(s, id) && Evolves(s, s') && TasksAtRest(s, s') && s'.how == s.how
    ensures FeeSafe(s', id)
  {
    KnownStays(s, s', id);
  }

  lemma StepKeepsFeeSafe(cfg: Config, s: State, step: Step, id: Id)
    requires Sound(cfg, s) && Can(cfg, s, step) && Evolves(s, Do(cfg, s, step)) && FeeSafe(s, id)
    ensures FeeSafe(Do(cfg, s, step), id)
  {
    if step.TaskStep? {
      TaskStepKeepsFeeSafe(cfg, s, step.tid, step.reply, id);
    } else {
      OtherStepsRest(cfg, s, step);
      OtherStepsKeepNames(cfg, s, step);
      RestKeepsFeeSafe(s, Do(cfg, s, step), id);
    }
  }

  lemma {:induction false} RunKeepsFeeSafe(cfg: Config, s: State, steps: seq<Step>, id: Id)
    requires Inv(cfg, s) && Legal(cfg, s, steps) && FeeSafe(s, id)
    ensures FeeSafe(Run(cfg, s, steps), id)
    decreases |steps|
  {
    if steps != [] {
      StepOk(cfg, s, steps[0]);
      InvIsSound(cfg, s);
      StepKeepsFeeSafe(cfg, s, steps[0], id);
      RunKeepsFeeSafe(cfg, Do(cfg, s, steps[0]), steps[1..], id);
    }
  }

  lemma LaterFee(s: State, s': State, id: Id)
    requires Evolves(s, s') && id in s.db.names.invoices.rows && id in s'.db.names.invoices.rows && FeeInTime(s', id)
    ensures if FeeAccepted(s, id) then FeeInTime(s, id) else s.now <= s.db.names.invoices.rows[id].bolt11.expiry
  {
    SameReservation(s, s', id);
  }

  lemma PendingIsUnexpired(cfg: Config, s: State, id: Id)
    requires Reachable(cfg, s) && CustomIsPending(s.db.names.invoices, id)
    ensures !Expired(s, id)
  {
    ReachableWins(cfg, s);
    assert !Decided(s.db, Key(NameRow, id));
  }

  lemma FeeLostOnlyAtRisk(cfg: Config, s: State, s': State, id: Id)
    requires Reachable(cfg, s) && Follows(cfg, s, s') && CustomIsPending(s.db.names.invoices, id) && LosesFee(s', id)
    ensures FeeAtRisk(s, id)
  {
    FollowsEvolves(cfg, s, s');
    LaterFee(s, s', id);
    PendingIsUnexpired(cfg, s, id);
    if FeeSafe(s, id) {
      ReachableInv(cfg, s);
      var steps: seq<Step> :| Legal(cfg, s, steps) && Run(cfg, s, steps) == s';
      RunKeepsFeeSafe(cfg, s, steps, id);
      assert false;
    }
  }

  // ---------- The fee can be lost ----------

  /** Whoever holds the row's lock gives up, as any statement may fail. */
  lemma LockIsDropped(cfg: Config, start: State, s: State, tid: nat, id: Id) returns (s': State)
    requires Follows(cfg, start, s) && LocksOk(s) && tid in s.tasks && !HoldsRow(s.tasks[tid], id)
    ensures Follows(cfg, start, s') && s'.db == s.db && s'.wallet == s.wallet && s'.now == s.now
    ensures tid in s'.tasks && s'.tasks[tid] == s.tasks[tid] && RowFree(s', tid, id)
  {
    if RowFree(s, tid, id) {
      s' := s;
    } else {
      var holder :| holder in s.tasks && holder != tid && HoldsRow(s.tasks[holder], id);
      assert RowFree(s, holder, id);
      FollowsStep(cfg, start, s, Abort(holder));
      s' := Do(cfg, s, Abort(holder));
    }
  }

  lemma NameCancelsAlone(cfg: Config, start: State, s: State, tid: nat) returns (s': State)
    requires Follows(cfg, start, s) && tid in s.tasks && s.tasks[tid].NameCancel?
      && RowFree(s, tid, s.tasks[tid].invoice.id)
    requires CustomIsPending(s.db.names.invoices, s.tasks[tid].invoice.id)
    ensures Follows(cfg, start, s') && Expired(s', s.tasks[tid].invoice.id)
  {
    s' := TaskSteps(cfg, start, s, tid, NoReply);
  }

  lemma NameExpires(cfg: Config, start: State, s: State, tid: nat) returns (s': State)
    requires Follows(cfg, start, s) && tid in s.tasks && s.tasks[tid].NameExpiry?
      && RowFree(s, tid, s.tasks[tid].invoice.id)
    ensures Follows(cfg, start, s') && s'.db == s.db && s'.wallet == s.wallet
    ensures tid in s'.tasks && s'.tasks[tid].NameCancel? && s'.tasks[tid].invoice == s.tasks[tid].invoice
    ensures RowFree(s', tid, s.tasks[tid].invoice.id)
  {
    var later := Later(s.now, s.tasks[tid].invoice.bolt11.expiry);
    FollowsStep(cfg, start, s, Tick(later));
    s' := TaskSteps(cfg, start, Do(cfg, s, Tick(later)), tid, NoReply);
  }

  /** A claim past both looks waits until the fee invoice has expired, and cancels. */
  lemma PastBothExpires(cfg: Config, start: State, s: State, tid: nat, id: Id) returns (s': State)
    requires Follows(cfg, start, s) && LocksOk(s) && tid in s.tasks && PastBothLooks(s.tasks[tid], id)
    requires CustomIsPending(s.db.names.invoices, id)
    ensures Follows(cfg, start, s') && Expired(s', id)
  {
    s' := LockIsDropped(cfg, start, s, tid, id);
    if s'.tasks[tid].NameExpiry? {
      s' := NameExpires(cfg, start, s', tid);
    }
    s' := NameCancelsAlone(cfg, start, s', tid);
  }

  /** A claim past the first look finds no Ark payment either. */
  lemma SecondLookFails(cfg: Config, start: State, s: State, tid: nat, id: Id) returns (s': State)
    requires Follows(cfg, start, s) && tid in s.tasks && PastFirstLook(s.tasks[tid], id) && TaskOk(cfg, s, s.tasks[tid])
    requires id in s.db.names.invoices.rows && !ArkFeeFound(s.wallet.history, s.db.names.invoices.rows[id])
    ensures Follows(cfg, start, s') && s'.db == s.db && s'.wallet == s.wallet && s'.now == s.now
    ensures tid in s'.tasks && PastBothLooks(s'.tasks[tid], id)
  {
    s' := TaskSteps(cfg, start, s, tid, NoReply);
  }

  /** A claim starts now and sees nothing. */
  lemma NameClaimLooksNow(cfg: Config, s: State, tid: nat, id: Id) returns (s': State)
    requires tid !in s.tasks && CustomIsPending(s.db.names.invoices, id) && CustomKeyed(s.db.names.invoices)
    requires WalletOk(s.wallet, s.now) && !FeeAccepted(s, id)
    ensures Follows(cfg, s, s') && s'.db == s.db && s'.wallet == s.wallet && s'.now == s.now
    ensures tid in s'.tasks && PastFirstLook(s'.tasks[tid], id)
  {
    FollowsItself(cfg, s);
    FollowsStep(cfg, s, s, StartName(tid, id));
    s' := TaskSteps(cfg, s, Do(cfg, s, StartName(tid, id)), tid, NoReply);
  }

  /** A claim is past both looks, or can still get there. */
  ghost predicate CanGetPastBoth(s: State, id: Id)
    requires id in s.db.names.invoices.rows
  {
    || SomePastBoth(s, id)
    || (!ArkFeeFound(s.wallet.history, s.db.names.invoices.rows[id]) && (SomePastFirst(s, id) || !FeeAccepted(s, id)))
  }

  /** Some claim is past both looks in a state that differs in nothing else. */
  lemma SomeClaimGetsPast(cfg: Config, s: State, id: Id) returns (s': State)
    requires Reachable(cfg, s) && CustomIsPending(s.db.names.invoices, id) && CanGetPastBoth(s, id)
    ensures Follows(cfg, s, s') && s'.db == s.db && s'.wallet == s.wallet && s'.now == s.now && SomePastBoth(s', id)
  {
    FollowsItself(cfg, s);
    if SomePastBoth(s, id) {
      s' := s;
    } else {
      var tid: nat;
      if SomePastFirst(s, id) {
        tid :| tid in s.tasks && PastFirstLook(s.tasks[tid], id);
        s' := s;
      } else {
        tid := UnusedTask(s);
        ReachableWallet(cfg, s);
        ReachableNames(cfg, s);
        s' := NameClaimLooksNow(cfg, s, tid, id);
        ReachableOnwards(cfg, s, s');
      }
      ReachableTasks(cfg, s');
      s' := SecondLookFails(cfg, s, s', tid, id);
    }
  }

  /** With a claim past both looks, whatever has been paid by now is of no avail. */
  lemma PastBothCanExpire(cfg: Config, s: State, id: Id) returns (s': State)
    requires Reachable(cfg, s) && CustomIsPending(s.db.names.invoices, id) && SomePastBoth(s, id)
    ensures Follows(cfg, s, s') && Expired(s', id)
  {
    var tid :| tid in s.tasks && PastBothLooks(s.tasks[tid], id);
    ReachableTasks(cfg, s);
    FollowsItself(cfg, s);
    s' := PastBothExpires(cfg, s, s, tid, id);
  }

  lemma FollowsFurther(cfg: Config, s1: State, s2: State, s3: State)
    requires Follows(cfg, s1, s2) && Follows(cfg, s2, s3)
    ensures Follows(cfg, s1, s3)
  {
    var first: seq<Step> :| Legal(cfg, s1, first) && Run(cfg, s1, first) == s2;
    var second: seq<Step> :| Legal(cfg, s2, second) && Run(cfg, s2, second) == s3;
    RunsCompose(cfg, s1, first, second);
  }

  lemma FeeAtRiskIsLost(cfg: Config, s: State, id: Id)
    requires Reachable(cfg, s) && CustomIsPending(s.db.names.invoices, id) && FeeAtRisk(s, id)
    ensures CanLoseFee(cfg, s, id)
  {
    var s1 := SomeClaimGetsPast(cfg, s, id);
    var s2 := s1;
    if !FeeAccepted(s, id) {
      s2 := PaymentAccepted(cfg, s, s1, CustomPaymentHashOf(s.db.names.invoices.rows[id]));
    }
    ReachableOnwards(cfg, s, s2);
    var s3 := PastBothCanExpire(cfg, s2, id);
    FeeStaysInTime(cfg, s2, s3, id);
    FollowsFurther(cfg, s, s2, s3);
  }

  lemma FeeStaysInTime(cfg: Config, s: State, s': State, id: Id)
    requires Reachable(cfg, s) && Follows(cfg, s, s') && id in s.db.names.invoices.rows && FeeInTime(s, id)
    ensures id in s'.db.names.invoices.rows && FeeInTime(s', id)
  {
    FollowsEvolves(cfg, s, s');
    SameReservation(s, s', id);
  }

  /**
   Exactly when a pending reservation can still be cancelled as expired although its Lightning fee is accepted in time.
   The moment that counts is the expiry of the fee invoice; the reservation itself may expire earlier.
   */
  lemma StaleReservationIff(cfg: Config, s: State, id: Id)
    requires Reachable(cfg, s) && CustomIsPending(s.db.names.invoices, id)
    ensures CanLoseFee(cfg, s, id) <==> FeeAtRisk(s, id)
  {
    if CanLoseFee(cfg, s, id) {
      var s' :| Follows(cfg, s, s') && LosesFee(s', id);
      FeeLostOnlyAtRisk(cfg, s, s', id);
    }
    if FeeAtRisk(s, id) {
      FeeAtRiskIsLost(cfg, s, id);
    }
  }

  // ---------- Ark payments ----------

  /** The fee is in the wallet history while the reservation still waits for it. */
  ghost predicate ArkPaidWhilePending(s: State, id: Id) {
    CustomIsPending(s.db.names.invoices, id) && ArkFeeFound(s.wallet.history, s.db.names.invoices.rows[id])
  }

  ghost predicate CanExpire(cfg: Config, s: State, id: Id) {
    exists s' :: Follows(cfg, s, s') && Expired(s', id)
  }

  /** Some run has the Ark payment arrive before the reservation is decided, and then cancels it as expired. */
  ghost predicate CanLoseArkFee(cfg: Config, s: State, id: Id) {
    exists s' :: Follows(cfg, s, s') && ArkPaidWhilePending(s', id) && CanExpire(cfg, s', id)
  }

  lemma FeeSafeStays(cfg: Config, s: State, s': State, id: Id)
    requires Reachable(cfg, s) && Follows(cfg, s, s') && FeeSafe(s, id)
    ensures FeeSafe(s', id)
  {
    ReachableInv(cfg, s);
    var steps: seq<Step> :| Legal(cfg, s, steps) && Run(cfg, s, steps) == s';
    RunKeepsFeeSafe(cfg, s, steps, id);
  }

  lemma AppendedIsFound(history: seq<Movement>, invoice: CustomInvoice) returns (movement: Movement)
    ensures ArkFeeFound(history + [movement], invoice)
  {
    movement := Movement(0, [Destination(Ark(invoice.feeReceiveAddress), FeeSats(invoice))]);
    var longer := history + [movement];
    ReceivedArkPaymentMeaning(longer, invoice.feeReceiveAddress, FeeSats(invoice));
    assert longer[|history|] == movement;
    assert PaysAt(longer, |history|, 0, invoice.feeReceiveAddress, FeeSats(invoice));
  }

  /** The payment arrives now. */
  lemma ArkFeeArrives(cfg: Config, start: State, s: State, id: Id) returns (s': State)
    requires Follows(cfg, start, s) && CustomIsPending(s.db.names.invoices, id)
    ensures Follows(cfg, start, s') && ArkPaidWhilePending(s', id) && s'.tasks == s.tasks
  {
    if ArkFeeFound(s.wallet.history, s.db.names.invoices.rows[id]) {
      s' := s;
    } else {
      var movement := AppendedIsFound(s.wallet.history, s.db.names.invoices.rows[id]);
      FollowsStep(cfg, start, s, AppendMovement(movement));
      s' := Do(cfg, s, AppendMovement(movement));
    }
  }

  lemma ArkFeeGetsLost(cfg: Config, s: State, id: Id)
    requires Reachable(cfg, s) && CustomIsPending(s.db.names.invoices, id) && CanGetPastBoth(s, id)
    ensures CanLoseArkFee(cfg, s, id)
  {
    var s1 := SomeClaimGetsPast(cfg, s, id);
    var s2 := ArkFeeArrives(cfg, s, s1, id);
    ReachableOnwards(cfg, s, s2);
    var s3 := PastBothCanExpire(cfg, s2, id);
  }

  /**
   Exactly when a pending reservation can still be cancelled as expired although its fee has arrived by Ark: when a
   claim is past both looks; or when there is no Ark payment yet, and a claim can still look in vain before there is
   one.
   */
  lemma StaleHistoryIff(cfg: Config, s: State, id: Id)
    requires Reachable(cfg, s) && CustomIsPending(s.db.names.invoices, id)
    ensures CanLoseArkFee(cfg, s, id) <==> CanGetPastBoth(s, id)
  {
    if CanGetPastBoth(s, id) {
      ArkFeeGetsLost(cfg, s, id);
    }
    if CanLoseArkFee(cfg, s, id) && !CanGetPastBoth(s, id) {
      PendingIsUnexpired(cfg, s, id);
      var s1 :| Follows(cfg, s, s1) && ArkPaidWhilePending(s1, id) && CanExpire(cfg, s1, id);
      FeeSafeStays(cfg, s, s1, id);
      ReachableOnwards(cfg, s, s1);
      var s2 :| Follows(cfg, s1, s2) && Expired(s2, id);
      FeeSafeStays(cfg, s1, s2, id);
      assert false;
    }
  }
}

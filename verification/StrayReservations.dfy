/**
 Reservations for active names. The checks of a purchase and its INSERT are separate steps, and the partial index covers
 pending rows only, so a reservation may be inserted for a name that has become active in between. For every active name
 of every reachable state, this file says exactly when some run leaves such a stray reservation.
 */
module StrayReservations {
  import opened Wrappers
  import opened Names
  import opened Barkd
  import opened Ledger
  import opened Server
  import opened ServerInvariant
  import opened ServerProof
  import opened Guarantees
  import opened Scenarios
  import opened Races

  /** The name is active, and somebody holds a pending reservation for it. */
  ghost predicate Stray(s: State, name: string) {
    NameTaken(s.db.names.addresses, name) && NameReserved(s.db.names.invoices, name)
  }

  ghost predicate CanBecomeStray(cfg: Config, s: State, name: string) {
    exists s' :: Follows(cfg, s, s') && Stray(s', name)
  }

  ghost predicate HashUsed(t: Table<CustomInvoice>, hash: Option<string>) {
    exists id :: id in t.rows && t.rows[id].paymentHash.Some? && t.rows[id].paymentHash == hash
  }

  /**
   A purchase that no longer asks whether the name is active, and whose INSERT the index on hashes will not refuse.
   */
  ghost predicate PastActiveCheck(t: Table<CustomInvoice>, task: Task, name: string) {
    || ((task.CreateCheckPending? || task.CreateAddress? || task.CreateInvoice?) && task.owner.name == name)
    || (task.CreateInsert? && task.invoice.name == name && !HashUsed(t, task.invoice.paymentHash))
  }

  ghost predicate SomePastCheck(s: State, name: string) {
    exists tid :: tid in s.tasks && PastActiveCheck(s.db.names.invoices, s.tasks[tid], name)
  }

  // ---------- No stray reservation can appear ----------

  /** The name is active, nobody has reserved it, and nobody is past the check that would stop them. */
  ghost predicate NoStray(s: State, name: string) {
    NameTaken(s.db.names.addresses, name) && !NameReserved(s.db.names.invoices, name) && !SomePastCheck(s, name)
  }

  lemma HashStaysUsed(s: State, s': State, hash: Option<string>)
    requires Evolves(s, s') && HashUsed(s.db.names.invoices, hash)
    ensures HashUsed(s'.db.names.invoices, hash)
  {
    var id :| id in s.db.names.invoices.rows && s.db.names.invoices.rows[id].paymentHash.Some?
              && s.db.names.invoices.rows[id].paymentHash == hash;
    assert s'.db.names.invoices.rows[id].paymentHash == hash;
  }

  lemma PastCheckBefore(s: State, s': State, task: Task, name: string)
    requires Evolves(s, s') && PastActiveCheck(s'.db.names.invoices, task, name)
    ensures PastActiveCheck(s.db.names.invoices, task, name)
  {
    if task.CreateInsert? && HashUsed(s.db.names.invoices, task.invoice.paymentHash) {
      HashStaysUsed(s, s', task.invoice.paymentHash);
      assert false;
    }
  }

  /** Getting past the check takes being past it, or a name that is not active. */
  lemma PastCheckComesFrom(cfg: Config, s: State, tid: nat, reply: Reply, name: string)
    requires CanAdvance(cfg, s, tid, reply) && NameTaken(s.db.names.addresses, name)
    requires var next := Advance(cfg, s, tid, reply).next;
      next.Some? && PastActiveCheck(s.db.names.invoices, next.value, name)
    ensures PastActiveCheck(s.db.names.invoices, s.tasks[tid], name)
  {
  }

  lemma ReservesPastCheck(cfg: Config, s: State, tid: nat, reply: Reply, name: string)
    requires CanAdvance(cfg, s, tid, reply)
    requires var effect := Advance(cfg, s, tid, reply).effect; effect.Reserve? && effect.invoice.name == name
    ensures PastActiveCheck(s.db.names.invoices, s.tasks[tid], name)
  {
  }

  /** Rows turn pending by being inserted only. */
  lemma EffectReserves(s: State, effect: Effect, name: string)
    requires !NameReserved(s.db.names.invoices, name) && !(effect.Reserve? && effect.invoice.name == name)
    ensures !NameReserved(Apply(s, effect).db.names.invoices, name)
  {
    match effect
    case CancelName(id, _) =>
    case CommitName(invoice, payment, startedAt) =>
    case Reserve(invoice) =>
    case _ => assert Apply(s, effect).db.names == s.db.names;
  }

  lemma TaskStepReservesNothing(cfg: Config, s: State, tid: nat, reply: Reply, name: string)
    requires CanAdvance(cfg, s, tid, reply) && NoStray(s, name)
    ensures !NameReserved(Do(cfg, s, TaskStep(tid, reply)).db.names.invoices, name)
  {
    var effect := Advance(cfg, s, tid, reply).effect;
    TaskStepMoves(cfg, s, tid, reply);
    if effect.Reserve? && effect.invoice.name == name {
      ReservesPastCheck(cfg, s, tid, reply, name);
      assert false;
    }
    EffectReserves(s, effect, name);
  }

  lemma TaskStepKeepsNoStray(cfg: Config, s: State, tid: nat, reply: Reply, name: string)
    requires CanAdvance(cfg, s, tid, reply) && NoStray(s, name) && Evolves(s, Do(cfg, s, TaskStep(tid, reply)))
    ensures NoStray(Do(cfg, s, TaskStep(tid, reply)), name)
  {
    var s' := Do(cfg, s, TaskStep(tid, reply));
    TaskStepMoves(cfg, s, tid, reply);
    TaskStepReservesNothing(cfg, s, tid, reply, name);
    NameTakenStable(s, s', name);
    forall other | other in s'.tasks ensures !PastActiveCheck(s'.db.names.invoices, s'.tasks[other], name) {
      if PastActiveCheck(s'.db.names.invoices, s'.tasks[other], name) {
        PastCheckBefore(s, s', s'.tasks[other], name);
        if other == tid {
          PastCheckComesFrom(cfg, s, tid, reply, name);
        }
        assert false;
      }
    }
  }

  lemma RestKeepsNoStray(s: State, s': State, name: string)
    requires NoStray(s, name) && TasksAtRest(s, s') && s'.db.names == s.db.names
    ensures NoStray(s', name)
  {
  }

  lemma StepKeepsNoStray(cfg: Config, s: State, step: Step, name: string)
    requires Can(cfg, s, step) && Evolves(s, Do(cfg, s, step)) && NoStray(s, name)
    ensures NoStray(Do(cfg, s, step), name)
  {
    if step.TaskStep? {
      TaskStepKeepsNoStray(cfg, s, step.tid, step.reply, name);
    } else {
      OtherStepsRest(cfg, s, step);
      OtherStepsKeepNames(cfg, s, step);
      RestKeepsNoStray(s, Do(cfg, s, step), name);
    }
  }

  lemma {:induction false} RunKeepsNoStray(cfg: Config, s: State, steps: seq<Step>, name: string)
    requires Inv(cfg, s) && Legal(cfg, s, steps) && NoStray(s, name)
    ensures NoStray(Run(cfg, s, steps), name)
    decreases |steps|
  {
    if steps != [] {
      StepOk(cfg, s, steps[0]);
      StepKeepsNoStray(cfg, s, steps[0], name);
      RunKeepsNoStray(cfg, Do(cfg, s, steps[0]), steps[1..], name);
    }
  }

  lemma StrayOnlyPastCheck(cfg: Config, s: State, s': State, name: string)
    requires Reachable(cfg, s) && Follows(cfg, s, s') && NameTaken(s.db.names.addresses, name) && Stray(s', name)
    ensures NameReserved(s.db.names.invoices, name) || SomePastCheck(s, name)
  {
    if NoStray(s, name) {
      ReachableInv(cfg, s);
      var steps: seq<Step> :| Legal(cfg, s, steps) && Run(cfg, s, steps) == s';
      RunKeepsNoStray(cfg, s, steps, name);
      assert false;
    }
  }

  // ---------- A stray reservation appears ----------

  lemma SecondReservation(cfg: Config, start: State, s: State, tid: nat) returns (s': State)
    requires Follows(cfg, start, s) && tid in s.tasks && s.tasks[tid].CreateInsert?
      && s.tasks[tid].invoice.state.Pending?
    requires CanReserve(s.db.names.invoices, s.tasks[tid].invoice)
      && NameTaken(s.db.names.addresses, s.tasks[tid].invoice.name)
    ensures Follows(cfg, start, s') && Stray(s', s.tasks[tid].invoice.name)
  {
    s' := TaskSteps(cfg, start, s, tid, NoReply);
    assert s'.db.names.invoices.rows[s.db.names.invoices.next].state.Pending?;
  }

  function UsedHashes(t: Table<CustomInvoice>): set<string> {
    set id | id in t.rows && t.rows[id].paymentHash.Some? :: t.rows[id].paymentHash.value
  }

  /** A hash that barkd has not used yet. */
  lemma FreshHash(t: Table<CustomInvoice>) returns (hash: string)
    ensures !HashUsed(t, Some(hash))
  {
    hash := UnusedString(UsedHashes(t));
  }

  /** The INSERT of this purchase is next, and nothing refuses it. */
  ghost predicate ReadyToReserve(s: State, tid: nat, name: string) {
    && tid in s.tasks && s.tasks[tid].CreateInsert?
    && s.tasks[tid].invoice.name == name && s.tasks[tid].invoice.state.Pending?
    && CanReserve(s.db.names.invoices, s.tasks[tid].invoice)
  }

  lemma InvoiceGetsReady(cfg: Config, start: State, s: State, tid: nat, name: string) returns (s': State)
    requires Follows(cfg, start, s) && tid in s.tasks && s.tasks[tid].CreateInvoice? && s.tasks[tid].owner.name == name
    requires !NameReserved(s.db.names.invoices, name)
    ensures Follows(cfg, start, s') && s'.db == s.db && ReadyToReserve(s', tid, name)
  {
    var hash := FreshHash(s.db.names.invoices);
    s' := TaskSteps(cfg, start, s, tid, FreshInvoice(Bolt11("lnbc", hash, s.now), 0));
  }

  lemma AddressGetsReady(cfg: Config, start: State, s: State, tid: nat, name: string) returns (s': State)
    requires Follows(cfg, start, s) && tid in s.tasks && s.tasks[tid].CreateAddress? && s.tasks[tid].owner.name == name
    requires !NameReserved(s.db.names.invoices, name)
    ensures Follows(cfg, start, s') && s'.db == s.db && ReadyToReserve(s', tid, name)
  {
    var fee := UnusedString(s.wallet.issued);
    s' := TaskSteps(cfg, start, s, tid, FreshAddress(fee));
    s' := InvoiceGetsReady(cfg, start, s', tid, name);
  }

  /** A purchase past the check gets as far as its INSERT, which nothing refuses. */
  lemma PastCheckGetsReady(cfg: Config, s: State, tid: nat, name: string) returns (s': State)
    requires tid in s.tasks && PastActiveCheck(s.db.names.invoices, s.tasks[tid], name) && TaskOk(cfg, s, s.tasks[tid])
    requires !NameReserved(s.db.names.invoices, name)
    ensures Follows(cfg, s, s') && s'.db == s.db && ReadyToReserve(s', tid, name)
  {
    FollowsItself(cfg, s);
    match s.tasks[tid]
    case CreateCheckPending(_) =>
      s' := TaskSteps(cfg, s, s, tid, NoReply);
      s' := AddressGetsReady(cfg, s, s', tid, name);
    case CreateAddress(_) => s' := AddressGetsReady(cfg, s, s, tid, name);
    case CreateInvoice(_, _) => s' := InvoiceGetsReady(cfg, s, s, tid, name);
    case CreateInsert(_) => s' := s;
  }

  lemma PastCheckGetsStray(cfg: Config, s: State, name: string)
    requires Reachable(cfg, s) && NameTaken(s.db.names.addresses, name) && SomePastCheck(s, name)
    requires !NameReserved(s.db.names.invoices, name)
    ensures CanBecomeStray(cfg, s, name)
  {
    var tid :| tid in s.tasks && PastActiveCheck(s.db.names.invoices, s.tasks[tid], name);
    ReachableTasks(cfg, s);
    var s1 := PastCheckGetsReady(cfg, s, tid, name);
    var s2 := SecondReservation(cfg, s, s1, tid);
  }

  /**
   Exactly when an active name can still get a pending reservation: when it has one already, or when some purchase is
   past the check for active names. A purchase that begins now is always stopped.
   */
  lemma StrayIff(cfg: Config, s: State, name: string)
    requires Reachable(cfg, s) && NameTaken(s.db.names.addresses, name)
    ensures CanBecomeStray(cfg, s, name) <==> NameReserved(s.db.names.invoices, name) || SomePastCheck(s, name)
  {
    if CanBecomeStray(cfg, s, name) {
      var s' :| Follows(cfg, s, s') && Stray(s', name);
      StrayOnlyPastCheck(cfg, s, s', name);
    }
    if NameReserved(s.db.names.invoices, name) {
      FollowsItself(cfg, s);
      assert Stray(s, name);
    } else if SomePastCheck(s, name) {
      PastCheckGetsStray(cfg, s, name);
    }
  }

  // ---------- A run that leaves one ----------

  /** A creator that meets no other reservation gets as far as its INSERT, and changes no row on the way. */
  lemma CreatorGetsReady(cfg: Config, start: State, s: State, tid: nat, fee: string, bolt11: Bolt11, feeSats: nat)
    returns (s': State)
    requires Follows(cfg, start, s) && tid in s.tasks && s.tasks[tid].CreateCheckActive? && fee !in s.wallet.issued
    requires !NameTaken(s.db.names.addresses, s.tasks[tid].owner.name)
      && !NameReserved(s.db.names.invoices, s.tasks[tid].owner.name)
    ensures Follows(cfg, start, s') && s'.db == s.db && s'.now == s.now
    ensures s'.wallet == s.wallet.(issued := s.wallet.issued + {fee})
    ensures s'.tasks == s.tasks[tid := CreateInsert(NewReservation(cfg, s.tasks[tid].owner, fee, bolt11, feeSats,
      s.now))]
  {
    s' := TaskSteps(cfg, start, s, tid, NoReply);
    s' := TaskSteps(cfg, start, s', tid, NoReply);
    s' := CreatorGetsInvoice(cfg, start, s', tid, fee, bolt11, feeSats);
  }

  lemma CreatorGetsInvoice(cfg: Config, start: State, s: State, tid: nat, fee: string, bolt11: Bolt11, feeSats: nat)
    returns (s': State)
    requires Follows(cfg, start, s) && tid in s.tasks && s.tasks[tid].CreateAddress? && fee !in s.wallet.issued
    ensures Follows(cfg, start, s') && s'.db == s.db && s'.now == s.now
    ensures s'.wallet == s.wallet.(issued := s.wallet.issued + {fee})
    ensures s'.tasks == s.tasks[tid := CreateInsert(NewReservation(cfg, s.tasks[tid].owner, fee, bolt11, feeSats,
      s.now))]
  {
    s' := TaskSteps(cfg, start, s, tid, FreshAddress(fee));
    s' := TaskSteps(cfg, start, s', tid, FreshInvoice(bolt11, feeSats));
  }

  ghost predicate NobodyHoldsLocks(s: State) {
    forall tid :: tid in s.tasks ==> !s.tasks[tid].TxnInsert? && !s.tasks[tid].TxnCommit?
  }

  /** A pending reservation is paid and claimed by a task of its own. */
  lemma ReservationGetsPaid(cfg: Config, start: State, s: State, tid: nat, id: Id) returns (s': State)
    requires Follows(cfg, start, s) && tid !in s.tasks && NobodyHoldsLocks(s)
      && CustomIsPending(s.db.names.invoices, id)
    requires s.db.names.invoices.rows[id].id == id
      && !NameTaken(s.db.names.addresses, s.db.names.invoices.rows[id].name)
    ensures Follows(cfg, start, s') && s'.tasks == s.tasks
    ensures exists payment, now ::
      s'.db.names == SettleAndActivate(s.db.names, s.db.names.invoices.rows[id], payment, now).0
  {
    var invoice := s.db.names.invoices.rows[id];
    var paid := Receive(CustomPaymentHashOf(invoice), "settled", Some("preimage"));
    FollowsStep(cfg, start, s, SetReceive(paid));
    var s1 := Do(cfg, s, SetReceive(paid));
    FollowsStep(cfg, start, s1, StartName(tid, id));
    var s2 := Do(cfg, s1, StartName(tid, id));
    var s3 := TaskSteps(cfg, start, s2, tid, NoReply);
    s' := UninterruptedTransaction(cfg, start, s3, tid);
    assert s'.tasks == s.tasks;
  }

  lemma ActivatedThenReserved(r: Registry, id: Id, payment: Payment, now: Time, invoice: CustomInvoice)
    requires CustomIsPending(r.invoices, id) && r.invoices.rows[id].id == id && r.invoices.rows[id].name == invoice.name
    requires forall other :: other in r.invoices.rows && other != id ==>
      r.invoices.rows[other].name != invoice.name || !r.invoices.rows[other].state.Pending?
    requires forall other :: other in r.invoices.rows && r.invoices.rows[other].paymentHash.Some? ==>
      r.invoices.rows[other].paymentHash != invoice.paymentHash
    requires !NameTaken(r.addresses, invoice.name)
    ensures var r' := SettleAndActivate(r, r.invoices.rows[id], payment, now).0;
      CanReserve(r'.invoices, invoice) && NameTaken(r'.addresses, invoice.name)
  {
    var r' := SettleAndActivate(r, r.invoices.rows[id], payment, now).0;
    assert r'.addresses.rows[r.addresses.next].name == invoice.name;
  }

  lemma TwoCreators(cfg: Config, name: string, address: string, signature: string) returns (s: State)
    requires CanCreate(cfg, name, address, signature)
    ensures Follows(cfg, Init(0), s) && s.db == Init(0).db && s.tasks.Keys == {1, 2}
    ensures s.tasks[1].CreateInsert? && s.tasks[2].CreateInsert?
    ensures var a, b := s.tasks[1].invoice, s.tasks[2].invoice;
      && a.name == b.name == Normalize(IsAddress(cfg), name).value && a.state.Pending? && b.state.Pending?
      && a.paymentHash.Some? && b.paymentHash.Some? && a.paymentHash != b.paymentHash
  {
    var s0 := Init(0);
    FollowsItself(cfg, s0);
    FollowsStep(cfg, s0, s0, StartCreate(1, name, address, signature));
    var s1 := Do(cfg, s0, StartCreate(1, name, address, signature));
    FollowsStep(cfg, s0, s1, StartCreate(2, name, address, signature));
    var s2 := Do(cfg, s1, StartCreate(2, name, address, signature));
    var s3 := CreatorGetsReady(cfg, s0, s2, 1, "fee 1", Bolt11("lnbc1", "hash 1", 60 * MICROS), 21);
    s := CreatorGetsReady(cfg, s0, s3, 2, "fee 2", Bolt11("lnbc2", "hash 2", 60 * MICROS), 21);
  }

  /** Two creators pass both checks; one reserves, pays and activates; the other still gets its reservation. */
  lemma SomeRunLeavesStray(cfg: Config, name: string, address: string, signature: string)
    requires FaithfulAddresses(cfg) && CanCreate(cfg, name, address, signature)
    ensures exists s :: Reachable(cfg, s) && Stray(s, Normalize(IsAddress(cfg), name).value)
  {
    var s0 := Init(0);
    var s1 := TwoCreators(cfg, name, address, signature);
    var s2 := TaskSteps(cfg, s0, s1, 1, NoReply);
    var s3 := ReservationGetsPaid(cfg, s0, s2, 3, 0);
    var payment, now :| s3.db.names == SettleAndActivate(s2.db.names, s2.db.names.invoices.rows[0], payment, now).0;
    ActivatedThenReserved(s2.db.names, 0, payment, now, s3.tasks[2].invoice);
    var s4 := SecondReservation(cfg, s0, s3, 2);
    assert Reachable(cfg, s4);
  }
}

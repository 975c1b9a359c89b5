/**
 Requests that nobody interrupts: `verify` answers for every invoice that its address and hash find, a purchase of a
 free name reserves it on the terms of the fee invoice, and an unpaid reservation gives its name back.
 */
module Requests {
  import opened Wrappers
  import opened Names
  import opened Barkd
  import opened Ledger
  import opened Server
  import opened ServerInvariant
  import opened ServerProof
  import opened Guarantees
  import opened Scenarios
  import opened Races
  import opened StrayReservations
  import Poller

  // ---------- verify ----------

  /** The answer for a row, if it is a row for the address in question. */
  function RowAnswer(row: Invoice, address: string, target: string, hash: string, key: Key): seq<Answer> {
    if row.address != target then []
    else if row.state.Settled? && row.preimage != "" then [Answer(address, hash, true, row.preimage, key)]
    else [Answer(address, hash, false, "", key)]
  }

  /** Nothing but the tasks and the answers has changed. */
  ghost predicate OnlyAnswers(s: State, s': State) {
    s' == s.(tasks := s'.tasks, answers := s'.answers)
  }

  /** What a request does once it has found this row: it looks up a pending one again, and answers from any other. */
  ghost predicate Handles(s: State, s': State, tid: nat, address: string, target: string, hash: string, again: bool,
                          key: Key)
    requires HasHash(s.db, key, hash)
  {
    var row := TableOf(s.db, key.kind).rows[key.id];
    && OnlyAnswers(s, s')
    && if row.state.Pending? && !again then
         s'.tasks == s.tasks[tid := VerifyBark(address, target, hash, true)] && s'.answers == s.answers
       else s'.tasks == s.tasks - {tid} && s'.answers == s.answers + RowAnswer(row, address, target, hash, key)
  }

  lemma FoundRowHandled(s: State, tid: nat, address: string, target: string, hash: string, again: bool, key: Key)
    requires HasHash(s.db, key, hash)
    ensures var move := AfterLookup(s, address, target, hash, again, key);
      Handles(s, WithTask(Apply(s, move.effect), tid, move.next), tid, address, target, hash, again, key)
  {
  }

  lemma MissesBark(cfg: Config, start: State, s: State, tid: nat) returns (s': State)
    requires Follows(cfg, start, s) && tid in s.tasks && s.tasks[tid].VerifyBark?
      && !HashIn(s.db.invoices, s.tasks[tid].hash)
    ensures var VerifyBark(address, target, hash, again) := s.tasks[tid];
      Follows(cfg, start, s') && s' == s.(tasks := s.tasks[tid := VerifyArkade(address, target, hash, again)])
  {
    s' := TaskSteps(cfg, start, s, tid, NoReply);
  }

  lemma HandledWithoutDetour(s: State, s1: State, s': State, tid: nat, address: string, target: string, hash: string,
                             again: bool, key: Key)
    requires s1 == s.(tasks := s.tasks[tid := VerifyArkade(address, target, hash, again)]) && HasHash(s.db, key, hash)
    requires Handles(s1, s', tid, address, target, hash, again, key)
    ensures Handles(s, s', tid, address, target, hash, again, key)
  {
  }

  /** One lookup that nobody interrupts. */
  lemma LooksUp(cfg: Config, start: State, s: State, tid: nat, key: Key) returns (s': State)
    requires Follows(cfg, start, s) && tid in s.tasks && s.tasks[tid].VerifyBark? && Finds(s.db, s.tasks[tid].hash, key)
    ensures var VerifyBark(address, target, hash, again) := s.tasks[tid];
      Follows(cfg, start, s') && Handles(s, s', tid, address, target, hash, again, key)
  {
    var VerifyBark(address, target, hash, again) := s.tasks[tid];
    if key.kind.BarkRow? {
      FoundRowHandled(s, tid, address, target, hash, again, key);
      s' := TaskSteps(cfg, start, s, tid, Found(key));
    } else {
      var s1 := MissesBark(cfg, start, s, tid);
      FoundRowHandled(s1, tid, address, target, hash, again, key);
      s' := TaskSteps(cfg, start, s1, tid, Found(key));
      HandledWithoutDetour(s, s1, s', tid, address, target, hash, again, key);
    }
  }

  /** A request that nobody interrupts is answered from the row that its hash finds, if that is for its address. */
  lemma UninterruptedVerify(cfg: Config, start: State, s: State, tid: nat, key: Key) returns (s': State)
    requires Follows(cfg, start, s) && tid in s.tasks && s.tasks[tid].VerifyBark? && Finds(s.db, s.tasks[tid].hash, key)
    ensures Follows(cfg, start, s') && OnlyAnswers(s, s') && s'.tasks == s.tasks - {tid}
    ensures var VerifyBark(address, target, hash, _) := s.tasks[tid];
      s'.answers == s.answers + RowAnswer(TableOf(s.db, key.kind).rows[key.id], address, target, hash, key)
  {
    s' := LooksUp(cfg, start, s, tid, key);
    if tid in s'.tasks {
      s' := LooksUp(cfg, start, s', tid, key);
    }
  }

  /** Ways to ask for an invoice: by its own address, or by a registered name of that address. */
  ghost predicate AsksFor(db: Db, text: string, address: string) {
    || text == address
    || exists a :: a in db.names.addresses.rows && db.names.addresses.rows[a] == CustomAddress(text, address)
  }

  lemma AskedResolves(cfg: Config, s: State, key: Key, text: string)
    requires Reachable(cfg, s) && !key.kind.NameRow? && key.id in TableOf(s.db, key.kind).rows
    requires AsksFor(s.db, text, TableOf(s.db, key.kind).rows[key.id].address)
    ensures Resolves(cfg, s.db.names.addresses, text, TableOf(s.db, key.kind).rows[key.id].address)
  {
    var address := TableOf(s.db, key.kind).rows[key.id].address;
    ReachableInvoices(cfg, s, key.kind);
    if text != address {
      var a :| a in s.db.names.addresses.rows && s.db.names.addresses.rows[a] == CustomAddress(text, address);
      FollowsItself(cfg, s);
      ActiveNameResolves(cfg, s, s, a, address);
    }
  }

  /**
   `verify` is complete: in every reachable state, a request for the address of an invoice or a name of that address,
   with the hash that finds it, is answered, and the answer says what the row says.
   */
  lemma VerifyAnswers(cfg: Config, s: State, text: string, hash: string, key: Key) returns (s': State)
    requires Reachable(cfg, s) && Finds(s.db, hash, key)
      && AsksFor(s.db, text, TableOf(s.db, key.kind).rows[key.id].address)
    ensures Follows(cfg, s, s') && s'.db == s.db && s'.tasks == s.tasks
    ensures var row := TableOf(s.db, key.kind).rows[key.id];
      var settled := row.state.Settled? && row.preimage != "";
      s'.answers == s.answers + [Answer(text, hash, settled, if settled then row.preimage else "", key)]
  {
    var tid := UnusedTask(s);
    var target := TableOf(s.db, key.kind).rows[key.id].address;
    AskedResolves(cfg, s, key, text);
    FollowsItself(cfg, s);
    FollowsStep(cfg, s, s, StartVerify(tid, text, target, hash));
    s' := UninterruptedVerify(cfg, s, Do(cfg, s, StartVerify(tid, text, target, hash)), tid, key);
  }

  /** The claim of a row whose preimage barkd shows. */
  lemma RevealedRowSettles(cfg: Config, start: State, s: State, id: Id, preimage: string) returns (s': State)
    requires Follows(cfg, start, s) && IsPending(s.db.invoices, id) && Keyed(s.db.invoices)
    requires var hash := s.db.invoices.rows[id].paymentHash;
      hash.Some? && hash.value in s.wallet.receives
        && s.wallet.receives[hash.value].phase in {"preimage-revealed", "delivering", "settled"}
        && s.wallet.receives[hash.value].preimage == Some(preimage)
    ensures Follows(cfg, start, s') && s'.tasks == s.tasks && Quiet(s, s')
    ensures s'.db == s.db.(invoices := s.db.invoices.(rows := s.db.invoices.rows[id :=
      s.db.invoices.rows[id].(state := Settled, preimage := preimage, settledAt := Some(s.now))]))
  {
    var tid := UnusedTask(s);
    FollowsStep(cfg, start, s, StartBark(tid, id));
    var s1 := Do(cfg, s, StartBark(tid, id));
    s' := UninterruptedBarkClaim(cfg, s1, tid);
    FollowsOn(cfg, start, s1, s');
  }

  lemma FollowsOn(cfg: Config, start: State, s: State, s': State)
    requires Follows(cfg, start, s) && Follows(cfg, s, s')
    ensures Follows(cfg, start, s')
  {
    var first: seq<Step> :| Legal(cfg, start, first) && Run(cfg, start, first) == s;
    var second: seq<Step> :| Legal(cfg, s, second) && Run(cfg, s, second) == s';
    RunsCompose(cfg, start, first, second);
  }

  /**
   A payment shows at once: a request for a pending Bark invoice whose preimage barkd has revealed is answered as
   settled, with that preimage, although no poll has seen it yet.
   */
  lemma VerifyRefreshes(cfg: Config, s: State, tid: nat, id: Id, preimage: string) returns (s': State)
    requires Reachable(cfg, s) && IsPending(s.db.invoices, id) && tid in s.tasks && preimage != ""
    requires var row := s.db.invoices.rows[id];
      && s.tasks[tid].VerifyBark? && !s.tasks[tid].again
      && s.tasks[tid].target == row.address && s.tasks[tid].hash == row.bolt11.paymentHash
    requires var hash := s.tasks[tid].hash;
      hash in s.wallet.receives && s.wallet.receives[hash].phase in {"preimage-revealed", "delivering", "settled"}
        && s.wallet.receives[hash].preimage == Some(preimage)
    ensures Follows(cfg, s, s') && s'.tasks == s.tasks - {tid}
    ensures s'.answers == s.answers
      + [Answer(s.tasks[tid].address, s.tasks[tid].hash, true, preimage, Key(BarkRow, id))]
  {
    ReachableInvoices(cfg, s, BarkRow);
    FollowsItself(cfg, s);
    var s1 := LooksUp(cfg, s, s, tid, Key(BarkRow, id));
    var s2 := RevealedRowSettles(cfg, s, s1, id, preimage);
    s' := LooksUp(cfg, s, s2, tid, Key(BarkRow, id));
  }

  // ---------- Purchases ----------

  /** The row that a purchase inserts: the signed names, and the terms of the fee invoice for at most an hour. */
  function ReservedRow(cfg: Config, id: Id, name: string, target: string, signature: string, fee: string,
                       bolt11: Bolt11, feeSats: nat, now: Time): CustomInvoice {
    CustomInvoice(id, name, target,
      "arkzap.me custom address\nname: " + name + "\ndomain: " + cfg.domain + "\nark_address: " + target,
      signature, fee, bolt11, 1_000 * feeSats, Some(bolt11.paymentHash), "", None, Pending,
      if bolt11.expiry < now + 3_600_000_000 then bolt11.expiry else now + 3_600_000_000, None)
  }

  lemma MessageText(domain: string, name: string, target: string)
    ensures SignatureMessage(domain, name, target)
      == "arkzap.me custom address\nname: " + name + "\ndomain: " + domain + "\nark_address: " + target
  {
  }

  lemma GetsFeeInvoice(cfg: Config, start: State, s: State, tid: nat, fee: string, bolt11: Bolt11, feeSats: nat)
    returns (s': State)
    requires Follows(cfg, start, s) && tid in s.tasks && s.tasks[tid].CreateAddress? && fee !in s.wallet.issued
    ensures Follows(cfg, start, s') && s'.db == s.db && s'.now == s.now
    ensures s'.tasks == s.tasks[tid :=
      CreateInsert(NewReservation(cfg, s.tasks[tid].owner, fee, bolt11, feeSats, s.now))]
  {
    s' := TaskSteps(cfg, start, s, tid, FreshAddress(fee));
    s' := TaskSteps(cfg, start, s', tid, FreshInvoice(bolt11, feeSats));
  }

  lemma ReservationTerms(cfg: Config, id: Id, owner: Ownership, fee: string, bolt11: Bolt11, feeSats: nat, now: Time)
    ensures NewReservation(cfg, owner, fee, bolt11, feeSats, now).(id := id)
      == ReservedRow(cfg, id, owner.name, owner.arkAddress, owner.signature, fee, bolt11, feeSats, now)
  {
    MessageText(cfg.domain, owner.name, owner.arkAddress);
  }

  /** The reservations with one more row. */
  function WithReservation(db: Db, row: CustomInvoice): Db {
    var t := db.names.invoices;
    db.(names := db.names.(invoices := Table(t.rows[t.next := row], t.next + 1)))
  }

  lemma Inserts(cfg: Config, start: State, s: State, tid: nat) returns (s': State)
    requires Follows(cfg, start, s) && tid in s.tasks && s.tasks[tid].CreateInsert?
      && CanReserve(s.db.names.invoices, s.tasks[tid].invoice)
    ensures Follows(cfg, start, s') && s'.tasks == s.tasks - {tid}
    ensures s'.db == WithReservation(s.db, s.tasks[tid].invoice.(id := s.db.names.invoices.next))
  {
    s' := TaskSteps(cfg, start, s, tid, NoReply);
  }

  lemma PurchaseIsStored(cfg: Config, start: State, s: State, tid: nat, fee: string, bolt11: Bolt11, feeSats: nat)
    returns (s': State)
    requires Follows(cfg, start, s) && tid in s.tasks && s.tasks[tid].CreateAddress?
    requires fee !in s.wallet.issued && !NameReserved(s.db.names.invoices, s.tasks[tid].owner.name)
    requires !HashUsed(s.db.names.invoices, Some(bolt11.paymentHash))
    ensures Follows(cfg, start, s') && s'.tasks == s.tasks - {tid}
    ensures var Ownership(name, target, signature) := s.tasks[tid].owner;
      s'.db == WithReservation(s.db,
        ReservedRow(cfg, s.db.names.invoices.next, name, target, signature, fee, bolt11, feeSats, s.now))
  {
    ReservationTerms(cfg, s.db.names.invoices.next, s.tasks[tid].owner, fee, bolt11, feeSats, s.now);
    s' := GetsFeeInvoice(cfg, start, s, tid, fee, bolt11, feeSats);
    s' := Inserts(cfg, start, s', tid);
  }

  /** The two checks of a purchase: it goes on exactly if the name is neither active nor reserved. */
  lemma PurchaseChecks(cfg: Config, start: State, s: State, tid: nat) returns (s': State)
    requires Follows(cfg, start, s) && tid in s.tasks && s.tasks[tid].CreateCheckActive?
    ensures var owner := s.tasks[tid].owner;
      && Follows(cfg, start, s')
      && s' == s.(tasks :=
           if NameTaken(s.db.names.addresses, owner.name) || NameReserved(s.db.names.invoices, owner.name)
           then s.tasks - {tid} else s.tasks[tid := CreateAddress(owner)])
  {
    s' := TaskSteps(cfg, start, s, tid, NoReply);
    if tid in s'.tasks {
      s' := TaskSteps(cfg, start, s', tid, NoReply);
    }
  }

  lemma PurchaseStarts(cfg: Config, s: State, tid: nat, text: string, name: string, address: string, target: string,
                       signature: string) returns (s': State)
    requires tid !in s.tasks && IsCanonical(IsAddress(cfg), name) && Writes(text, name)
    requires cfg.parse(address) == Some(BarkAddress(target, true)) && ByteLength(signature) <= 128
    requires cfg.verifies(target,
      "arkzap.me custom address\nname: " + name + "\ndomain: " + cfg.domain + "\nark_address: " + target, signature)
    ensures Follows(cfg, s, s')
      && s' == s.(tasks := s.tasks[tid := CreateCheckActive(Ownership(name, target, signature))])
  {
    NormalizeMeaning(IsAddress(cfg), text, name);
    MessageText(cfg.domain, name, target);
    FollowsItself(cfg, s);
    FollowsStep(cfg, s, s, StartCreate(tid, text, address, signature));
    s' := Do(cfg, s, StartCreate(tid, text, address, signature));
  }

  /**
   A purchase that nobody interrupts: with an accepted name, a Bark address on this network and a signature of it, it
   reserves the name on the terms of the fee invoice, exactly if the name is neither active nor reserved.
   */
  lemma UninterruptedPurchase(cfg: Config, s: State, text: string, name: string, address: string, target: string,
                              signature: string, fee: string, bolt11: Bolt11, feeSats: nat) returns (s': State)
    requires IsCanonical(IsAddress(cfg), name) && Writes(text, name)
    requires cfg.parse(address) == Some(BarkAddress(target, true)) && ByteLength(signature) <= 128
    requires cfg.verifies(target,
      "arkzap.me custom address\nname: " + name + "\ndomain: " + cfg.domain + "\nark_address: " + target, signature)
    requires fee !in s.wallet.issued && !HashUsed(s.db.names.invoices, Some(bolt11.paymentHash))
    ensures Follows(cfg, s, s') && s'.tasks == s.tasks
    ensures var id := s.db.names.invoices.next;
      s'.db == if NameTaken(s.db.names.addresses, name) || NameReserved(s.db.names.invoices, name) then s.db
        else WithReservation(s.db, ReservedRow(cfg, id, name, target, signature, fee, bolt11, feeSats, s.now))
  {
    var tid := UnusedTask(s);
    var s1 := PurchaseStarts(cfg, s, tid, text, name, address, target, signature);
    s' := PurchaseChecks(cfg, s, s1, tid);
    if tid in s'.tasks {
      s' := PurchaseIsStored(cfg, s, s', tid, fee, bolt11, feeSats);
    }
  }

  // ---------- Reservations run out ----------

  /** No reservation lasts for more than an hour from now. */
  ghost predicate HoldsAnHour(s: State) {
    forall id :: id in s.db.names.invoices.rows ==> s.db.names.invoices.rows[id].expiresAt <= s.now + 3_600_000_000
  }

  lemma EffectHoldsAnHour(s: State, effect: Effect)
    requires HoldsAnHour(s) && DecidesOrReserves(s, effect)
    ensures HoldsAnHour(Apply(s, effect))
  {
    match effect
    case CancelName(_, _) =>
    case CommitName(_, _, _) =>
    case Reserve(_) =>
    case _ => assert Apply(s, effect).db.names == s.db.names && Apply(s, effect).now == s.now;
  }

  predicate DecidesOrReserves(s: State, effect: Effect) {
    effect.Reserve? ==> effect.invoice.expiresAt <= s.now + 3_600_000_000
  }

  lemma StepHoldsAnHour(cfg: Config, s: State, step: Step)
    requires TasksOk(cfg, s) && HoldsAnHour(s) && Can(cfg, s, step) && s.now <= Do(cfg, s, step).now
    ensures HoldsAnHour(Do(cfg, s, step))
  {
    if step.TaskStep? {
      assert TaskOk(cfg, s, s.tasks[step.tid]);
      EffectHoldsAnHour(s, Advance(cfg, s, step.tid, step.reply).effect);
    } else {
      OtherStepsKeepNames(cfg, s, step);
    }
  }

  lemma {:induction false} RunHoldsAnHour(cfg: Config, s: State, steps: seq<Step>)
    requires Inv(cfg, s) && HoldsAnHour(s) && Legal(cfg, s, steps)
    ensures HoldsAnHour(Run(cfg, s, steps))
    decreases |steps|
  {
    if steps != [] {
      StepOk(cfg, s, steps[0]);
      InvIsSound(cfg, s);
      StepHoldsAnHour(cfg, s, steps[0]);
      RunHoldsAnHour(cfg, Do(cfg, s, steps[0]), steps[1..]);
    }
  }

  /** In every reachable state, no reservation lasts for more than an hour from now, nor longer than its fee invoice. */
  lemma ReservationsHoldAnHour(cfg: Config, s: State, id: Id)
    requires Reachable(cfg, s) && id in s.db.names.invoices.rows
    ensures var invoice := s.db.names.invoices.rows[id];
      invoice.expiresAt <= s.now + 3_600_000_000 && invoice.expiresAt <= invoice.bolt11.expiry
  {
    var now: Time :| Follows(cfg, Init(now), s);
    var steps: seq<Step> :| Legal(cfg, Init(now), steps) && Run(cfg, Init(now), steps) == s;
    InitInv(cfg, now);
    RunHoldsAnHour(cfg, Init(now), steps);
    ReachableNames(cfg, s);
  }

  lemma NothingToFind(history: seq<Movement>, invoice: CustomInvoice)
    requires TermsOk(invoice) && FeeMissing(history, invoice)
    ensures ReceivedArkPayment(history, invoice.feeReceiveAddress, FeeSats(invoice)).None?
  {
    var address, fee := invoice.feeReceiveAddress, FeeSats(invoice);
    ReceivedArkPaymentMeaning(history, address, fee);
    assert forall m: nat, d: nat :: !PaysAt(history, m, d, address, fee);
  }

  lemma UnpaidClaimReleases(s: State, invoice: CustomInvoice)
    requires WalletOk(s.wallet, s.now) && TermsOk(invoice) && CustomIsPending(s.db.names.invoices, invoice.id)
    requires invoice.bolt11.paymentHash !in s.wallet.acceptedAt && FeeMissing(s.wallet.history, invoice)
    requires invoice.expiresAt <= s.now
    ensures Poller.ClaimCustom(s.db.names, invoice, NameTurnNow(s, invoice)).registry
      == s.db.names.(invoices := CancelCustom(s.db.names.invoices, invoice.id).0)
  {
    NothingToFind(s.wallet.history, invoice);
  }

  /** A claim of this reservation starts once it has expired. */
  lemma ClaimStartsLate(cfg: Config, s: State, tid: nat, id: Id) returns (s': State)
    requires tid !in s.tasks && CustomIsPending(s.db.names.invoices, id)
    ensures var invoice := s.db.names.invoices.rows[id];
      var later := if s.now < invoice.expiresAt then invoice.expiresAt else s.now;
      Follows(cfg, s, s') && s' == s.(now := later, tasks := s.tasks[tid := NameObserve(invoice)])
  {
    var invoice := s.db.names.invoices.rows[id];
    var later := if s.now < invoice.expiresAt then invoice.expiresAt else s.now;
    FollowsItself(cfg, s);
    FollowsStep(cfg, s, s, Tick(later));
    var s1 := Do(cfg, s, Tick(later));
    FollowsStep(cfg, s, s1, StartName(tid, id));
    s' := Do(cfg, s1, StartName(tid, id));
  }

  lemma CancelFreesName(t: Table<CustomInvoice>, id: Id)
    requires CustomIsPending(t, id) && OnePendingPerName(t)
    ensures CancelCustom(t, id).0 == t.(rows := t.rows[id := t.rows[id].(state := Cancelled)])
    ensures !NameReserved(CancelCustom(t, id).0, t.rows[id].name)
  {
  }

  /** What such a claim may rely on. */
  ghost predicate StaysUnpaid(s: State, id: Id)
    requires id in s.db.names.invoices.rows
  {
    var invoice := s.db.names.invoices.rows[id];
    && WalletOk(s.wallet, s.now) && TermsOk(invoice) && invoice.id == id && OnePendingPerName(s.db.names.invoices)
    && invoice.bolt11.paymentHash !in s.wallet.acceptedAt && FeeMissing(s.wallet.history, invoice)
  }

  lemma ReservationUnpaid(cfg: Config, s: State, id: Id)
    requires Reachable(cfg, s) && CustomIsPending(s.db.names.invoices, id)
    requires var invoice := s.db.names.invoices.rows[id];
      invoice.bolt11.paymentHash !in s.wallet.acceptedAt && FeeMissing(s.wallet.history, invoice)
    ensures StaysUnpaid(s, id)
  {
    ReachableNames(cfg, s);
    ReachableWallet(cfg, s);
  }

  /** No transaction holds the row or the name of an unpaid reservation: each of them has a payment at hand. */
  lemma UnpaidUnlocked(cfg: Config, s: State, id: Id, tid: nat)
    requires TasksOk(cfg, s) && LocksOk(s) && CustomIsPending(s.db.names.invoices, id) && StaysUnpaid(s, id)
    ensures RowFree(s, tid, id) && NameFree(s, tid, s.db.names.invoices.rows[id].name)
  {
    var name := s.db.names.invoices.rows[id].name;
    forall other | other in s.tasks ensures !HoldsRow(s.tasks[other], id) {
      UnpaidRowUnlocked(cfg, s, id, other);
    }
    forall other | other in s.tasks ensures !HoldsName(s.tasks[other], name) {
      if HoldsName(s.tasks[other], name) {
        CommitHoldsRow(cfg, s, other);
        UnpaidRowUnlocked(cfg, s, id, other);
      }
    }
  }

  lemma CommitHoldsRow(cfg: Config, s: State, tid: nat)
    requires TasksOk(cfg, s) && LocksOk(s) && tid in s.tasks && s.tasks[tid].TxnCommit?
    ensures var invoice := s.tasks[tid].invoice;
      CustomIsPending(s.db.names.invoices, invoice.id) && s.db.names.invoices.rows[invoice.id].name == invoice.name
  {
    assert HoldsRow(s.tasks[tid], s.tasks[tid].invoice.id) && TaskOk(cfg, s, s.tasks[tid]);
  }

  /** Every payment that a claim may hold for the reservation has been accepted or is in the history. */
  lemma NoPaymentAtHand(s: State, id: Id, invoice: CustomInvoice, payment: Payment)
    requires id in s.db.names.invoices.rows && StaysUnpaid(s, id)
    requires invoice.id == id && CustomCloneOf(s.db.names.invoices, invoice)
    ensures !PaymentOk(s, invoice, payment)
  {
    NothingToFind(s.wallet.history, s.db.names.invoices.rows[id]);
    ReceivedArkPaymentMeaning(s.wallet.history, invoice.feeReceiveAddress, FeeSats(invoice));
  }

  lemma UnpaidRowUnlocked(cfg: Config, s: State, id: Id, tid: nat)
    requires TasksOk(cfg, s) && id in s.db.names.invoices.rows && StaysUnpaid(s, id) && tid in s.tasks
    ensures !HoldsRow(s.tasks[tid], id)
  {
    var task := s.tasks[tid];
    assert TaskOk(cfg, s, task);
    if (task.TxnInsert? || task.TxnCommit?) && task.invoice.id == id
      && CustomCloneOf(s.db.names.invoices, task.invoice)
    {
      NoPaymentAtHand(s, id, task.invoice, task.payment);
    }
  }

  lemma UnpaidLater(s: State, s': State, id: Id)
    requires id in s.db.names.invoices.rows && StaysUnpaid(s, id)
    requires s'.db == s.db && s'.wallet == s.wallet && s.now <= s'.now
    ensures StaysUnpaid(s', id)
  {
  }

  lemma LateClaimReleases(cfg: Config, s: State, tid: nat, id: Id) returns (s': State)
    requires CustomIsPending(s.db.names.invoices, id) && StaysUnpaid(s, id) && tid in s.tasks
    requires s.tasks[tid] == NameObserve(s.db.names.invoices.rows[id])
      && s.db.names.invoices.rows[id].expiresAt <= s.now
    requires RowFree(s, tid, id) && NameFree(s, tid, s.db.names.invoices.rows[id].name)
    ensures Follows(cfg, s, s') && s'.db == s.db.(names := s.db.names.(invoices :=
      CancelCustom(s.db.names.invoices, id).0)) && s'.now == s.now
  {
    UnpaidClaimReleases(s, s.db.names.invoices.rows[id]);
    s' := UninterruptedNameClaim(cfg, s, tid);
  }

  /**
   Nobody blocks a name without paying: a reservation with no payment on either rail is released by a claim within the
   hour, whatever else is going on, and its name is free again.
   */
  lemma UnpaidNameIsFreed(cfg: Config, s: State, id: Id) returns (s': State)
    requires Reachable(cfg, s) && CustomIsPending(s.db.names.invoices, id)
    requires var invoice := s.db.names.invoices.rows[id];
      invoice.bolt11.paymentHash !in s.wallet.acceptedAt && FeeMissing(s.wallet.history, invoice)
    ensures Follows(cfg, s, s') && s.now <= s'.now <= s.now + 3_600_000_000
    ensures var t := s.db.names.invoices;
      s'.db == s.db.(names := s.db.names.(invoices := t.(rows := t.rows[id := t.rows[id].(state := Cancelled)])))
    ensures !NameReserved(s'.db.names.invoices, s.db.names.invoices.rows[id].name)
  {
    var tid := UnusedTask(s);
    ReservationsHoldAnHour(cfg, s, id);
    ReservationUnpaid(cfg, s, id);
    ReachableTasks(cfg, s);
    UnpaidUnlocked(cfg, s, id, tid);
    var s1 := ClaimStartsLate(cfg, s, tid, id);
    UnpaidLater(s, s1, id);
    CancelFreesName(s.db.names.invoices, id);
    s' := LateClaimReleases(cfg, s1, tid, id);
    FollowsOn(cfg, s, s1, s');
  }
}

/**
 One step of one task: its effect has grounds, its next program point is justified, and locks and fees stay exclusive.
 */
module ServerTasks {
  import opened Wrappers
  import opened Barkd
  import opened Ledger
  import opened Server
  import opened ServerInvariant
  import opened ServerEffects

  /** The move that a task makes is sound. */
  ghost predicate MoveOk(cfg: Config, s: State, move: Move) {
    && EffectOk(cfg, s, move.effect)
    && (move.next.Some? ==> TaskOk(cfg, Apply(s, move.effect), move.next.value))
  }

  lemma CloneReads(t: Table<Invoice>, row: Invoice)
    requires CloneOf(t, row)
    ensures PaymentHashOf(t.rows[row.id]) == PaymentHashOf(row)
    ensures forall now :: HasExpired(t.rows[row.id], now) == HasExpired(row, now)
    ensures t.rows[row.id].backend == row.backend
  {
  }

  lemma CustomCloneReads(t: Table<CustomInvoice>, invoice: CustomInvoice)
    requires CustomCloneOf(t, invoice)
    ensures var stored := t.rows[invoice.id];
      && CustomPaymentHashOf(stored) == CustomPaymentHashOf(invoice)
      && (forall now :: CustomHasExpired(stored, now) == CustomHasExpired(invoice, now))
      && FeeSats(stored) == FeeSats(invoice) && stored.feeReceiveAddress == invoice.feeReceiveAddress
           && stored.name == invoice.name
  {
  }

  lemma ObservationOk(s: State, hash: string)
    requires WalletOk(s.wallet, s.now)
    ensures SeenOk(s, hash, SeenFor(s.wallet, hash), s.now)
  {
  }

  lemma BarkMoveOk(cfg: Config, s: State, tid: nat, reply: Reply)
    requires WalletOk(s.wallet, s.now) && CanAdvance(cfg, s, tid, reply) && TaskOk(cfg, s, s.tasks[tid])
    requires var task := s.tasks[tid]; task.BarkObserve? || task.BarkApply? || task.BarkSettle? || task.BarkCancel?
    ensures MoveOk(cfg, s, Advance(cfg, s, tid, reply))
  {
    var row := s.tasks[tid].row;
    CloneReads(s.db.invoices, row);
    ObservationOk(s, PaymentHashOf(row));
  }

  lemma ArkadeMoveOk(cfg: Config, s: State, tid: nat, reply: Reply)
    requires CanAdvance(cfg, s, tid, reply) && TaskOk(cfg, s, s.tasks[tid])
    requires var task := s.tasks[tid];
      task.ArkadeCheck? || task.ArkadeClaim? || task.ArkadeSettle? || task.ArkadeCancel?
    ensures MoveOk(cfg, s, Advance(cfg, s, tid, reply))
  {
    CloneReads(s.db.arkade, s.tasks[tid].row);
  }

  lemma FeeSearchOk(s: State, invoice: CustomInvoice)
    ensures var found := ReceivedArkPayment(s.wallet.history, invoice.feeReceiveAddress, FeeSats(invoice));
      && (found.None? ==> NoFeePayment(s, invoice, |s.wallet.history|))
      && (found.Some? ==> PaymentOk(s, invoice, ArkTransfer(found.value.reference)))
  {
    var history := s.wallet.history;
    assert history[..|history|] == history;
    ReceivedArkPaymentMeaning(history, invoice.feeReceiveAddress, FeeSats(invoice));
  }

  lemma NameArkMoveOk(cfg: Config, s: State, tid: nat, reply: Reply)
    requires CanAdvance(cfg, s, tid, reply) && TaskOk(cfg, s, s.tasks[tid]) && s.tasks[tid].NameArk?
    ensures MoveOk(cfg, s, Advance(cfg, s, tid, reply))
  {
    FeeSearchOk(s, s.tasks[tid].invoice);
  }

  lemma NameExpiryMoveOk(cfg: Config, s: State, tid: nat, reply: Reply)
    requires CanAdvance(cfg, s, tid, reply) && TaskOk(cfg, s, s.tasks[tid])
      && (s.tasks[tid].NameExpiry? || s.tasks[tid].NameCancel?)
    ensures MoveOk(cfg, s, Advance(cfg, s, tid, reply))
  {
    CustomCloneReads(s.db.names.invoices, s.tasks[tid].invoice);
  }

  lemma NameMoveOk(cfg: Config, s: State, tid: nat, reply: Reply)
    requires WalletOk(s.wallet, s.now) && CanAdvance(cfg, s, tid, reply) && TaskOk(cfg, s, s.tasks[tid])
    requires var task := s.tasks[tid]; task.NameObserve? || task.NameArk? || task.NameExpiry? || task.NameCancel?
    ensures MoveOk(cfg, s, Advance(cfg, s, tid, reply))
  {
    if s.tasks[tid].NameObserve? {
      ObservationOk(s, CustomPaymentHashOf(s.tasks[tid].invoice));
    } else if s.tasks[tid].NameArk? {
      NameArkMoveOk(cfg, s, tid, reply);
    } else {
      NameExpiryMoveOk(cfg, s, tid, reply);
    }
  }

  lemma TxnCommitMoveOk(cfg: Config, s: State, tid: nat, reply: Reply)
    requires LocksOk(s) && CanAdvance(cfg, s, tid, reply) && TaskOk(cfg, s, s.tasks[tid]) && s.tasks[tid].TxnCommit?
    ensures MoveOk(cfg, s, Advance(cfg, s, tid, reply))
  {
    assert HoldsRow(s.tasks[tid], s.tasks[tid].invoice.id) && HoldsName(s.tasks[tid], s.tasks[tid].invoice.name);
  }

  lemma TxnTakenMoveOk(cfg: Config, s: State, tid: nat, reply: Reply)
    requires CanAdvance(cfg, s, tid, reply) && TaskOk(cfg, s, s.tasks[tid]) && s.tasks[tid].TxnTaken?
    ensures MoveOk(cfg, s, Advance(cfg, s, tid, reply))
  {
    CustomCloneReads(s.db.names.invoices, s.tasks[tid].invoice);
  }

  lemma TxnMoveOk(cfg: Config, s: State, tid: nat, reply: Reply)
    requires LocksOk(s) && CanAdvance(cfg, s, tid, reply) && TaskOk(cfg, s, s.tasks[tid])
    requires var task := s.tasks[tid];
      task.TxnRead? || task.TxnTaken? || task.TxnUpdate? || task.TxnInsert? || task.TxnCommit?
    ensures MoveOk(cfg, s, Advance(cfg, s, tid, reply))
  {
    if s.tasks[tid].TxnCommit? {
      TxnCommitMoveOk(cfg, s, tid, reply);
    } else if s.tasks[tid].TxnTaken? {
      TxnTakenMoveOk(cfg, s, tid, reply);
    }
  }

  lemma NewReservationOk(cfg: Config, owner: Ownership, fee: string, bolt11: Bolt11, feeSats: nat, now: Time)
    requires OwnerOk(cfg, owner)
    ensures ReservationOk(cfg, NewReservation(cfg, owner, fee, bolt11, feeSats, now))
  {
  }

  lemma CreateInvoiceMoveOk(cfg: Config, s: State, tid: nat, reply: Reply)
    requires CanAdvance(cfg, s, tid, reply) && TaskOk(cfg, s, s.tasks[tid]) && s.tasks[tid].CreateInvoice?
    ensures MoveOk(cfg, s, Advance(cfg, s, tid, reply))
  {
    NewReservationOk(cfg, s.tasks[tid].owner, s.tasks[tid].fee, reply.bolt11, reply.feeSats, s.now);
  }

  lemma CreateCheckMoveOk(cfg: Config, s: State, tid: nat, reply: Reply)
    requires CanAdvance(cfg, s, tid, reply) && TaskOk(cfg, s, s.tasks[tid])
    requires var task := s.tasks[tid]; task.CreateCheckActive? || task.CreateCheckPending? || task.CreateAddress?
    ensures MoveOk(cfg, s, Advance(cfg, s, tid, reply))
  {
  }

  lemma CreateMoveOk(cfg: Config, s: State, tid: nat, reply: Reply)
    requires CanAdvance(cfg, s, tid, reply) && TaskOk(cfg, s, s.tasks[tid])
    requires var task := s.tasks[tid];
      task.CreateCheckActive? || task.CreateCheckPending? || task.CreateAddress? || task.CreateInvoice? ||
      task.CreateInsert? ensures MoveOk(cfg, s, Advance(cfg, s, tid, reply))
  {
    if s.tasks[tid].CreateInvoice? {
      CreateInvoiceMoveOk(cfg, s, tid, reply);
    } else if !s.tasks[tid].CreateInsert? {
      CreateCheckMoveOk(cfg, s, tid, reply);
    }
  }

  lemma VerifyMoveOk(cfg: Config, s: State, tid: nat, reply: Reply)
    requires CanAdvance(cfg, s, tid, reply) && TaskOk(cfg, s, s.tasks[tid])
    requires s.tasks[tid].VerifyBark? || s.tasks[tid].VerifyArkade?
    ensures MoveOk(cfg, s, Advance(cfg, s, tid, reply))
  {
  }

  lemma AdvanceOk(cfg: Config, s: State, tid: nat, reply: Reply)
    requires Inv(cfg, s) && CanAdvance(cfg, s, tid, reply)
    ensures MoveOk(cfg, s, Advance(cfg, s, tid, reply))
  {
    var task := s.tasks[tid];
    assert TaskOk(cfg, s, task);
    if task.BarkObserve? || task.BarkApply? || task.BarkSettle? || task.BarkCancel? {
      BarkMoveOk(cfg, s, tid, reply);
    } else if task.ArkadeCheck? || task.ArkadeClaim? || task.ArkadeSettle? || task.ArkadeCancel? {
      ArkadeMoveOk(cfg, s, tid, reply);
    } else if task.NameObserve? || task.NameArk? || task.NameExpiry? || task.NameCancel? {
      NameMoveOk(cfg, s, tid, reply);
    } else if task.TxnRead? || task.TxnTaken? || task.TxnUpdate? || task.TxnInsert? || task.TxnCommit? {
      TxnMoveOk(cfg, s, tid, reply);
    } else if task.VerifyBark? || task.VerifyArkade? {
      VerifyMoveOk(cfg, s, tid, reply);
    } else if !task.NotifyPublisher? {
      CreateMoveOk(cfg, s, tid, reply);
    }
  }

  // ---------- Locks ----------

  /** What a move may do to locks: release its own, take one that is free, or leave locked rows and names alone. */
  ghost predicate RespectsLocks(s: State, tid: nat, move: Move) {
    && (match move.effect
        case CancelName(id, _) => RowFree(s, tid, id)
        case CommitName(invoice, _, _) => RowFree(s, tid, invoice.id) && NameFree(s, tid, invoice.name)
        case _ => true)
    && (move.next.Some? ==>
          && (forall id :: HoldsRow(move.next.value, id) ==>
                move.effect.Nothing? && CustomIsPending(s.db.names.invoices, id) && RowFree(s, tid, id))
          && (forall name :: HoldsName(move.next.value, name) ==>
                move.effect.Nothing? && !NameTaken(s.db.names.addresses, name) && NameFree(s, tid, name)))
    && ((move.effect.CancelName? || move.effect.CommitName?) ==> move.next.None?)
  }

  lemma AdvanceRespectsLocks(cfg: Config, s: State, tid: nat, reply: Reply)
    requires LocksOk(s) && CanAdvance(cfg, s, tid, reply)
    ensures RespectsLocks(s, tid, Advance(cfg, s, tid, reply))
  {
    var task := s.tasks[tid];
    if task.TxnInsert? || task.TxnCommit? {
      assert HoldsRow(task, task.invoice.id);
    }
    if task.TxnCommit? {
      assert HoldsName(task, task.invoice.name);
    }
  }

  /**
   Between two states only task `tid` changed its program point, and rows and names locked by others kept their
   standing.
   */
  ghost predicate LocksFollow(s: State, s': State, tid: nat) {
    && (forall other :: other in s'.tasks && other != tid ==> other in s.tasks && s'.tasks[other] == s.tasks[other])
    && (forall id :: CustomIsPending(s.db.names.invoices, id) && !RowFree(s, tid, id) ==>
          CustomIsPending(s'.db.names.invoices, id))
    && (forall name :: NameTaken(s'.db.names.addresses, name) && !NameTaken(s.db.names.addresses, name) ==>
          NameFree(s, tid, name))
    && (tid in s'.tasks ==>
          && (forall id :: HoldsRow(s'.tasks[tid], id) ==>
                CustomIsPending(s'.db.names.invoices, id) && RowFree(s, tid, id))
          && (forall name :: HoldsName(s'.tasks[tid], name) ==>
                !NameTaken(s'.db.names.addresses, name) && NameFree(s, tid, name)))
  }

  lemma FollowedRowLocks(s: State, s': State, tid: nat, other: nat, id: Id)
    requires LocksOk(s) && LocksFollow(s, s', tid) && other in s'.tasks && HoldsRow(s'.tasks[other], id)
    ensures CustomIsPending(s'.db.names.invoices, id) && RowFree(s', other, id)
  {
    if other != tid {
      assert HoldsRow(s.tasks[other], id) && RowFree(s, other, id) && CustomIsPending(s.db.names.invoices, id);
      assert !RowFree(s, tid, id);
    }
  }

  lemma FollowedNameLocks(s: State, s': State, tid: nat, other: nat, name: string)
    requires LocksOk(s) && LocksFollow(s, s', tid) && other in s'.tasks && HoldsName(s'.tasks[other], name)
    ensures !NameTaken(s'.db.names.addresses, name) && NameFree(s', other, name)
  {
    if other != tid {
      assert HoldsName(s.tasks[other], name) && NameFree(s, other, name) && !NameTaken(s.db.names.addresses, name);
      assert !NameFree(s, tid, name);
    }
  }

  lemma LocksFollowed(s: State, s': State, tid: nat)
    requires LocksOk(s) && LocksFollow(s, s', tid)
    ensures LocksOk(s')
  {
    forall other, id | other in s'.tasks && HoldsRow(s'.tasks[other], id)
      ensures CustomIsPending(s'.db.names.invoices, id) && RowFree(s', other, id)
    {
      FollowedRowLocks(s, s', tid, other, id);
    }
    forall other, name | other in s'.tasks && HoldsName(s'.tasks[other], name)
      ensures !NameTaken(s'.db.names.addresses, name) && NameFree(s', other, name)
    {
      FollowedNameLocks(s, s', tid, other, name);
    }
  }

  lemma EffectOnReservations(s: State, effect: Effect, id: Id)
    requires CustomKeyed(s.db.names.invoices) && CustomIsPending(s.db.names.invoices, id)
    ensures CustomIsPending(Apply(s, effect).db.names.invoices, id)
      || (effect.CancelName? && effect.id == id) || (effect.CommitName? && effect.invoice.id == id)
  {
    if effect.Reserve? {
      assert s.db.names.invoices.next !in s.db.names.invoices.rows;
    }
  }

  lemma EffectOnNames(s: State, effect: Effect, name: string)
    requires NameTaken(Apply(s, effect).db.names.addresses, name) && !NameTaken(s.db.names.addresses, name)
    ensures effect.CommitName? && effect.invoice.name == name
  {
    var r, r' := s.db.names.addresses, Apply(s, effect).db.names.addresses;
    var a :| a in r'.rows && r'.rows[a].name == name;
    if a in r.rows {
      assert r.rows[a].name != name;
    }
  }

  lemma NextRespectsLocks(s: State, tid: nat, move: Move)
    requires RespectsLocks(s, tid, move) && move.next.Some?
    ensures var s1 := Apply(s, move.effect);
      && (forall id :: HoldsRow(move.next.value, id) ==>
            CustomIsPending(s1.db.names.invoices, id) && RowFree(s, tid, id))
      && (forall name :: HoldsName(move.next.value, name) ==>
            !NameTaken(s1.db.names.addresses, name) && NameFree(s, tid, name))
  {
  }

  lemma ReservationsFollow(s: State, tid: nat, move: Move)
    requires RespectsLocks(s, tid, move) && CustomKeyed(s.db.names.invoices)
    ensures forall id :: CustomIsPending(s.db.names.invoices, id) && !RowFree(s, tid, id) ==>
      CustomIsPending(Apply(s, move.effect).db.names.invoices, id)
  {
    forall id | CustomIsPending(s.db.names.invoices, id) && !RowFree(s, tid, id)
      ensures CustomIsPending(Apply(s, move.effect).db.names.invoices, id)
    {
      EffectOnReservations(s, move.effect, id);
    }
  }

  lemma NamesFollow(s: State, tid: nat, move: Move)
    requires RespectsLocks(s, tid, move)
    ensures forall name ::
      NameTaken(Apply(s, move.effect).db.names.addresses, name) && !NameTaken(s.db.names.addresses, name) ==>
      NameFree(s, tid, name)
  {
    forall name | NameTaken(Apply(s, move.effect).db.names.addresses, name) && !NameTaken(s.db.names.addresses, name)
      ensures NameFree(s, tid, name)
    {
      EffectOnNames(s, move.effect, name);
    }
  }

  lemma MoveFollowsLocks(s: State, s1: State, tid: nat, next: Option<Task>)
    requires s1.tasks == s.tasks
    requires forall id :: CustomIsPending(s.db.names.invoices, id) && !RowFree(s, tid, id) ==>
      CustomIsPending(s1.db.names.invoices, id)
    requires forall name :: NameTaken(s1.db.names.addresses, name) && !NameTaken(s.db.names.addresses, name) ==>
      NameFree(s, tid, name)
    requires next.Some? ==>
      && (forall id :: HoldsRow(next.value, id) ==> CustomIsPending(s1.db.names.invoices, id) && RowFree(s, tid, id))
      && (forall name :: HoldsName(next.value, name) ==>
            !NameTaken(s1.db.names.addresses, name) && NameFree(s, tid, name))
    ensures LocksFollow(s, WithTask(s1, tid, next), tid)
  {
  }

  lemma MoveKeepsLocks(s: State, tid: nat, move: Move)
    requires LocksOk(s) && RespectsLocks(s, tid, move) && CustomKeyed(s.db.names.invoices)
    ensures LocksOk(WithTask(Apply(s, move.effect), tid, move.next))
  {
    EffectSignals(s, move.effect);
    ReservationsFollow(s, tid, move);
    NamesFollow(s, tid, move);
    if move.next.Some? {
      NextRespectsLocks(s, tid, move);
    }
    MoveFollowsLocks(s, Apply(s, move.effect), tid, move.next);
    LocksFollowed(s, WithTask(Apply(s, move.effect), tid, move.next), tid);
  }

  // ---------- Fee addresses ----------

  ghost predicate RespectsFees(s: State, tid: nat, move: Move) {
    && (move.effect.Reserve? ==>
          tid in s.tasks && HoldsFee(s.tasks[tid], move.effect.invoice.feeReceiveAddress) && move.next.None?)
    && (move.effect.GrantAddress? ==> move.next.Some? && move.effect.address !in s.wallet.issued)
    && (forall fee :: move.next.Some? && HoldsFee(move.next.value, fee) ==>
          (move.effect.Nothing? && tid in s.tasks && HoldsFee(s.tasks[tid], fee))
            || (move.effect == GrantAddress(fee) && fee !in s.wallet.issued))
  }

  lemma AdvanceRespectsFees(cfg: Config, s: State, tid: nat, reply: Reply)
    requires CanAdvance(cfg, s, tid, reply)
    ensures RespectsFees(s, tid, Advance(cfg, s, tid, reply))
  {
  }

  ghost predicate SameHolders(s: State, s': State) {
    forall tid, fee :: tid in s'.tasks && HoldsFee(s'.tasks[tid], fee) ==> tid in s.tasks && HoldsFee(s.tasks[tid], fee)
  }

  lemma SoleHolderStays(s: State, s': State, tid: nat, fee: string)
    requires s.wallet.issued <= s'.wallet.issued && SameFeeRows(s.db.names.invoices, s'.db.names.invoices)
      && SameHolders(s, s')
    requires SoleHolder(s, tid, fee)
    ensures SoleHolder(s', tid, fee)
  {
    FeeRowsBack(s.db.names.invoices, s'.db.names.invoices, fee);
  }

  lemma FeeRowsBack(t: Table<CustomInvoice>, t': Table<CustomInvoice>, fee: string)
    requires SameFeeRows(t, t')
    ensures FeeInRows(t', fee) ==> FeeInRows(t, fee)
  {
    if FeeInRows(t', fee) {
      var id :| id in t'.rows && t'.rows[id].feeReceiveAddress == fee;
      assert t.rows[id].feeReceiveAddress == fee;
    }
  }

  lemma SameFees(s: State, s': State)
    requires FeesOk(s) && s.wallet.issued <= s'.wallet.issued
    requires SameFeeRows(s.db.names.invoices, s'.db.names.invoices) && SameHolders(s, s')
    ensures FeesOk(s')
  {
    forall tid, fee | tid in s'.tasks && HoldsFee(s'.tasks[tid], fee) ensures SoleHolder(s', tid, fee) {
      SoleHolderStays(s, s', tid, fee);
    }
  }

  ghost predicate SameFeeRows(t: Table<CustomInvoice>, t': Table<CustomInvoice>) {
    && t'.rows.Keys == t.rows.Keys
    && (forall id :: id in t.rows ==> t'.rows[id].feeReceiveAddress == t.rows[id].feeReceiveAddress)
  }

  lemma EffectOnFees(s: State, effect: Effect)
    requires DecidesPending(s, effect) && !effect.Reserve?
    ensures SameFeeRows(s.db.names.invoices, Apply(s, effect).db.names.invoices)
    ensures Apply(s, effect).wallet.issued == s.wallet.issued + if effect.GrantAddress? then {effect.address} else {}
  {
    match effect
    case CancelName(id, _) => CancelOnFees(s.db.names.invoices, id);
    case CommitName(invoice, payment, startedAt) => SettleOnFees(s.db.names.invoices, invoice.id, payment, startedAt);
    case _ =>
  }

  lemma CancelOnFees(t: Table<CustomInvoice>, id: Id)
    ensures SameFeeRows(t, CancelCustom(t, id).0)
  {
  }

  lemma SettleOnFees(t: Table<CustomInvoice>, id: Id, payment: Payment, startedAt: Time)
    ensures SameFeeRows(t, SettleCustom(t, id, payment, startedAt).0)
  {
  }

  lemma MoveKeepsFees(s: State, tid: nat, move: Move)
    requires FeesOk(s) && tid in s.tasks && RespectsFees(s, tid, move) && DecidesPending(s, move.effect)
    requires CustomKeyed(s.db.names.invoices)
    ensures FeesOk(WithTask(Apply(s, move.effect), tid, move.next))
  {
    var s' := WithTask(Apply(s, move.effect), tid, move.next);
    EffectSignals(s, move.effect);
    if move.effect.Reserve? {
      ReserveKeepsFees(s, s', tid, move.effect.invoice);
    } else {
      EffectOnFees(s, move.effect);
      if move.effect.GrantAddress? {
        GrantKeepsFees(s, s', tid, move.effect.address);
      } else {
        SameFees(s, s');
      }
    }
  }

  lemma ReserveKeepsFees(s: State, s': State, tid: nat, invoice: CustomInvoice)
    requires FeesOk(s) && tid in s.tasks && HoldsFee(s.tasks[tid], invoice.feeReceiveAddress)
      && CustomKeyed(s.db.names.invoices)
    requires s' == WithTask(Apply(s, Reserve(invoice)), tid, None)
    ensures FeesOk(s')
  {
    var t, t', fee := s.db.names.invoices, s'.db.names.invoices, invoice.feeReceiveAddress;
    assert t.next !in t.rows;
    assert !FeeInRows(t, fee);
    assert SoleHolder(s, tid, fee);
    forall other, held | other in s'.tasks && HoldsFee(s'.tasks[other], held) ensures SoleHolder(s', other, held) {
      assert SoleHolder(s, other, held) && !FeeInRows(t, held);
      assert held != fee;
    }
  }

  lemma GrantKeepsFees(s: State, s': State, tid: nat, granted: string)
    requires FeesOk(s) && granted !in s.wallet.issued && s'.db == s.db
    requires s'.wallet.issued == s.wallet.issued + {granted} && tid in s'.tasks
    requires forall other :: other in s'.tasks && other != tid ==> other in s.tasks && s'.tasks[other] == s.tasks[other]
    requires forall fee :: HoldsFee(s'.tasks[tid], fee) ==> fee == granted
    ensures FeesOk(s')
  {
    forall other, fee | other in s'.tasks && HoldsFee(s'.tasks[other], fee) ensures SoleHolder(s', other, fee) {
      if other != tid {
        assert SoleHolder(s, other, fee);
      }
    }
  }

  // ---------- Wake-ups ----------

  /** A settlement hands over to its notification, and a notification ends by storing the permit. */
  ghost predicate RespectsWakeups(s: State, tid: nat, move: Move) {
    && (move.effect.SettleRow? ==> move.next.Some? && move.next.value.NotifyPublisher?)
    && (tid in s.tasks && s.tasks[tid].NotifyPublisher? ==> move == Move(None, StorePermit))
  }

  lemma AdvanceRespectsWakeups(cfg: Config, s: State, tid: nat, reply: Reply)
    requires CanAdvance(cfg, s, tid, reply)
    ensures RespectsWakeups(s, tid, Advance(cfg, s, tid, reply))
  {
  }

  lemma EffectSignals(s: State, effect: Effect)
    ensures Apply(s, effect).publisher == s.publisher && Apply(s, effect).tasks == s.tasks
    ensures Apply(s, effect).permit == (s.permit || effect.StorePermit?)
    ensures Apply(s, effect).sinceLoad == s.sinceLoad || effect.SettleRow?
  {
  }

  lemma MoveKeepsWakeups(s: State, tid: nat, move: Move)
    requires WakeupOk(s) && RespectsWakeups(s, tid, move)
    ensures WakeupOk(WithTask(Apply(s, move.effect), tid, move.next))
  {
    var s' := WithTask(Apply(s, move.effect), tid, move.next);
    EffectSignals(s, move.effect);
    if s'.sinceLoad != {} && !s'.publisher.Loading? && !s'.permit {
      if move.effect.SettleRow? {
        assert s'.tasks[tid].NotifyPublisher?;
      } else {
        var waiting :| waiting in s.tasks && s.tasks[waiting].NotifyPublisher?;
        assert waiting != tid && s'.tasks[waiting] == s.tasks[waiting];
      }
    }
  }
}

/** What the server promises in every reachable state and over every run. */
module Guarantees {
  import opened Wrappers
  import opened Decimals
  import opened Names
  import opened Barkd
  import opened Ledger
  import opened Receipts
  import opened Server
  import opened ServerInvariant
  import opened ServerEffects
  import opened ServerProof
  import Poller
  import PassOutcomes
  import PassRules

  /** Some run leads from one state to the other. */
  ghost predicate Follows(cfg: Config, s: State, s': State) {
    exists steps: seq<Step> :: Legal(cfg, s, steps) && Run(cfg, s, steps) == s'
  }

  /** Some run from an empty database leads to this state. */
  ghost predicate Reachable(cfg: Config, s: State) {
    FaithfulAddresses(cfg) && exists now: Time :: Follows(cfg, Init(now), s)
  }

  lemma ReachableInv(cfg: Config, s: State)
    requires Reachable(cfg, s)
    ensures Inv(cfg, s)
  {
    var now: Time :| Follows(cfg, Init(now), s);
    var steps: seq<Step> :| Legal(cfg, Init(now), steps) && Run(cfg, Init(now), steps) == s;
    InitInv(cfg, now);
    RunOk(cfg, Init(now), steps);
  }

  lemma {:induction false} RunsCompose(cfg: Config, s: State, first: seq<Step>, second: seq<Step>)
    requires Legal(cfg, s, first) && Legal(cfg, Run(cfg, s, first), second)
    ensures Legal(cfg, s, first + second) && Run(cfg, s, first + second) == Run(cfg, Run(cfg, s, first), second)
    decreases |first|
  {
    if first == [] {
      assert first + second == second;
    } else {
      RunsCompose(cfg, Do(cfg, s, first[0]), first[1..], second);
      assert (first + second)[1..] == first[1..] + second;
    }
  }

  lemma ReachableOnwards(cfg: Config, s: State, s': State)
    requires Reachable(cfg, s) && Follows(cfg, s, s')
    ensures Reachable(cfg, s')
  {
    var now: Time :| Follows(cfg, Init(now), s);
    var first: seq<Step> :| Legal(cfg, Init(now), first) && Run(cfg, Init(now), first) == s;
    var second: seq<Step> :| Legal(cfg, s, second) && Run(cfg, s, second) == s';
    RunsCompose(cfg, Init(now), first, second);
    assert Follows(cfg, Init(now), s');
  }

  lemma FollowsEvolves(cfg: Config, s: State, s': State)
    requires Reachable(cfg, s) && Follows(cfg, s, s')
    ensures Evolves(s, s') && Reachable(cfg, s')
  {
    ReachableInv(cfg, s);
    var steps: seq<Step> :| Legal(cfg, s, steps) && Run(cfg, s, steps) == s';
    RunOk(cfg, s, steps);
    ReachableOnwards(cfg, s, s');
  }

  lemma ReachableWins(cfg: Config, s: State)
    requires Reachable(cfg, s)
    ensures WinsOk(s)
  {
    ReachableInv(cfg, s);
  }

  // ---------- Rows are written once ----------

  /**
   A row that left Pending never changes again, keeps the reason, and was updated by exactly one `mark_*` statement.
   */
  lemma WriteOnce(cfg: Config, s: State, s': State, key: Key)
    requires Reachable(cfg, s) && Follows(cfg, s, s') && Decided(s.db, key)
    ensures Decided(s'.db, key) && s'.wins[key] == 1
    ensures key in s.how && key in s'.how && s'.how[key] == s.how[key]
    ensures match key.kind
            case NameRow => s'.db.names.invoices.rows[key.id] == s.db.names.invoices.rows[key.id]
            case _ => TableOf(s'.db, key.kind).rows[key.id] == TableOf(s.db, key.kind).rows[key.id]
  {
    FollowsEvolves(cfg, s, s');
    ReachableWins(cfg, s);
    ReachableWins(cfg, s');
    assert Decided(s'.db, key);
  }

  /** Statements that update no row leave no trace, and pending rows have not been updated at all. */
  lemma AtMostOneWin(cfg: Config, s: State, key: Key)
    requires Reachable(cfg, s)
    ensures s.wins[key] <= 1 && (s.wins[key] == 1 <==> Decided(s.db, key))
  {
    ReachableWins(cfg, s);
    assert s.wins[key] == if Decided(s.db, key) then 1 else 0;
  }

  // ---------- The registry ----------

  ghost function SettledIds(t: Table<CustomInvoice>): set<Id> {
    set id | id in t.rows && t.rows[id].state.Settled?
  }

  ghost function BackingOf(r: Registry, i: Id): (a: Id)
    requires RegistryOk(r) && i in r.invoices.rows && r.invoices.rows[i].state.Settled?
    ensures Backs(r, i, a)
  {
    var a :| Backs(r, i, a);
    a
  }

  /** `activated` pairs settled reservations with registry rows one to one, with the same name and the same address. */
  ghost predicate IsBijection(r: Registry, activated: map<Id, Id>) {
    && activated.Keys == SettledIds(r.invoices) && activated.Values == r.addresses.rows.Keys
    && (forall i, j :: i in activated && j in activated && activated[i] == activated[j] ==> i == j)
    && (forall i :: i in activated ==>
          r.addresses.rows[activated[i]] == CustomAddress(r.invoices.rows[i].name, r.invoices.rows[i].arkAddress))
  }

  lemma RegistryMatches(r: Registry) returns (activated: map<Id, Id>)
    requires RegistryOk(r)
    ensures IsBijection(r, activated)
  {
    activated := map i | i in SettledIds(r.invoices) :: BackingOf(r, i);
    forall i, j | i in activated && j in activated && activated[i] == activated[j] ensures i == j {
      assert SettledNames(r.invoices, i, j);
    }
    forall a | a in r.addresses.rows ensures a in activated.Values {
      var i :| Backs(r, i, a);
      assert i in activated && activated[i] == a;
    }
  }

  lemma ReachableNames(cfg: Config, s: State)
    requires Reachable(cfg, s)
    ensures FaithfulAddresses(cfg) && RegistryOk(s.db.names) && ReservationsOk(cfg, s.db.names.invoices)
  {
    ReachableInv(cfg, s);
  }

  /** In every reachable state, settled reservations and registry rows are in bijection. */
  lemma RegistryBijection(cfg: Config, s: State) returns (activated: map<Id, Id>)
    requires Reachable(cfg, s)
    ensures IsBijection(s.db.names, activated)
  {
    ReachableNames(cfg, s);
    activated := RegistryMatches(s.db.names);
  }

  lemma StrayStaysUnsettled(r: Registry, r': Registry, id: Id)
    requires RegistryOk(r) && RegistryOk(r') && CustomEvolves(r.invoices, r'.invoices)
    requires CustomIsPending(r.invoices, id) && NameTaken(r.addresses, r.invoices.rows[id].name)
    ensures id in r'.invoices.rows && !r'.invoices.rows[id].state.Settled?
  {
    var a :| a in r.addresses.rows && r.addresses.rows[a].name == r.invoices.rows[id].name;
    var owner :| Backs(r, owner, a);
    assert r'.invoices.rows[owner] == r.invoices.rows[owner];
    assert SettledNames(r'.invoices, owner, id) ==> owner == id;
  }

  /**
   Whoever reserved a name that is active already never gets it: the reservation can only stay pending or be cancelled.
   */
  lemma StrayNeverSettles(cfg: Config, s: State, s': State, id: Id)
    requires Reachable(cfg, s) && Follows(cfg, s, s') && CustomIsPending(s.db.names.invoices, id)
    requires NameTaken(s.db.names.addresses, s.db.names.invoices.rows[id].name)
    ensures id in s'.db.names.invoices.rows && !s'.db.names.invoices.rows[id].state.Settled?
  {
    FollowsEvolves(cfg, s, s');
    ReachableNames(cfg, s);
    ReachableNames(cfg, s');
    StrayStaysUnsettled(s.db.names, s'.db.names, id);
  }

  // ---------- The transaction ----------

  predicate InTransaction(task: Task) {
    task.TxnRead? || task.TxnTaken? || task.TxnUpdate? || task.TxnInsert? || task.TxnCommit?
  }

  /**
   What a step of the transaction may do to the shared rows: nothing while the transaction goes on, and at its end
   exactly what `SettleAndActivate` does in one piece at that moment. The one other end is a unique violation, which
   undoes all.
   */
  ghost predicate ActsAtOnce(db: Db, task: Task, db': Db, ended: bool)
    requires InTransaction(task)
  {
    if !ended then db' == db
    else match task
      case TxnCommit(invoice, payment, startedAt) =>
        (db'.names, true) == SettleAndActivate(db.names, invoice, payment, startedAt)
      case TxnUpdate(invoice, payment, startedAt) =>
        (db'.names, false) == SettleAndActivate(db.names, invoice, payment, startedAt)
      case TxnInsert(invoice, _, _) =>
        db' == db && NameTaken(db.names.addresses, invoice.name) && CustomIsPending(db.names.invoices, invoice.id)
      case _ =>
        forall payment, startedAt :: (db'.names, false) == SettleAndActivate(db.names, task.invoice, payment, startedAt)
  }

  lemma TakenActsAtOnce(cfg: Config, s: State, tid: nat, invoice: CustomInvoice)
    requires CanAdvance(cfg, s, tid, NoReply) && s.tasks[tid] == TxnTaken(invoice)
      && NameTaken(s.db.names.addresses, invoice.name)
    ensures ActsAtOnce(s.db, TxnTaken(invoice), Apply(s, Advance(cfg, s, tid, NoReply).effect).db, true)
  {
  }

  lemma CommitActsAtOnce(s: State, invoice: CustomInvoice, payment: Payment, startedAt: Time)
    requires CustomIsPending(s.db.names.invoices, invoice.id) && !NameTaken(s.db.names.addresses, invoice.name)
    ensures ActsAtOnce(s.db, TxnCommit(invoice, payment, startedAt),
      Apply(s, CommitName(invoice, payment, startedAt)).db, true)
  {
  }

  lemma ReachableTasks(cfg: Config, s: State)
    requires Reachable(cfg, s)
    ensures TasksOk(cfg, s) && LocksOk(s)
  {
    ReachableInv(cfg, s);
  }

  /** What the locks of a transaction, and its earlier reads, still guarantee it. */
  lemma TransactionKnows(cfg: Config, s: State, tid: nat)
    requires TasksOk(cfg, s) && LocksOk(s) && tid in s.tasks
    ensures match s.tasks[tid] {
      case TxnTaken(invoice) => NameTaken(s.db.names.addresses, invoice.name)
      case TxnInsert(invoice, _, _) => CustomIsPending(s.db.names.invoices, invoice.id)
      case TxnCommit(invoice, _, _) =>
        CustomIsPending(s.db.names.invoices, invoice.id) && !NameTaken(s.db.names.addresses, invoice.name)
      case _ => true
    }
  {
    var task := s.tasks[tid];
    assert TaskOk(cfg, s, task);
    if task.TxnInsert? || task.TxnCommit? {
      assert HoldsRow(task, task.invoice.id);
    }
    if task.TxnCommit? {
      assert HoldsName(task, task.invoice.name);
    }
  }

  lemma StepInParts(cfg: Config, s: State, tid: nat, reply: Reply)
    requires CanAdvance(cfg, s, tid, reply)
    ensures var move, s' := Advance(cfg, s, tid, reply), Do(cfg, s, TaskStep(tid, reply));
      s'.db == Apply(s, move.effect).db && (tid in s'.tasks <==> move.next.Some?)
  {
  }

  /** The transaction is atomic, although its statements interleave with everything else at READ COMMITTED. */
  lemma TransactionsLinearize(cfg: Config, s: State, tid: nat, reply: Reply)
    requires Reachable(cfg, s) && CanAdvance(cfg, s, tid, reply) && InTransaction(s.tasks[tid])
    ensures var s' := Do(cfg, s, TaskStep(tid, reply)); ActsAtOnce(s.db, s.tasks[tid], s'.db, tid !in s'.tasks)
  {
    ReachableTasks(cfg, s);
    TransactionKnows(cfg, s, tid);
    StepInParts(cfg, s, tid, reply);
    match s.tasks[tid]
    case TxnTaken(invoice) => TakenActsAtOnce(cfg, s, tid, invoice);
    case TxnCommit(invoice, payment, startedAt) => CommitActsAtOnce(s, invoice, payment, startedAt);
    case _ =>
  }

  /** The step waits for a lock that another task holds. */
  ghost predicate WaitsForLock(s: State, tid: nat) {
    tid in s.tasks &&
    match s.tasks[tid]
    case NameCancel(invoice, _) => !RowFree(s, tid, invoice.id)
    case TxnTaken(invoice) => !RowFree(s, tid, invoice.id)
    case TxnUpdate(invoice, _, _) => !RowFree(s, tid, invoice.id)
    case TxnInsert(invoice, _, _) => !NameFree(s, tid, invoice.name)
    case _ => false
  }

  /** No deadlock: whenever a task waits for a lock, some lock holder can step. */
  lemma LocksAreReleased(cfg: Config, s: State, tid: nat)
    requires WaitsForLock(s, tid)
    ensures exists holder ::
      holder != tid && CanAdvance(cfg, s, holder, NoReply) && (s.tasks[holder].TxnInsert? || s.tasks[holder].TxnCommit?)
  {
    var task := s.tasks[tid];
    if task.TxnInsert? {
      var holder :| holder in s.tasks && holder != tid && HoldsName(s.tasks[holder], task.invoice.name);
      assert CanAdvance(cfg, s, holder, NoReply);
    } else {
      var holder :| holder in s.tasks && holder != tid && HoldsRow(s.tasks[holder], task.invoice.id);
      if s.tasks[holder].TxnInsert? && !NameFree(s, holder, s.tasks[holder].invoice.name) {
        var committer :| committer in s.tasks && committer != holder && HoldsName(s.tasks[committer],
            s.tasks[holder].invoice.name);
        assert committer != tid;
        assert CanAdvance(cfg, s, committer, NoReply);
      } else {
        assert CanAdvance(cfg, s, holder, NoReply);
      }
    }
  }

  // ---------- Names ----------

  lemma CanonicalNormalizes(cfg: Config, name: string)
    requires IsCanonical(IsAddress(cfg), name)
    ensures cfg.parse(name).None? && Normalize(IsAddress(cfg), name) == Ok(name)
  {
    NormalizeFixes(IsAddress(cfg), name);
  }

  lemma EntryIsOwned(cfg: Config, s: State, a: Id) returns (signature: string)
    requires Reachable(cfg, s) && a in s.db.names.addresses.rows
    ensures OwnerOk(cfg, Ownership(s.db.names.addresses.rows[a].name, s.db.names.addresses.rows[a].arkAddress,
      signature))
    ensures '\n' !in s.db.names.addresses.rows[a].arkAddress
  {
    ReachableNames(cfg, s);
    var i :| Backs(s.db.names, i, a);
    assert Owned(cfg, s.db.names.invoices.rows[i]);
    signature := s.db.names.invoices.rows[i].signature;
    assert cfg.parse(s.db.names.addresses.rows[a].arkAddress).Some?;
  }

  ghost predicate NamesUnique(t: Table<CustomAddress>) {
    forall a, b :: a in t.rows && b in t.rows && t.rows[a].name == t.rows[b].name ==> a == b
  }

  lemma EntryResolves(cfg: Config, t: Table<CustomAddress>, a: Id, target: string)
    requires NamesUnique(t) && a in t.rows && IsCanonical(IsAddress(cfg), t.rows[a].name)
    requires cfg.parse(t.rows[a].arkAddress) == Some(BarkAddress(t.rows[a].arkAddress, true))
    ensures Resolves(cfg, t, t.rows[a].name, target) <==> target == t.rows[a].arkAddress
  {
    CanonicalNormalizes(cfg, t.rows[a].name);
  }

  /** An entry keeps its name and its address for good. */
  lemma EntryStays(cfg: Config, s: State, s': State, a: Id)
    requires Reachable(cfg, s) && Follows(cfg, s, s') && a in s.db.names.addresses.rows
    ensures a in s'.db.names.addresses.rows && s'.db.names.addresses.rows[a] == s.db.names.addresses.rows[a]
    ensures NamesUnique(s'.db.names.addresses)
  {
    FollowsEvolves(cfg, s, s');
    ReachableNames(cfg, s');
  }

  /** An active name works for life: it resolves to its address, and to no other, in every later state. */
  lemma ActiveNameResolves(cfg: Config, s: State, s': State, a: Id, target: string)
    requires Reachable(cfg, s) && Follows(cfg, s, s') && a in s.db.names.addresses.rows
    ensures Resolves(cfg, s'.db.names.addresses, s.db.names.addresses.rows[a].name, target)
      <==> target == s.db.names.addresses.rows[a].arkAddress
  {
    EntryStays(cfg, s, s', a);
    var signature := EntryIsOwned(cfg, s, a);
    EntryResolves(cfg, s'.db.names.addresses, a, target);
  }

  /**
   `message` is the ownership message of this entry, and no other domain, name and address without line ends have it.
   */
  ghost predicate Binds(message: string, domain: string, entry: CustomAddress) {
    && message == "arkzap.me custom address\nname: " + entry.name + "\ndomain: " + domain
                  + "\nark_address: " + entry.arkAddress
    && forall other, name, arkAddress | '\n' !in name && '\n' !in arkAddress ::
         SignatureMessage(other, name, arkAddress) == message ==>
           other == domain && name == entry.name && arkAddress == entry.arkAddress
  }

  /**
   Every registry entry was signed for by the key of its address, with a message that binds this entry and no other.
   */
  lemma EntriesAreOwned(cfg: Config, s: State, a: Id) returns (message: string, signature: string)
    requires Reachable(cfg, s) && a in s.db.names.addresses.rows
    ensures var entry := s.db.names.addresses.rows[a];
      && Binds(message, cfg.domain, entry) && cfg.verifies(entry.arkAddress, message, signature)
      && ByteLength(signature) <= 128 && IsCanonical(IsAddress(cfg), entry.name)
  {
    signature := EntryIsOwned(cfg, s, a);
    var entry := s.db.names.addresses.rows[a];
    message := SignatureMessage(cfg.domain, entry.name, entry.arkAddress);
    CanonicalHasNoLineEnd(IsAddress(cfg), entry.name);
    forall other, name, arkAddress | '\n' !in name && '\n' !in arkAddress
      && SignatureMessage(other, name, arkAddress) == message
      ensures other == cfg.domain && name == entry.name && arkAddress == entry.arkAddress
    {
      MessageInjective(other, name, arkAddress, cfg.domain, entry.name, entry.arkAddress);
    }
  }

  /** In every reachable state the order of a pass over the reservations does not matter. */
  lemma ReachablePassOrderIndependent(cfg: Config, s: State, reordered: seq<CustomInvoice>,
                                      turns: Id -> Poller.CustomTurn)
    requires Reachable(cfg, s)
    requires multiset(reordered) == multiset(CustomInState(s.db.names.invoices, Pending, s.db.names.invoices.next))
    ensures var r := s.db.names;
      var inOrder := Poller.CustomPass(r, CustomInState(r.invoices, Pending, r.invoices.next), turns);
      var otherwise := Poller.CustomPass(r, reordered, turns);
      inOrder.invoices == otherwise.invoices
        && PassOutcomes.Entries(inOrder.addresses) == PassOutcomes.Entries(otherwise.addresses)
  {
    ReachableNames(cfg, s);
    var r := s.db.names;
    PassOutcomes.FullCustomPassLoads(r.invoices);
    PassOutcomes.CustomPassOrderIndependent(r, CustomInState(r.invoices, Pending, r.invoices.next), reordered, turns);
  }

  // ---------- Settlement ----------

  lemma ReachableInvoices(cfg: Config, s: State, kind: Kind)
    requires Reachable(cfg, s) && !kind.NameRow?
    ensures InvoicesOk(cfg, TableOf(s.db, kind), kind)
  {
    ReachableInv(cfg, s);
  }

  /** Every decided row has recorded grounds, and is what they lead to. */
  lemma OutcomeKnown(cfg: Config, s: State, key: Key)
    requires Reachable(cfg, s) && Decided(s.db, key)
    ensures key in s.how && CauseOk(s, key, s.how[key]) && OutcomeOk(s.db, key, s.how[key])
  {
    ReachableWins(cfg, s);
  }

  /** A settled invoice holds a preimage that its backend revealed for it. */
  lemma SettledInvoiceProvenance(cfg: Config, s: State, kind: Kind, id: Id)
    requires Reachable(cfg, s) && !kind.NameRow? && id in TableOf(s.db, kind).rows
      && TableOf(s.db, kind).rows[id].state.Settled?
    ensures var row := TableOf(s.db, kind).rows[id];
      && (kind.BarkRow? ==> (row.bolt11.paymentHash, row.preimage) in s.wallet.revealed)
      && (kind.ArkadeRow? ==> row.backend.Arkade? && (row.backend.swapId, row.preimage) in s.wallet.claimed)
      && row.settledAt.Some?
  {
    ReachableInvoices(cfg, s, kind);
    OutcomeKnown(cfg, s, Key(kind, id));
  }

  // ---------- Ark fees ----------

  /** Reservations settled by an Ark transfer. */
  ghost function ArkSettled(t: Table<CustomInvoice>): set<Id> {
    set id | id in t.rows && t.rows[id].arkPaymentReference.Some?
  }

  ghost function FeeAddresses(t: Table<CustomInvoice>, ids: set<Id>): set<string>
    requires ids <= t.rows.Keys
  {
    set id | id in ids :: t.rows[id].feeReceiveAddress
  }

  lemma ArkSettledIsSettled(cfg: Config, s: State, id: Id)
    requires Reachable(cfg, s) && id in ArkSettled(s.db.names.invoices)
    ensures s.db.names.invoices.rows[id].state.Settled?
  {
    ReachableNames(cfg, s);
  }

  /**
   Output `output.1` of movement `output.0` is the payment of this reservation: it went to its fee address, it is worth
   the amount of the fee invoice, and its reference is the stored one.
   */
  ghost predicate IsPaymentOf(history: seq<Movement>, invoice: CustomInvoice, output: (nat, nat)) {
    && output.0 < |history| && output.1 < |history[output.0].receivedOn|
    && history[output.0].receivedOn[output.1].paymentMethod == Ark(invoice.feeReceiveAddress)
    && history[output.0].receivedOn[output.1].amountSat * 1_000 >= invoice.amountMsats
    && invoice.arkPaymentReference == Some("bark-movement:" + Decimal(history[output.0].id))
  }

  lemma PaidInFull(history: seq<Movement>, invoice: CustomInvoice)
    requires TermsOk(invoice) && invoice.arkPaymentReference.Some?
    requires PaidBy(history, invoice.arkPaymentReference.value, invoice.feeReceiveAddress, FeeSats(invoice))
    ensures exists output :: IsPaymentOf(history, invoice, output)
  {
    var m: nat, d: nat :| PaysAt(history, m, d, invoice.feeReceiveAddress, FeeSats(invoice))
                          && MovementReference(history[m].id) == invoice.arkPaymentReference.value;
    assert IsPaymentOf(history, invoice, (m, d));
  }

  /** A settled reservation holds exactly one proof of payment, and that payment was made. */
  lemma SettledNameProvenance(cfg: Config, s: State, id: Id)
    requires Reachable(cfg, s) && id in s.db.names.invoices.rows && s.db.names.invoices.rows[id].state.Settled?
    ensures var invoice := s.db.names.invoices.rows[id];
      match invoice.arkPaymentReference {
        case Some(reference) =>
          invoice.preimage == "" && exists output :: IsPaymentOf(s.wallet.history, invoice, output)
        case None => (invoice.bolt11.paymentHash, invoice.preimage) in s.wallet.revealed
      }
  {
    OutcomeKnown(cfg, s, Key(NameRow, id));
    ReachableNames(cfg, s);
    var invoice := s.db.names.invoices.rows[id];
    if invoice.arkPaymentReference.Some? {
      PaidInFull(s.wallet.history, invoice);
    }
  }

  /** Every one of these reservations has its payment in the history. */
  ghost predicate AllPaid(history: seq<Movement>, t: Table<CustomInvoice>, ids: set<Id>) {
    forall id :: id in ids ==> id in t.rows && exists output :: IsPaymentOf(history, t.rows[id], output)
  }

  lemma ArkSettledArePaid(cfg: Config, s: State)
    requires Reachable(cfg, s)
    ensures AllPaid(s.wallet.history, s.db.names.invoices, ArkSettled(s.db.names.invoices))
  {
    var t := s.db.names.invoices;
    forall id | id in ArkSettled(t) ensures exists output :: IsPaymentOf(s.wallet.history, t.rows[id], output) {
      ArkSettledIsSettled(cfg, s, id);
      SettledNameProvenance(cfg, s, id);
    }
  }

  ghost predicate FeeAddressesUnique(t: Table<CustomInvoice>) {
    forall i, j :: i in t.rows && j in t.rows && t.rows[i].feeReceiveAddress == t.rows[j].feeReceiveAddress ==> i == j
  }

  lemma ReachableFees(cfg: Config, s: State)
    requires Reachable(cfg, s)
    ensures FeeAddressesUnique(s.db.names.invoices)
    ensures forall i :: i in s.db.names.invoices.rows ==>
      s.db.names.invoices.rows[i].feeReceiveAddress in s.wallet.issued
  {
    ReachableInv(cfg, s);
  }

  ghost function PaymentOf(history: seq<Movement>, t: Table<CustomInvoice>, ids: set<Id>, id: Id): (output: (nat, nat))
    requires AllPaid(history, t, ids) && id in ids
    ensures IsPaymentOf(history, t.rows[id], output)
  {
    var output :| IsPaymentOf(history, t.rows[id], output);
    output
  }

  /**
   Ark-settled reservations map one to one into the outputs of the wallet history, although two may share a movement.
   */
  lemma ArkPaymentsDistinct(cfg: Config, s: State) returns (payments: map<Id, (nat, nat)>)
    requires Reachable(cfg, s)
    ensures payments.Keys == ArkSettled(s.db.names.invoices)
    ensures forall id :: id in payments ==> IsPaymentOf(s.wallet.history, s.db.names.invoices.rows[id], payments[id])
    ensures forall i, j :: i in payments && j in payments && payments[i] == payments[j] ==> i == j
  {
    var history, t := s.wallet.history, s.db.names.invoices;
    ArkSettledArePaid(cfg, s);
    ReachableFees(cfg, s);
    payments := map id | id in ArkSettled(t) :: PaymentOf(history, t, ArkSettled(t), id);
    forall i, j | i in payments && j in payments && payments[i] == payments[j] ensures i == j {
      assert IsPaymentOf(history, t.rows[i], payments[i]) && IsPaymentOf(history, t.rows[j], payments[j]);
    }
  }

  /** The reservations among the first `upTo` that an Ark transfer settled. */
  ghost function ArkSettledBelow(t: Table<CustomInvoice>, upTo: Id): set<Id> {
    set id | id in ArkSettled(t) && id < upTo
  }

  /** What these reservations asked for in millisatoshis, each at the price of its own day. */
  ghost function MsatsDue(t: Table<CustomInvoice>, upTo: Id): nat {
    if upTo == 0 then 0
    else MsatsDue(t, upTo - 1) + if upTo - 1 in ArkSettled(t) then t.rows[upTo - 1].amountMsats else 0
  }

  lemma FeeAddressesStep(t: Table<CustomInvoice>, id: Id)
    requires FeeAddressesUnique(t)
    ensures var before, after := FeeAddresses(t, ArkSettledBelow(t, id)), FeeAddresses(t, ArkSettledBelow(t, id + 1));
      if id in ArkSettled(t) then
        after == {t.rows[id].feeReceiveAddress} + before && t.rows[id].feeReceiveAddress !in before
      else after == before
  {
    if id in ArkSettled(t) {
      assert ArkSettledBelow(t, id + 1) == {id} + ArkSettledBelow(t, id);
    } else {
      assert ArkSettledBelow(t, id + 1) == ArkSettledBelow(t, id);
    }
  }

  lemma {:induction false} FeesReceived(history: seq<Movement>, t: Table<CustomInvoice>, upTo: Id)
    requires FeeAddressesUnique(t) && AllPaid(history, t, ArkSettled(t))
    ensures MsatsDue(t, upTo) <= 1_000 * ReceivedOn(history, FeeAddresses(t, ArkSettledBelow(t, upTo)))
  {
    if upTo > 0 {
      var id := upTo - 1;
      FeesReceived(history, t, id);
      FeeAddressesStep(t, id);
      if id in ArkSettled(t) {
        var output := PaymentOf(history, t, ArkSettled(t), id);
        var paid := history[output.0].receivedOn[output.1].amountSat;
        PaidAtLeast(history, output.0, output.1, t.rows[id].feeReceiveAddress, paid);
        ReceivedOnDisjoint(history, {t.rows[id].feeReceiveAddress}, FeeAddresses(t, ArkSettledBelow(t, id)));
      }
    }
  }

  lemma AllBelowNext(cfg: Config, s: State)
    requires Reachable(cfg, s)
    ensures ArkSettledBelow(s.db.names.invoices, s.db.names.invoices.next) == ArkSettled(s.db.names.invoices)
  {
    ReachableNames(cfg, s);
  }

  /** The fees of all names activated by Ark transfers were received, on addresses issued for them. */
  lemma ArkFeesConserved(cfg: Config, s: State)
    requires Reachable(cfg, s)
    ensures var t := s.db.names.invoices;
      && MsatsDue(t, t.next) <= 1_000 * ReceivedOn(s.wallet.history, FeeAddresses(t, ArkSettled(t)))
      && FeeAddresses(t, ArkSettled(t)) <= s.wallet.issued
  {
    ArkSettledArePaid(cfg, s);
    ReachableFees(cfg, s);
    AllBelowNext(cfg, s);
    FeesReceived(s.wallet.history, s.db.names.invoices, s.db.names.invoices.next);
  }

  lemma ReachableWallet(cfg: Config, s: State)
    requires Reachable(cfg, s)
    ensures WalletOk(s.wallet, s.now)
  {
    ReachableInv(cfg, s);
  }

  // ---------- Cancellation ----------

  /** barkd accepted a payment for this hash no later than the invoice's expiry. */
  ghost predicate AcceptedInTime(s: State, hash: string, bolt11: Bolt11) {
    hash in s.wallet.acceptedAt && s.wallet.acceptedAt[hash] <= bolt11.expiry
  }

  /** No receive for this hash, or one still waiting for its payment. */
  predicate SawUnpaid(seen: Option<Receive>) {
    seen.None? || seen.value.phase == "awaiting-payment"
  }

  /**
   A Bark invoice is cancelled only by a claim that saw no receive, or one awaiting payment, and then read a clock that
   had reached the expiry of the invoice. A payment accepted in time is lost only if that sight was older than the
   acceptance.
   */
  lemma BarkCancellationJustified(cfg: Config, s: State, id: Id) returns (why: Expiry)
    requires Reachable(cfg, s) && id in s.db.invoices.rows && s.db.invoices.rows[id].state.Cancelled?
    ensures var Bolt11(_, hash, expiry) := s.db.invoices.rows[id].bolt11;
      && Key(BarkRow, id) in s.how && s.how[Key(BarkRow, id)] == ExpiredUnpaid(why)
      && SawUnpaid(why.seen) && expiry <= why.checkedAt && why.seenAt <= why.checkedAt <= s.now
      && (hash in s.wallet.acceptedAt ==> why.seenAt <= s.wallet.acceptedAt[hash])
      && (hash in s.wallet.acceptedAt && s.wallet.acceptedAt[hash] <= expiry ==> why.seenAt <= expiry)
  {
    var key := Key(BarkRow, id);
    OutcomeKnown(cfg, s, key);
    ReachableInvoices(cfg, s, BarkRow);
    why := s.how[key].why;
  }

  /** Arkade invoices are cancelled once a clock has reached their expiry, whatever the swap may hold. */
  lemma ArkadeCancellationJustified(cfg: Config, s: State, id: Id) returns (checkedAt: Time)
    requires Reachable(cfg, s) && id in s.db.arkade.rows && s.db.arkade.rows[id].state.Cancelled?
    ensures Key(ArkadeRow, id) in s.how && s.how[Key(ArkadeRow, id)] == ArkadeExpired(checkedAt)
    ensures s.db.arkade.rows[id].bolt11.expiry <= checkedAt <= s.now
  {
    OutcomeKnown(cfg, s, Key(ArkadeRow, id));
    ReachableInvoices(cfg, s, ArkadeRow);
    checkedAt := s.how[Key(ArkadeRow, id)].checkedAt;
  }

  /** No output in this history pays the fee of the reservation. */
  ghost predicate FeeMissing(history: seq<Movement>, invoice: CustomInvoice) {
    forall m, d | 0 <= m < |history| && 0 <= d < |history[m].receivedOn| ::
      history[m].receivedOn[d].paymentMethod == Ark(invoice.feeReceiveAddress) ==>
        history[m].receivedOn[d].amountSat * 1_000 < invoice.amountMsats
  }

  /**
   A reservation is cancelled on the same grounds, after its own expiry, with no fee in the history that was searched;
   or because its name was taken.
   */
  lemma NameCancellationJustified(cfg: Config, s: State, id: Id)
    requires Reachable(cfg, s) && id in s.db.names.invoices.rows && s.db.names.invoices.rows[id].state.Cancelled?
    ensures Key(NameRow, id) in s.how
    ensures var invoice := s.db.names.invoices.rows[id];
      var Bolt11(_, hash, expiry) := invoice.bolt11;
      match s.how[Key(NameRow, id)]
      case ExpiredUnpaid(why) =>
        && SawUnpaid(why.seen) && invoice.expiresAt <= why.checkedAt && why.seenAt <= why.checkedAt <= s.now
        && (hash in s.wallet.acceptedAt ==> why.seenAt <= s.wallet.acceptedAt[hash])
        && (hash in s.wallet.acceptedAt && s.wallet.acceptedAt[hash] <= expiry ==> why.seenAt <= expiry)
        && why.historySeen <= |s.wallet.history| && FeeMissing(s.wallet.history[..why.historySeen], invoice)
      case NameWasTaken =>
        exists a :: a in s.db.names.addresses.rows && s.db.names.addresses.rows[a].name == invoice.name
      case _ => false
  {
    var key, invoice := Key(NameRow, id), s.db.names.invoices.rows[id];
    OutcomeKnown(cfg, s, key);
    ReachableNames(cfg, s);
    if s.how[key].ExpiredUnpaid? {
      SearchedInVain(s.wallet.history[..s.how[key].why.historySeen], invoice);
    }
  }

  lemma SearchedInVain(history: seq<Movement>, invoice: CustomInvoice)
    requires ReceivedArkPayment(history, invoice.feeReceiveAddress, FeeSats(invoice)).None?
    ensures FeeMissing(history, invoice)
  {
    ReceivedArkPaymentMeaning(history, invoice.feeReceiveAddress, FeeSats(invoice));
    forall m, d | 0 <= m < |history| && 0 <= d < |history[m].receivedOn|
      && history[m].receivedOn[d].paymentMethod == Ark(invoice.feeReceiveAddress)
      ensures history[m].receivedOn[d].amountSat * 1_000 < invoice.amountMsats
    {
      assert !PaysAt(history, m, d, invoice.feeReceiveAddress, FeeSats(invoice));
    }
  }

  // ---------- Expiry, pass by pass ----------

  /** A Bark pass cancels no invoice before its expiry, and after it every one that it sees unpaid. */
  lemma BarkPassOnTime(cfg: Config, s: State, turns: Id -> Poller.Turn,
                       listed: Result<seq<Receive>, Failure>, id: Id)
    requires Reachable(cfg, s) && IsPending(s.db.invoices, id)
    ensures var row, turn := s.db.invoices.rows[id], turns(id);
      var seen := PassRules.Sighting(row, turn.status, listed);
      var after := PassOutcomes.FullBarkPass(s.db.invoices, turns, Poller.ListingOf(listed)).rows;
      && id in after
      && (turn.now < row.bolt11.expiry ==> !after[id].state.Cancelled?)
      && (turn.now > row.bolt11.expiry && turn.connected && seen.Ok? && SawUnpaid(seen.value) ==>
            after[id].state.Cancelled?)
  {
    ReachableInvoices(cfg, s, BarkRow);
    PassRules.BarkPassRule(s.db.invoices, turns, listed, id);
  }

  /** An Arkade pass cancels no invoice before its expiry, and after it every one that it gets to. */
  lemma ArkadePassOnTime(cfg: Config, s: State, turns: Id -> Poller.ArkadeTurn, id: Id) returns (bound: Id)
    requires Reachable(cfg, s) && IsPending(s.db.arkade, id)
    ensures PassOutcomes.FirstAbort(s.db.arkade, turns, bound)
    ensures var row, turn := s.db.arkade.rows[id], turns(id);
      var after := PassOutcomes.FullArkadePass(s.db.arkade, turns).table.rows;
      && id in after
      && (turn.now < row.bolt11.expiry ==> !after[id].state.Cancelled?)
      && (turn.now > row.bolt11.expiry && id < bound ==> after[id].state.Cancelled?)
  {
    ReachableInvoices(cfg, s, ArkadeRow);
    bound := PassOutcomes.FullArkadePassConcludes(s.db.arkade, turns);
  }

  ghost predicate BothRailsUnpaid(row: CustomInvoice, turn: Poller.CustomTurn) {
    turn.status.Ok? && SawUnpaid(turn.status.value) && turn.history.Ok? && FeeMissing(turn.history.value, row)
  }

  /**
   A pass over the reservations releases none before its expiry, and from then on every one that is unpaid on both
   rails.
   */
  lemma NamePassOnTime(cfg: Config, s: State, turns: Id -> Poller.CustomTurn, id: Id)
    requires Reachable(cfg, s) && CustomIsPending(s.db.names.invoices, id)
    ensures var row, turn := s.db.names.invoices.rows[id], turns(id);
      var after := PassOutcomes.FullCustomPass(s.db.names, turns).invoices.rows;
      && id in after
      && (turn.now < row.expiresAt && after[id].state.Cancelled? ==>
            exists a :: a in s.db.names.addresses.rows && s.db.names.addresses.rows[a].name == row.name)
      && (turn.now >= row.expiresAt && turn.connected && BothRailsUnpaid(row, turn) ==> after[id].state.Cancelled?)
  {
    ReachableNames(cfg, s);
    PassRules.CustomPassRule(s.db.names, turns, id);
    var row, turn := s.db.names.invoices.rows[id], turns(id);
    if turn.history.Ok? && FeeMissing(turn.history.value, row) {
      NotTransferred(turn.history.value, row);
    }
  }

  lemma NotTransferred(history: seq<Movement>, invoice: CustomInvoice)
    requires TermsOk(invoice) && FeeMissing(history, invoice)
    ensures forall reference :: !PassRules.ArkPays(history, invoice, reference)
  {
  }

  // ---------- Zap receipts ----------

  lemma ReachablePublisher(cfg: Config, s: State)
    requires Reachable(cfg, s)
    ensures PublisherOk(cfg, s)
  {
    ReachableInv(cfg, s);
  }

  /** At most one event id per zap over the whole run, through retries, crashes and rewrites. */
  lemma OneReceiptPerZap(cfg: Config, s: State, s': State, key: Key, first: string, second: string)
    requires Reachable(cfg, s) && Follows(cfg, s, s')
    requires (key, first) in s.sent && (key, second) in s'.sent
    ensures first == second
    ensures key.id in ZapsOf(s'.db, key.kind) && ZapsOf(s'.db, key.kind)[key.id].eventId in {None, Some(first)}
  {
    FollowsEvolves(cfg, s, s');
    ReachablePublisher(cfg, s');
    assert (key, first) in s'.sent;
    assert ReceiptIs(cfg, s'.db, key, first) && ReceiptIs(cfg, s'.db, key, second);
    var zap := ZapsOf(s'.db, key.kind)[key.id];
    if zap.eventId.Some? {
      assert (key, zap.eventId.value) in s'.sent;
      assert ReceiptIs(cfg, s'.db, key, zap.eventId.value);
    }
  }

  /** What was sent commits to the stored request, invoice, preimage and settlement second of a settled row. */
  lemma SentReceiptsAreFaithful(cfg: Config, s: State, key: Key, eventId: string)
    requires Reachable(cfg, s) && (key, eventId) in s.sent
    ensures !key.kind.NameRow? && key.id in ZapsOf(s.db, key.kind) && key.id in TableOf(s.db, key.kind).rows
    ensures var zap, row := ZapsOf(s.db, key.kind)[key.id], TableOf(s.db, key.kind).rows[key.id];
      row.state.Settled? && exists receipt ::
        && cfg.nostr.eventId(receipt) == eventId
        && TagValue(receipt, "description") == Some(zap.request)
        && TagValue(receipt, "bolt11") == Some(row.bolt11.encoded)
        && TagValue(receipt, "preimage") == (if row.preimage == "" then None else Some(row.preimage))
        && receipt.kind == 9735 && receipt.pubkey == cfg.nostr.serverKey && row.settledAt.Some?
        && (row.settledAt.value >= 0 ==> receipt.createdAt == row.settledAt.value / 1_000_000)
  {
    ReachablePublisher(cfg, s);
    assert ReceiptIs(cfg, s.db, key, eventId);
    var zap, row := ZapsOf(s.db, key.kind)[key.id], TableOf(s.db, key.kind).rows[key.id];
    var event := cfg.nostr.parseEvent(zap.request).value;
    ReceiptCommits(cfg.nostr, event, zap.request, row.bolt11.encoded, row.preimage, row.settledAt.value);
  }

  /** A settled zap can always be published: its stored request was accepted when the invoice was issued. */
  lemma SettledZapsPublish(cfg: Config, s: State, kind: Kind, id: Id)
    requires Reachable(cfg, s) && !kind.NameRow? && id in ZapsOf(s.db, kind)
    ensures id in TableOf(s.db, kind).rows
    ensures TableOf(s.db, kind).rows[id].state.Settled? ==>
      ReceiptFor(cfg, ZapsOf(s.db, kind)[id].request, TableOf(s.db, kind).rows[id]).Some?
  {
    ReachableDb(cfg, s);
    var row, zap := TableOf(s.db, kind).rows[id], ZapsOf(s.db, kind)[id];
    assert AcceptedRequest(cfg.nostr, zap.request, row.amountMsats);
    if row.state.Settled? {
      AcceptedRequestPublishes(cfg.nostr, zap.request, row.amountMsats, row.bolt11.encoded, row.preimage,
        row.settledAt.value);
    }
  }

  lemma ReachableLoads(cfg: Config, s: State)
    requires Reachable(cfg, s)
    ensures LoadsOk(s) && WakeupOk(s)
  {
    ReachableInv(cfg, s);
  }

  /** The zap has no receipt, and its invoice was settled in the last 24 hours. */
  ghost predicate AwaitsReceipt(s: State, kind: Kind, id: Id) {
    && id in ZapsOf(s.db, kind) && ZapsOf(s.db, kind)[id].eventId.None? && id in TableOf(s.db, kind).rows
    && var row := TableOf(s.db, kind).rows[id];
       row.state.Settled? && row.settledAt.Some? && s.now - 24 * 3_600_000_000 < row.settledAt.value
  }

  /**
   No receipt is forgotten. Whenever the publisher is parked after its two queries succeeded, every recently settled zap
   without a receipt was among the rows it loaded, or its settlement has stored a permit or is about to.
   */
  lemma NoLostWakeup(cfg: Config, s: State, kind: Kind, id: Id)
    requires Reachable(cfg, s) && s.publisher == Parked(true)
    requires !kind.NameRow? && Key(kind, id) !in s.loaded && AwaitsReceipt(s, kind, id)
    ensures s.permit || exists tid :: tid in s.tasks && s.tasks[tid].NotifyPublisher?
  {
    ReachableLoads(cfg, s);
    assert Unpublished(s.db, kind, s.now, id) && Covered(s, kind);
    assert s.sinceLoad != {};
  }

  /** The same, for any zapped row settled since the last load began and whatever became of that load. */
  lemma NoLostWakeupSinceLoad(cfg: Config, s: State)
    requires Reachable(cfg, s) && s.publisher.Parked? && s.sinceLoad != {}
    ensures s.permit || exists tid :: tid in s.tasks && s.tasks[tid].NotifyPublisher?
  {
    ReachableInv(cfg, s);
  }

  // ---------- verify ----------

  lemma ReachableAnswers(cfg: Config, s: State)
    requires Reachable(cfg, s)
    ensures AnswersOk(cfg, s)
  {
    ReachableInv(cfg, s);
  }

  /** The text names this address: it is read as the address, or it is written for a name that is registered for it. */
  ghost predicate Addresses(cfg: Config, t: Table<CustomAddress>, text: string, address: string) {
    match cfg.parse(text)
    case Some(literal) => literal.text == address
    case None => exists a :: a in t.rows && Writes(text, t.rows[a].name) && t.rows[a].arkAddress == address
  }

  lemma ResolvedIsAddressed(cfg: Config, s: State, text: string, address: string)
    requires Reachable(cfg, s) && Resolves(cfg, s.db.names.addresses, text, address)
    ensures Addresses(cfg, s.db.names.addresses, text, address)
  {
    if cfg.parse(text).None? {
      var name := Normalize(IsAddress(cfg), text).value;
      var a :| a in s.db.names.addresses.rows && s.db.names.addresses.rows[a].name == name
               && cfg.parse(s.db.names.addresses.rows[a].arkAddress) == Some(BarkAddress(address, true));
      NormalizeMeaning(IsAddress(cfg), text, name);
      var signature := EntryIsOwned(cfg, s, a);
    }
  }

  /** A settled answer is about a settled row of the address in question, with its preimage, now and ever after. */
  lemma VerifySound(cfg: Config, s: State, s': State, answer: Answer)
    requires Reachable(cfg, s) && Follows(cfg, s, s') && answer in s.answers && answer.settled
    ensures !answer.key.kind.NameRow? && answer.key.id in TableOf(s'.db, answer.key.kind).rows
    ensures var row := TableOf(s'.db, answer.key.kind).rows[answer.key.id];
      && row.state.Settled? && row.bolt11.paymentHash == answer.hash && row.preimage == answer.preimage
      && answer.preimage != "" && Addresses(cfg, s'.db.names.addresses, answer.address, row.address)
  {
    FollowsEvolves(cfg, s, s');
    ReachableAnswers(cfg, s');
    var k :| 0 <= k < |s.answers| && s.answers[k] == answer;
    assert s'.answers[k] == answer;
    assert AnswerOk(cfg, s'.db, s'.answers[k]);
    ReachableInvoices(cfg, s', answer.key.kind);
    ResolvedIsAddressed(cfg, s', answer.address, TableOf(s'.db, answer.key.kind).rows[answer.key.id].address);
  }

  /** A settled answer is repeated, with its preimage, by every later answer to the same question. */
  lemma VerifyMonotone(cfg: Config, s: State, earlier: nat, later: nat)
    requires Reachable(cfg, s)
    requires earlier < later < |s.answers| && s.answers[earlier].settled
      && SameQuestion(s.answers[earlier], s.answers[later])
    ensures Repeats(s.answers[later], s.answers[earlier])
  {
    ReachableAnswers(cfg, s);
  }

  /** All answers to one question, settled or not, are read from one row for good. */
  lemma AnswersFromOneRow(cfg: Config, s: State, k: nat, l: nat)
    requires Reachable(cfg, s) && k < |s.answers| && l < |s.answers| && SameQuestion(s.answers[k], s.answers[l])
    ensures s.answers[k].key == s.answers[l].key
  {
    ReachableAnswers(cfg, s);
    ReachableDb(cfg, s);
    AnswersShareRow(cfg, s.db, s.answers[k], s.answers[l]);
  }

  /** No false negative: once a row is settled with a preimage, every later answer read from it says so. */
  lemma SettledIsAnswered(cfg: Config, s: State, s': State, key: Key, k: nat)
    requires Reachable(cfg, s) && Follows(cfg, s, s')
    requires !key.kind.NameRow? && key.id in TableOf(s.db, key.kind).rows
      && TableOf(s.db, key.kind).rows[key.id].state.Settled? && TableOf(s.db, key.kind).rows[key.id].preimage != ""
    requires |s.answers| <= k < |s'.answers| && s'.answers[k].key == key
    ensures s'.answers[k].settled && s'.answers[k].preimage == TableOf(s.db, key.kind).rows[key.id].preimage
  {
    ReachableInv(cfg, s);
    var steps: seq<Step> :| Legal(cfg, s, steps) && Run(cfg, s, steps) == s';
    RunAnswers(cfg, s, steps, key, |s.answers|);
  }

  /** The row is settled with a preimage, and every answer about it from the `from`th on says so. */
  ghost predicate AnsweredFrom(s: State, key: Key, from: nat) {
    && !key.kind.NameRow? && key.id in TableOf(s.db, key.kind).rows
    && var row := TableOf(s.db, key.kind).rows[key.id];
       && row.state.Settled? && row.preimage != ""
       && forall k :: from <= k < |s.answers| && s.answers[k].key == key ==>
            s.answers[k].settled && s.answers[k].preimage == row.preimage
  }

  lemma SettledStays(s: State, s': State, key: Key)
    requires DbEvolves(s.db, s'.db) && !key.kind.NameRow? && key.id in TableOf(s.db, key.kind).rows
      && TableOf(s.db, key.kind).rows[key.id].state.Settled?
    ensures key.id in TableOf(s'.db, key.kind).rows
      && TableOf(s'.db, key.kind).rows[key.id] == TableOf(s.db, key.kind).rows[key.id]
  {
  }

  /** The answer is what its row says. */
  ghost predicate AnswersRow(db: Db, answer: Answer) {
    && !answer.key.kind.NameRow? && answer.key.id in TableOf(db, answer.key.kind).rows
    && var row := TableOf(db, answer.key.kind).rows[answer.key.id];
       && (answer.settled <==> row.state.Settled? && row.preimage != "")
       && (answer.settled ==> answer.preimage == row.preimage)
  }

  /** The answer that a step gives, if any, is read from its row at that moment. */
  lemma StepAnswersNow(cfg: Config, s: State, tid: nat, reply: Reply)
    requires CanAdvance(cfg, s, tid, reply) && Advance(cfg, s, tid, reply).effect.Respond?
    ensures AnswersRow(s.db, Advance(cfg, s, tid, reply).effect.answer)
  {
  }

  lemma TaskAnswers(cfg: Config, s: State, tid: nat, reply: Reply, key: Key, from: nat)
    requires CanAdvance(cfg, s, tid, reply) && AnsweredFrom(s, key, from)
    ensures var answers := Apply(s, Advance(cfg, s, tid, reply).effect).answers;
      forall k :: from <= k < |answers| && answers[k].key == key ==>
        answers[k].settled && answers[k].preimage == TableOf(s.db, key.kind).rows[key.id].preimage
  {
    var effect := Advance(cfg, s, tid, reply).effect;
    EffectAnswers(s, effect);
    if effect.Respond? {
      StepAnswersNow(cfg, s, tid, reply);
    }
  }

  lemma StepAnswers(cfg: Config, s: State, step: Step, key: Key, from: nat)
    requires Can(cfg, s, step) && DbEvolves(s.db, Do(cfg, s, step).db) && AnsweredFrom(s, key, from)
    ensures AnsweredFrom(Do(cfg, s, step), key, from)
  {
    SettledStays(s, Do(cfg, s, step), key);
    if step.TaskStep? {
      TaskAnswers(cfg, s, step.tid, step.reply, key, from);
    } else {
      OtherStepsAnswerNothing(cfg, s, step);
    }
  }

  lemma EffectAnswers(s: State, effect: Effect)
    ensures Apply(s, effect).answers == if effect.Respond? then s.answers + [effect.answer] else s.answers
  {
  }

  lemma OtherStepsAnswerNothing(cfg: Config, s: State, step: Step)
    requires Can(cfg, s, step) && !step.TaskStep?
    ensures Do(cfg, s, step).answers == s.answers
  {
  }

  lemma {:induction false} RunAnswers(cfg: Config, s: State, steps: seq<Step>, key: Key, from: nat)
    requires Inv(cfg, s) && Legal(cfg, s, steps) && AnsweredFrom(s, key, from)
    ensures AnsweredFrom(Run(cfg, s, steps), key, from)
    ensures TableOf(Run(cfg, s, steps).db, key.kind).rows[key.id] == TableOf(s.db, key.kind).rows[key.id]
    decreases |steps|
  {
    if steps != [] {
      StepOk(cfg, s, steps[0]);
      StepAnswers(cfg, s, steps[0], key, from);
      RunAnswers(cfg, Do(cfg, s, steps[0]), steps[1..], key, from);
    }
  }

  lemma ReachableDb(cfg: Config, s: State)
    requires Reachable(cfg, s)
    ensures DbOk(cfg, s.db)
  {
    ReachableInv(cfg, s);
  }

  /** No Bark invoice is for an address that an Arkade invoice is for, in any reachable state. */
  lemma TablesShareNoAddress(cfg: Config, s: State, i: Id, j: Id)
    requires Reachable(cfg, s) && i in s.db.invoices.rows && j in s.db.arkade.rows
    ensures s.db.invoices.rows[i].address != s.db.arkade.rows[j].address
  {
    ReachableDb(cfg, s);
    if s.db.invoices.rows[i].address == s.db.arkade.rows[j].address {
      RecipientsDisjoint(cfg, s.db, Key(BarkRow, i), Key(ArkadeRow, j));
      assert false;
    }
  }
}

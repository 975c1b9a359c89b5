/** What holds in every reachable state of the server, and how one state may follow another. */
module ServerInvariant {
  import opened Wrappers
  import opened Names
  import opened Barkd
  import opened Ledger
  import opened Receipts
  import opened Server

  // ---------- How states follow one another ----------

  ghost predicate WalletEvolves(w: Wallet, w': Wallet, now: Time) {
    && w.history <= w'.history
    && w.issued <= w'.issued && w.revealed <= w'.revealed && w.claimed <= w'.claimed
    && (forall h :: h in w.acceptedAt ==> h in w'.acceptedAt && w'.acceptedAt[h] == w.acceptedAt[h])
    && (forall h :: h in w'.acceptedAt && h !in w.acceptedAt ==> w'.acceptedAt[h] >= now)
  }

  ghost predicate DbEvolves(db: Db, db': Db) {
    && TableEvolves(db.invoices, db'.invoices) && TableEvolves(db.arkade, db'.arkade)
    && CustomEvolves(db.names.invoices, db'.names.invoices)
    && AddressesEvolve(db.names.addresses, db'.names.addresses)
    && ZapsEvolve(db.zaps, db'.zaps) && ZapsEvolve(db.arkadeZaps, db'.arkadeZaps)
  }

  ghost predicate LogEvolves(s: State, s': State) {
    && (forall key :: key in s.how ==> key in s'.how && s'.how[key] == s.how[key])
    && s.wins <= s'.wins && s.sent <= s'.sent && s.answers <= s'.answers
  }

  ghost predicate Evolves(s: State, s': State) {
    s.now <= s'.now && WalletEvolves(s.wallet, s'.wallet, s.now) && DbEvolves(s.db, s'.db) && LogEvolves(s, s')
  }

  lemma EvolvesTransitive(s1: State, s2: State, s3: State)
    requires Evolves(s1, s2) && Evolves(s2, s3)
    ensures Evolves(s1, s3)
  {
  }

  // ---------- Facts that tasks carry ----------

  ghost predicate CloneOf(t: Table<Invoice>, row: Invoice) {
    row.id in t.rows && SameInvoice(row, t.rows[row.id])
  }

  ghost predicate CustomCloneOf(t: Table<CustomInvoice>, invoice: CustomInvoice) {
    invoice.id in t.rows && SameCustom(invoice, t.rows[invoice.id])
  }

  /** An observation of the receive for `hash`: if it was unpaid, acceptance can only have come later. */
  ghost predicate SeenOk(s: State, hash: string, seen: Option<Receive>, seenAt: Time) {
    && seenAt <= s.now
    && (PreimageIn(seen).Some? ==> (hash, PreimageIn(seen).value) in s.wallet.revealed)
    && (Unpaid(seen) && hash in s.wallet.acceptedAt ==> s.wallet.acceptedAt[hash] >= seenAt)
  }

  /** The first `historySeen` movements hold no payment of this fee. */
  ghost predicate NoFeePayment(s: State, invoice: CustomInvoice, historySeen: nat) {
    historySeen <= |s.wallet.history|
    && ReceivedArkPayment(s.wallet.history[..historySeen], invoice.feeReceiveAddress, FeeSats(invoice)).None?
  }

  ghost predicate ExpiryOk(s: State, hash: string, why: Expiry) {
    SeenOk(s, hash, why.seen, why.seenAt) && Unpaid(why.seen) && why.seenAt <= why.checkedAt <= s.now
  }

  /** The payment was really made: revealed by barkd for this hash, or received on this fee address. */
  ghost predicate PaymentOk(s: State, invoice: CustomInvoice, payment: Payment) {
    match payment
    case Lightning(preimage) => (CustomPaymentHashOf(invoice), preimage) in s.wallet.revealed
    case ArkTransfer(reference) => PaidBy(s.wallet.history, reference, invoice.feeReceiveAddress, FeeSats(invoice))
  }

  ghost predicate Owned(cfg: Config, invoice: CustomInvoice) {
    && IsCanonical(IsAddress(cfg), invoice.name)
    && cfg.parse(invoice.arkAddress) == Some(BarkAddress(invoice.arkAddress, true))
    && invoice.authMessage == SignatureMessage(cfg.domain, invoice.name, invoice.arkAddress)
    && ByteLength(invoice.signature) <= 128 && cfg.verifies(invoice.arkAddress, invoice.authMessage, invoice.signature)
  }

  /** The hash is that of the fee invoice, the expiry no later than its own, and the amount in whole satoshis. */
  ghost predicate TermsOk(invoice: CustomInvoice) {
    && invoice.paymentHash == Some(invoice.bolt11.paymentHash) && invoice.expiresAt <= invoice.bolt11.expiry
    && invoice.amountMsats % 1_000 == 0
  }

  ghost predicate OwnerOk(cfg: Config, owner: Ownership) {
    && IsCanonical(IsAddress(cfg), owner.name)
    && cfg.parse(owner.arkAddress) == Some(BarkAddress(owner.arkAddress, true))
    && ByteLength(owner.signature) <= 128
    && cfg.verifies(owner.arkAddress, SignatureMessage(cfg.domain, owner.name, owner.arkAddress), owner.signature)
  }

  /** A reservation about to be inserted. */
  ghost predicate ReservationOk(cfg: Config, invoice: CustomInvoice) {
    && Owned(cfg, invoice) && TermsOk(invoice)
    && invoice.state.Pending? && invoice.preimage == "" && invoice.arkPaymentReference.None? && invoice.settledAt.None?
  }

  ghost predicate TaskOk(cfg: Config, s: State, task: Task) {
    match task
    case BarkObserve(row) => CloneOf(s.db.invoices, row)
    case BarkApply(row, seen, seenAt) => CloneOf(s.db.invoices, row) && SeenOk(s, PaymentHashOf(row), seen, seenAt)
    case BarkSettle(row, preimage) => CloneOf(s.db.invoices, row) && (PaymentHashOf(row), preimage) in s.wallet.revealed
    case BarkCancel(row, why) =>
      CloneOf(s.db.invoices, row) && ExpiryOk(s, PaymentHashOf(row), why) && HasExpired(row, why.checkedAt)
    case ArkadeCheck(row) => CloneOf(s.db.arkade, row) && row.backend.Arkade?
    case ArkadeClaim(row) => CloneOf(s.db.arkade, row) && row.backend.Arkade?
    case ArkadeSettle(row, preimage) =>
      CloneOf(s.db.arkade, row) && row.backend.Arkade? && (row.backend.swapId, preimage) in s.wallet.claimed
    case ArkadeCancel(row, checkedAt) => CloneOf(s.db.arkade, row) && HasExpired(row, checkedAt) && checkedAt <= s.now
    case NotifyPublisher(key) => true
    case NameObserve(invoice) => CustomCloneOf(s.db.names.invoices, invoice)
    case NameArk(invoice, seen, seenAt) =>
      CustomCloneOf(s.db.names.invoices, invoice) && SeenOk(s, CustomPaymentHashOf(invoice), seen, seenAt)
    case NameExpiry(invoice, seen, seenAt, historySeen) =>
      && CustomCloneOf(s.db.names.invoices, invoice) && SeenOk(s, CustomPaymentHashOf(invoice), seen, seenAt)
           && Unpaid(seen)
      && NoFeePayment(s, invoice, historySeen)
    case NameCancel(invoice, why) =>
      && CustomCloneOf(s.db.names.invoices, invoice) && ExpiryOk(s, CustomPaymentHashOf(invoice), why)
      && CustomHasExpired(invoice, why.checkedAt) && NoFeePayment(s, invoice, why.historySeen)
    case TxnRead(invoice, payment) => CustomCloneOf(s.db.names.invoices, invoice) && PaymentOk(s, invoice, payment)
    case TxnTaken(invoice) =>
      CustomCloneOf(s.db.names.invoices, invoice) && NameTaken(s.db.names.addresses, invoice.name)
    case TxnUpdate(invoice, payment, _) => CustomCloneOf(s.db.names.invoices, invoice) && PaymentOk(s, invoice, payment)
    case TxnInsert(invoice, payment, _) => CustomCloneOf(s.db.names.invoices, invoice) && PaymentOk(s, invoice, payment)
    case TxnCommit(invoice, payment, _) => CustomCloneOf(s.db.names.invoices, invoice) && PaymentOk(s, invoice, payment)
    case CreateCheckActive(owner) => OwnerOk(cfg, owner)
    case CreateCheckPending(owner) => OwnerOk(cfg, owner)
    case CreateAddress(owner) => OwnerOk(cfg, owner)
    case CreateInvoice(owner, _) => OwnerOk(cfg, owner)
    case CreateInsert(invoice) => ReservationOk(cfg, invoice) && invoice.expiresAt <= s.now + 3_600_000_000
    case VerifyBark(address, target, _, _) => Resolves(cfg, s.db.names.addresses, address, target)
    case VerifyArkade(address, target, _, _) => Resolves(cfg, s.db.names.addresses, address, target)
  }

  lemma NoFeePaymentStable(s: State, s': State, invoice: CustomInvoice, historySeen: nat)
    requires Evolves(s, s') && NoFeePayment(s, invoice, historySeen)
    ensures NoFeePayment(s', invoice, historySeen)
  {
    assert s'.wallet.history[..historySeen] == s.wallet.history[..historySeen];
  }

  lemma PaidByStable(history: seq<Movement>, history': seq<Movement>, reference: string, address: string,
                     minAmountSat: nat)
    requires history <= history' && PaidBy(history, reference, address, minAmountSat)
    ensures PaidBy(history', reference, address, minAmountSat)
  {
    var m: nat, d: nat :| PaysAt(history, m, d, address, minAmountSat) && MovementReference(history[m].id) == reference;
    assert history'[m] == history[m];
    assert PaysAt(history', m, d, address, minAmountSat);
  }

  lemma PaymentOkStable(s: State, s': State, invoice: CustomInvoice, payment: Payment)
    requires Evolves(s, s') && PaymentOk(s, invoice, payment)
    ensures PaymentOk(s', invoice, payment)
  {
    if payment.ArkTransfer? {
      PaidByStable(s.wallet.history, s'.wallet.history, payment.reference, invoice.feeReceiveAddress, FeeSats(invoice));
    }
  }

  lemma ResolvesStable(cfg: Config, s: State, s': State, address: string, target: string)
    requires Evolves(s, s') && Resolves(cfg, s.db.names.addresses, address, target)
    ensures Resolves(cfg, s'.db.names.addresses, address, target)
  {
    if cfg.parse(address).None? {
      var id :| id in s.db.names.addresses.rows && s.db.names.addresses.rows[id].name == Normalize(IsAddress(cfg),
          address).value
                && cfg.parse(s.db.names.addresses.rows[id].arkAddress) == Some(BarkAddress(target, true));
      assert s'.db.names.addresses.rows[id] == s.db.names.addresses.rows[id];
    }
  }

  lemma NameTakenStable(s: State, s': State, name: string)
    requires Evolves(s, s') && NameTaken(s.db.names.addresses, name)
    ensures NameTaken(s'.db.names.addresses, name)
  {
    var id :| id in s.db.names.addresses.rows && s.db.names.addresses.rows[id].name == name;
    assert s'.db.names.addresses.rows[id].name == name;
  }

  lemma TxnOkStable(cfg: Config, s: State, s': State, task: Task)
    requires task.TxnRead? || task.TxnTaken? || task.TxnUpdate? || task.TxnInsert? || task.TxnCommit?
    requires Evolves(s, s') && TaskOk(cfg, s, task)
    ensures TaskOk(cfg, s', task)
  {
    if task.TxnTaken? {
      NameTakenStable(s, s', task.invoice.name);
    } else {
      PaymentOkStable(s, s', task.invoice, task.payment);
    }
  }

  /** What a task carries stays true whatever the others do in the meantime. */
  lemma TaskOkStable(cfg: Config, s: State, s': State, task: Task)
    requires Evolves(s, s') && TaskOk(cfg, s, task)
    ensures TaskOk(cfg, s', task)
  {
    match task
    case NameExpiry(invoice, seen, seenAt, historySeen) => NoFeePaymentStable(s, s', invoice, historySeen);
    case NameCancel(invoice, why) => NoFeePaymentStable(s, s', invoice, why.historySeen);
    case TxnRead(_, _) => TxnOkStable(cfg, s, s', task);
    case TxnTaken(_) => TxnOkStable(cfg, s, s', task);
    case TxnUpdate(_, _, _) => TxnOkStable(cfg, s, s', task);
    case TxnInsert(_, _, _) => TxnOkStable(cfg, s, s', task);
    case TxnCommit(_, _, _) => TxnOkStable(cfg, s, s', task);
    case VerifyBark(address, target, _, _) => ResolvesStable(cfg, s, s', address, target);
    case VerifyArkade(address, target, _, _) => ResolvesStable(cfg, s, s', address, target);
    case _ =>
  }

  // ---------- The invariant ----------

  ghost predicate HashesUnique(t: Table<Invoice>) {
    forall i, j ::
      i in t.rows && j in t.rows && t.rows[i].paymentHash.Some? && t.rows[i].paymentHash == t.rows[j].paymentHash ==>
        i == j
  }

  ghost predicate SwapsUnique(t: Table<Invoice>) {
    forall i, j :: i in t.rows && j in t.rows && t.rows[i].backend.Arkade? && t.rows[i].backend == t.rows[j].backend ==>
      i == j
  }

  /** The hash is that of the invoice, and so is the expiry if there is one. */
  ghost predicate ColumnsOk(row: Invoice) {
    && row.paymentHash == Some(row.bolt11.paymentHash)
    && (row.expiresAt.Some? ==> row.expiresAt.value == row.bolt11.expiry)
  }

  ghost predicate InvoicesOk(cfg: Config, t: Table<Invoice>, kind: Kind) {
    && Keyed(t) && HashesUnique(t) && SwapsUnique(t)
    && forall id :: id in t.rows ==>
         && t.rows[id].backend.Bark? == kind.BarkRow? && (kind.ArkadeRow? ==> cfg.arkadeEnabled)
         && cfg.parse(t.rows[id].address) == Some(Recipient(kind, t.rows[id].address))
         && ColumnsOk(t.rows[id])
         && (t.rows[id].state.Settled? <==> t.rows[id].settledAt.Some?)
         && (!t.rows[id].state.Settled? ==> t.rows[id].preimage == "")
  }

  ghost predicate ZapsOk(cfg: Config, t: Table<Invoice>, zaps: map<Id, Zap>) {
    forall id :: id in zaps ==>
      id in t.rows && zaps[id].id == id && AcceptedRequest(cfg.nostr, zaps[id].request, t.rows[id].amountMsats)
  }

  ghost predicate CustomHashesUnique(t: Table<CustomInvoice>) {
    forall i, j ::
      i in t.rows && j in t.rows && t.rows[i].paymentHash.Some? && t.rows[i].paymentHash == t.rows[j].paymentHash ==>
        i == j
  }

  ghost predicate ReservationsOk(cfg: Config, t: Table<CustomInvoice>) {
    && CustomKeyed(t) && OnePendingPerName(t) && CustomHashesUnique(t)
    && forall id :: id in t.rows ==>
         && Owned(cfg, t.rows[id]) && TermsOk(t.rows[id])
         && (t.rows[id].state.Settled? <==> t.rows[id].settledAt.Some?)
         && (!t.rows[id].state.Settled? ==> t.rows[id].preimage == "" && t.rows[id].arkPaymentReference.None?)
  }

  /** Registry row `a` is the name that invoice `i` paid for. */
  ghost predicate Backs(r: Registry, i: Id, a: Id) {
    && i in r.invoices.rows && r.invoices.rows[i].state.Settled? && a in r.addresses.rows
    && r.addresses.rows[a] == CustomAddress(r.invoices.rows[i].name, r.invoices.rows[i].arkAddress)
  }

  predicate SettledNames(t: Table<CustomInvoice>, i: Id, j: Id) {
    i in t.rows && j in t.rows && t.rows[i].state.Settled? && t.rows[j].state.Settled?
  }

  ghost predicate RegistryOk(r: Registry) {
    && AddressKeyed(r.addresses)
    && (forall a, b ::
          a in r.addresses.rows && b in r.addresses.rows && r.addresses.rows[a].name == r.addresses.rows[b].name ==>
            a == b)
    && (forall i :: i in r.invoices.rows && r.invoices.rows[i].state.Settled? ==> exists a :: Backs(r, i, a))
    && (forall a :: a in r.addresses.rows ==> exists i :: Backs(r, i, a))
    && (forall i, j :: SettledNames(r.invoices, i, j) && r.invoices.rows[i].name == r.invoices.rows[j].name ==> i == j)
  }

  ghost predicate WalletOk(w: Wallet, now: Time) {
    && (forall h :: h in w.receives ==> w.receives[h].paymentHash == h)
    && (forall h :: h in w.receives && RevealedPreimage(w.receives[h]).Some? ==>
          (h, RevealedPreimage(w.receives[h]).value) in w.revealed)
    && (forall h :: h in w.receives && !AllowsExpiry(w.receives[h]) ==> h in w.acceptedAt)
    && (forall h, preimage :: (h, preimage) in w.revealed ==> h in w.acceptedAt)
    && (forall h :: h in w.acceptedAt ==> w.acceptedAt[h] <= now && h in w.receives && !AllowsExpiry(w.receives[h]))
  }

  ghost predicate TasksOk(cfg: Config, s: State) {
    forall tid :: tid in s.tasks ==> TaskOk(cfg, s, s.tasks[tid])
  }

  /** Row locks are exclusive and freeze a pending row; index entries are exclusive and reserve a free name. */
  ghost predicate LocksOk(s: State) {
    && (forall tid, id :: tid in s.tasks && HoldsRow(s.tasks[tid], id) ==>
          CustomIsPending(s.db.names.invoices, id) && RowFree(s, tid, id))
    && (forall tid, name :: tid in s.tasks && HoldsName(s.tasks[tid], name) ==>
          !NameTaken(s.db.names.addresses, name) && NameFree(s, tid, name))
  }

  ghost predicate Decided(db: Db, key: Key) {
    match key.kind
    case NameRow => key.id in db.names.invoices.rows && !db.names.invoices.rows[key.id].state.Pending?
    case _ => key.id in TableOf(db, key.kind).rows && !TableOf(db, key.kind).rows[key.id].state.Pending?
  }

  /** The grounds for leaving Pending, apart from the resulting row. */
  ghost predicate CauseOk(s: State, key: Key, how: How) {
    match key.kind
    case NameRow =>
      key.id in s.db.names.invoices.rows &&
      var invoice := s.db.names.invoices.rows[key.id];
      (match how
       case PaidLightning(preimage) => PaymentOk(s, invoice, Lightning(preimage))
       case PaidArk(reference) => PaymentOk(s, invoice, ArkTransfer(reference))
       case ExpiredUnpaid(why) =>
         && ExpiryOk(s, CustomPaymentHashOf(invoice), why) && CustomHasExpired(invoice, why.checkedAt)
         && NoFeePayment(s, invoice, why.historySeen)
       case NameWasTaken => NameTaken(s.db.names.addresses, invoice.name)
       case ArkadeExpired(_) => false)
    case BarkRow =>
      key.id in s.db.invoices.rows &&
      var row := s.db.invoices.rows[key.id];
      (match how
       case PaidLightning(preimage) => (PaymentHashOf(row), preimage) in s.wallet.revealed
       case ExpiredUnpaid(why) => ExpiryOk(s, PaymentHashOf(row), why) && HasExpired(row, why.checkedAt)
       case _ => false)
    case ArkadeRow =>
      key.id in s.db.arkade.rows &&
      var row := s.db.arkade.rows[key.id];
      (match how
       case PaidLightning(preimage) => row.backend.Arkade? && (row.backend.swapId, preimage) in s.wallet.claimed
       case ArkadeExpired(checkedAt) => HasExpired(row, checkedAt) && checkedAt <= s.now
       case _ => false)
  }

  /** The resulting row. */
  ghost predicate OutcomeOk(db: Db, key: Key, how: How) {
    match key.kind
    case NameRow =>
      key.id in db.names.invoices.rows &&
      var invoice := db.names.invoices.rows[key.id];
      (match how
       case PaidLightning(preimage) =>
         invoice.state.Settled? && invoice.preimage == preimage && invoice.arkPaymentReference.None?
       case PaidArk(reference) =>
         invoice.state.Settled? && invoice.preimage == "" && invoice.arkPaymentReference == Some(reference)
       case _ => invoice.state.Cancelled?)
    case _ =>
      key.id in TableOf(db, key.kind).rows &&
      var row := TableOf(db, key.kind).rows[key.id];
      (match how
       case PaidLightning(preimage) => row.state.Settled? && row.preimage == preimage
       case _ => row.state.Cancelled?)
  }

  ghost predicate WinsOk(s: State) {
    && (forall key: Key :: s.wins[key] == if Decided(s.db, key) then 1 else 0)
    && (forall key: Key :: key in s.how <==> Decided(s.db, key))
    && (forall key :: key in s.how ==> CauseOk(s, key, s.how[key]) && OutcomeOk(s.db, key, s.how[key]))
  }

  predicate HoldsFee(task: Task, fee: string) {
    (task.CreateInvoice? && task.fee == fee) || (task.CreateInsert? && task.invoice.feeReceiveAddress == fee)
  }

  ghost predicate FeeInRows(t: Table<CustomInvoice>, fee: string) {
    exists id :: id in t.rows && t.rows[id].feeReceiveAddress == fee
  }

  /** The fee address was issued, and neither a row nor another task has it. */
  ghost predicate SoleHolder(s: State, tid: nat, fee: string) {
    && fee in s.wallet.issued && !FeeInRows(s.db.names.invoices, fee)
    && forall other :: other in s.tasks && other != tid ==> !HoldsFee(s.tasks[other], fee)
  }

  /** Every fee address was issued by barkd to one reservation or to one task that is creating it. */
  ghost predicate FeesOk(s: State) {
    var t := s.db.names.invoices;
    && (forall i, j :: i in t.rows && j in t.rows && t.rows[i].feeReceiveAddress == t.rows[j].feeReceiveAddress ==>
          i == j)
    && (forall i :: i in t.rows ==> t.rows[i].feeReceiveAddress in s.wallet.issued)
    && (forall tid, fee :: tid in s.tasks && HoldsFee(s.tasks[tid], fee) ==> SoleHolder(s, tid, fee))
  }

  /** A loaded job: its zap row still has the request, and its invoice row is settled, hence frozen. */
  ghost predicate JobOk(db: Db, job: Job) {
    && !job.key.kind.NameRow?
    && job.key.id in ZapsOf(db, job.key.kind) && ZapsOf(db, job.key.kind)[job.key.id].request == job.zap.request
    && job.key.id in TableOf(db, job.key.kind).rows && TableOf(db, job.key.kind).rows[job.key.id] == job.row
    && job.row.state.Settled?
  }

  ghost predicate JobsOk(db: Db, jobs: seq<Job>) {
    forall i :: 0 <= i < |jobs| ==> JobOk(db, jobs[i])
  }

  /** The one event id that a receipt for this row can have. */
  ghost predicate ReceiptIs(cfg: Config, db: Db, key: Key, eventId: string) {
    && !key.kind.NameRow?
    && key.id in ZapsOf(db, key.kind) && key.id in TableOf(db, key.kind).rows
    && var row := TableOf(db, key.kind).rows[key.id];
       var receipt := ReceiptFor(cfg, ZapsOf(db, key.kind)[key.id].request, row);
       row.state.Settled? && receipt.Some? && eventId == cfg.nostr.eventId(receipt.value)
  }

  ghost predicate PublisherOk(cfg: Config, s: State) {
    && (match s.publisher
        case LoadingArkade(jobs) => JobsOk(s.db, jobs)
        case Working(jobs) => JobsOk(s.db, jobs)
        case Writing(key, eventId, jobs) =>
          JobsOk(s.db, jobs) && ReceiptIs(cfg, s.db, key, eventId) && (key, eventId) in s.sent
        case _ => true)
    && (forall key, eventId :: (key, eventId) in s.sent ==> ReceiptIs(cfg, s.db, key, eventId))
    && (forall id :: id in s.db.zaps && s.db.zaps[id].eventId.Some? ==>
          (Key(BarkRow, id), s.db.zaps[id].eventId.value) in s.sent)
    && (forall id :: id in s.db.arkadeZaps && s.db.arkadeZaps[id].eventId.Some? ==>
          (Key(ArkadeRow, id), s.db.arkadeZaps[id].eventId.value) in s.sent)
  }

  /** No lost wake-up, in its inductive form. */
  ghost predicate WakeupOk(s: State) {
    s.sinceLoad != {} ==>
      s.publisher.Loading? || s.permit || exists tid :: tid in s.tasks && s.tasks[tid].NotifyPublisher?
  }

  /** Every settled zap of this table that still lacks a receipt was loaded, or was settled since the load began. */
  ghost predicate Covered(s: State, kind: Kind) {
    forall id :: Unpublished(s.db, kind, s.now, id) ==> Key(kind, id) in s.sinceLoad || Key(kind, id) in s.loaded
  }

  ghost predicate LoadsOk(s: State) {
    match s.publisher
    case Loading => true
    case LoadingArkade(_) => Covered(s, BarkRow)
    case Working(_) => Covered(s, BarkRow) && Covered(s, ArkadeRow)
    case Writing(_, _, _) => Covered(s, BarkRow) && Covered(s, ArkadeRow)
    case Parked(loadsDone) => loadsDone ==> Covered(s, BarkRow) && Covered(s, ArkadeRow)
  }

  ghost predicate AnswerOk(cfg: Config, db: Db, answer: Answer) {
    && !answer.key.kind.NameRow?
    && answer.key.id in TableOf(db, answer.key.kind).rows
    && var row := TableOf(db, answer.key.kind).rows[answer.key.id];
       && row.paymentHash == Some(answer.hash) && Resolves(cfg, db.names.addresses, answer.address, row.address)
       && (answer.settled ==> row.state.Settled? && row.preimage == answer.preimage && answer.preimage != "")
  }

  predicate SameQuestion(a: Answer, b: Answer) { a.address == b.address && a.hash == b.hash }

  predicate Repeats(later: Answer, earlier: Answer) { later.settled && later.preimage == earlier.preimage }

  /** A settled answer is repeated by every later answer to the same question. */
  ghost predicate AnswersMonotone(answers: seq<Answer>) {
    forall k, l :: 0 <= k < l < |answers| && answers[k].settled && SameQuestion(answers[k], answers[l]) ==>
      Repeats(answers[l], answers[k])
  }

  ghost predicate AnswersOk(cfg: Config, s: State) {
    (forall k :: 0 <= k < |s.answers| ==> AnswerOk(cfg, s.db, s.answers[k])) && AnswersMonotone(s.answers)
  }

  ghost predicate DbOk(cfg: Config, db: Db) {
    && InvoicesOk(cfg, db.invoices, BarkRow) && InvoicesOk(cfg, db.arkade, ArkadeRow)
    && ZapsOk(cfg, db.invoices, db.zaps) && ZapsOk(cfg, db.arkade, db.arkadeZaps)
    && ReservationsOk(cfg, db.names.invoices) && RegistryOk(db.names)
  }

  /** The invariant apart from the tasks. */
  ghost predicate SharedOk(cfg: Config, s: State) {
    DbOk(cfg, s.db) && WalletOk(s.wallet, s.now) && WinsOk(s) && PublisherOk(cfg, s) && AnswersOk(cfg, s)
  }

  ghost predicate Inv(cfg: Config, s: State) {
    FaithfulAddresses(cfg) && SharedOk(cfg, s) && TasksOk(cfg, s) && LocksOk(s) && FeesOk(s) && WakeupOk(s)
      && LoadsOk(s)
  }

  lemma InitInv(cfg: Config, now: Time)
    requires FaithfulAddresses(cfg)
    ensures Inv(cfg, Init(now))
  {
  }
}

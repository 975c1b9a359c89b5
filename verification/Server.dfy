/**
 The running server as a state machine: the database, barkd, and every task in flight.

 A task is a program counter with the values it carries, which may be stale. It takes one step
 at every `.await`, every SQL statement and every commit, in any interleaving with the others.
 The registry transaction runs at READ COMMITTED: its UPDATE locks the row and its INSERT locks
 the index entry, both invisible to others until the COMMIT, and a task that meets such a lock
 cannot step. A failed request or statement is an `Abort`, a process failure is a `Crash`.
 */
module Server {
  import opened Wrappers
  import opened Names
  import opened Barkd
  import opened Ledger
  import opened Receipts
  import opened Publishing

  const MAX_SIGNATURE := 128

  // ---------- The foreign parts ----------

  datatype ReceiveAddress = BarkAddress(text: string, onNetwork: bool) | ArkadeAddress(text: string, onNetwork: bool)

  datatype Config = Config(
    nostr: Nostr,
    domain: string,
    arkadeEnabled: bool,
    parse: string -> Option<ReceiveAddress>,
    verifies: (string, string, string) -> bool)

  /** Printing an address and parsing it again gives it back, on one line. */
  ghost predicate FaithfulAddresses(cfg: Config) {
    forall input: string :: cfg.parse(input).Some? ==>
      var address := cfg.parse(input).value;
      cfg.parse(address.text) == Some(address) && '\n' !in address.text
  }

  function IsAddress(cfg: Config): string -> bool {
    text => cfg.parse(text).Some?
  }

  // ---------- State ----------

  datatype Kind = BarkRow | ArkadeRow | NameRow

  /** The primary key of a row in one of the three invoice tables. */
  datatype Key = Key(kind: Kind, id: Id)

  datatype Db = Db(invoices: Table<Invoice>, arkade: Table<Invoice>, names: Registry, zaps: map<Id, Zap>,
    arkadeZaps: map<Id, Zap>)

  /**
   barkd and the Arkade client. The last three fields are history: every preimage ever shown in a revealed
   phase, every preimage a claim returned, and when each receive left `awaiting-payment`.
   */
  datatype Wallet = Wallet(
    receives: map<string, Receive>,
    history: seq<Movement>,
    issued: set<string>,
    revealed: set<(string, string)>,
    claimed: set<(string, string)>,
    acceptedAt: map<string, Time>)

  /** What a claim saw before it decided that an invoice may expire. */
  datatype Expiry = Expiry(seen: Option<Receive>, seenAt: Time, historySeen: nat, checkedAt: Time)

  datatype Ownership = Ownership(name: string, arkAddress: string, signature: string)

  datatype Task =
    | BarkObserve(row: Invoice)
    | BarkApply(row: Invoice, seen: Option<Receive>, seenAt: Time)
    | BarkSettle(row: Invoice, preimage: string)
    | BarkCancel(row: Invoice, why: Expiry)
    | ArkadeCheck(row: Invoice)
    | ArkadeClaim(row: Invoice)
    | ArkadeSettle(row: Invoice, preimage: string)
    | ArkadeCancel(row: Invoice, checkedAt: Time)
    | NotifyPublisher(key: Key)
    | NameObserve(invoice: CustomInvoice)
    | NameArk(invoice: CustomInvoice, seen: Option<Receive>, seenAt: Time)
    | NameExpiry(invoice: CustomInvoice, seen: Option<Receive>, seenAt: Time, historySeen: nat)
    | NameCancel(invoice: CustomInvoice, why: Expiry)
    | TxnRead(invoice: CustomInvoice, payment: Payment)
    | TxnTaken(invoice: CustomInvoice)
    | TxnUpdate(invoice: CustomInvoice, payment: Payment, startedAt: Time)
    | TxnInsert(invoice: CustomInvoice, payment: Payment, startedAt: Time)
    | TxnCommit(invoice: CustomInvoice, payment: Payment, startedAt: Time)
    | CreateCheckActive(owner: Ownership)
    | CreateCheckPending(owner: Ownership)
    | CreateAddress(owner: Ownership)
    | CreateInvoice(owner: Ownership, fee: string)
    | CreateInsert(invoice: CustomInvoice)
    | VerifyBark(address: string, target: string, hash: string, again: bool)
    | VerifyArkade(address: string, target: string, hash: string, again: bool)

  datatype Job = Job(key: Key, zap: Zap, row: Invoice)

  datatype Publisher =
    | Loading
    | LoadingArkade(jobs: seq<Job>)
    | Working(jobs: seq<Job>)
    | Writing(key: Key, eventId: string, jobs: seq<Job>)
    | Parked(loadsDone: bool)

  /** How a row left Pending. */
  datatype How =
    | PaidLightning(preimage: string)
    | PaidArk(reference: string)
    | ExpiredUnpaid(why: Expiry)
    | ArkadeExpired(checkedAt: Time)
    | NameWasTaken

  /** A successful answer of `verify`, with the row it was read from. */
  datatype Answer = Answer(address: string, hash: string, settled: bool, preimage: string, key: Key)

  /**
   `wins` counts the `mark_*` statements that updated a row, and `how` says what they wrote; `sent` holds the
   receipts handed to relays, `answers` the answers of `verify` in the order of their last read, `sinceLoad`
   the zapped rows settled since the publisher last began a load, and `loaded` the rows that load returned.
   */
  datatype State = State(
    now: Time,
    wallet: Wallet,
    db: Db,
    tasks: map<nat, Task>,
    permit: bool,
    publisher: Publisher,
    wins: multiset<Key>,
    how: map<Key, How>,
    sent: set<(Key, string)>,
    answers: seq<Answer>,
    sinceLoad: set<Key>,
    loaded: set<Key>)

  function Init(now: Time): State {
    State(now, Wallet(map[], [], {}, {}, {}, map[]),
          Db(Table(map[], 0), Table(map[], 0), Registry(Table(map[], 0), Table(map[], 0)), map[], map[]),
          map[], false, Loading, multiset{}, map[], {}, [], {}, {})
  }

  function TableOf(db: Db, kind: Kind): Table<Invoice> { if kind.BarkRow? then db.invoices else db.arkade }

  function ZapsOf(db: Db, kind: Kind): map<Id, Zap> { if kind.BarkRow? then db.zaps else db.arkadeZaps }

  function WithTable(db: Db, kind: Kind, t: Table<Invoice>): Db {
    if kind.BarkRow? then db.(invoices := t) else db.(arkade := t)
  }

  function WithZaps(db: Db, kind: Kind, zaps: map<Id, Zap>): Db {
    if kind.BarkRow? then db.(zaps := zaps) else db.(arkadeZaps := zaps)
  }

  // ---------- Reading ----------

  function SeenFor(wallet: Wallet, hash: string): Option<Receive> {
    if hash in wallet.receives then Some(wallet.receives[hash]) else None
  }

  /** `resolve_receive_address`: a literal address, or else a registered name. */
  ghost predicate Resolves(cfg: Config, addresses: Table<CustomAddress>, address: string, target: string) {
    match cfg.parse(address)
    case Some(literal) => literal.onNetwork && (literal.ArkadeAddress? ==> cfg.arkadeEnabled) && literal.text == target
    case None =>
      Normalize(IsAddress(cfg), address).Ok? &&
      exists id :: id in addresses.rows && addresses.rows[id].name == Normalize(IsAddress(cfg), address).value
                   && cfg.parse(addresses.rows[id].arkAddress) == Some(BarkAddress(target, true))
  }

  ghost predicate HashIn(t: Table<Invoice>, hash: string) {
    exists id :: id in t.rows && t.rows[id].paymentHash == Some(hash)
  }

  ghost predicate HasHash(db: Db, key: Key, hash: string) {
    && !key.kind.NameRow?
    && key.id in TableOf(db, key.kind).rows && TableOf(db, key.kind).rows[key.id].paymentHash == Some(hash)
  }

  /** What the recipient address of a row was parsed from, by the backend that issued its invoice. */
  function Recipient(kind: Kind, text: string): ReceiveAddress {
    if kind.BarkRow? then BarkAddress(text, true) else ArkadeAddress(text, true)
  }

  // ---------- Locks ----------

  predicate HoldsRow(task: Task, id: Id) {
    (task.TxnInsert? || task.TxnCommit?) && task.invoice.id == id
  }

  predicate HoldsName(task: Task, name: string) {
    task.TxnCommit? && task.invoice.name == name
  }

  ghost predicate RowFree(s: State, tid: nat, id: Id) {
    forall other :: other in s.tasks && other != tid ==> !HoldsRow(s.tasks[other], id)
  }

  ghost predicate NameFree(s: State, tid: nat, name: string) {
    forall other :: other in s.tasks && other != tid ==> !HoldsName(s.tasks[other], name)
  }

  // ---------- Effects ----------

  /** What a step of a task does to anything but its own program counter. */
  datatype Effect =
    | Nothing
    | SettleRow(kind: Kind, id: Id, preimage: string)
    | CancelRow(kind: Kind, id: Id, cause: How)
    | CancelName(id: Id, cause: How)
    | CommitName(invoice: CustomInvoice, payment: Payment, startedAt: Time)
    | Reserve(invoice: CustomInvoice)
    | GrantAddress(address: string)
    | ClaimSwap(swapId: string, preimage: string)
    | StorePermit
    | Respond(answer: Answer)

  function Record(s: State, key: Key, how: How): State {
    s.(wins := s.wins + multiset{key}, how := s.how[key := how])
  }

  function PaidWith(payment: Payment): How {
    match payment
    case Lightning(preimage) => PaidLightning(preimage)
    case ArkTransfer(reference) => PaidArk(reference)
  }

  function Apply(s: State, effect: Effect): State {
    match effect
    case Nothing => s
    case SettleRow(kind, id, preimage) =>
      var key := Key(kind, id);
      Record(s.(db := WithTable(s.db, kind, SettleInvoice(TableOf(s.db, kind), id, preimage, s.now).0),
                sinceLoad := if id in ZapsOf(s.db, kind) then s.sinceLoad + {key} else s.sinceLoad),
             key, PaidLightning(preimage))
    case CancelRow(kind, id, cause) =>
      Record(s.(db := WithTable(s.db, kind, CancelInvoice(TableOf(s.db, kind), id).0)), Key(kind, id), cause)
    case CancelName(id, cause) =>
      Record(s.(db := s.db.(names := s.db.names.(invoices := CancelCustom(s.db.names.invoices, id).0))),
        Key(NameRow, id), cause)
    case CommitName(invoice, payment, startedAt) =>
      Record(s.(db := s.db.(names := Registry(
                  SettleCustom(s.db.names.invoices, invoice.id, payment, startedAt).0,
                  InsertAddress(s.db.names.addresses, invoice.name, invoice.arkAddress)))),
             Key(NameRow, invoice.id), PaidWith(payment))
    case Reserve(invoice) =>
      var t := s.db.names.invoices;
      s.(db := s.db.(names := s.db.names.(invoices := Table(t.rows[t.next := invoice.(id := t.next)], t.next + 1))))
    case GrantAddress(address) => s.(wallet := s.wallet.(issued := s.wallet.issued + {address}))
    case ClaimSwap(swapId, preimage) => s.(wallet := s.wallet.(claimed := s.wallet.claimed + {(swapId, preimage)}))
    case StorePermit => s.(permit := true)
    case Respond(answer) => s.(answers := s.answers + [answer])
  }

  // ---------- Task steps ----------

  /** What the environment answers to the step, where there is a choice. */
  datatype Reply =
    | NoReply
    | Preimage(preimage: string)
    | FreshAddress(address: string)
    | FreshInvoice(bolt11: Bolt11, feeSats: nat)
    | Found(key: Key)

  datatype Move = Move(next: Option<Task>, effect: Effect)

  function Go(next: Task): Move { Move(Some(next), Nothing) }

  const DONE := Move(None, Nothing)

  function Min(x: Time, y: Time): Time { if x <= y then x else y }

  /** `feeSats` is the fee configured at that moment, which a restart may have changed. */
  function NewReservation(cfg: Config, owner: Ownership, fee: string, bolt11: Bolt11, feeSats: nat,
                          now: Time): CustomInvoice {
    var message := SignatureMessage(cfg.domain, owner.name, owner.arkAddress);
    CustomInvoice(0, owner.name, owner.arkAddress, message, owner.signature, fee, bolt11, feeSats * 1_000,
                  Some(bolt11.paymentHash), "", None, Pending, Min(bolt11.expiry, now + HOUR), None)
  }

  /** The INSERT meets neither the index on pending names nor the one on payment hashes. */
  ghost predicate CanReserve(t: Table<CustomInvoice>, invoice: CustomInvoice) {
    && !NameReserved(t, invoice.name)
    && forall id :: id in t.rows && t.rows[id].paymentHash.Some? ==> t.rows[id].paymentHash != invoice.paymentHash
  }

  ghost predicate CanAdvance(cfg: Config, s: State, tid: nat, reply: Reply) {
    && tid in s.tasks
    && match s.tasks[tid]
       case ArkadeClaim(_) => reply.Preimage?
       case NameCancel(invoice, _) => RowFree(s, tid, invoice.id)
       case TxnTaken(invoice) => RowFree(s, tid, invoice.id)
       case TxnUpdate(invoice, _, _) => RowFree(s, tid, invoice.id)
       case TxnInsert(invoice, _, _) => NameFree(s, tid, invoice.name)
       case CreateAddress(_) => reply.FreshAddress? && reply.address !in s.wallet.issued
       case CreateInvoice(_, _) => reply.FreshInvoice?
       case CreateInsert(invoice) => CanReserve(s.db.names.invoices, invoice)
       case VerifyBark(_, _, hash, _) =>
         if reply.Found? then reply.key.kind.BarkRow? && HasHash(s.db, reply.key, hash)
           else !HashIn(s.db.invoices, hash)
       case VerifyArkade(_, _, hash, _) => reply.Found? && reply.key.kind.ArkadeRow? && HasHash(s.db, reply.key, hash)
       case _ => true
  }

  /** The body of `verify` after a lookup: a foreign row is not found, otherwise the row is the answer. */
  ghost function AnswerFrom(s: State, address: string, target: string, hash: string, key: Key): Move
    requires HasHash(s.db, key, hash)
  {
    var row := TableOf(s.db, key.kind).rows[key.id];
    if row.address != target then DONE
    else
      var settled := row.state.Settled? && row.preimage != "";
      Move(None, Respond(Answer(address, hash, settled, if settled then row.preimage else "", key)))
  }

  /** A row that was found pending is claimed, and looked up again from the start. */
  ghost function AfterLookup(s: State, address: string, target: string, hash: string, again: bool, key: Key): Move
    requires HasHash(s.db, key, hash)
  {
    if !again && TableOf(s.db, key.kind).rows[key.id].state.Pending? then Go(VerifyBark(address, target, hash, true))
    else AnswerFrom(s, address, target, hash, key)
  }

  ghost function Advance(cfg: Config, s: State, tid: nat, reply: Reply): Move
    requires CanAdvance(cfg, s, tid, reply)
  {
    match s.tasks[tid]
    // claim_invoice_if_paid and apply_invoice_receive_status
    case BarkObserve(row) => Go(BarkApply(row, SeenFor(s.wallet, PaymentHashOf(row)), s.now))
    case BarkApply(row, seen, seenAt) =>
      if PreimageIn(seen).Some? then Go(BarkSettle(row, PreimageIn(seen).value))
      else if Unpaid(seen) && HasExpired(row, s.now) then Go(BarkCancel(row, Expiry(seen, seenAt, 0, s.now)))
      else DONE
    case BarkSettle(row, preimage) =>
      if IsPending(s.db.invoices, row.id) then
        Move(Some(NotifyPublisher(Key(BarkRow, row.id))), SettleRow(BarkRow, row.id, preimage))
      else DONE
    case BarkCancel(row, why) =>
      if IsPending(s.db.invoices, row.id) then Move(None, CancelRow(BarkRow, row.id, ExpiredUnpaid(why))) else DONE
    // the Arkade claims
    case ArkadeCheck(row) => if HasExpired(row, s.now) then Go(ArkadeCancel(row, s.now)) else Go(ArkadeClaim(row))
    case ArkadeClaim(row) =>
      var swapId := if row.backend.Arkade? then row.backend.swapId else "";
      Move(Some(ArkadeSettle(row, reply.preimage)), ClaimSwap(swapId, reply.preimage))
    case ArkadeSettle(row, preimage) =>
      if IsPending(s.db.arkade, row.id) then
        Move(Some(NotifyPublisher(Key(ArkadeRow, row.id))), SettleRow(ArkadeRow, row.id, preimage))
      else DONE
    case ArkadeCancel(row, checkedAt) =>
      if IsPending(s.db.arkade, row.id) then Move(None, CancelRow(ArkadeRow, row.id, ArkadeExpired(checkedAt)))
        else DONE
    case NotifyPublisher(_) => Move(None, StorePermit)
    // claim_custom_address_invoice_if_paid
    case NameObserve(invoice) =>
      var seen := SeenFor(s.wallet, CustomPaymentHashOf(invoice));
      if PreimageIn(seen).Some? then Go(TxnRead(invoice, Lightning(PreimageIn(seen).value)))
        else Go(NameArk(invoice, seen, s.now))
    case NameArk(invoice, seen, seenAt) =>
      (match ReceivedArkPayment(s.wallet.history, invoice.feeReceiveAddress, FeeSats(invoice))
       case Some(payment) => Go(TxnRead(invoice, ArkTransfer(payment.reference)))
       case None => if Unpaid(seen) then Go(NameExpiry(invoice, seen, seenAt, |s.wallet.history|)) else DONE)
    case NameExpiry(invoice, seen, seenAt, historySeen) =>
      if CustomHasExpired(invoice, s.now) then Go(NameCancel(invoice, Expiry(seen, seenAt, historySeen, s.now)))
        else DONE
    case NameCancel(invoice, why) =>
      if CustomIsPending(s.db.names.invoices, invoice.id) then Move(None, CancelName(invoice.id, ExpiredUnpaid(why)))
        else DONE
    // mark_settled_and_activate
    case TxnRead(invoice, payment) =>
      if NameTaken(s.db.names.addresses, invoice.name) then Go(TxnTaken(invoice))
        else Go(TxnUpdate(invoice, payment, s.now))
    case TxnTaken(invoice) =>
      if CustomIsPending(s.db.names.invoices, invoice.id) then Move(None, CancelName(invoice.id, NameWasTaken))
        else DONE
    case TxnUpdate(invoice, payment, startedAt) =>
      if CustomIsPending(s.db.names.invoices, invoice.id) then Go(TxnInsert(invoice, payment, startedAt)) else DONE
    case TxnInsert(invoice, payment, startedAt) =>
      if NameTaken(s.db.names.addresses, invoice.name) then DONE else Go(TxnCommit(invoice, payment, startedAt))
    case TxnCommit(invoice, payment, startedAt) => Move(None, CommitName(invoice, payment, startedAt))
    // create_custom_address_invoice_impl
    case CreateCheckActive(owner) =>
      if NameTaken(s.db.names.addresses, owner.name) then DONE else Go(CreateCheckPending(owner))
    case CreateCheckPending(owner) =>
      if NameReserved(s.db.names.invoices, owner.name) then DONE else Go(CreateAddress(owner))
    case CreateAddress(owner) => Move(Some(CreateInvoice(owner, reply.address)), GrantAddress(reply.address))
    case CreateInvoice(owner, fee) =>
      Go(CreateInsert(NewReservation(cfg, owner, fee, reply.bolt11, reply.feeSats, s.now)))
    case CreateInsert(invoice) => Move(None, Reserve(invoice))
    // verify and find_invoice_by_payment_hash: the Bark table is looked up first
    case VerifyBark(address, target, hash, again) =>
      if reply.Found? then AfterLookup(s, address, target, hash, again, reply.key)
        else Go(VerifyArkade(address, target, hash, again))
    case VerifyArkade(address, target, hash, again) => AfterLookup(s, address, target, hash, again, reply.key)
  }

  function WithTask(s: State, tid: nat, next: Option<Task>): State {
    s.(tasks := if next.Some? then s.tasks[tid := next.value] else s.tasks - {tid})
  }

  // ---------- The publisher ----------

  /** `get_unpublished_settled`. */
  predicate Unpublished(db: Db, kind: Kind, now: Time, id: Id) {
    IsDue(ZapsOf(db, kind), TableOf(db, kind), now - RETRY_WINDOW, id)
  }

  ghost predicate IsLoad(db: Db, kind: Kind, now: Time, jobs: seq<Job>) {
    && (forall i :: 0 <= i < |jobs| ==>
          && jobs[i].key.kind == kind && Unpublished(db, kind, now, jobs[i].key.id)
          && jobs[i].zap == ZapsOf(db, kind)[jobs[i].key.id] && jobs[i].row == TableOf(db, kind).rows[jobs[i].key.id])
    && (forall i, j :: 0 <= i < j < |jobs| ==>
          jobs[i].key != jobs[j].key && jobs[i].row.settledAt.value <= jobs[j].row.settledAt.value)
    && (forall id :: Unpublished(db, kind, now, id) ==> exists i :: 0 <= i < |jobs| && jobs[i].key.id == id)
  }

  /** The receipt of one zap, from the row it belongs to. */
  function ReceiptFor(cfg: Config, request: string, row: Invoice): Option<Event> {
    ReceiptOf(cfg.nostr, request, row)
  }

  function KeysOf(jobs: seq<Job>): set<Key> {
    set job | job in jobs :: job.key
  }

  datatype PublisherStep =
    | LoadBark(found: seq<Job>)
    | LoadArkade(found: seq<Job>)
    | LoadFails
    | SkipJob(sent: bool)
    | SendReceipt
    | WriteEventId
    | WriteFails
    | Finish
    | WakeByPermit
    | WakeByTimer

  ghost predicate CanPublish(cfg: Config, s: State, step: PublisherStep) {
    match step
    case LoadBark(jobs) => s.publisher.Loading? && IsLoad(s.db, BarkRow, s.now, jobs)
    case LoadArkade(jobs) => s.publisher.LoadingArkade? && IsLoad(s.db, ArkadeRow, s.now, jobs)
    case LoadFails => s.publisher.Loading? || s.publisher.LoadingArkade?
    case SkipJob(sent) => s.publisher.Working? && s.publisher.jobs != []
                          && (sent ==> ReceiptFor(cfg, s.publisher.jobs[0].zap.request, s.publisher.jobs[0].row).Some?)
    case SendReceipt => s.publisher.Working? && s.publisher.jobs != []
                        && ReceiptFor(cfg, s.publisher.jobs[0].zap.request, s.publisher.jobs[0].row).Some?
    case WriteEventId => s.publisher.Writing? && s.publisher.key.id in ZapsOf(s.db, s.publisher.key.kind)
    case WriteFails => s.publisher.Writing?
    case Finish => s.publisher == Working([])
    case WakeByPermit => s.publisher.Parked? && s.permit
    case WakeByTimer => s.publisher.Parked?
  }

  function Publish(cfg: Config, s: State, step: PublisherStep): State
    requires CanPublish(cfg, s, step)
  {
    match step
    case LoadBark(jobs) => s.(publisher := LoadingArkade(jobs), sinceLoad := {}, loaded := KeysOf(jobs))
    case LoadArkade(jobs) => s.(publisher := Working(s.publisher.jobs + jobs), loaded := s.loaded + KeysOf(jobs))
    case LoadFails => s.(publisher := Parked(false), sinceLoad := if s.publisher.Loading? then {} else s.sinceLoad)
    case SkipJob(sent) =>
      var job := s.publisher.jobs[0];
      var skipped := s.(publisher := Working(s.publisher.jobs[1..]));
      if sent then
        skipped.(sent := s.sent + {(job.key, cfg.nostr.eventId(ReceiptFor(cfg, job.zap.request, job.row).value))})
          else skipped
    case SendReceipt =>
      var job := s.publisher.jobs[0];
      var eventId := cfg.nostr.eventId(ReceiptFor(cfg, job.zap.request, job.row).value);
      s.(publisher := Writing(job.key, eventId, s.publisher.jobs[1..]), sent := s.sent + {(job.key, eventId)})
    case WriteEventId =>
      var kind, id := s.publisher.key.kind, s.publisher.key.id;
      s.(publisher := Working(s.publisher.jobs),
         db := WithZaps(s.db, kind, SetEventId(ZapsOf(s.db, kind), id, s.publisher.eventId)))
    case WriteFails => s.(publisher := Parked(true))
    case Finish => s.(publisher := Parked(true))
    case WakeByPermit => s.(publisher := Loading, permit := false)
    case WakeByTimer => s.(publisher := Loading)
  }

  // ---------- All steps ----------

  datatype Step =
    | Tick(now: Time)
    | SetReceive(receive: Receive)
    | DropReceive(hash: string)
    | AppendMovement(movement: Movement)
    | IssueInvoice(kind: Kind, row: Invoice, request: Option<string>)
    | StartBark(tid: nat, id: Id)
    | StartArkade(tid: nat, id: Id)
    | StartName(tid: nat, id: Id)
    | StartCreate(tid: nat, name: string, address: string, signature: string)
    | StartVerify(tid: nat, text: string, target: string, hash: string)
    | TaskStep(tid: nat, reply: Reply)
    | Abort(tid: nat)
    | PublisherMoves(move: PublisherStep)
    | Crash

  /** A claim starts from a row that was loaded as pending. */
  function StartedFrom(kind: Kind, row: Invoice): Task {
    if kind.BarkRow? then BarkObserve(row) else ArkadeCheck(row)
  }

  ghost predicate SwapIn(t: Table<Invoice>, swapId: string) {
    exists id :: id in t.rows && t.rows[id].backend == Arkade(swapId)
  }

  /** A new pending row for a resolved address that the unique indexes accept, with its zap request if there is one. */
  ghost predicate CanIssue(cfg: Config, db: Db, kind: Kind, row: Invoice, request: Option<string>) {
    && !kind.NameRow? && row.backend.Bark? == kind.BarkRow?
    && row.id == TableOf(db, kind).next
    && row.state.Pending? && row.preimage == "" && row.settledAt.None?
    && row.paymentHash == Some(row.bolt11.paymentHash)
         && (row.expiresAt.Some? ==> row.expiresAt.value == row.bolt11.expiry)
    && !HashIn(TableOf(db, kind), row.bolt11.paymentHash)
    && (row.backend.Arkade? ==> cfg.arkadeEnabled && !SwapIn(db.arkade, row.backend.swapId))
    && cfg.parse(row.address) == Some(Recipient(kind, row.address))
    && (request.Some? ==> AcceptedRequest(cfg.nostr, request.value, row.amountMsats))
  }

  function Issue(db: Db, kind: Kind, row: Invoice, request: Option<string>): Db {
    var t := TableOf(db, kind);
    var inserted := WithTable(db, kind, Table(t.rows[row.id := row], t.next + 1));
    if request.Some? then WithZaps(inserted, kind, ZapsOf(db, kind)[row.id := Zap(row.id, request.value, None)])
      else inserted
  }

  ghost predicate CanCreate(cfg: Config, name: string, address: string, signature: string) {
    && Normalize(IsAddress(cfg), name).Ok?
    && cfg.parse(address).Some? && cfg.parse(address).value.BarkAddress? && cfg.parse(address).value.onNetwork
    && ByteLength(signature) <= MAX_SIGNATURE
    && var target := cfg.parse(address).value.text;
       cfg.verifies(target, SignatureMessage(cfg.domain, Normalize(IsAddress(cfg), name).value, target), signature)
  }

  ghost predicate Can(cfg: Config, s: State, step: Step) {
    match step
    case Tick(now) => s.now <= now
    // a receive that has left `awaiting-payment` does not come back to it
    case SetReceive(receive) => receive.paymentHash in s.wallet.acceptedAt ==> receive.phase != "awaiting-payment"
    case DropReceive(hash) => hash !in s.wallet.acceptedAt
    case AppendMovement(_) => true
    case IssueInvoice(kind, row, request) => CanIssue(cfg, s.db, kind, row, request)
    case StartBark(tid, id) => tid !in s.tasks && IsPending(s.db.invoices, id)
    case StartArkade(tid, id) => tid !in s.tasks && IsPending(s.db.arkade, id)
    case StartName(tid, id) => tid !in s.tasks && CustomIsPending(s.db.names.invoices, id)
    case StartCreate(tid, name, address, signature) => tid !in s.tasks && CanCreate(cfg, name, address, signature)
    case StartVerify(tid, text, target, hash) => tid !in s.tasks && Resolves(cfg, s.db.names.addresses, text, target)
    case TaskStep(tid, reply) => CanAdvance(cfg, s, tid, reply)
    // between a commit and its notification there is no await at which a request could be dropped
    case Abort(tid) => tid in s.tasks && !s.tasks[tid].NotifyPublisher?
    case PublisherMoves(move) => CanPublish(cfg, s, move)
    case Crash => true
  }

  function SetReceiveIn(wallet: Wallet, receive: Receive, now: Time): Wallet {
    var hash := receive.paymentHash;
    wallet.(receives := wallet.receives[hash := receive],
            revealed :=
              if receive.phase in {"preimage-revealed", "delivering", "settled"} && receive.preimage.Some? then
                wallet.revealed + {(hash, receive.preimage.value)}
              else wallet.revealed,
            acceptedAt := if receive.phase == "awaiting-payment" || hash in wallet.acceptedAt then wallet.acceptedAt
              else wallet.acceptedAt[hash := now])
  }

  ghost function Do(cfg: Config, s: State, step: Step): State
    requires Can(cfg, s, step)
  {
    match step
    case Tick(now) => s.(now := now)
    case SetReceive(receive) => s.(wallet := SetReceiveIn(s.wallet, receive, s.now))
    case DropReceive(hash) => s.(wallet := s.wallet.(receives := s.wallet.receives - {hash}))
    case AppendMovement(movement) => s.(wallet := s.wallet.(history := s.wallet.history + [movement]))
    case IssueInvoice(kind, row, request) => s.(db := Issue(s.db, kind, row, request))
    case StartBark(tid, id) => WithTask(s, tid, Some(StartedFrom(BarkRow, s.db.invoices.rows[id])))
    case StartArkade(tid, id) => WithTask(s, tid, Some(StartedFrom(ArkadeRow, s.db.arkade.rows[id])))
    case StartName(tid, id) => WithTask(s, tid, Some(NameObserve(s.db.names.invoices.rows[id])))
    case StartCreate(tid, name, address, signature) =>
      WithTask(s, tid, Some(CreateCheckActive(
        Ownership(Normalize(IsAddress(cfg), name).value, cfg.parse(address).value.text, signature))))
    case StartVerify(tid, text, target, hash) => WithTask(s, tid, Some(VerifyBark(text, target, hash, false)))
    case TaskStep(tid, reply) =>
      var move := Advance(cfg, s, tid, reply);
      WithTask(Apply(s, move.effect), tid, move.next)
    case Abort(tid) => WithTask(s, tid, None)
    case PublisherMoves(move) => Publish(cfg, s, move)
    case Crash => s.(tasks := map[], permit := false, publisher := Loading)
  }

  // ---------- Runs ----------

  ghost predicate Legal(cfg: Config, s: State, steps: seq<Step>)
    decreases |steps|
  {
    steps == [] || (Can(cfg, s, steps[0]) && Legal(cfg, Do(cfg, s, steps[0]), steps[1..]))
  }

  ghost function Run(cfg: Config, s: State, steps: seq<Step>): State
    requires Legal(cfg, s, steps)
    decreases |steps|
  {
    if steps == [] then s else Run(cfg, Do(cfg, s, steps[0]), steps[1..])
  }
}

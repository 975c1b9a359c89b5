/**
 Runs built by hand: a claim that nobody interrupts does what one iteration of a pass does, and a lookup by payment hash
 can lose the row it finds exactly if that row is in the Arkade table.
 */
module Scenarios {
  import opened Wrappers
  import opened Barkd
  import opened Ledger
  import opened Server
  import opened ServerInvariant
  import opened Guarantees
  import Poller

  lemma FollowsItself(cfg: Config, s: State)
    ensures Follows(cfg, s, s)
  {
    assert Legal(cfg, s, []) && Run(cfg, s, []) == s;
  }

  lemma FollowsStep(cfg: Config, start: State, s: State, step: Step)
    requires Follows(cfg, start, s) && Can(cfg, s, step)
    ensures Follows(cfg, start, Do(cfg, s, step))
  {
    var steps: seq<Step> :| Legal(cfg, start, steps) && Run(cfg, start, steps) == s;
    assert [step][1..] == [];
    RunsCompose(cfg, start, steps, [step]);
  }

  /** One step of a task, taken by itself. */
  lemma TaskSteps(cfg: Config, start: State, s: State, tid: nat, reply: Reply) returns (s': State)
    requires Follows(cfg, start, s) && CanAdvance(cfg, s, tid, reply)
    ensures Follows(cfg, start, s')
    ensures var move := Advance(cfg, s, tid, reply); s' == WithTask(Apply(s, move.effect), tid, move.next)
  {
    FollowsStep(cfg, start, s, TaskStep(tid, reply));
    s' := Do(cfg, s, TaskStep(tid, reply));
  }

  // ---------- Uninterrupted claims ----------

  /** No time passes and nobody is answered. */
  ghost predicate Quiet(s: State, s': State) { s'.now == s.now && s'.answers == s.answers }

  function SettleTask(kind: Kind, row: Invoice, preimage: string): Task {
    if kind.BarkRow? then BarkSettle(row, preimage) else ArkadeSettle(row, preimage)
  }

  lemma NotifiesAlone(cfg: Config, start: State, s: State, tid: nat) returns (s': State)
    requires Follows(cfg, start, s) && tid in s.tasks && s.tasks[tid].NotifyPublisher?
    ensures Follows(cfg, start, s') && s'.tasks == s.tasks - {tid} && s'.db == s.db && s'.permit && Quiet(s, s')
  {
    s' := TaskSteps(cfg, start, s, tid, NoReply);
  }

  lemma SettlesAlone(cfg: Config, start: State, s: State, tid: nat, kind: Kind, row: Invoice, preimage: string)
    returns (s': State)
    requires Follows(cfg, start, s) && tid in s.tasks && !kind.NameRow?
      && s.tasks[tid] == SettleTask(kind, row, preimage)
    ensures Follows(cfg, start, s') && s'.tasks == s.tasks - {tid} && Quiet(s, s')
    ensures var (t, updated) := SettleInvoice(TableOf(s.db, kind), row.id, preimage, s.now);
      s'.db == WithTable(s.db, kind, t) && s'.permit == (s.permit || updated)
  {
    s' := TaskSteps(cfg, start, s, tid, NoReply);
    if tid in s'.tasks {
      s' := NotifiesAlone(cfg, start, s', tid);
    }
  }

  lemma BarkCancelsAlone(cfg: Config, start: State, s: State, tid: nat, row: Invoice, why: Expiry) returns (s': State)
    requires Follows(cfg, start, s) && tid in s.tasks && s.tasks[tid] == BarkCancel(row, why)
    ensures Follows(cfg, start, s') && s'.tasks == s.tasks - {tid} && s'.permit == s.permit && s'.wallet == s.wallet
      && Quiet(s, s')
    ensures s'.db == s.db.(invoices := CancelInvoice(s.db.invoices, row.id).0)
  {
    s' := TaskSteps(cfg, start, s, tid, NoReply);
  }

  lemma ArkadeCancelsAlone(cfg: Config, start: State, s: State, tid: nat, row: Invoice, checkedAt: Time)
    returns (s': State)
    requires Follows(cfg, start, s) && tid in s.tasks && s.tasks[tid] == ArkadeCancel(row, checkedAt)
    ensures Follows(cfg, start, s') && s'.tasks == s.tasks - {tid} && s'.permit == s.permit && s'.wallet == s.wallet
      && Quiet(s, s')
    ensures s'.db == s.db.(arkade := CancelInvoice(s.db.arkade, row.id).0)
  {
    s' := TaskSteps(cfg, start, s, tid, NoReply);
  }

  /** What the wallet answers when it is asked now and nothing fails. */
  function BarkTurnNow(s: State, row: Invoice): Poller.Turn {
    Poller.Turn(Ok(SeenFor(s.wallet, PaymentHashOf(row))), s.now, s.now, true)
  }

  /** The three ways in which a status is applied when nothing fails. */
  lemma ClaimCases(s: State, row: Invoice)
    ensures var seen, claimed := SeenFor(s.wallet, PaymentHashOf(row)),
      Poller.ClaimIfPaid(s.db.invoices, row, BarkTurnNow(s, row));
      if PreimageIn(seen).Some? then
        var (t, updated) := SettleInvoice(s.db.invoices, row.id, PreimageIn(seen).value, s.now);
        claimed.table == t && (claimed.notified > 0 <==> updated)
      else if Unpaid(seen) && HasExpired(row, s.now) then
        claimed.table == CancelInvoice(s.db.invoices, row.id).0 && claimed.notified == 0
      else claimed.table == s.db.invoices && claimed.notified == 0
  {
  }

  lemma BarkDecides(cfg: Config, start: State, s: State, tid: nat) returns (s': State)
    requires Follows(cfg, start, s) && tid in s.tasks && s.tasks[tid].BarkApply?
    ensures Follows(cfg, start, s') && s'.db == s.db && s'.permit == s.permit && Quiet(s, s')
    ensures var task := s.tasks[tid];
      s'.tasks == if PreimageIn(task.seen).Some? then s.tasks[tid := BarkSettle(task.row, PreimageIn(task.seen).value)]
                  else if Unpaid(task.seen) && HasExpired(task.row, s.now)
                  then s.tasks[tid := BarkCancel(task.row, Expiry(task.seen, task.seenAt, 0, s.now))]
                  else s.tasks - {tid}
  {
    s' := TaskSteps(cfg, start, s, tid, NoReply);
  }

  lemma BarkAppliesAlone(cfg: Config, start: State, s: State, tid: nat) returns (s': State)
    requires Follows(cfg, start, s) && tid in s.tasks && s.tasks[tid].BarkApply?
    requires s.tasks[tid].seen == SeenFor(s.wallet, PaymentHashOf(s.tasks[tid].row))
    ensures Follows(cfg, start, s') && s'.tasks == s.tasks - {tid} && Quiet(s, s')
    ensures var row := s.tasks[tid].row;
      var claimed := Poller.ClaimIfPaid(s.db.invoices, row, BarkTurnNow(s, row));
      s'.db == s.db.(invoices := claimed.table) && s'.permit == (s.permit || claimed.notified > 0)
  {
    ClaimCases(s, s.tasks[tid].row);
    s' := BarkDecides(cfg, start, s, tid);
    if tid !in s'.tasks { return s'; }
    match s'.tasks[tid]
    case BarkSettle(row, preimage) => s' := SettlesAlone(cfg, start, s', tid, BarkRow, row, preimage);
    case BarkCancel(row, why) => s' := BarkCancelsAlone(cfg, start, s', tid, row, why);
  }

  /** A Bark claim that runs alone is one iteration of the pass. */
  lemma UninterruptedBarkClaim(cfg: Config, s: State, tid: nat) returns (s': State)
    requires tid in s.tasks && s.tasks[tid].BarkObserve?
    ensures Follows(cfg, s, s') && s'.tasks == s.tasks - {tid} && Quiet(s, s')
    ensures var row := s.tasks[tid].row;
      var claimed := Poller.ClaimIfPaid(s.db.invoices, row, BarkTurnNow(s, row));
      s'.db == s.db.(invoices := claimed.table) && s'.permit == (s.permit || claimed.notified > 0)
  {
    FollowsItself(cfg, s);
    s' := TaskSteps(cfg, s, s, tid, NoReply);
    s' := BarkAppliesAlone(cfg, s, s', tid);
  }

  function ArkadeTurnNow(s: State, preimage: string): Poller.ArkadeTurn {
    Poller.ArkadeTurn(s.now, s.now, true, Ok(preimage))
  }

  /** An Arkade claim that runs alone, and whose swap yields this preimage unless the row has expired. */
  lemma UninterruptedArkadeClaim(cfg: Config, s: State, tid: nat, preimage: string) returns (s': State)
    requires tid in s.tasks && s.tasks[tid].ArkadeCheck?
    ensures Follows(cfg, s, s') && s'.tasks == s.tasks - {tid} && Quiet(s, s')
    ensures var claimed := Poller.ClaimArkade(s.db.arkade, s.tasks[tid].row, ArkadeTurnNow(s, preimage));
      s'.db == s.db.(arkade := claimed.table) && s'.permit == (s.permit || claimed.notified > 0)
  {
    FollowsItself(cfg, s);
    var s1 := TaskSteps(cfg, s, s, tid, NoReply);
    match s1.tasks[tid]
    case ArkadeCancel(row, checkedAt) => s' := ArkadeCancelsAlone(cfg, s, s1, tid, row, checkedAt);
    case ArkadeClaim(row) =>
      var s2 := TaskSteps(cfg, s, s1, tid, Preimage(preimage));
      s' := SettlesAlone(cfg, s, s2, tid, ArkadeRow, row, preimage);
  }

  function NameTurnNow(s: State, invoice: CustomInvoice): Poller.CustomTurn {
    Poller.CustomTurn(Ok(SeenFor(s.wallet, CustomPaymentHashOf(invoice))), Ok(s.wallet.history), s.now, s.now, true)
  }

  lemma CommitsAlone(cfg: Config, start: State, s: State, tid: nat) returns (s': State)
    requires Follows(cfg, start, s) && tid in s.tasks && s.tasks[tid].TxnCommit?
    requires CustomIsPending(s.db.names.invoices, s.tasks[tid].invoice.id)
      && !NameTaken(s.db.names.addresses, s.tasks[tid].invoice.name)
    ensures Follows(cfg, start, s') && s'.tasks == s.tasks - {tid} && s'.permit == s.permit && Quiet(s, s')
    ensures var task := s.tasks[tid];
      s'.db == s.db.(names := SettleAndActivate(s.db.names, task.invoice, task.payment, task.startedAt).0)
  {
    s' := TaskSteps(cfg, start, s, tid, NoReply);
  }

  lemma UninterruptedUpdate(cfg: Config, start: State, s: State, tid: nat) returns (s': State)
    requires Follows(cfg, start, s) && tid in s.tasks && s.tasks[tid].TxnUpdate?
    requires RowFree(s, tid, s.tasks[tid].invoice.id) && NameFree(s, tid, s.tasks[tid].invoice.name)
    requires !NameTaken(s.db.names.addresses, s.tasks[tid].invoice.name)
    ensures Follows(cfg, start, s') && s'.tasks == s.tasks - {tid} && s'.permit == s.permit && Quiet(s, s')
    ensures var task := s.tasks[tid];
      s'.db == s.db.(names := SettleAndActivate(s.db.names, task.invoice, task.payment, task.startedAt).0)
  {
    s' := TaskSteps(cfg, start, s, tid, NoReply);
    if tid in s'.tasks {
      s' := TaskSteps(cfg, start, s', tid, NoReply);
      s' := CommitsAlone(cfg, start, s', tid);
    }
  }

  /** The transaction that runs alone is `SettleAndActivate`. */
  lemma UninterruptedTransaction(cfg: Config, start: State, s: State, tid: nat) returns (s': State)
    requires Follows(cfg, start, s) && tid in s.tasks && s.tasks[tid].TxnRead?
    requires RowFree(s, tid, s.tasks[tid].invoice.id) && NameFree(s, tid, s.tasks[tid].invoice.name)
    ensures Follows(cfg, start, s') && s'.tasks == s.tasks - {tid} && s'.permit == s.permit && Quiet(s, s')
    ensures s'.db == s.db.(names := SettleAndActivate(s.db.names, s.tasks[tid].invoice, s.tasks[tid].payment, s.now).0)
  {
    s' := TaskSteps(cfg, start, s, tid, NoReply);
    if s'.tasks[tid].TxnTaken? {
      s' := TaskSteps(cfg, start, s', tid, NoReply);
    } else {
      s' := UninterruptedUpdate(cfg, start, s', tid);
    }
  }

  lemma UninterruptedExpiry(cfg: Config, start: State, s: State, tid: nat) returns (s': State)
    requires Follows(cfg, start, s) && tid in s.tasks && s.tasks[tid].NameExpiry?
      && RowFree(s, tid, s.tasks[tid].invoice.id)
    ensures Follows(cfg, start, s') && s'.tasks == s.tasks - {tid} && s'.permit == s.permit && s'.wallet == s.wallet
      && Quiet(s, s')
    ensures var invoice := s.tasks[tid].invoice;
      s'.db == s.db.(names := Poller.CustomCancelIfExpired(s.db.names, invoice, NameTurnNow(s, invoice)).registry)
  {
    s' := TaskSteps(cfg, start, s, tid, NoReply);
    if tid in s'.tasks {
      s' := TaskSteps(cfg, start, s', tid, NoReply);
    }
  }

  /** The rest of a claim that found no preimage: the Ark history, and then expiry. */
  lemma UninterruptedArkCheck(cfg: Config, start: State, s: State, tid: nat) returns (s': State)
    requires Follows(cfg, start, s) && tid in s.tasks && s.tasks[tid].NameArk?
    requires RowFree(s, tid, s.tasks[tid].invoice.id) && NameFree(s, tid, s.tasks[tid].invoice.name)
    requires s.tasks[tid].seen == SeenFor(s.wallet, CustomPaymentHashOf(s.tasks[tid].invoice))
      && PreimageIn(s.tasks[tid].seen).None?
    ensures Follows(cfg, start, s') && s'.tasks == s.tasks - {tid} && s'.permit == s.permit && Quiet(s, s')
    ensures var invoice := s.tasks[tid].invoice;
      s'.db == s.db.(names := Poller.ClaimCustom(s.db.names, invoice, NameTurnNow(s, invoice)).registry)
  {
    s' := TaskSteps(cfg, start, s, tid, NoReply);
    if tid !in s'.tasks { return s'; }
    if s'.tasks[tid].TxnRead? {
      s' := UninterruptedTransaction(cfg, start, s', tid);
    } else {
      s' := UninterruptedExpiry(cfg, start, s', tid);
    }
  }

  /** A claim of a reservation that runs alone is one iteration of the pass, when no other task holds its locks. */
  lemma UninterruptedNameClaim(cfg: Config, s: State, tid: nat) returns (s': State)
    requires tid in s.tasks && s.tasks[tid].NameObserve?
    requires RowFree(s, tid, s.tasks[tid].invoice.id) && NameFree(s, tid, s.tasks[tid].invoice.name)
    ensures Follows(cfg, s, s') && s'.tasks == s.tasks - {tid} && s'.permit == s.permit && Quiet(s, s')
    ensures var invoice := s.tasks[tid].invoice;
      s'.db == s.db.(names := Poller.ClaimCustom(s.db.names, invoice, NameTurnNow(s, invoice)).registry)
  {
    FollowsItself(cfg, s);
    s' := TaskSteps(cfg, s, s, tid, NoReply);
    if s'.tasks[tid].TxnRead? {
      s' := UninterruptedTransaction(cfg, s, s', tid);
    } else {
      s' := UninterruptedArkCheck(cfg, s, s', tid);
    }
  }

  // ---------- Lookups by payment hash ----------

  /** A lookup that runs alone ends with this row: the Bark table comes first. */
  ghost predicate Finds(db: Db, hash: string, key: Key) {
    HasHash(db, key, hash) && (key.kind.ArkadeRow? ==> !HashIn(db.invoices, hash))
  }

  ghost predicate CanBeHidden(cfg: Config, s: State, hash: string, key: Key) {
    exists s' :: Follows(cfg, s, s') && !Finds(s'.db, hash, key)
  }

  /** Invoices can be issued for some Bark address. */
  ghost predicate TakesBark(cfg: Config) {
    exists address :: cfg.parse(address) == Some(BarkAddress(address, true))
  }

  lemma HashStays(s: State, s': State, hash: string, key: Key)
    requires Evolves(s, s') && HasHash(s.db, key, hash)
    ensures HasHash(s'.db, key, hash)
  {
  }

  /** A Bark invoice with the hash of an Arkade one is issued. */
  lemma ArkadeRowGetsHidden(cfg: Config, s: State, hash: string, key: Key)
    requires key.kind.ArkadeRow? && !HashIn(s.db.invoices, hash) && TakesBark(cfg)
    ensures CanBeHidden(cfg, s, hash, key)
  {
    var address :| cfg.parse(address) == Some(BarkAddress(address, true));
    var row := Invoice(s.db.invoices.next, Bark, address, Bolt11("lnbc", hash, s.now), 1_000, Some(hash), "", Pending,
        None, None);
    FollowsItself(cfg, s);
    FollowsStep(cfg, s, s, IssueInvoice(BarkRow, row, None));
    var s' := Do(cfg, s, IssueInvoice(BarkRow, row, None));
    assert s'.db.invoices.rows[row.id] == row;
    assert HashIn(s'.db.invoices, hash);
  }

  lemma HiddenByBark(cfg: Config, s: State, s': State, hash: string, key: Key)
    requires Reachable(cfg, s) && Follows(cfg, s, s') && HasHash(s.db, key, hash) && !Finds(s'.db, hash, key)
    ensures key.kind.ArkadeRow? && TakesBark(cfg)
  {
    FollowsEvolves(cfg, s, s');
    HashStays(s, s', hash, key);
    ReachableInvoices(cfg, s', BarkRow);
    var id :| id in s'.db.invoices.rows && s'.db.invoices.rows[id].paymentHash == Some(hash);
    assert cfg.parse(s'.db.invoices.rows[id].address) == Some(Recipient(BarkRow, s'.db.invoices.rows[id].address));
  }

  /** A hidden row is not answered from, nor is any other: every lookup for its address stops at the Bark row. */
  lemma HiddenRowIsSilent(cfg: Config, s: State, tid: nat, reply: Reply, key: Key)
    requires Reachable(cfg, s) && CanAdvance(cfg, s, tid, reply) && s.tasks[tid].VerifyBark?
    requires key.kind.ArkadeRow? && HasHash(s.db, key, s.tasks[tid].hash) && !Finds(s.db, s.tasks[tid].hash, key)
    requires s.tasks[tid].target == s.db.arkade.rows[key.id].address
    ensures var move, task := Advance(cfg, s, tid, reply), s.tasks[tid];
      && move.effect.Nothing?
      && (move.next.None? || (!task.again && move.next == Some(VerifyBark(task.address, task.target, task.hash, true))))
  {
    ReachableDb(cfg, s);
    if s.db.invoices.rows[reply.key.id].address == s.tasks[tid].target {
      TablesShareNoAddress(cfg, s, reply.key.id, key.id);
      assert false;
    }
  }

  /**
   A row that lookups find is found for good exactly if it is a Bark row; an Arkade row can be hidden by a Bark row with
   the same hash, if there is any Bark address at all.
   */
  lemma LookupHiddenIff(cfg: Config, s: State, hash: string, key: Key)
    requires Reachable(cfg, s) && Finds(s.db, hash, key)
    ensures CanBeHidden(cfg, s, hash, key) <==> key.kind.ArkadeRow? && TakesBark(cfg)
  {
    if CanBeHidden(cfg, s, hash, key) {
      var s' :| Follows(cfg, s, s') && !Finds(s'.db, hash, key);
      HiddenByBark(cfg, s, s', hash, key);
    }
    if key.kind.ArkadeRow? && TakesBark(cfg) {
      ArkadeRowGetsHidden(cfg, s, hash, key);
    }
  }
}

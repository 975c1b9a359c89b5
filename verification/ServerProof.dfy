/** Every step keeps the invariant and only lets the state evolve; so does every run. */
module ServerProof {
  import opened Wrappers
  import opened Names
  import opened Barkd
  import opened Ledger
  import opened Receipts
  import opened Server
  import opened ServerInvariant
  import opened ServerEffects
  import opened ServerTasks

  // ---------- What a step leaves alone ----------

  lemma LocksSame(s: State, s': State)
    requires LocksOk(s) && s'.tasks == s.tasks && s'.db.names == s.db.names
    ensures LocksOk(s')
  {
    forall tid, id | tid in s'.tasks && HoldsRow(s'.tasks[tid], id)
      ensures CustomIsPending(s'.db.names.invoices, id) && RowFree(s', tid, id)
    {
      assert RowFree(s, tid, id);
    }
    forall tid, name | tid in s'.tasks && HoldsName(s'.tasks[tid], name)
      ensures !NameTaken(s'.db.names.addresses, name) && NameFree(s', tid, name)
    {
      assert NameFree(s, tid, name);
    }
  }

  lemma FeesSame(s: State, s': State)
    requires FeesOk(s) && s'.tasks == s.tasks && s'.db.names == s.db.names && s'.wallet.issued == s.wallet.issued
    ensures FeesOk(s')
  {
    SameFees(s, s');
  }

  /** The tasks do not notice a step that leaves them and the names alone. */
  lemma TasksUnmoved(cfg: Config, s: State, s': State)
    requires TasksOk(cfg, s) && LocksOk(s) && FeesOk(s) && Evolves(s, s')
    requires s'.tasks == s.tasks && s'.db.names == s.db.names && s'.wallet.issued == s.wallet.issued
    ensures TasksOk(cfg, s') && LocksOk(s') && FeesOk(s')
  {
    TasksStable(cfg, s, s');
    LocksSame(s, s');
    FeesSame(s, s');
  }

  /** Nor do the records of outcomes and answers. */
  lemma RecordsUnmoved(cfg: Config, s: State, s': State)
    requires WinsOk(s) && AnswersOk(cfg, s) && Evolves(s, s')
    requires s'.wins == s.wins && s'.how == s.how && s'.answers == s.answers
    requires forall key: Key :: Decided(s'.db, key) <==> Decided(s.db, key)
    ensures WinsOk(s') && AnswersOk(cfg, s')
  {
    WinsStable(s, s');
    OthersKeepAnswers(cfg, s, s');
  }

  /** What the publisher would load can only grow by rows settled since the load began. */
  ghost predicate UnpublishedShrinks(s: State, s': State) {
    && s'.publisher == s.publisher && s'.loaded == s.loaded && s.sinceLoad <= s'.sinceLoad
    && (forall id :: Unpublished(s'.db, BarkRow, s'.now, id) ==>
          Unpublished(s.db, BarkRow, s.now, id) || Key(BarkRow, id) in s'.sinceLoad)
    && (forall id :: Unpublished(s'.db, ArkadeRow, s'.now, id) ==>
          Unpublished(s.db, ArkadeRow, s.now, id) || Key(ArkadeRow, id) in s'.sinceLoad)
  }

  lemma LoadsUnmoved(s: State, s': State)
    requires LoadsOk(s) && UnpublishedShrinks(s, s')
    ensures LoadsOk(s')
  {
    assert Covered(s, BarkRow) ==> Covered(s', BarkRow);
    assert Covered(s, ArkadeRow) ==> Covered(s', ArkadeRow);
  }

  lemma EffectShrinks(s: State, effect: Effect)
    requires DecidesPending(s, effect)
    ensures UnpublishedShrinks(s, Apply(s, effect))
  {
    match effect
    case SettleRow(_, _, _) =>
    case CancelRow(_, _, _) =>
    case CancelName(_, _) =>
    case CommitName(_, _, _) =>
    case _ =>
  }

  // ---------- Steps of a task ----------

  lemma WinsStable(s: State, s': State)
    requires WinsOk(s) && Evolves(s, s') && s'.wins == s.wins && s'.how == s.how
    requires forall key: Key :: Decided(s'.db, key) <==> Decided(s.db, key)
    ensures WinsOk(s')
  {
    forall key | key in s'.how ensures CauseOk(s', key, s'.how[key]) && OutcomeOk(s'.db, key, s'.how[key]) {
      CauseOkStable(s, s', key, s.how[key]);
      OutcomeOkStable(s, s', key, s.how[key]);
    }
  }

  lemma TasksStable(cfg: Config, s: State, s': State)
    requires TasksOk(cfg, s) && Evolves(s, s')
    ensures forall tid :: tid in s.tasks ==> TaskOk(cfg, s', s.tasks[tid])
  {
    forall tid | tid in s.tasks ensures TaskOk(cfg, s', s.tasks[tid]) {
      TaskOkStable(cfg, s, s', s.tasks[tid]);
    }
  }

  lemma EffectLeavesZaps(s: State, effect: Effect)
    ensures Apply(s, effect).db.zaps == s.db.zaps && Apply(s, effect).db.arkadeZaps == s.db.arkadeZaps
    ensures Apply(s, effect).sent == s.sent && Apply(s, effect).publisher == s.publisher
  {
    match effect
    case SettleRow(_, _, _) =>
    case CancelRow(_, _, _) =>
    case CancelName(_, _) =>
    case CommitName(_, _, _) =>
    case _ =>
  }

  lemma EffectKeepsWallet(s: State, effect: Effect)
    requires WalletOk(s.wallet, s.now)
    ensures WalletOk(Apply(s, effect).wallet, Apply(s, effect).now)
  {
  }

  lemma EffectKeepsAnswers(cfg: Config, s: State, effect: Effect)
    requires DbOk(cfg, s.db) && AnswersOk(cfg, s) && EffectOk(cfg, s, effect) && Evolves(s, Apply(s, effect))
    ensures AnswersOk(cfg, Apply(s, effect))
  {
    if effect.Respond? {
      RespondKeepsAnswers(cfg, s, effect.answer);
    } else {
      EffectLeavesAnswers(s, effect);
      OthersKeepAnswers(cfg, s, Apply(s, effect));
    }
  }

  lemma EffectLeavesAnswers(s: State, effect: Effect)
    requires !effect.Respond?
    ensures Apply(s, effect).answers == s.answers
  {
  }

  lemma EffectKeepsShared(cfg: Config, s: State, effect: Effect)
    requires SharedOk(cfg, s) && EffectOk(cfg, s, effect)
    ensures SharedOk(cfg, Apply(s, effect)) && Evolves(s, Apply(s, effect))
  {
    EffectEvolves(cfg, s, effect);
    EffectKeepsDb(cfg, s, effect);
    EffectKeepsWins(cfg, s, effect);
    EffectLeavesZaps(s, effect);
    OthersKeepPublisher(cfg, s, Apply(s, effect));
    EffectKeepsWallet(s, effect);
    EffectKeepsAnswers(cfg, s, effect);
  }

  lemma OkDecides(cfg: Config, s: State, effect: Effect)
    requires EffectOk(cfg, s, effect)
    ensures DecidesPending(s, effect)
  {
  }

  /** The map of tasks is not part of the shared state. */
  lemma TasksAside(cfg: Config, s: State, tasks: map<nat, Task>)
    requires SharedOk(cfg, s)
    ensures SharedOk(cfg, s.(tasks := tasks))
    ensures Evolves(s, s.(tasks := tasks))
  {
    var s' := s.(tasks := tasks);
    assert Evolves(s, s');
    WinsStable(s, s');
    OthersKeepPublisher(cfg, s, s');
    OthersKeepAnswers(cfg, s, s');
  }

  lemma EvolvesAside(s: State, s1: State, s': State)
    requires Evolves(s, s1) && s' == s1.(tasks := s'.tasks)
    ensures Evolves(s, s')
  {
  }

  lemma MoveKeepsRest(cfg: Config, s: State, tid: nat, reply: Reply)
    requires LocksOk(s) && FeesOk(s) && WakeupOk(s) && LoadsOk(s) && CanAdvance(cfg, s, tid, reply)
    requires CustomKeyed(s.db.names.invoices) && DecidesPending(s, Advance(cfg, s, tid, reply).effect)
    ensures var move := Advance(cfg, s, tid, reply);
      var s' := WithTask(Apply(s, move.effect), tid, move.next);
      LocksOk(s') && FeesOk(s') && WakeupOk(s') && LoadsOk(s')
  {
    var move := Advance(cfg, s, tid, reply);
    EffectShrinks(s, move.effect);
    LoadsUnmoved(s, WithTask(Apply(s, move.effect), tid, move.next));
    AdvanceRespectsLocks(cfg, s, tid, reply);
    MoveKeepsLocks(s, tid, move);
    AdvanceRespectsFees(cfg, s, tid, reply);
    MoveKeepsFees(s, tid, move);
    AdvanceRespectsWakeups(cfg, s, tid, reply);
    MoveKeepsWakeups(s, tid, move);
  }

  lemma MoveKeepsSharedAndTasks(cfg: Config, s: State, tid: nat, move: Move)
    requires SharedOk(cfg, s) && TasksOk(cfg, s) && MoveOk(cfg, s, move)
    ensures var s' := WithTask(Apply(s, move.effect), tid, move.next);
      SharedOk(cfg, s') && TasksOk(cfg, s') && Evolves(s, s')
  {
    var s1 := Apply(s, move.effect);
    var s' := WithTask(s1, tid, move.next);
    EffectKeepsShared(cfg, s, move.effect);
    TasksAside(cfg, s1, s'.tasks);
    EvolvesAside(s, s1, s');
    MoveKeepsTasks(cfg, s, tid, move);
  }

  lemma TaskStepOk(cfg: Config, s: State, tid: nat, reply: Reply)
    requires Inv(cfg, s) && CanAdvance(cfg, s, tid, reply)
    ensures var move := Advance(cfg, s, tid, reply);
      var s' := WithTask(Apply(s, move.effect), tid, move.next);
      Inv(cfg, s') && Evolves(s, s')
  {
    var move := Advance(cfg, s, tid, reply);
    AdvanceOk(cfg, s, tid, reply);
    OkDecides(cfg, s, move.effect);
    MoveKeepsSharedAndTasks(cfg, s, tid, move);
    MoveKeepsRest(cfg, s, tid, reply);
  }

  lemma MoveKeepsTasks(cfg: Config, s: State, tid: nat, move: Move)
    requires TasksOk(cfg, s) && MoveOk(cfg, s, move) && Evolves(s, Apply(s, move.effect))
    ensures TasksOk(cfg, WithTask(Apply(s, move.effect), tid, move.next))
  {
    var s1 := Apply(s, move.effect);
    var s' := WithTask(s1, tid, move.next);
    EffectSignals(s, move.effect);
    TasksStable(cfg, s, s1);
    forall other | other in s'.tasks ensures TaskOk(cfg, s', s'.tasks[other]) {
      assert TaskOk(cfg, s1, s'.tasks[other]);
      TaskOkAside(cfg, s1, s', s'.tasks[other]);
    }
  }

  lemma TaskOkAside(cfg: Config, s1: State, s': State, task: Task)
    requires s' == s1.(tasks := s'.tasks) && TaskOk(cfg, s1, task)
    ensures TaskOk(cfg, s', task)
  {
    EvolvesItself(s1, s');
    TaskOkStable(cfg, s1, s', task);
  }

  lemma EvolvesItself(s1: State, s': State)
    requires s' == s1.(tasks := s'.tasks)
    ensures Evolves(s1, s')
  {
  }

  // ---------- Tasks that start or end ----------

  /** Tasks only disappear, apart from new ones that hold nothing yet. */
  ghost predicate TasksChange(cfg: Config, s: State, s': State) {
    && s' == s.(tasks := s'.tasks)
    && (forall tid :: tid in s'.tasks ==>
          || (tid in s.tasks && s'.tasks[tid] == s.tasks[tid])
          || (TaskOk(cfg, s, s'.tasks[tid]) && (forall id :: !HoldsRow(s'.tasks[tid], id))
              && (forall name :: !HoldsName(s'.tasks[tid], name)) && (forall fee :: !HoldsFee(s'.tasks[tid], fee))))
    && (forall tid :: tid in s.tasks && s.tasks[tid].NotifyPublisher? ==>
          tid in s'.tasks && s'.tasks[tid] == s.tasks[tid])
  }

  lemma TasksChangeOk(cfg: Config, s: State, s': State)
    requires Inv(cfg, s) && TasksChange(cfg, s, s')
    ensures Inv(cfg, s') && Evolves(s, s')
  {
    TasksAside(cfg, s, s'.tasks);
    forall tid | tid in s'.tasks ensures TaskOk(cfg, s', s'.tasks[tid]) {
      assert TaskOk(cfg, s, s'.tasks[tid]);
      TaskOkAside(cfg, s, s', s'.tasks[tid]);
    }
    TasksChangeKeepsLocks(cfg, s, s');
    LoadsUnmoved(s, s');
    forall tid, fee | tid in s'.tasks && HoldsFee(s'.tasks[tid], fee)
      ensures tid in s.tasks && HoldsFee(s.tasks[tid], fee) {
    }
    SameFees(s, s');
  }

  lemma TasksChangeKeepsLocks(cfg: Config, s: State, s': State)
    requires LocksOk(s) && TasksChange(cfg, s, s')
    ensures LocksOk(s')
  {
    forall tid, id | tid in s'.tasks && HoldsRow(s'.tasks[tid], id)
      ensures CustomIsPending(s'.db.names.invoices, id) && RowFree(s', tid, id)
    {
      assert HoldsRow(s.tasks[tid], id) && RowFree(s, tid, id);
    }
    forall tid, name | tid in s'.tasks && HoldsName(s'.tasks[tid], name)
      ensures !NameTaken(s'.db.names.addresses, name) && NameFree(s', tid, name)
    {
      assert HoldsName(s.tasks[tid], name) && NameFree(s, tid, name);
    }
  }

  predicate HoldsNothing(task: Task) {
    !task.TxnInsert? && !task.TxnCommit? && !task.CreateInvoice? && !task.CreateInsert?
  }

  lemma StartIsChange(cfg: Config, s: State, tid: nat, task: Task)
    requires tid !in s.tasks && TaskOk(cfg, s, task) && HoldsNothing(task)
    ensures TasksChange(cfg, s, WithTask(s, tid, Some(task)))
  {
  }

  lemma StartOk(cfg: Config, s: State, tid: nat, task: Task)
    requires Inv(cfg, s) && tid !in s.tasks && TaskOk(cfg, s, task) && HoldsNothing(task)
    ensures Inv(cfg, WithTask(s, tid, Some(task))) && Evolves(s, WithTask(s, tid, Some(task)))
  {
    StartIsChange(cfg, s, tid, task);
    TasksChangeOk(cfg, s, WithTask(s, tid, Some(task)));
  }

  lemma CreateStartOk(cfg: Config, s: State, name: string, address: string, signature: string)
    requires FaithfulAddresses(cfg) && CanCreate(cfg, name, address, signature)
    ensures TaskOk(cfg, s,
      CreateCheckActive(Ownership(Normalize(IsAddress(cfg), name).value, cfg.parse(address).value.text, signature)))
  {
    NormalizeMeaning(IsAddress(cfg), name, Normalize(IsAddress(cfg), name).value);
    assert cfg.parse(address).Some?;
  }

  lemma AbortOk(cfg: Config, s: State, tid: nat)
    requires Inv(cfg, s) && tid in s.tasks && !s.tasks[tid].NotifyPublisher?
    ensures Inv(cfg, WithTask(s, tid, None)) && Evolves(s, WithTask(s, tid, None))
  {
    TasksChangeOk(cfg, s, WithTask(s, tid, None));
  }

  lemma CrashOk(cfg: Config, s: State)
    requires Inv(cfg, s)
    ensures var s' := s.(tasks := map[], permit := false, publisher := Loading); Inv(cfg, s') && Evolves(s, s')
  {
    var s' := s.(tasks := map[], permit := false, publisher := Loading);
    CrashKeepsShared(cfg, s);
    SameFees(s, s');
  }

  lemma CrashKeepsShared(cfg: Config, s: State)
    requires SharedOk(cfg, s)
    ensures var s' := s.(tasks := map[], permit := false, publisher := Loading); SharedOk(cfg, s') && Evolves(s, s')
  {
    var s' := s.(tasks := map[], permit := false, publisher := Loading);
    assert Evolves(s, s');
    RecordsUnmoved(cfg, s, s');
  }

  // ---------- The environment ----------

  lemma EnvironmentOk(cfg: Config, s: State, s': State)
    requires Inv(cfg, s) && s' == s.(now := s'.now, wallet := s'.wallet) && s'.wallet.issued == s.wallet.issued
    requires Evolves(s, s') && WalletOk(s'.wallet, s'.now)
    ensures Inv(cfg, s')
  {
    RecordsUnmoved(cfg, s, s');
    TasksUnmoved(cfg, s, s');
    OthersKeepPublisher(cfg, s, s');
    LoadsUnmoved(s, s');
  }

  lemma TickOk(cfg: Config, s: State, now: Time)
    requires Inv(cfg, s) && s.now <= now
    ensures Inv(cfg, s.(now := now)) && Evolves(s, s.(now := now))
  {
    EnvironmentOk(cfg, s, s.(now := now));
  }

  lemma SetReceiveKeepsWallet(w: Wallet, receive: Receive, now: Time)
    requires WalletOk(w, now) && (receive.paymentHash in w.acceptedAt ==> !AllowsExpiry(receive))
    ensures WalletOk(SetReceiveIn(w, receive, now), now) && WalletEvolves(w, SetReceiveIn(w, receive, now), now)
    ensures SetReceiveIn(w, receive, now).issued == w.issued
  {
  }

  lemma WalletChangeOk(cfg: Config, s: State, w: Wallet)
    requires Inv(cfg, s) && WalletOk(w, s.now) && WalletEvolves(s.wallet, w, s.now) && w.issued == s.wallet.issued
    ensures Inv(cfg, s.(wallet := w)) && Evolves(s, s.(wallet := w))
  {
    EnvironmentOk(cfg, s, s.(wallet := w));
  }

  // ---------- New invoices ----------

  lemma IssueKeepsInvoices(cfg: Config, t: Table<Invoice>, kind: Kind, row: Invoice)
    requires InvoicesOk(cfg, t, kind) && row.id == t.next && row.backend.Bark? == kind.BarkRow?
    requires row.state.Pending? && row.preimage == "" && row.settledAt.None?
    requires ColumnsOk(row) && !HashIn(t, row.bolt11.paymentHash)
    requires cfg.parse(row.address) == Some(Recipient(kind, row.address))
      && (row.backend.Arkade? ==> cfg.arkadeEnabled && !SwapIn(t, row.backend.swapId))
    ensures var t' := Table(t.rows[row.id := row], t.next + 1);
      InvoicesOk(cfg, t', kind) && TableEvolves(t, t') && row.id !in t.rows
  {
    assert row.id !in t.rows;
  }

  lemma IssueEvolves(s: State, s': State, kind: Kind, row: Invoice, request: Option<string>)
    requires s' == s.(db := Issue(s.db, kind, row, request)) && !kind.NameRow?
    requires row.id !in TableOf(s.db, kind).rows && row.id !in ZapsOf(s.db, kind)
    ensures Evolves(s, s')
  {
  }

  lemma IssueKeepsZaps(cfg: Config, t: Table<Invoice>, zaps: map<Id, Zap>, row: Invoice, request: Option<string>)
    requires ZapsOk(cfg, t, zaps) && row.id in t.rows && t.rows[row.id] == row
    requires request.Some? ==> AcceptedRequest(cfg.nostr, request.value, row.amountMsats)
    ensures request.Some? ==> ZapsOk(cfg, t, zaps[row.id := Zap(row.id, request.value, None)])
  {
  }

  /** One invoice table and its zaps are exchanged. */
  lemma ExchangeKeepsDb(cfg: Config, db: Db, kind: Kind, t: Table<Invoice>, zaps: map<Id, Zap>)
    requires DbOk(cfg, db) && !kind.NameRow? && InvoicesOk(cfg, t, kind) && ZapsOk(cfg, t, zaps)
    ensures DbOk(cfg, WithZaps(WithTable(db, kind, t), kind, zaps))
  {
  }

  lemma IssueExchanges(db: Db, kind: Kind, row: Invoice, request: Option<string>)
    requires !kind.NameRow?
    ensures var t, zaps := TableOf(db, kind), ZapsOf(db, kind);
      Issue(db, kind, row, request) == WithZaps(WithTable(db, kind, Table(t.rows[row.id := row], t.next + 1)), kind,
        WithRequest(zaps, row.id, request))
  {
  }

  function WithRequest(zaps: map<Id, Zap>, id: Id, request: Option<string>): map<Id, Zap> {
    if request.Some? then zaps[id := Zap(id, request.value, None)] else zaps
  }

  lemma IssueKeepsTable(cfg: Config, t: Table<Invoice>, zaps: map<Id, Zap>, kind: Kind, row: Invoice,
                        request: Option<string>)
    requires InvoicesOk(cfg, t, kind) && ZapsOk(cfg, t, zaps)
    requires row.id == t.next && row.backend.Bark? == kind.BarkRow?
    requires row.state.Pending? && row.preimage == "" && row.settledAt.None?
    requires ColumnsOk(row) && !HashIn(t, row.bolt11.paymentHash)
    requires cfg.parse(row.address) == Some(Recipient(kind, row.address))
      && (row.backend.Arkade? ==> cfg.arkadeEnabled && !SwapIn(t, row.backend.swapId))
    requires request.Some? ==> AcceptedRequest(cfg.nostr, request.value, row.amountMsats)
    ensures var t' := Table(t.rows[row.id := row], t.next + 1);
      InvoicesOk(cfg, t', kind) && ZapsOk(cfg, t', WithRequest(zaps, row.id, request))
    ensures row.id !in t.rows && row.id !in zaps
  {
    var t' := Table(t.rows[row.id := row], t.next + 1);
    IssueKeepsInvoices(cfg, t, kind, row);
    ZapsFollow(cfg, t, t', zaps);
    IssueKeepsZaps(cfg, t', zaps, row, request);
  }

  lemma IssueKeepsDb(cfg: Config, db: Db, kind: Kind, row: Invoice, request: Option<string>)
    requires DbOk(cfg, db) && CanIssue(cfg, db, kind, row, request)
    ensures DbOk(cfg, Issue(db, kind, row, request))
    ensures row.id !in TableOf(db, kind).rows && row.id !in ZapsOf(db, kind)
  {
    var t, zaps := TableOf(db, kind), ZapsOf(db, kind);
    IssueKeepsTable(cfg, t, zaps, kind, row, request);
    ExchangeKeepsDb(cfg, db, kind, Table(t.rows[row.id := row], t.next + 1), WithRequest(zaps, row.id, request));
    IssueExchanges(db, kind, row, request);
  }

  lemma IssueDecidesNothing(s: State, s': State, kind: Kind, row: Invoice, request: Option<string>)
    requires s' == s.(db := Issue(s.db, kind, row, request)) && !kind.NameRow?
    requires row.id !in TableOf(s.db, kind).rows && row.state.Pending?
    ensures forall key: Key :: Decided(s'.db, key) <==> Decided(s.db, key)
  {
  }

  lemma IssueOk(cfg: Config, s: State, kind: Kind, row: Invoice, request: Option<string>)
    requires Inv(cfg, s) && CanIssue(cfg, s.db, kind, row, request)
    ensures var s' := s.(db := Issue(s.db, kind, row, request)); Inv(cfg, s') && Evolves(s, s')
  {
    var s' := s.(db := Issue(s.db, kind, row, request));
    IssueKeepsDb(cfg, s.db, kind, row, request);
    IssueEvolves(s, s', kind, row, request);
    IssueDecidesNothing(s, s', kind, row, request);
    IssueWritesNoEventId(s, s', kind, row, request);
    IssueShrinks(s, s', kind, row, request);
    IssueRest(cfg, s, s');
  }

  lemma IssueWritesNoEventId(s: State, s': State, kind: Kind, row: Invoice, request: Option<string>)
    requires s' == s.(db := Issue(s.db, kind, row, request)) && !kind.NameRow?
    ensures NoNewEventIds(s.db.zaps, s'.db.zaps) && NoNewEventIds(s.db.arkadeZaps, s'.db.arkadeZaps)
      && s'.db.names == s.db.names
  {
  }

  lemma IssueShrinks(s: State, s': State, kind: Kind, row: Invoice, request: Option<string>)
    requires s' == s.(db := Issue(s.db, kind, row, request)) && !kind.NameRow? && row.state.Pending?
    requires row.id !in TableOf(s.db, kind).rows && row.id !in ZapsOf(s.db, kind)
    ensures UnpublishedShrinks(s, s')
  {
  }

  lemma IssueRest(cfg: Config, s: State, s': State)
    requires Inv(cfg, s) && s' == s.(db := s'.db) && s'.db.names == s.db.names && Evolves(s, s') && DbOk(cfg, s'.db)
    requires NoNewEventIds(s.db.zaps, s'.db.zaps) && NoNewEventIds(s.db.arkadeZaps, s'.db.arkadeZaps)
    requires forall key: Key :: Decided(s'.db, key) <==> Decided(s.db, key)
    requires UnpublishedShrinks(s, s')
    ensures Inv(cfg, s')
  {
    RecordsUnmoved(cfg, s, s');
    TasksUnmoved(cfg, s, s');
    OthersKeepPublisher(cfg, s, s');
    LoadsUnmoved(s, s');
  }

  // ---------- The publisher ----------

  lemma LoadedJobsOk(db: Db, kind: Kind, now: Time, jobs: seq<Job>)
    requires !kind.NameRow? && IsLoad(db, kind, now, jobs)
    ensures JobsOk(db, jobs)
  {
  }

  /** A receipt built from a loaded job is the receipt of the stored row. */
  lemma JobReceipt(cfg: Config, db: Db, job: Job)
    requires JobOk(db, job) && ReceiptFor(cfg, job.zap.request, job.row).Some?
    ensures ReceiptIs(cfg, db, job.key, cfg.nostr.eventId(ReceiptFor(cfg, job.zap.request, job.row).value))
  {
  }

  lemma PublishKeepsPublisher(cfg: Config, s: State, move: PublisherStep)
    requires PublisherOk(cfg, s) && CanPublish(cfg, s, move) && !move.WriteEventId?
    ensures PublisherOk(cfg, Publish(cfg, s, move))
  {
    match move
    case LoadBark(jobs) => LoadedJobsOk(s.db, BarkRow, s.now, jobs);
    case LoadArkade(jobs) => LoadedJobsOk(s.db, ArkadeRow, s.now, jobs);
    case SkipJob(sent) => if sent { JobReceipt(cfg, s.db, s.publisher.jobs[0]); }
    case SendReceipt => JobReceipt(cfg, s.db, s.publisher.jobs[0]);
    case _ =>
  }

  /** Writing an event id: either it was unset, or the same id is written again. */
  lemma WriteEvolves(cfg: Config, s: State)
    requires PublisherOk(cfg, s) && CanPublish(cfg, s, WriteEventId)
    ensures Evolves(s, Publish(cfg, s, WriteEventId))
  {
    var kind, id := s.publisher.key.kind, s.publisher.key.id;
    WrittenTwiceAlike(cfg, s, kind, id);
    ZapWritten(ZapsOf(s.db, kind), id, s.publisher.eventId);
    ZapsChangeEvolves(s.db, kind, SetEventId(ZapsOf(s.db, kind), id, s.publisher.eventId));
  }

  lemma ZapsChangeEvolves(db: Db, kind: Kind, zaps: map<Id, Zap>)
    requires !kind.NameRow? && ZapsEvolve(ZapsOf(db, kind), zaps)
    ensures DbEvolves(db, WithZaps(db, kind, zaps))
  {
  }

  lemma WrittenTwiceAlike(cfg: Config, s: State, kind: Kind, id: Id)
    requires PublisherOk(cfg, s) && s.publisher.Writing? && s.publisher.key == Key(kind, id) && id in ZapsOf(s.db, kind)
    ensures !kind.NameRow?
      && (ZapsOf(s.db, kind)[id].eventId.Some? ==> ZapsOf(s.db, kind)[id].eventId.value == s.publisher.eventId)
  {
    if ZapsOf(s.db, kind)[id].eventId.Some? {
      assert ReceiptIs(cfg, s.db, Key(kind, id), ZapsOf(s.db, kind)[id].eventId.value);
    }
  }

  lemma ZapWritten(zaps: map<Id, Zap>, id: Id, eventId: string)
    requires id in zaps && (zaps[id].eventId.Some? ==> zaps[id].eventId.value == eventId)
    ensures ZapsEvolve(zaps, zaps[id := zaps[id].(eventId := Some(eventId))])
  {
  }

  lemma WriteKeepsPublisher(cfg: Config, s: State)
    requires PublisherOk(cfg, s) && CanPublish(cfg, s, WriteEventId)
    ensures PublisherOk(cfg, Publish(cfg, s, WriteEventId))
  {
    var s' := Publish(cfg, s, WriteEventId);
    WriteEvolves(cfg, s);
    forall key, eventId | (key, eventId) in s'.sent ensures ReceiptIs(cfg, s'.db, key, eventId) {
      ReceiptIsStable(cfg, s.db, s'.db, key, eventId);
    }
    JobsOkStable(s.db, s'.db, s.publisher.jobs);
  }

  lemma PublishSignals(cfg: Config, s: State, move: PublisherStep)
    requires WakeupOk(s) && CanPublish(cfg, s, move)
    ensures WakeupOk(Publish(cfg, s, move))
  {
  }

  lemma LoadCovers(s: State, s': State, kind: Kind, jobs: seq<Job>)
    requires !kind.NameRow? && IsLoad(s.db, kind, s.now, jobs) && s'.db == s.db && s'.now == s.now
      && KeysOf(jobs) <= s'.loaded
    ensures Covered(s', kind)
  {
    forall id | Unpublished(s'.db, kind, s'.now, id) ensures Key(kind, id) in s'.loaded {
      var i :| 0 <= i < |jobs| && jobs[i].key.id == id;
      assert jobs[i].key == Key(kind, id) && jobs[i] in jobs;
    }
  }

  /** A written event id only takes its row out of the unpublished ones. */
  lemma WriteShrinks(s: State, s': State, kind: Kind, id: Id, eventId: string)
    requires !kind.NameRow? && id in ZapsOf(s.db, kind) && s'.now == s.now && s'.sinceLoad == s.sinceLoad
      && s'.loaded == s.loaded
    requires s'.db == WithZaps(s.db, kind, ZapsOf(s.db, kind)[id := ZapsOf(s.db, kind)[id].(eventId := Some(eventId))])
    ensures Covered(s, BarkRow) ==> Covered(s', BarkRow)
    ensures Covered(s, ArkadeRow) ==> Covered(s', ArkadeRow)
  {
    assert forall other, k: Kind :: !k.NameRow? && Unpublished(s'.db, k, s'.now, other) ==>
      Unpublished(s.db, k, s.now, other);
  }

  lemma PublishKeepsLoads(cfg: Config, s: State, move: PublisherStep)
    requires LoadsOk(s) && PublisherOk(cfg, s) && CanPublish(cfg, s, move)
    ensures LoadsOk(Publish(cfg, s, move))
  {
    var s' := Publish(cfg, s, move);
    match move
    case LoadBark(jobs) => LoadCovers(s, s', BarkRow, jobs);
    case LoadArkade(jobs) =>
      LoadCovers(s, s', ArkadeRow, jobs);
      assert Covered(s', BarkRow) by { assert Covered(s, BarkRow); }
    case WriteEventId => WriteShrinks(s, s', s.publisher.key.kind, s.publisher.key.id, s.publisher.eventId);
    case LoadFails =>
    case _ =>
      assert Covered(s, BarkRow) ==> Covered(s', BarkRow);
      assert Covered(s, ArkadeRow) ==> Covered(s', ArkadeRow);
  }

  lemma PublishEvolves(cfg: Config, s: State, move: PublisherStep)
    requires PublisherOk(cfg, s) && CanPublish(cfg, s, move)
    ensures Evolves(s, Publish(cfg, s, move))
  {
    if move.WriteEventId? {
      WriteEvolves(cfg, s);
    }
  }

  /** What the publisher does not touch. */
  ghost predicate PublisherOnly(s: State, s': State) {
    && s'.tasks == s.tasks && s'.wallet == s.wallet && s'.now == s.now
    && s'.wins == s.wins && s'.how == s.how && s'.answers == s.answers
    && s'.db.invoices == s.db.invoices && s'.db.arkade == s.db.arkade && s'.db.names == s.db.names
  }

  lemma PublishFrame(cfg: Config, s: State, move: PublisherStep)
    requires CanPublish(cfg, s, move)
    ensures PublisherOnly(s, Publish(cfg, s, move))
    ensures move.WriteEventId? || Publish(cfg, s, move).db == s.db
  {
  }

  lemma PublishKeepsDb(cfg: Config, s: State, move: PublisherStep)
    requires DbOk(cfg, s.db) && CanPublish(cfg, s, move)
    ensures DbOk(cfg, Publish(cfg, s, move).db)
  {
    PublishFrame(cfg, s, move);
    if move.WriteEventId? {
      var kind, id := s.publisher.key.kind, s.publisher.key.id;
      WrittenZapsOk(cfg, TableOf(s.db, kind), ZapsOf(s.db, kind), id, s.publisher.eventId);
    }
  }

  lemma WrittenZapsOk(cfg: Config, t: Table<Invoice>, zaps: map<Id, Zap>, id: Id, eventId: string)
    requires ZapsOk(cfg, t, zaps) && id in zaps
    ensures ZapsOk(cfg, t, zaps[id := zaps[id].(eventId := Some(eventId))])
  {
  }

  lemma PublishKeepsOwnPart(cfg: Config, s: State, move: PublisherStep)
    requires PublisherOk(cfg, s) && CanPublish(cfg, s, move)
    ensures PublisherOk(cfg, Publish(cfg, s, move))
  {
    if move.WriteEventId? {
      WriteKeepsPublisher(cfg, s);
    } else {
      PublishKeepsPublisher(cfg, s, move);
    }
  }

  lemma PublisherRest(cfg: Config, s: State, s': State)
    requires SharedOk(cfg, s) && TasksOk(cfg, s) && LocksOk(s) && FeesOk(s) && Evolves(s, s') && PublisherOnly(s, s')
    requires DbOk(cfg, s'.db) && PublisherOk(cfg, s')
    ensures SharedOk(cfg, s') && TasksOk(cfg, s') && LocksOk(s') && FeesOk(s')
  {
    RecordsUnmoved(cfg, s, s');
    TasksUnmoved(cfg, s, s');
  }

  lemma PublisherStepOk(cfg: Config, s: State, move: PublisherStep)
    requires Inv(cfg, s) && CanPublish(cfg, s, move)
    ensures Inv(cfg, Publish(cfg, s, move)) && Evolves(s, Publish(cfg, s, move))
  {
    PublishEvolves(cfg, s, move);
    PublishFrame(cfg, s, move);
    PublishKeepsDb(cfg, s, move);
    PublishSignals(cfg, s, move);
    PublishKeepsLoads(cfg, s, move);
    PublishKeepsOwnPart(cfg, s, move);
    PublisherRest(cfg, s, Publish(cfg, s, move));
  }

  // ---------- Runs ----------

  lemma ServerStepOk(cfg: Config, s: State, step: Step)
    requires Inv(cfg, s) && Can(cfg, s, step)
    requires step.TaskStep? || step.PublisherMoves? || step.Abort? || step.Crash? || step.IssueInvoice?
    ensures Inv(cfg, Do(cfg, s, step)) && Evolves(s, Do(cfg, s, step))
  {
    match step
    case TaskStep(tid, reply) => TaskStepOk(cfg, s, tid, reply);
    case IssueInvoice(kind, row, request) => IssueOk(cfg, s, kind, row, request);
    case Abort(tid) => AbortOk(cfg, s, tid);
    case PublisherMoves(move) => PublisherStepOk(cfg, s, move);
    case Crash => CrashOk(cfg, s);
  }

  lemma EnvironmentStepOk(cfg: Config, s: State, step: Step)
    requires Inv(cfg, s) && Can(cfg, s, step)
    requires step.Tick? || step.SetReceive? || step.DropReceive? || step.AppendMovement?
    ensures Inv(cfg, Do(cfg, s, step)) && Evolves(s, Do(cfg, s, step))
  {
    match step
    case Tick(now) => TickOk(cfg, s, now);
    case SetReceive(receive) =>
      SetReceiveKeepsWallet(s.wallet, receive, s.now);
      WalletChangeOk(cfg, s, SetReceiveIn(s.wallet, receive, s.now));
    case DropReceive(hash) => WalletChangeOk(cfg, s, s.wallet.(receives := s.wallet.receives - {hash}));
    case AppendMovement(movement) => WalletChangeOk(cfg, s, s.wallet.(history := s.wallet.history + [movement]));
  }

  lemma CreateStepOk(cfg: Config, s: State, step: Step)
    requires Inv(cfg, s) && step.StartCreate? && step.tid !in s.tasks
      && CanCreate(cfg, step.name, step.address, step.signature)
    ensures var task := CreateCheckActive(
        Ownership(Normalize(IsAddress(cfg), step.name).value, cfg.parse(step.address).value.text, step.signature));
      var s' := WithTask(s, step.tid, Some(task));
      Inv(cfg, s') && Evolves(s, s')
  {
    CreateStartOk(cfg, s, step.name, step.address, step.signature);
    StartOk(cfg, s, step.tid, CreateCheckActive(
      Ownership(Normalize(IsAddress(cfg), step.name).value, cfg.parse(step.address).value.text, step.signature)));
  }

  lemma ClaimStartOk(cfg: Config, s: State, step: Step)
    requires Inv(cfg, s) && Can(cfg, s, step)
    requires step.StartBark? || step.StartArkade? || step.StartName?
    ensures Inv(cfg, Do(cfg, s, step)) && Evolves(s, Do(cfg, s, step))
  {
    match step
    case StartBark(tid, id) => StartOk(cfg, s, tid, BarkObserve(s.db.invoices.rows[id]));
    case StartArkade(tid, id) => StartOk(cfg, s, tid, ArkadeCheck(s.db.arkade.rows[id]));
    case StartName(tid, id) => StartOk(cfg, s, tid, NameObserve(s.db.names.invoices.rows[id]));
  }

  lemma RequestStartOk(cfg: Config, s: State, step: Step)
    requires Inv(cfg, s) && Can(cfg, s, step)
    requires step.StartCreate? || step.StartVerify?
    ensures Inv(cfg, Do(cfg, s, step)) && Evolves(s, Do(cfg, s, step))
  {
    match step
    case StartCreate(_, _, _, _) => CreateStepOk(cfg, s, step);
    case StartVerify(tid, text, target, hash) => StartOk(cfg, s, tid, VerifyBark(text, target, hash, false));
  }

  lemma StepOk(cfg: Config, s: State, step: Step)
    requires Inv(cfg, s) && Can(cfg, s, step)
    ensures Inv(cfg, Do(cfg, s, step)) && Evolves(s, Do(cfg, s, step))
  {
    if step.TaskStep? || step.PublisherMoves? || step.Abort? || step.Crash? || step.IssueInvoice? {
      ServerStepOk(cfg, s, step);
    } else if step.Tick? || step.SetReceive? || step.DropReceive? || step.AppendMovement? {
      EnvironmentStepOk(cfg, s, step);
    } else if step.StartCreate? || step.StartVerify? {
      RequestStartOk(cfg, s, step);
    } else {
      ClaimStartOk(cfg, s, step);
    }
  }

  /** The invariant survives every run, and later states evolve from earlier ones. */
  lemma {:induction false} RunOk(cfg: Config, s: State, steps: seq<Step>)
    requires Inv(cfg, s) && Legal(cfg, s, steps)
    ensures Inv(cfg, Run(cfg, s, steps)) && Evolves(s, Run(cfg, s, steps))
    decreases |steps|
  {
    if steps != [] {
      var next := Do(cfg, s, steps[0]);
      StepOk(cfg, s, steps[0]);
      RunOk(cfg, next, steps[1..]);
      EvolvesTransitive(s, next, Run(cfg, s, steps));
    }
  }
}

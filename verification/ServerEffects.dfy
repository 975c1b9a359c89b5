/** Each effect of a task, when its grounds hold, keeps the tables and the history consistent. */
module ServerEffects {
  import opened Wrappers
  import opened Ledger
  import opened Server
  import opened ServerInvariant

  /** The grounds on which a task may have this effect. */
  ghost predicate EffectOk(cfg: Config, s: State, effect: Effect) {
    match effect
    case SettleRow(kind, id, preimage) =>
      && !kind.NameRow? && IsPending(TableOf(s.db, kind), id)
      && CauseOk(s, Key(kind, id), PaidLightning(preimage))
    case CancelRow(kind, id, cause) =>
      && !kind.NameRow? && IsPending(TableOf(s.db, kind), id)
      && !cause.PaidLightning? && CauseOk(s, Key(kind, id), cause)
    case CancelName(id, cause) =>
      && CustomIsPending(s.db.names.invoices, id)
      && !cause.PaidLightning? && !cause.PaidArk? && CauseOk(s, Key(NameRow, id), cause)
    case CommitName(invoice, payment, _) =>
      && CustomIsPending(s.db.names.invoices, invoice.id) && CustomCloneOf(s.db.names.invoices, invoice)
      && !NameTaken(s.db.names.addresses, invoice.name) && PaymentOk(s, invoice, payment)
    case Reserve(invoice) => ReservationOk(cfg, invoice) && CanReserve(s.db.names.invoices, invoice)
    case Respond(answer) =>
      && AnswerOk(cfg, s.db, answer)
      && var row := TableOf(s.db, answer.key.kind).rows[answer.key.id];
         answer.settled <==> row.state.Settled? && row.preimage != ""
    case _ => true
  }

  // ---------- Statements ----------

  lemma SettleInvoiceKeeps(cfg: Config, t: Table<Invoice>, kind: Kind, id: Id, preimage: string, now: Time)
    requires InvoicesOk(cfg, t, kind) && IsPending(t, id)
    ensures var t' := SettleInvoice(t, id, preimage, now).0; InvoicesOk(cfg, t', kind) && TableEvolves(t, t')
  {
  }

  lemma CancelInvoiceKeeps(cfg: Config, t: Table<Invoice>, kind: Kind, id: Id)
    requires InvoicesOk(cfg, t, kind) && IsPending(t, id)
    ensures var t' := CancelInvoice(t, id).0; InvoicesOk(cfg, t', kind) && TableEvolves(t, t')
  {
  }

  lemma ZapsFollow(cfg: Config, t: Table<Invoice>, t': Table<Invoice>, zaps: map<Id, Zap>)
    requires ZapsOk(cfg, t, zaps) && TableEvolves(t, t')
    ensures ZapsOk(cfg, t', zaps)
  {
  }

  lemma OwnedFollows(cfg: Config, invoice: CustomInvoice, invoice': CustomInvoice)
    requires Owned(cfg, invoice) && TermsOk(invoice) && SameCustom(invoice, invoice')
    ensures Owned(cfg, invoice') && TermsOk(invoice')
  {
  }

  /** Deciding a row leaves the keys and the unique indexes as they were, or frees a name. */
  lemma DecidingKeepsIndexes(t: Table<CustomInvoice>, id: Id, row: CustomInvoice)
    requires CustomKeyed(t) && OnePendingPerName(t) && CustomHashesUnique(t)
    requires id in t.rows && SameCustom(t.rows[id], row) && !row.state.Pending?
    ensures var t' := t.(rows := t.rows[id := row]); CustomKeyed(t') && OnePendingPerName(t') && CustomHashesUnique(t')
  {
  }

  lemma SettleCustomKeeps(cfg: Config, t: Table<CustomInvoice>, id: Id, payment: Payment, startedAt: Time)
    requires ReservationsOk(cfg, t) && CustomIsPending(t, id)
    ensures ReservationsOk(cfg, SettleCustom(t, id, payment, startedAt).0)
  {
    OwnedFollows(cfg, t.rows[id], SettledCustom(t.rows[id], payment, startedAt));
    DecidingKeepsIndexes(t, id, SettledCustom(t.rows[id], payment, startedAt));
  }

  lemma CancelCustomKeeps(cfg: Config, t: Table<CustomInvoice>, id: Id)
    requires ReservationsOk(cfg, t) && CustomIsPending(t, id)
    ensures ReservationsOk(cfg, CancelCustom(t, id).0)
  {
    OwnedFollows(cfg, t.rows[id], t.rows[id].(state := Cancelled));
    DecidingKeepsIndexes(t, id, t.rows[id].(state := Cancelled));
  }

  lemma ReserveKeeps(cfg: Config, t: Table<CustomInvoice>, invoice: CustomInvoice)
    requires ReservationsOk(cfg, t) && ReservationOk(cfg, invoice) && CanReserve(t, invoice)
    ensures var t' := Table(t.rows[t.next := invoice.(id := t.next)], t.next + 1);
      ReservationsOk(cfg, t') && CustomEvolves(t, t')
  {
    assert t.next !in t.rows;
    assert Owned(cfg, invoice.(id := t.next));
    assert forall id :: id in t.rows && t.rows[id].state.Pending? ==> t.rows[id].name != invoice.name;
  }

  lemma UndecidedUnrecorded(s: State, key: Key)
    requires WinsOk(s) && !Decided(s.db, key)
    ensures key !in s.how && s.wins[key] == 0
  {
  }

  /** Recording a decision for the first time. */
  lemma RecordEvolves(s: State, changed: State, key: Key, how: How)
    requires changed.how == s.how && changed.wins == s.wins && changed.sent == s.sent && changed.answers == s.answers
    requires key !in s.how
    ensures LogEvolves(s, Record(changed, key, how))
  {
  }

  lemma SettleRowEvolves(s: State, kind: Kind, id: Id, preimage: string)
    requires !kind.NameRow? && IsPending(TableOf(s.db, kind), id) && Key(kind, id) !in s.how
    ensures Evolves(s, Apply(s, SettleRow(kind, id, preimage)))
  {
  }

  lemma CancelRowEvolves(s: State, kind: Kind, id: Id, cause: How)
    requires !kind.NameRow? && IsPending(TableOf(s.db, kind), id) && Key(kind, id) !in s.how
    ensures Evolves(s, Apply(s, CancelRow(kind, id, cause)))
  {
  }

  lemma SettleCustomEvolves(t: Table<CustomInvoice>, id: Id, payment: Payment, startedAt: Time)
    ensures CustomEvolves(t, SettleCustom(t, id, payment, startedAt).0)
  {
  }

  lemma CancelCustomEvolves(t: Table<CustomInvoice>, id: Id)
    ensures CustomEvolves(t, CancelCustom(t, id).0)
  {
  }

  lemma InsertAddressEvolves(t: Table<CustomAddress>, name: string, arkAddress: string)
    requires AddressKeyed(t)
    ensures AddressesEvolve(t, InsertAddress(t, name, arkAddress))
  {
    assert t.next !in t.rows;
  }

  lemma NamesEvolve(db: Db, names: Registry)
    requires CustomEvolves(db.names.invoices, names.invoices) && AddressesEvolve(db.names.addresses, names.addresses)
    ensures DbEvolves(db, db.(names := names))
  {
  }

  lemma CancelNameEvolves(s: State, id: Id, cause: How)
    requires CustomIsPending(s.db.names.invoices, id) && Key(NameRow, id) !in s.how
    ensures Evolves(s, Apply(s, CancelName(id, cause)))
  {
    var names := s.db.names.(invoices := CancelCustom(s.db.names.invoices, id).0);
    CancelCustomEvolves(s.db.names.invoices, id);
    NamesEvolve(s.db, names);
    RecordEvolves(s, s.(db := s.db.(names := names)), Key(NameRow, id), cause);
  }

  lemma CommitNameEvolves(s: State, invoice: CustomInvoice, payment: Payment, startedAt: Time)
    requires CustomIsPending(s.db.names.invoices, invoice.id)
    requires AddressKeyed(s.db.names.addresses) && Key(NameRow, invoice.id) !in s.how
    ensures Evolves(s, Apply(s, CommitName(invoice, payment, startedAt)))
  {
    var names := Registry(SettleCustom(s.db.names.invoices, invoice.id, payment, startedAt).0,
                          InsertAddress(s.db.names.addresses, invoice.name, invoice.arkAddress));
    SettleCustomEvolves(s.db.names.invoices, invoice.id, payment, startedAt);
    InsertAddressEvolves(s.db.names.addresses, invoice.name, invoice.arkAddress);
    NamesEvolve(s.db, names);
    RecordEvolves(s, s.(db := s.db.(names := names)), Key(NameRow, invoice.id), PaidWith(payment));
  }

  lemma ReserveEvolves(s: State, invoice: CustomInvoice)
    requires CustomKeyed(s.db.names.invoices)
    ensures Evolves(s, Apply(s, Reserve(invoice)))
  {
    assert s.db.names.invoices.next !in s.db.names.invoices.rows;
  }

  /** The row that an effect decides, if any. */
  function DecidedBy(effect: Effect): Option<Key> {
    match effect
    case SettleRow(kind, id, _) => Some(Key(kind, id))
    case CancelRow(kind, id, _) => Some(Key(kind, id))
    case CancelName(id, _) => Some(Key(NameRow, id))
    case CommitName(invoice, _, _) => Some(Key(NameRow, invoice.id))
    case _ => None
  }

  lemma DecidesUndecided(cfg: Config, s: State, effect: Effect)
    requires WinsOk(s) && EffectOk(cfg, s, effect) && DecidedBy(effect).Some?
    ensures DecidedBy(effect).value !in s.how && s.wins[DecidedBy(effect).value] == 0
      && !Decided(s.db, DecidedBy(effect).value)
  {
    UndecidedUnrecorded(s, DecidedBy(effect).value);
  }

  lemma EffectEvolves(cfg: Config, s: State, effect: Effect)
    requires DbOk(cfg, s.db) && WinsOk(s) && EffectOk(cfg, s, effect)
    ensures Evolves(s, Apply(s, effect))
  {
    if DecidedBy(effect).Some? {
      DecidesUndecided(cfg, s, effect);
    }
    match effect
    case SettleRow(kind, id, preimage) => SettleRowEvolves(s, kind, id, preimage);
    case CancelRow(kind, id, cause) => CancelRowEvolves(s, kind, id, cause);
    case CancelName(id, cause) => CancelNameEvolves(s, id, cause);
    case CommitName(invoice, payment, startedAt) => CommitNameEvolves(s, invoice, payment, startedAt);
    case Reserve(invoice) => ReserveEvolves(s, invoice);
    case _ =>
  }

  lemma EffectKeepsInvoices(cfg: Config, s: State, effect: Effect)
    requires DbOk(cfg, s.db) && EffectOk(cfg, s, effect)
    ensures var db := Apply(s, effect).db;
      && InvoicesOk(cfg, db.invoices, BarkRow) && InvoicesOk(cfg, db.arkade, ArkadeRow)
      && ZapsOk(cfg, db.invoices, db.zaps) && ZapsOk(cfg, db.arkade, db.arkadeZaps)
  {
    match effect
    case SettleRow(kind, id, preimage) =>
      var t := TableOf(s.db, kind);
      SettleInvoiceKeeps(cfg, t, kind, id, preimage, s.now);
      ZapsFollow(cfg, t, SettleInvoice(t, id, preimage, s.now).0, ZapsOf(s.db, kind));
    case CancelRow(kind, id, _) =>
      var t := TableOf(s.db, kind);
      CancelInvoiceKeeps(cfg, t, kind, id);
      ZapsFollow(cfg, t, CancelInvoice(t, id).0, ZapsOf(s.db, kind));
    case _ =>
  }

  lemma EffectKeepsReservations(cfg: Config, s: State, effect: Effect)
    requires DbOk(cfg, s.db) && EffectOk(cfg, s, effect)
    ensures ReservationsOk(cfg, Apply(s, effect).db.names.invoices)
  {
    match effect
    case CancelName(id, _) => CancelCustomKeeps(cfg, s.db.names.invoices, id);
    case CommitName(invoice, payment, startedAt) =>
      SettleCustomKeeps(cfg, s.db.names.invoices, invoice.id, payment, startedAt);
    case Reserve(invoice) => ReserveKeeps(cfg, s.db.names.invoices, invoice);
    case _ =>
  }

  /** Changes that leave the settled rows alone. */
  ghost predicate SameSettled(t: Table<CustomInvoice>, t': Table<CustomInvoice>) {
    && (forall i :: i in t.rows && t.rows[i].state.Settled? ==> i in t'.rows && t'.rows[i] == t.rows[i])
    && (forall i :: i in t'.rows && t'.rows[i].state.Settled? ==> i in t.rows && t.rows[i].state.Settled?)
  }

  lemma UnsettledKeepsRegistry(r: Registry, r': Registry)
    requires RegistryOk(r) && r'.addresses == r.addresses && SameSettled(r.invoices, r'.invoices)
    ensures RegistryOk(r')
  {
    forall i | i in r'.invoices.rows && r'.invoices.rows[i].state.Settled? ensures exists a :: Backs(r', i, a) {
      var a :| Backs(r, i, a);
      assert Backs(r', i, a);
    }
    forall a | a in r'.addresses.rows ensures exists i :: Backs(r', i, a) {
      var i :| Backs(r, i, a);
      assert Backs(r', i, a);
    }
    assert forall i, j :: SettledNames(r'.invoices, i, j) ==> SettledNames(r.invoices, i, j);
  }

  /** A settled row is added together with a registry row of a new name. */
  ghost predicate Activates(r: Registry, r': Registry, id: Id) {
    && id in r.invoices.rows && r.invoices.rows[id].state.Pending?
    && id in r'.invoices.rows && r'.invoices.rows[id].state.Settled?
    && !NameTaken(r.addresses, r'.invoices.rows[id].name)
    && (forall i :: i in r.invoices.rows && i != id ==>
          i in r'.invoices.rows && r'.invoices.rows[i] == r.invoices.rows[i])
    && r'.invoices.rows.Keys == r.invoices.rows.Keys
    && r'.addresses == InsertAddress(r.addresses, r'.invoices.rows[id].name, r'.invoices.rows[id].arkAddress)
  }

  lemma ActivateKeepsBacking(r: Registry, r': Registry, id: Id)
    requires RegistryOk(r) && Activates(r, r', id)
    ensures forall i :: i in r'.invoices.rows && r'.invoices.rows[i].state.Settled? ==> exists a :: Backs(r', i, a)
  {
    assert Backs(r', id, r.addresses.next);
    forall i | i in r'.invoices.rows && r'.invoices.rows[i].state.Settled? ensures exists a :: Backs(r', i, a) {
      if i != id {
        var a :| Backs(r, i, a);
        assert Backs(r', i, a);
      }
    }
  }

  lemma ActivateKeepsBacked(r: Registry, r': Registry, id: Id)
    requires RegistryOk(r) && Activates(r, r', id)
    ensures forall a :: a in r'.addresses.rows ==> exists i :: Backs(r', i, a)
  {
    assert Backs(r', id, r.addresses.next);
    forall a | a in r'.addresses.rows ensures exists i :: Backs(r', i, a) {
      if a != r.addresses.next {
        var i :| Backs(r, i, a);
        assert Backs(r', i, a);
      }
    }
  }

  lemma ActivateKeepsNamesUnique(r: Registry, r': Registry, id: Id)
    requires RegistryOk(r) && Activates(r, r', id)
    ensures forall i, j :: SettledNames(r'.invoices, i, j) && r'.invoices.rows[i].name == r'.invoices.rows[j].name ==>
      i == j
  {
    forall i | i in r.invoices.rows && r.invoices.rows[i].state.Settled?
      ensures r.invoices.rows[i].name != r'.invoices.rows[id].name
    {
      var a :| Backs(r, i, a);
    }
    forall i, j | SettledNames(r'.invoices, i, j) && r'.invoices.rows[i].name == r'.invoices.rows[j].name
      ensures i == j {
      if i != id && j != id {
        assert SettledNames(r.invoices, i, j);
      }
    }
  }

  lemma ActivateKeepsAddressesUnique(r: Registry, r': Registry, id: Id)
    requires RegistryOk(r) && Activates(r, r', id)
    ensures AddressKeyed(r'.addresses)
    ensures forall a, b ::
      a in r'.addresses.rows && b in r'.addresses.rows && r'.addresses.rows[a].name == r'.addresses.rows[b].name ==>
        a == b
  {
  }

  lemma ActivateKeepsRegistry(r: Registry, r': Registry, id: Id)
    requires RegistryOk(r) && Activates(r, r', id)
    ensures RegistryOk(r')
  {
    ActivateKeepsBacking(r, r', id);
    ActivateKeepsBacked(r, r', id);
    ActivateKeepsNamesUnique(r, r', id);
    ActivateKeepsAddressesUnique(r, r', id);
  }

  lemma CommitKeepsRegistry(s: State, invoice: CustomInvoice, payment: Payment, startedAt: Time)
    requires RegistryOk(s.db.names) && CustomIsPending(s.db.names.invoices, invoice.id)
      && CustomCloneOf(s.db.names.invoices, invoice)
    requires !NameTaken(s.db.names.addresses, invoice.name)
    ensures RegistryOk(Apply(s, CommitName(invoice, payment, startedAt)).db.names)
  {
    var r := s.db.names;
    var r' := Apply(s, CommitName(invoice, payment, startedAt)).db.names;
    assert Activates(r, r', invoice.id);
    ActivateKeepsRegistry(r, r', invoice.id);
  }

  lemma EffectKeepsRegistry(cfg: Config, s: State, effect: Effect)
    requires RegistryOk(s.db.names) && CustomKeyed(s.db.names.invoices) && EffectOk(cfg, s, effect)
    ensures RegistryOk(Apply(s, effect).db.names)
  {
    var r, r' := s.db.names, Apply(s, effect).db.names;
    match effect
    case CommitName(invoice, payment, startedAt) => CommitKeepsRegistry(s, invoice, payment, startedAt);
    case CancelName(_, _) => UnsettledKeepsRegistry(r, r');
    case Reserve(_) =>
      assert r.invoices.next !in r.invoices.rows;
      UnsettledKeepsRegistry(r, r');
    case _ => assert r' == r;
  }

  lemma EffectKeepsDb(cfg: Config, s: State, effect: Effect)
    requires DbOk(cfg, s.db) && EffectOk(cfg, s, effect)
    ensures DbOk(cfg, Apply(s, effect).db)
  {
    EffectKeepsInvoices(cfg, s, effect);
    EffectKeepsReservations(cfg, s, effect);
    EffectKeepsRegistry(cfg, s, effect);
  }

  // ---------- History ----------

  lemma CauseOkStable(s: State, s': State, key: Key, how: How)
    requires Evolves(s, s') && CauseOk(s, key, how)
    ensures CauseOk(s', key, how)
  {
    match key.kind
    case NameRow =>
      var invoice := s.db.names.invoices.rows[key.id];
      var invoice' := s'.db.names.invoices.rows[key.id];
      assert CustomPaymentHashOf(invoice') == CustomPaymentHashOf(invoice);
      match how {
        case PaidLightning(preimage) => PaymentOkStable(s, s', invoice, Lightning(preimage));
        case PaidArk(reference) => PaymentOkStable(s, s', invoice, ArkTransfer(reference));
        case ExpiredUnpaid(why) => NoFeePaymentStable(s, s', invoice, why.historySeen);
        case NameWasTaken => NameTakenStable(s, s', invoice.name);
        case _ =>
      }
    case _ =>
  }

  /** A row whose outcome is recorded is decided, so it stays as it is. */
  lemma OutcomeOkStable(s: State, s': State, key: Key, how: How)
    requires Evolves(s, s') && OutcomeOk(s.db, key, how)
    ensures OutcomeOk(s'.db, key, how)
  {
  }

  lemma EffectCounts(cfg: Config, s: State, effect: Effect, key: Key)
    requires DbOk(cfg, s.db) && WinsOk(s) && EffectOk(cfg, s, effect)
    ensures var s' := Apply(s, effect);
      && (s'.wins[key] == if Decided(s'.db, key) then 1 else 0)
      && (key in s'.how <==> Decided(s'.db, key))
  {
    assert s.wins[key] == if Decided(s.db, key) then 1 else 0;
    assert key in s.how <==> Decided(s.db, key);
    if DecidedBy(effect).Some? {
      DecidesUndecided(cfg, s, effect);
    }
    OkDecidesPending(cfg, s, effect);
    DecisionsOf(s, effect, key);
    EffectRecordsOne(s, effect, key);
  }

  lemma OkDecidesPending(cfg: Config, s: State, effect: Effect)
    requires EffectOk(cfg, s, effect)
    ensures DecidesPending(s, effect)
  {
  }

  /** The history gains one win and one cause, for the row that the effect decides. */
  lemma EffectRecordsOne(s: State, effect: Effect, key: Key)
    ensures Apply(s, effect).wins[key] == s.wins[key] + if DecidedBy(effect) == Some(key) then 1 else 0
    ensures key in Apply(s, effect).how <==> key in s.how || DecidedBy(effect) == Some(key)
  {
  }

  ghost predicate DecidesPending(s: State, effect: Effect) {
    match effect
    case SettleRow(kind, id, _) => !kind.NameRow? && IsPending(TableOf(s.db, kind), id)
    case CancelRow(kind, id, _) => !kind.NameRow? && IsPending(TableOf(s.db, kind), id)
    case CancelName(id, _) => CustomIsPending(s.db.names.invoices, id)
    case CommitName(invoice, _, _) => CustomIsPending(s.db.names.invoices, invoice.id)
    case Reserve(invoice) => invoice.state.Pending?
    case _ => true
  }

  /** An effect decides its own row and no other. */
  lemma DecisionsOf(s: State, effect: Effect, key: Key)
    requires CustomKeyed(s.db.names.invoices) && DecidesPending(s, effect)
    ensures Decided(Apply(s, effect).db, key) <==> Decided(s.db, key) || DecidedBy(effect) == Some(key)
  {
    match effect
    case SettleRow(kind, id, preimage) =>
      var t := TableOf(s.db, kind);
      assert Apply(s, effect).db == WithTable(s.db, kind, SettleInvoice(t, id, preimage, s.now).0);
    case CancelRow(kind, id, _) =>
      assert Apply(s, effect).db == WithTable(s.db, kind, CancelInvoice(TableOf(s.db, kind), id).0);
    case CancelName(_, _) =>
    case CommitName(_, _, _) =>
    case Reserve(_) => assert s.db.names.invoices.next !in s.db.names.invoices.rows;
    case _ => assert Apply(s, effect).db == s.db;
  }

  lemma EffectKeepsWins(cfg: Config, s: State, effect: Effect)
    requires DbOk(cfg, s.db) && WinsOk(s) && EffectOk(cfg, s, effect)
    ensures WinsOk(Apply(s, effect))
  {
    var s' := Apply(s, effect);
    EffectEvolves(cfg, s, effect);
    forall key: Key
      ensures s'.wins[key] == (if Decided(s'.db, key) then 1 else 0)
      ensures key in s'.how <==> Decided(s'.db, key)
    {
      EffectCounts(cfg, s, effect, key);
    }
    forall key | key in s'.how ensures CauseOk(s', key, s'.how[key]) && OutcomeOk(s'.db, key, s'.how[key]) {
      if key in s.how {
        CauseOkStable(s, s', key, s.how[key]);
        OutcomeOkStable(s, s', key, s.how[key]);
      } else {
        EffectRecords(cfg, s, effect, key);
      }
    }
  }

  /** The grounds of an effect, read on the stored row. */
  lemma EffectCause(cfg: Config, s: State, effect: Effect)
    requires EffectOk(cfg, s, effect) && DecidedBy(effect).Some?
    ensures CauseOk(s, DecidedBy(effect).value, Apply(s, effect).how[DecidedBy(effect).value])
    ensures OutcomeOk(Apply(s, effect).db, DecidedBy(effect).value, Apply(s, effect).how[DecidedBy(effect).value])
  {
    if effect.CommitName? {
      assert PaymentOk(s, s.db.names.invoices.rows[effect.invoice.id], effect.payment);
    }
  }

  lemma EffectRecords(cfg: Config, s: State, effect: Effect, key: Key)
    requires EffectOk(cfg, s, effect) && Evolves(s, Apply(s, effect))
    requires key !in s.how && key in Apply(s, effect).how
    ensures var s' := Apply(s, effect); CauseOk(s', key, s'.how[key]) && OutcomeOk(s'.db, key, s'.how[key])
  {
    var s' := Apply(s, effect);
    assert DecidedBy(effect) == Some(key);
    EffectCause(cfg, s, effect);
    CauseOkStable(s, s', key, s'.how[key]);
  }

  // ---------- The publisher's view ----------

  /** Jobs and receipts refer to settled rows and to requests, which never change. */
  lemma JobOkStable(db: Db, db': Db, job: Job)
    requires DbEvolves(db, db') && JobOk(db, job)
    ensures JobOk(db', job)
  {
  }

  lemma ReceiptIsStable(cfg: Config, db: Db, db': Db, key: Key, eventId: string)
    requires DbEvolves(db, db') && ReceiptIs(cfg, db, key, eventId)
    ensures ReceiptIs(cfg, db', key, eventId)
  {
  }

  ghost predicate NoNewEventIds(z: map<Id, Zap>, z': map<Id, Zap>) {
    forall id :: id in z' && z'[id].eventId.Some? ==> id in z && z[id] == z'[id]
  }

  /** A step of anything but the publisher. */
  lemma OthersKeepPublisher(cfg: Config, s: State, s': State)
    requires PublisherOk(cfg, s) && Evolves(s, s') && s'.publisher == s.publisher && s'.sent == s.sent
    requires NoNewEventIds(s.db.zaps, s'.db.zaps) && NoNewEventIds(s.db.arkadeZaps, s'.db.arkadeZaps)
    ensures PublisherOk(cfg, s')
  {
    forall key, eventId | (key, eventId) in s'.sent ensures ReceiptIs(cfg, s'.db, key, eventId) {
      ReceiptIsStable(cfg, s.db, s'.db, key, eventId);
    }
    match s.publisher
    case LoadingArkade(jobs) => JobsOkStable(s.db, s'.db, jobs);
    case Working(jobs) => JobsOkStable(s.db, s'.db, jobs);
    case Writing(_, _, jobs) => JobsOkStable(s.db, s'.db, jobs);
    case _ =>
  }

  lemma JobsOkStable(db: Db, db': Db, jobs: seq<Job>)
    requires DbEvolves(db, db') && JobsOk(db, jobs)
    ensures JobsOk(db', jobs)
  {
    forall i | 0 <= i < |jobs| ensures JobOk(db', jobs[i]) {
      JobOkStable(db, db', jobs[i]);
    }
  }

  // ---------- Answers of verify ----------

  lemma AnswerOkStable(cfg: Config, s: State, s': State, answer: Answer)
    requires Evolves(s, s') && AnswerOk(cfg, s.db, answer)
    ensures AnswerOk(cfg, s'.db, answer)
  {
    ResolvesStable(cfg, s, s', answer.address, TableOf(s.db, answer.key.kind).rows[answer.key.id].address);
  }

  lemma OthersKeepAnswers(cfg: Config, s: State, s': State)
    requires AnswersOk(cfg, s) && Evolves(s, s') && s'.answers == s.answers
    ensures AnswersOk(cfg, s')
  {
    forall k | 0 <= k < |s'.answers| ensures AnswerOk(cfg, s'.db, s'.answers[k]) {
      AnswerOkStable(cfg, s, s', s.answers[k]);
    }
  }

  /** An address, literal or registered, resolves to one target. */
  lemma ResolvesUnique(cfg: Config, r: Registry, address: string, one: string, two: string)
    requires RegistryOk(r) && Resolves(cfg, r.addresses, address, one) && Resolves(cfg, r.addresses, address, two)
    ensures one == two
  {
  }

  /** The two tables hold different kinds of address, so rows for one address are in one table. */
  lemma RecipientsDisjoint(cfg: Config, db: Db, one: Key, two: Key)
    requires InvoicesOk(cfg, db.invoices, BarkRow) && InvoicesOk(cfg, db.arkade, ArkadeRow)
    requires !one.kind.NameRow? && one.id in TableOf(db, one.kind).rows
    requires !two.kind.NameRow? && two.id in TableOf(db, two.kind).rows
    requires TableOf(db, one.kind).rows[one.id].address == TableOf(db, two.kind).rows[two.id].address
    ensures one.kind == two.kind
  {
    var address := TableOf(db, one.kind).rows[one.id].address;
    assert cfg.parse(address) == Some(Recipient(one.kind, address))
      && cfg.parse(address) == Some(Recipient(two.kind, address));
  }

  /** Two answers to one question are read from one row. */
  lemma AnswersShareRow(cfg: Config, db: Db, one: Answer, two: Answer)
    requires DbOk(cfg, db) && AnswerOk(cfg, db, one) && AnswerOk(cfg, db, two) && SameQuestion(one, two)
    ensures one.key == two.key
  {
    var a, b := TableOf(db, one.key.kind).rows[one.key.id], TableOf(db, two.key.kind).rows[two.key.id];
    ResolvesUnique(cfg, db.names, one.address, a.address, b.address);
    RecipientsDisjoint(cfg, db, one.key, two.key);
    assert HashesUnique(TableOf(db, one.key.kind));
  }

  lemma RespondKeepsAnswers(cfg: Config, s: State, answer: Answer)
    requires DbOk(cfg, s.db) && AnswersOk(cfg, s) && EffectOk(cfg, s, Respond(answer))
    ensures AnswersOk(cfg, Apply(s, Respond(answer)))
  {
    var answers := s.answers + [answer];
    forall k, l | 0 <= k < l < |answers| && answers[k].settled && SameQuestion(answers[k], answers[l])
      ensures Repeats(answers[l], answers[k])
    {
      if l == |s.answers| {
        assert AnswerOk(cfg, s.db, s.answers[k]);
        AnswersShareRow(cfg, s.db, s.answers[k], answer);
      }
    }
  }
}

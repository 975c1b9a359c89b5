/**
 The tables and the guarded statements that change them.

 Rows are values, as in the source: a loaded row is a clone that may be stale by the time a
 statement keyed by its id runs. The statements are functions on tables; `Database` is the
 mutable object whose methods run them.
 */
module Ledger {
  import opened Wrappers

  /** Microseconds since the epoch. */
  type Time = int

  const MICROS: Time := 1_000_000
  const HOUR: Time := 3_600 * MICROS

  type Id = nat

  datatype InvoiceState = Pending | Settled | Cancelled

  /** A parsed BOLT11 invoice; `expiry` is the last instant at which it can be paid. */
  datatype Bolt11 = Bolt11(encoded: string, paymentHash: string, expiry: Time)

  datatype Backend = Bark | Arkade(swapId: string)

  /** A row of `invoice` or of `arkade_invoice`; the two differ by the swap id only. */
  datatype Invoice = Invoice(
    id: Id,
    backend: Backend,
    address: string,
    bolt11: Bolt11,
    amountMsats: nat,
    paymentHash: Option<string>,
    preimage: string,
    state: InvoiceState,
    expiresAt: Option<Time>,
    settledAt: Option<Time>)

  /** A row of `custom_address_invoice`. */
  datatype CustomInvoice = CustomInvoice(
    id: Id,
    name: string,
    arkAddress: string,
    authMessage: string,
    signature: string,
    feeReceiveAddress: string,
    bolt11: Bolt11,
    amountMsats: nat,
    paymentHash: Option<string>,
    preimage: string,
    arkPaymentReference: Option<string>,
    state: InvoiceState,
    expiresAt: Time,
    settledAt: Option<Time>)

  /** A row of `custom_addresses`. */
  datatype CustomAddress = CustomAddress(name: string, arkAddress: string)

  /** A row of `zaps` or `arkade_zaps`, keyed by the id of its invoice. */
  datatype Zap = Zap(id: Id, request: string, eventId: Option<string>)

  /** A table with a serial primary key. */
  datatype Table<R> = Table(rows: map<Id, R>, next: Id)

  /** The reservations and the registry, which one transaction changes together. */
  datatype Registry = Registry(invoices: Table<CustomInvoice>, addresses: Table<CustomAddress>)

  // ---------- Reading rows ----------

  function PaymentHashOf(invoice: Invoice): string {
    if invoice.paymentHash.Some? then invoice.paymentHash.value else invoice.bolt11.paymentHash
  }

  function CustomPaymentHashOf(invoice: CustomInvoice): string {
    if invoice.paymentHash.Some? then invoice.paymentHash.value else invoice.bolt11.paymentHash
  }

  predicate HasExpired(invoice: Invoice, now: Time) {
    (invoice.expiresAt.Some? && invoice.expiresAt.value <= now) || invoice.bolt11.expiry < now
  }

  predicate CustomHasExpired(invoice: CustomInvoice, now: Time) {
    invoice.expiresAt <= now || invoice.bolt11.expiry < now
  }

  function FeeSats(invoice: CustomInvoice): nat { invoice.amountMsats / 1_000 }

  predicate NameTaken(addresses: Table<CustomAddress>, name: string) {
    exists id :: id in addresses.rows && addresses.rows[id].name == name
  }

  predicate NameReserved(invoices: Table<CustomInvoice>, name: string) {
    exists id :: id in invoices.rows && invoices.rows[id].name == name && invoices.rows[id].state.Pending?
  }

  predicate IsPending(t: Table<Invoice>, id: Id) {
    id in t.rows && t.rows[id].state.Pending?
  }

  predicate CustomIsPending(t: Table<CustomInvoice>, id: Id) {
    id in t.rows && t.rows[id].state.Pending?
  }

  // ---------- Single statements ----------

  /** `UPDATE .. SET state = Settled WHERE id = .. AND state = Pending`. */
  function SettleInvoice(t: Table<Invoice>, id: Id, preimage: string, now: Time): (Table<Invoice>, bool) {
    if id in t.rows && t.rows[id].state.Pending? then
      (t.(rows := t.rows[id := t.rows[id].(state := Settled, preimage := preimage, settledAt := Some(now))]), true)
    else (t, false)
  }

  function CancelInvoice(t: Table<Invoice>, id: Id): (Table<Invoice>, bool) {
    if id in t.rows && t.rows[id].state.Pending? then (t.(rows := t.rows[id := t.rows[id].(state := Cancelled)]), true)
    else (t, false)
  }

  /** How a name was paid for: exactly one of the two columns is written. */
  datatype Payment = Lightning(preimage: string) | ArkTransfer(reference: string)

  function SettledCustom(invoice: CustomInvoice, payment: Payment, now: Time): CustomInvoice {
    invoice.(state := Settled,
             preimage := if payment.Lightning? then payment.preimage else "",
             arkPaymentReference := if payment.ArkTransfer? then Some(payment.reference) else None,
             settledAt := Some(now))
  }

  function SettleCustom(t: Table<CustomInvoice>, id: Id, payment: Payment, now: Time): (Table<CustomInvoice>, bool) {
    if id in t.rows && t.rows[id].state.Pending? then
      (t.(rows := t.rows[id := SettledCustom(t.rows[id], payment, now)]), true)
    else (t, false)
  }

  function CancelCustom(t: Table<CustomInvoice>, id: Id): (Table<CustomInvoice>, bool) {
    if id in t.rows && t.rows[id].state.Pending? then (t.(rows := t.rows[id := t.rows[id].(state := Cancelled)]), true)
    else (t, false)
  }

  function InsertAddress(t: Table<CustomAddress>, name: string, arkAddress: string): Table<CustomAddress> {
    Table(t.rows[t.next := CustomAddress(name, arkAddress)], t.next + 1)
  }

  /** `mark_settled_and_activate`, run with nobody else in between. */
  function SettleAndActivate(r: Registry, invoice: CustomInvoice, payment: Payment, now: Time): (Registry, bool) {
    if NameTaken(r.addresses, invoice.name) then (r.(invoices := CancelCustom(r.invoices, invoice.id).0), false)
    else
      var (invoices, updated) := SettleCustom(r.invoices, invoice.id, payment, now);
      if updated then (Registry(invoices, InsertAddress(r.addresses, invoice.name, invoice.arkAddress)), true)
        else (r, false)
  }

  /**
   A false answer of `mark_settled_and_activate` does not mean that nothing changed: it has cancelled the reservation
   exactly when the name was taken and the reservation still pending. A true one has settled it and added its name.
   */
  lemma ActivationAnswer(r: Registry, invoice: CustomInvoice, payment: Payment, now: Time)
    ensures var (after, activated) := SettleAndActivate(r, invoice, payment, now);
      && (activated <==> !NameTaken(r.addresses, invoice.name) && CustomIsPending(r.invoices, invoice.id))
      && (activated ==> NameTaken(after.addresses, invoice.name) && after.invoices.rows[invoice.id].state.Settled?)
      && (!activated ==> after.addresses == r.addresses)
      && (!activated ==>
            (after != r <==> NameTaken(r.addresses, invoice.name) && CustomIsPending(r.invoices, invoice.id)))
      && (!activated && after != r ==> after.invoices.rows[invoice.id].state.Cancelled?)
  {
    var (after, activated) := SettleAndActivate(r, invoice, payment, now);
    if activated {
      assert after.addresses.rows[r.addresses.next].name == invoice.name;
    } else if CustomIsPending(r.invoices, invoice.id) {
      assert after.invoices.rows[invoice.id] != r.invoices.rows[invoice.id];
    }
  }

  // ---------- How tables follow one another ----------

  /** The same row, up to the columns that settlement and cancellation write. */
  predicate SameInvoice(before: Invoice, after: Invoice) {
    after == before.(state := after.state, preimage := after.preimage, settledAt := after.settledAt)
  }

  predicate SameCustom(before: CustomInvoice, after: CustomInvoice) {
    after == before.(state := after.state, preimage := after.preimage,
                     arkPaymentReference := after.arkPaymentReference, settledAt := after.settledAt)
  }

  /** Rows are never deleted, and one that is no longer pending never changes again. */
  ghost predicate TableEvolves(t: Table<Invoice>, t': Table<Invoice>) {
    forall id :: id in t.rows ==>
      id in t'.rows && SameInvoice(t.rows[id], t'.rows[id])
        && (!t.rows[id].state.Pending? ==> t'.rows[id] == t.rows[id])
  }

  ghost predicate CustomEvolves(t: Table<CustomInvoice>, t': Table<CustomInvoice>) {
    forall id :: id in t.rows ==>
      id in t'.rows && SameCustom(t.rows[id], t'.rows[id]) && (!t.rows[id].state.Pending? ==> t'.rows[id] == t.rows[id])
  }

  ghost predicate AddressesEvolve(t: Table<CustomAddress>, t': Table<CustomAddress>) {
    forall id :: id in t.rows ==> id in t'.rows && t'.rows[id] == t.rows[id]
  }

  /** A zap keeps its request, and an event id once written is only ever written again with the same value. */
  ghost predicate ZapsEvolve(z: map<Id, Zap>, z': map<Id, Zap>) {
    forall id :: id in z ==> id in z' && z'[id].request == z[id].request && (z[id].eventId.Some? ==> z'[id] == z[id])
  }

  // ---------- Loading a pass ----------

  /** Rows in the given state, in ascending id order. */
  function InState(t: Table<Invoice>, state: InvoiceState, upTo: Id): seq<Invoice> {
    if upTo == 0 then []
    else
      var below := InState(t, state, upTo - 1);
      if upTo - 1 in t.rows && t.rows[upTo - 1].state == state then below + [t.rows[upTo - 1]] else below
  }

  function CustomInState(t: Table<CustomInvoice>, state: InvoiceState, upTo: Id): seq<CustomInvoice> {
    if upTo == 0 then []
    else
      var below := CustomInState(t, state, upTo - 1);
      if upTo - 1 in t.rows && t.rows[upTo - 1].state == state then below + [t.rows[upTo - 1]] else below
  }

  /** Serial keys: every row is stored under its own id, below the next one. */
  ghost predicate Keyed(t: Table<Invoice>) {
    forall id :: id in t.rows ==> id < t.next && t.rows[id].id == id
  }

  ghost predicate CustomKeyed(t: Table<CustomInvoice>) {
    forall id :: id in t.rows ==> id < t.next && t.rows[id].id == id
  }

  ghost predicate AddressKeyed(t: Table<CustomAddress>) {
    forall id :: id in t.rows ==> id < t.next
  }

  /** At most one pending reservation a name, which the partial unique index keeps. */
  ghost predicate OnePendingPerName(t: Table<CustomInvoice>) {
    forall i, j :: i in t.rows && j in t.rows && i != j && t.rows[i].state.Pending? && t.rows[j].state.Pending? ==>
      t.rows[i].name != t.rows[j].name
  }

  /** The rows are clones of distinct pending rows of the table. */
  ghost predicate Loaded(t: Table<Invoice>, rows: seq<Invoice>) {
    && (forall i :: 0 <= i < |rows| ==> rows[i].id in t.rows && t.rows[rows[i].id] == rows[i] && rows[i].state.Pending?)
    && (forall i, j :: 0 <= i < j < |rows| ==> rows[i].id != rows[j].id)
  }

  ghost predicate CustomLoaded(t: Table<CustomInvoice>, rows: seq<CustomInvoice>) {
    && (forall i :: 0 <= i < |rows| ==> rows[i].id in t.rows && t.rows[rows[i].id] == rows[i] && rows[i].state.Pending?)
    && (forall i, j :: 0 <= i < j < |rows| ==> rows[i].id != rows[j].id)
  }

  /** The rows in this state with ids below `upTo`, all of them, in ascending order. */
  ghost predicate AscendingIn(t: Table<Invoice>, state: InvoiceState, upTo: Id, rows: seq<Invoice>) {
    && (forall i :: 0 <= i < |rows| ==>
          rows[i].id < upTo && rows[i].id in t.rows && t.rows[rows[i].id] == rows[i] && rows[i].state == state)
    && (forall i, j :: 0 <= i < j < |rows| ==> rows[i].id < rows[j].id)
    && (forall id :: id in t.rows && id < upTo && t.rows[id].state == state ==> t.rows[id] in rows)
  }

  ghost predicate CustomAscendingIn(t: Table<CustomInvoice>, state: InvoiceState, upTo: Id, rows: seq<CustomInvoice>) {
    && (forall i :: 0 <= i < |rows| ==>
          rows[i].id < upTo && rows[i].id in t.rows && t.rows[rows[i].id] == rows[i] && rows[i].state == state)
    && (forall i, j :: 0 <= i < j < |rows| ==> rows[i].id < rows[j].id)
    && (forall id :: id in t.rows && id < upTo && t.rows[id].state == state ==> t.rows[id] in rows)
  }

  /** One more id in ascending order: its row is last if it is in the state, and absent otherwise. */
  lemma AscendingStep(t: Table<Invoice>, state: InvoiceState, upTo: Id, below: seq<Invoice>, rows: seq<Invoice>)
    requires Keyed(t) && AscendingIn(t, state, upTo, below)
    requires rows == if upTo in t.rows && t.rows[upTo].state == state then below + [t.rows[upTo]] else below
    ensures AscendingIn(t, state, upTo + 1, rows)
  {
    if rows != below {
      assert rows[|below|] == t.rows[upTo];
      assert forall row :: row in below ==> row in rows;
    }
  }

  lemma CustomAscendingStep(t: Table<CustomInvoice>, state: InvoiceState, upTo: Id, below: seq<CustomInvoice>,
                            rows: seq<CustomInvoice>)
    requires CustomKeyed(t) && CustomAscendingIn(t, state, upTo, below)
    requires rows == if upTo in t.rows && t.rows[upTo].state == state then below + [t.rows[upTo]] else below
    ensures CustomAscendingIn(t, state, upTo + 1, rows)
  {
    if rows != below {
      assert rows[|below|] == t.rows[upTo];
      assert forall row :: row in below ==> row in rows;
    }
  }

  lemma {:induction false} InStateMeaning(t: Table<Invoice>, state: InvoiceState, upTo: Id)
    requires Keyed(t)
    ensures AscendingIn(t, state, upTo, InState(t, state, upTo))
  {
    if upTo > 0 {
      InStateMeaning(t, state, upTo - 1);
      AscendingStep(t, state, upTo - 1, InState(t, state, upTo - 1), InState(t, state, upTo));
    }
  }

  lemma {:induction false} CustomInStateMeaning(t: Table<CustomInvoice>, state: InvoiceState, upTo: Id)
    requires CustomKeyed(t)
    ensures CustomAscendingIn(t, state, upTo, CustomInState(t, state, upTo))
  {
    if upTo > 0 {
      CustomInStateMeaning(t, state, upTo - 1);
      CustomAscendingStep(t, state, upTo - 1, CustomInState(t, state, upTo - 1), CustomInState(t, state, upTo));
    }
  }

  // ---------- Zaps without a receipt ----------

  /** A zap together with the invoice it belongs to, as the join returns them. */
  datatype Due = Due(zap: Zap, row: Invoice)

  /** The zap's invoice was settled after `since`, and no receipt has been recorded for it. */
  predicate IsDue(zaps: map<Id, Zap>, t: Table<Invoice>, since: Time, id: Id) {
    && id in zaps && id in t.rows
    && t.rows[id].state.Settled? && t.rows[id].settledAt.Some? && t.rows[id].settledAt.value > since
    && zaps[id].eventId.None?
  }

  /** Rows of the join below `upTo`, each at most once, in the order of settlement; ties are in any order. */
  ghost predicate DueRows(zaps: map<Id, Zap>, t: Table<Invoice>, since: Time, upTo: Id, due: seq<Due>) {
    && (forall i :: 0 <= i < |due| ==>
          var id := due[i].row.id;
          id < upTo && IsDue(zaps, t, since, id) && due[i] == Due(zaps[id], t.rows[id]))
    && (forall i, j :: 0 <= i < j < |due| ==> due[i].row.id != due[j].row.id)
    && (forall i, j :: 0 <= i < j < |due| ==> due[i].row.settledAt.value <= due[j].row.settledAt.value)
  }

  /** `set_event_id`, which overwrites whatever is there. */
  function SetEventId(zaps: map<Id, Zap>, id: Id, eventId: string): map<Id, Zap> {
    if id in zaps then zaps[id := zaps[id].(eventId := Some(eventId))] else zaps
  }

  /** `get_unpublished_settled`: all of them. */
  ghost predicate AllDue(zaps: map<Id, Zap>, t: Table<Invoice>, since: Time, due: seq<Due>) {
    DueRows(zaps, t, since, t.next, due) && forall id :: IsDue(zaps, t, since, id) ==> HasRow(due, id)
  }

  ghost predicate HasRow(due: seq<Due>, id: Id) {
    exists i :: 0 <= i < |due| && due[i].row.id == id
  }

  /** `next` goes in behind the rows that were settled no later. */
  ghost predicate InsertedAt(due: seq<Due>, next: Due, k: nat, more: seq<Due>)
    requires next.row.settledAt.Some? && forall i :: 0 <= i < |due| ==> due[i].row.settledAt.Some?
  {
    && k <= |due| && more == due[..k] + [next] + due[k..]
    && (forall i :: 0 <= i < k ==> due[i].row.settledAt.value <= next.row.settledAt.value)
    && (forall i :: k <= i < |due| ==> next.row.settledAt.value < due[i].row.settledAt.value)
  }

  lemma InsertedHasRows(due: seq<Due>, next: Due, k: nat, more: seq<Due>, id: Id)
    requires k <= |due| && more == due[..k] + [next] + due[k..] && (HasRow(due, id) || id == next.row.id)
    ensures HasRow(more, id)
  {
    if id == next.row.id {
      assert more[k].row.id == id;
    } else {
      var i :| 0 <= i < |due| && due[i].row.id == id;
      assert more[if i < k then i else i + 1].row.id == id;
    }
  }

  lemma InsertedElements(due: seq<Due>, next: Due, k: nat, more: seq<Due>)
    requires k <= |due| && more == due[..k] + [next] + due[k..]
    ensures |more| == |due| + 1
    ensures forall i :: 0 <= i < |more| ==> more[i] == if i < k then due[i] else if i == k then next else due[i - 1]
  {
  }

  lemma InsertKeepsOrder(due: seq<Due>, next: Due, k: nat, more: seq<Due>)
    requires next.row.settledAt.Some? && forall i :: 0 <= i < |due| ==> due[i].row.settledAt.Some?
    requires forall i, j :: 0 <= i < j < |due| ==> due[i].row.settledAt.value <= due[j].row.settledAt.value
    requires InsertedAt(due, next, k, more)
    ensures forall i :: 0 <= i < |more| ==> more[i].row.settledAt.Some?
    ensures forall i, j :: 0 <= i < j < |more| ==> more[i].row.settledAt.value <= more[j].row.settledAt.value
  {
    InsertedElements(due, next, k, more);
  }

  lemma InsertKeepsDueRows(zaps: map<Id, Zap>, t: Table<Invoice>, since: Time, id: Id, due: seq<Due>, k: nat,
                           more: seq<Due>)
    requires Keyed(t) && DueRows(zaps, t, since, id, due) && IsDue(zaps, t, since, id)
    requires InsertedAt(due, Due(zaps[id], t.rows[id]), k, more)
    ensures DueRows(zaps, t, since, id + 1, more)
  {
    var next := Due(zaps[id], t.rows[id]);
    InsertKeepsOrder(due, next, k, more);
    InsertedElements(due, next, k, more);
  }

  // ---------- The database object ----------

  class Database {
    var invoices: Table<Invoice>
    var arkadeInvoices: Table<Invoice>
    var customInvoices: Table<CustomInvoice>
    var customAddresses: Table<CustomAddress>
    var zaps: map<Id, Zap>
    var arkadeZaps: map<Id, Zap>

    constructor ()
      ensures invoices == arkadeInvoices == Table(map[], 0)
      ensures Names() == Registry(Table(map[], 0), Table(map[], 0))
      ensures zaps == arkadeZaps == map[]
    {
      invoices, arkadeInvoices := Table(map[], 0), Table(map[], 0);
      zaps, arkadeZaps := map[], map[];
      customInvoices, customAddresses := Table(map[], 0), Table(map[], 0);
    }

    ghost function Names(): Registry
      reads this
    {
      Registry(customInvoices, customAddresses)
    }

    method MarkSettled(invoice: Invoice, preimage: string, now: Time) returns (updated: bool)
      modifies this`invoices
      ensures (invoices, updated) == SettleInvoice(old(invoices), invoice.id, preimage, now)
      ensures updated <==> IsPending(old(invoices), invoice.id)
    {
      updated := invoice.id in invoices.rows && invoices.rows[invoice.id].state.Pending?;
      if updated {
        var row := invoices.rows[invoice.id].(state := Settled, preimage := preimage, settledAt := Some(now));
        invoices := invoices.(rows := invoices.rows[invoice.id := row]);
      }
    }

    method MarkCancelled(invoice: Invoice) returns (updated: bool)
      modifies this`invoices
      ensures (invoices, updated) == CancelInvoice(old(invoices), invoice.id)
      ensures updated <==> IsPending(old(invoices), invoice.id)
    {
      updated := invoice.id in invoices.rows && invoices.rows[invoice.id].state.Pending?;
      if updated {
        var row := invoices.rows[invoice.id].(state := Cancelled);
        invoices := invoices.(rows := invoices.rows[invoice.id := row]);
      }
    }

    method MarkArkadeSettled(invoice: Invoice, preimage: string, now: Time) returns (updated: bool)
      modifies this`arkadeInvoices
      ensures (arkadeInvoices, updated) == SettleInvoice(old(arkadeInvoices), invoice.id, preimage, now)
      ensures updated <==> IsPending(old(arkadeInvoices), invoice.id)
    {
      updated := invoice.id in arkadeInvoices.rows && arkadeInvoices.rows[invoice.id].state.Pending?;
      if updated {
        var row := arkadeInvoices.rows[invoice.id].(state := Settled, preimage := preimage, settledAt := Some(now));
        arkadeInvoices := arkadeInvoices.(rows := arkadeInvoices.rows[invoice.id := row]);
      }
    }

    method MarkArkadeCancelled(invoice: Invoice) returns (updated: bool)
      modifies this`arkadeInvoices
      ensures (arkadeInvoices, updated) == CancelInvoice(old(arkadeInvoices), invoice.id)
      ensures updated <==> IsPending(old(arkadeInvoices), invoice.id)
    {
      updated := invoice.id in arkadeInvoices.rows && arkadeInvoices.rows[invoice.id].state.Pending?;
      if updated {
        var row := arkadeInvoices.rows[invoice.id].(state := Cancelled);
        arkadeInvoices := arkadeInvoices.(rows := arkadeInvoices.rows[invoice.id := row]);
      }
    }

    method MarkCustomCancelled(invoice: CustomInvoice) returns (updated: bool)
      modifies this`customInvoices
      ensures (customInvoices, updated) == CancelCustom(old(customInvoices), invoice.id)
      ensures updated <==> CustomIsPending(old(customInvoices), invoice.id)
    {
      updated := invoice.id in customInvoices.rows && customInvoices.rows[invoice.id].state.Pending?;
      if updated {
        var row := customInvoices.rows[invoice.id].(state := Cancelled);
        customInvoices := customInvoices.(rows := customInvoices.rows[invoice.id := row]);
      }
    }

    /** The transaction; `now` is its start, which is what `NOW()` reads inside it. */
    method MarkSettledAndActivate(invoice: CustomInvoice, payment: Payment, now: Time) returns (activated: bool)
      modifies this`customInvoices, this`customAddresses
      ensures (Names(), activated) == SettleAndActivate(old(Names()), invoice, payment, now)
      ensures activated <==>
        !NameTaken(old(customAddresses), invoice.name) && CustomIsPending(old(customInvoices), invoice.id)
    {
      if NameTaken(customAddresses, invoice.name) {
        var _ := MarkCustomCancelled(invoice);
        return false;
      }
      activated := invoice.id in customInvoices.rows && customInvoices.rows[invoice.id].state.Pending?;
      if activated {
        var row := SettledCustom(customInvoices.rows[invoice.id], payment, now);
        customInvoices := customInvoices.(rows := customInvoices.rows[invoice.id := row]);
        var entry := CustomAddress(invoice.name, invoice.arkAddress);
        customAddresses := Table(customAddresses.rows[customAddresses.next := entry], customAddresses.next + 1);
      }
    }

    method GetByState(state: InvoiceState) returns (rows: seq<Invoice>)
      ensures rows == InState(invoices, state, invoices.next)
    {
      rows := LoadInState(invoices, state);
    }

    method GetArkadeByState(state: InvoiceState) returns (rows: seq<Invoice>)
      ensures rows == InState(arkadeInvoices, state, arkadeInvoices.next)
    {
      rows := LoadInState(arkadeInvoices, state);
    }

    static method LoadInState(t: Table<Invoice>, state: InvoiceState) returns (rows: seq<Invoice>)
      ensures rows == InState(t, state, t.next)
    {
      rows := [];
      for id := 0 to t.next
        invariant rows == InState(t, state, id)
      {
        if id in t.rows && t.rows[id].state == state {
          rows := rows + [t.rows[id]];
        }
      }
    }

    method GetCustomByState(state: InvoiceState) returns (rows: seq<CustomInvoice>)
      ensures rows == CustomInState(customInvoices, state, customInvoices.next)
    {
      rows := [];
      for id := 0 to customInvoices.next
        invariant rows == CustomInState(customInvoices, state, id)
      {
        if id in customInvoices.rows && customInvoices.rows[id].state == state {
          rows := rows + [customInvoices.rows[id]];
        }
      }
    }

    method SetZapEventId(zap: Zap, eventId: string)
      modifies this`zaps
      ensures zaps == SetEventId(old(zaps), zap.id, eventId)
    {
      if zap.id in zaps {
        zaps := zaps[zap.id := zaps[zap.id].(eventId := Some(eventId))];
      }
    }

    method SetArkadeZapEventId(zap: Zap, eventId: string)
      modifies this`arkadeZaps
      ensures arkadeZaps == SetEventId(old(arkadeZaps), zap.id, eventId)
    {
      if zap.id in arkadeZaps {
        arkadeZaps := arkadeZaps[zap.id := arkadeZaps[zap.id].(eventId := Some(eventId))];
      }
    }

    method GetUnpublishedSettled(since: Time) returns (due: seq<Due>)
      requires Keyed(invoices)
      ensures AllDue(zaps, invoices, since, due)
    {
      due := LoadDue(zaps, invoices, since);
    }

    method GetArkadeUnpublishedSettled(since: Time) returns (due: seq<Due>)
      requires Keyed(arkadeInvoices)
      ensures AllDue(arkadeZaps, arkadeInvoices, since, due)
    {
      due := LoadDue(arkadeZaps, arkadeInvoices, since);
    }

    /** Inserts after every row that was settled no later. */
    static method InsertDue(due: seq<Due>, next: Due) returns (more: seq<Due>, ghost k: nat)
      requires next.row.settledAt.Some? && forall i :: 0 <= i < |due| ==> due[i].row.settledAt.Some?
      requires forall i, j :: 0 <= i < j < |due| ==> due[i].row.settledAt.value <= due[j].row.settledAt.value
      ensures InsertedAt(due, next, k, more)
    {
      var at := |due|;
      while at > 0 && next.row.settledAt.value < due[at - 1].row.settledAt.value
        invariant 0 <= at <= |due|
        invariant forall i :: at <= i < |due| ==> next.row.settledAt.value < due[i].row.settledAt.value
      {
        at := at - 1;
      }
      more, k := due[..at] + [next] + due[at..], at;
    }

    static method LoadDue(zaps: map<Id, Zap>, t: Table<Invoice>, since: Time) returns (due: seq<Due>)
      requires Keyed(t)
      ensures AllDue(zaps, t, since, due)
    {
      due := [];
      for id := 0 to t.next
        invariant DueRows(zaps, t, since, id, due)
        invariant forall earlier: Id :: earlier < id && IsDue(zaps, t, since, earlier) ==> HasRow(due, earlier)
      {
        if IsDue(zaps, t, since, id) {
          var next := Due(zaps[id], t.rows[id]);
          var more, k := InsertDue(due, next);
          InsertKeepsDueRows(zaps, t, since, id, due, k, more);
          forall earlier: Id | HasRow(due, earlier) || earlier == id ensures HasRow(more, earlier) {
            InsertedHasRows(due, next, k, more, earlier);
          }
          due := more;
        }
      }
    }
  }
}

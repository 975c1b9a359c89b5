/** What a whole pass leaves behind, row by row. */
module PassOutcomes {
  import opened Wrappers
  import opened Barkd
  import opened Ledger
  import opened Poller

  // ---------- What an iteration may rely on, in columns and in barkd's own words ----------

  /** The stored expiry has come, or the last instant at which the invoice can be paid is over. */
  predicate Lapsed(expiresAt: Option<Time>, bolt11: Bolt11, now: Time) {
    (expiresAt.Some? && expiresAt.value <= now) || bolt11.expiry < now
  }

  /** The hash that barkd is asked for: the stored one, or that of an old row's invoice text. */
  function HashOf(paymentHash: Option<string>, bolt11: Bolt11): string {
    if paymentHash.Some? then paymentHash.value else bolt11.paymentHash
  }

  /** The preimage, in the phases in which it is out. */
  function PreimageSeen(seen: Result<Option<Receive>, Failure>): Option<string> {
    if seen.Ok? && seen.value.Some? && seen.value.value.phase in {"preimage-revealed", "delivering", "settled"}
    then seen.value.value.preimage else None
  }

  /** barkd has no receive for the hash, or one still waiting for its payment. */
  predicate UnpaidSeen(seen: Result<Option<Receive>, Failure>) {
    seen.Ok? && (seen.value.None? || seen.value.value.phase == "awaiting-payment")
  }

  // ---------- A Bark pass ----------

  /** What an iteration learns about its receive: the listed entry, or the answer for its hash. */
  function Observed(invoice: Invoice, turn: Turn, listing: Listing): Result<Option<Receive>, Failure> {
    var hash := HashOf(invoice.paymentHash, invoice.bolt11);
    if listing.Some? && hash in listing.value then Ok(Some(listing.value[hash])) else turn.status
  }

  /** The row that one loaded invoice turns into, from its own observation only. */
  function Concluded(invoice: Invoice, turn: Turn, seen: Result<Option<Receive>, Failure>): Invoice {
    if !turn.connected then invoice
    else if PreimageSeen(seen).Some? then
      invoice.(state := Settled, preimage := PreimageSeen(seen).value, settledAt := Some(turn.dbNow))
    else if UnpaidSeen(seen) && Lapsed(invoice.expiresAt, invoice.bolt11, turn.now) then invoice.(state := Cancelled)
    else invoice
  }

  function BarkOutcome(invoice: Invoice, turn: Turn, listing: Listing): Invoice {
    Concluded(invoice, turn, Observed(invoice, turn, listing))
  }

  ghost predicate BarkPassLeaves(t: Table<Invoice>, rows: seq<Invoice>, turns: Id -> Turn, listing: Listing,
                                 after: Table<Invoice>) {
    && after.rows.Keys == t.rows.Keys && after.next == t.next
    && (forall invoice :: invoice in rows ==>
          invoice.id in after.rows && after.rows[invoice.id] == BarkOutcome(invoice, turns(invoice.id), listing))
    && (forall id :: id in t.rows && (forall invoice :: invoice in rows ==> invoice.id != id) ==>
          after.rows[id] == t.rows[id])
  }

  lemma ClaimListedConcludes(t: Table<Invoice>, invoice: Invoice, turn: Turn, listing: Listing)
    requires invoice.id in t.rows && t.rows[invoice.id] == invoice && invoice.state.Pending?
    ensures var claimed := ClaimListed(t, invoice, turn, listing);
      && claimed.table == t.(rows := t.rows[invoice.id := BarkOutcome(invoice, turn, listing)])
      && (claimed.notified > 0 <==> BarkOutcome(invoice, turn, listing).state.Settled?)
  {
    assert t.rows == t.rows[invoice.id := invoice];
  }

  lemma LoadedSplit(t: Table<Invoice>, rows: seq<Invoice>)
    requires Loaded(t, rows) && rows != []
    ensures var init, last := rows[..|rows| - 1], rows[|rows| - 1];
      && rows == init + [last] && Loaded(t, init)
      && last.id in t.rows && t.rows[last.id] == last && last.state.Pending?
      && (forall invoice :: invoice in init ==> invoice.id != last.id)
      && (forall invoice :: invoice in rows <==> invoice in init || invoice == last)
  {
    assert rows == rows[..|rows| - 1] + [rows[|rows| - 1]];
  }

  /** Completeness and error isolation: each loaded row is concluded whatever happens to the others. */
  lemma {:induction false} BarkPassConcludes(t: Table<Invoice>, rows: seq<Invoice>, turns: Id -> Turn, listing: Listing)
    requires Loaded(t, rows)
    ensures BarkPassLeaves(t, rows, turns, listing, BarkPass(t, rows, turns, listing).0)
    ensures BarkPass(t, rows, turns, listing).1 > 0
      <==> exists invoice :: invoice in rows && BarkOutcome(invoice, turns(invoice.id), listing).state.Settled?
    decreases |rows|
  {
    if rows != [] {
      var init, last := rows[..|rows| - 1], rows[|rows| - 1];
      LoadedSplit(t, rows);
      BarkPassConcludes(t, init, turns, listing);
      BarkPassStep(t, rows, turns, listing, BarkPass(t, init, turns, listing).0);
    }
  }

  lemma BarkPassStep(t: Table<Invoice>, rows: seq<Invoice>, turns: Id -> Turn, listing: Listing, before: Table<Invoice>)
    requires Loaded(t, rows) && rows != [] && BarkPassLeaves(t, rows[..|rows| - 1], turns, listing, before)
    ensures var last := rows[|rows| - 1];
      var claimed := ClaimListed(before, last, turns(last.id), listing);
      && BarkPassLeaves(t, rows, turns, listing, claimed.table)
      && (claimed.notified > 0 <==> BarkOutcome(last, turns(last.id), listing).state.Settled?)
  {
    var last := rows[|rows| - 1];
    LoadedSplit(t, rows);
    assert before.rows[last.id] == last;
    ClaimListedConcludes(before, last, turns(last.id), listing);
  }

  function FullBarkPass(t: Table<Invoice>, turns: Id -> Turn, listing: Listing): Table<Invoice> {
    BarkPass(t, InState(t, Pending, t.next), turns, listing).0
  }

  /** A full load is a valid load of every pending row. */
  ghost predicate LoadsPending(t: Table<Invoice>, rows: seq<Invoice>) {
    Loaded(t, rows) && forall id :: id in t.rows && t.rows[id].state.Pending? ==> t.rows[id] in rows
  }

  lemma FullPassLoads(t: Table<Invoice>)
    requires Keyed(t)
    ensures LoadsPending(t, InState(t, Pending, t.next))
  {
    InStateMeaning(t, Pending, t.next);
  }

  /** A row that is still pending after the pass is one on which it would not act. */
  ghost predicate BarkSettledDown(t: Table<Invoice>, turns: Id -> Turn, listing: Listing) {
    forall id :: id in t.rows && t.rows[id].state.Pending? ==> BarkOutcome(t.rows[id], turns(id), listing) == t.rows[id]
  }

  /** A full pass concludes every pending row and leaves the others alone. */
  lemma FullBarkPassRow(t: Table<Invoice>, turns: Id -> Turn, listing: Listing, id: Id)
    requires Keyed(t) && id in t.rows
    ensures var after := FullBarkPass(t, turns, listing);
      && after.rows.Keys == t.rows.Keys && after.next == t.next
      && after.rows[id] == if t.rows[id].state.Pending? then BarkOutcome(t.rows[id], turns(id), listing) else t.rows[id]
  {
    var rows := InState(t, Pending, t.next);
    FullPassLoads(t);
    BarkPassConcludes(t, rows, turns, listing);
    if t.rows[id].state.Pending? {
      assert t.rows[id] in rows;
    } else {
      assert forall invoice :: invoice in rows ==> invoice.id != id;
    }
  }

  lemma FullBarkPassFrame(t: Table<Invoice>, turns: Id -> Turn, listing: Listing)
    requires Keyed(t)
    ensures FullBarkPass(t, turns, listing).rows.Keys == t.rows.Keys && FullBarkPass(t, turns, listing).next == t.next
  {
    FullPassLoads(t);
    BarkPassConcludes(t, InState(t, Pending, t.next), turns, listing);
  }

  lemma BarkPassSettlesDown(t: Table<Invoice>, turns: Id -> Turn, listing: Listing)
    requires Keyed(t)
    ensures Keyed(FullBarkPass(t, turns, listing)) && BarkSettledDown(FullBarkPass(t, turns, listing), turns, listing)
  {
    var after := FullBarkPass(t, turns, listing);
    FullBarkPassFrame(t, turns, listing);
    forall id | id in after.rows
      ensures id < after.next && after.rows[id].id == id
      ensures after.rows[id].state.Pending? ==> BarkOutcome(after.rows[id], turns(id), listing) == after.rows[id]
    {
      FullBarkPassRow(t, turns, listing, id);
    }
  }

  /** With unchanged answers, clock and failures, a second pass changes nothing. */
  lemma BarkPassIdempotent(t: Table<Invoice>, turns: Id -> Turn, listing: Listing)
    requires Keyed(t)
    ensures FullBarkPass(FullBarkPass(t, turns, listing), turns, listing) == FullBarkPass(t, turns, listing)
  {
    var once := FullBarkPass(t, turns, listing);
    BarkPassSettlesDown(t, turns, listing);
    FullBarkPassFrame(once, turns, listing);
    var twice := FullBarkPass(once, turns, listing);
    forall id | id in once.rows ensures twice.rows[id] == once.rows[id] {
      FullBarkPassRow(once, turns, listing, id);
    }
    assert twice.rows == once.rows;
  }

  // ---------- A custom address pass ----------

  /** The payment that a custom claim finds: a revealed preimage first, then the Ark history. */
  function PaymentSeen(invoice: CustomInvoice, turn: CustomTurn): Option<Payment> {
    if PreimageSeen(turn.status).Some? then Some(Lightning(PreimageSeen(turn.status).value))
    else if turn.status.Err? || turn.history.Err? then None
    else match ReceivedArkPayment(turn.history.value, invoice.feeReceiveAddress, invoice.amountMsats / 1_000)
      case Some(payment) => Some(ArkTransfer(payment.reference))
      case None => None
  }

  /** Neither rail shows a payment and the reservation has run out. */
  predicate Releasable(invoice: CustomInvoice, turn: CustomTurn) {
    && UnpaidSeen(turn.status) && turn.history.Ok? && PaymentSeen(invoice, turn).None?
    && Lapsed(Some(invoice.expiresAt), invoice.bolt11, turn.now)
  }

  /** A reservation that was paid: the preimage or the reference of the payment is written, and the other is cleared. */
  function PaidRow(invoice: CustomInvoice, payment: Payment, now: Time): CustomInvoice {
    match payment
    case Lightning(preimage) =>
      invoice.(state := Settled, preimage := preimage, arkPaymentReference := None, settledAt := Some(now))
    case ArkTransfer(reference) =>
      invoice.(state := Settled, preimage := "", arkPaymentReference := Some(reference), settledAt := Some(now))
  }

  /** The row that one loaded reservation turns into, from its own observation and the registry at the start. */
  function CustomOutcome(addresses: Table<CustomAddress>, invoice: CustomInvoice, turn: CustomTurn): CustomInvoice {
    if !turn.connected then invoice
    else if PaymentSeen(invoice, turn).Some? then
      if NameTaken(addresses, invoice.name) then invoice.(state := Cancelled)
      else PaidRow(invoice, PaymentSeen(invoice, turn).value, turn.dbNow)
    else if Releasable(invoice, turn) then invoice.(state := Cancelled)
    else invoice
  }

  ghost function Entries(addresses: Table<CustomAddress>): set<CustomAddress> {
    set id | id in addresses.rows :: addresses.rows[id]
  }

  /** The registry entries that a pass adds. */
  ghost function Activated(addresses: Table<CustomAddress>, rows: seq<CustomInvoice>,
                           turns: Id -> CustomTurn): set<CustomAddress> {
    set invoice | invoice in rows && CustomOutcome(addresses, invoice, turns(invoice.id)).state.Settled?
      :: CustomAddress(invoice.name, invoice.arkAddress)
  }

  ghost predicate NamesDistinct(rows: seq<CustomInvoice>) {
    forall i, j :: 0 <= i < j < |rows| ==> rows[i].name != rows[j].name
  }

  ghost predicate CustomPassLeaves(r: Registry, rows: seq<CustomInvoice>, turns: Id -> CustomTurn, after: Registry) {
    && after.invoices.rows.Keys == r.invoices.rows.Keys && after.invoices.next == r.invoices.next
    && (forall invoice :: invoice in rows ==>
          invoice.id in after.invoices.rows
            && after.invoices.rows[invoice.id] == CustomOutcome(r.addresses, invoice, turns(invoice.id)))
    && (forall id :: id in r.invoices.rows && (forall invoice :: invoice in rows ==> invoice.id != id) ==>
          after.invoices.rows[id] == r.invoices.rows[id])
    && AddressKeyed(after.addresses)
    && Entries(after.addresses) == Entries(r.addresses) + Activated(r.addresses, rows, turns)
  }

  lemma ClaimCustomConcludes(r: Registry, invoice: CustomInvoice, turn: CustomTurn)
    requires invoice.id in r.invoices.rows && r.invoices.rows[invoice.id] == invoice && invoice.state.Pending?
    requires AddressKeyed(r.addresses)
    ensures var after := ClaimCustom(r, invoice, turn).registry;
      && after.invoices.rows == r.invoices.rows[invoice.id := CustomOutcome(r.addresses, invoice, turn)]
      && after.invoices.next == r.invoices.next
      && AddressKeyed(after.addresses)
      && Entries(after.addresses) == Entries(r.addresses) +
           if CustomOutcome(r.addresses, invoice, turn).state.Settled? then
             {CustomAddress(invoice.name, invoice.arkAddress)} else {}
  {
    var after := ClaimCustom(r, invoice, turn).registry;
    assert r.invoices.rows == r.invoices.rows[invoice.id := invoice];
    if CustomOutcome(r.addresses, invoice, turn).state.Settled? {
      var entry := CustomAddress(invoice.name, invoice.arkAddress);
      assert after.addresses == InsertAddress(r.addresses, invoice.name, invoice.arkAddress);
      forall e ensures e in Entries(after.addresses) <==> e in Entries(r.addresses) + {entry} {
        if e in Entries(r.addresses) {
          var id :| id in r.addresses.rows && r.addresses.rows[id] == e;
          assert after.addresses.rows[id] == e;
        }
        if e == entry {
          assert after.addresses.rows[r.addresses.next] == e;
        }
      }
    } else {
      assert after.addresses == r.addresses;
    }
  }

  lemma TakenByEntries(addresses: Table<CustomAddress>, name: string)
    ensures NameTaken(addresses, name) <==> exists e :: e in Entries(addresses) && e.name == name
  {
    if NameTaken(addresses, name) {
      var id :| id in addresses.rows && addresses.rows[id].name == name;
      assert addresses.rows[id] in Entries(addresses);
    }
  }

  lemma CustomLoadedSplit(t: Table<CustomInvoice>, rows: seq<CustomInvoice>)
    requires CustomLoaded(t, rows) && NamesDistinct(rows) && rows != []
    ensures var init, last := rows[..|rows| - 1], rows[|rows| - 1];
      && rows == init + [last] && CustomLoaded(t, init) && NamesDistinct(init)
      && last.id in t.rows && t.rows[last.id] == last && last.state.Pending?
      && (forall invoice :: invoice in init ==> invoice.id != last.id && invoice.name != last.name)
      && (forall invoice :: invoice in rows <==> invoice in init || invoice == last)
  {
    assert rows == rows[..|rows| - 1] + [rows[|rows| - 1]];
  }

  /** Activations of other names do not change whether this name is taken. */
  lemma TakenUnchanged(r: Registry, init: seq<CustomInvoice>, turns: Id -> CustomTurn, before: Registry, name: string)
    requires CustomPassLeaves(r, init, turns, before) && forall invoice :: invoice in init ==> invoice.name != name
    ensures NameTaken(before.addresses, name) == NameTaken(r.addresses, name)
  {
    TakenByEntries(r.addresses, name);
    TakenByEntries(before.addresses, name);
  }

  lemma ActivatedSplit(addresses: Table<CustomAddress>, rows: seq<CustomInvoice>, init: seq<CustomInvoice>,
                       last: CustomInvoice,
                       turns: Id -> CustomTurn)
    requires forall invoice :: invoice in rows <==> invoice in init || invoice == last
    ensures Activated(addresses, rows, turns) == Activated(addresses, init, turns) +
      if CustomOutcome(addresses, last, turns(last.id)).state.Settled? then {CustomAddress(last.name, last.arkAddress)}
        else {}
  {
  }

  /** Completeness and error isolation for reservations. */
  lemma {:induction false} CustomPassConcludes(r: Registry, rows: seq<CustomInvoice>, turns: Id -> CustomTurn)
    requires CustomLoaded(r.invoices, rows) && NamesDistinct(rows) && AddressKeyed(r.addresses)
    ensures CustomPassLeaves(r, rows, turns, CustomPass(r, rows, turns))
    decreases |rows|
  {
    if rows == [] {
      assert Activated(r.addresses, rows, turns) == {};
    } else {
      var init, last := rows[..|rows| - 1], rows[|rows| - 1];
      CustomLoadedSplit(r.invoices, rows);
      CustomPassConcludes(r, init, turns);
      var before := CustomPass(r, init, turns);
      assert before.invoices.rows[last.id] == last;
      ClaimCustomConcludes(before, last, turns(last.id));
      TakenUnchanged(r, init, turns, before, last.name);
      assert CustomOutcome(before.addresses, last, turns(last.id)) == CustomOutcome(r.addresses, last, turns(last.id));
      ActivatedSplit(r.addresses, rows, init, last, turns);
      CustomPassLeavesStep(r, rows, turns, before, CustomPass(r, rows, turns));
    }
  }

  lemma CustomPassLeavesStep(r: Registry, rows: seq<CustomInvoice>, turns: Id -> CustomTurn, before: Registry,
                             after: Registry)
    requires CustomLoaded(r.invoices, rows) && NamesDistinct(rows) && rows != []
    requires CustomPassLeaves(r, rows[..|rows| - 1], turns, before)
    requires var last := rows[|rows| - 1];
      && after.invoices.rows == before.invoices.rows[last.id := CustomOutcome(r.addresses, last, turns(last.id))]
      && after.invoices.next == before.invoices.next
    requires AddressKeyed(after.addresses)
    requires Entries(after.addresses) == Entries(r.addresses) + Activated(r.addresses, rows, turns)
    ensures CustomPassLeaves(r, rows, turns, after)
  {
    CustomLoadedSplit(r.invoices, rows);
  }

  /** Any order of the loaded reservations gives the same rows and, up to serial ids, the same registry. */
  lemma CustomPassOrderIndependent(r: Registry, rows: seq<CustomInvoice>, reordered: seq<CustomInvoice>,
                                   turns: Id -> CustomTurn)
    requires CustomLoaded(r.invoices, rows) && NamesDistinct(rows) && AddressKeyed(r.addresses)
    requires multiset(rows) == multiset(reordered)
    ensures CustomPass(r, rows, turns).invoices == CustomPass(r, reordered, turns).invoices
    ensures Entries(CustomPass(r, rows, turns).addresses) == Entries(CustomPass(r, reordered, turns).addresses)
  {
    SameMembers(rows, reordered);
    ReorderedIsLoaded(r.invoices, rows, reordered);
    CustomPassConcludes(r, rows, turns);
    CustomPassConcludes(r, reordered, turns);
    var one, two := CustomPass(r, rows, turns), CustomPass(r, reordered, turns);
    forall id | id in r.invoices.rows ensures one.invoices.rows[id] == two.invoices.rows[id] {
      if invoice :| invoice in rows && invoice.id == id {
        assert invoice in reordered;
      }
    }
    assert one.invoices.rows == two.invoices.rows;
    assert Activated(r.addresses, rows, turns) == Activated(r.addresses, reordered, turns);
  }

  lemma SameMembers(rows: seq<CustomInvoice>, reordered: seq<CustomInvoice>)
    requires multiset(rows) == multiset(reordered)
    ensures forall invoice :: invoice in rows <==> invoice in reordered
  {
    forall invoice ensures invoice in rows <==> invoice in reordered {
      assert invoice in rows <==> invoice in multiset(rows);
      assert invoice in reordered <==> invoice in multiset(reordered);
    }
  }

  lemma {:induction false} RepeatCounts(rows: seq<CustomInvoice>, i: nat, j: nat)
    requires i < j < |rows| && rows[i] == rows[j]
    ensures multiset(rows)[rows[i]] >= 2
  {
    assert rows == rows[..j] + [rows[j]] + rows[j + 1..];
    assert rows[i] in rows[..j];
    assert multiset(rows) == multiset(rows[..j]) + multiset{rows[j]} + multiset(rows[j + 1..]);
  }

  lemma {:induction false} DistinctCounts(rows: seq<CustomInvoice>, invoice: CustomInvoice)
    requires forall i, j :: 0 <= i < j < |rows| ==> rows[i].id != rows[j].id
    ensures multiset(rows)[invoice] <= 1
    decreases |rows|
  {
    if rows != [] {
      assert rows == [rows[0]] + rows[1..];
      DistinctCounts(rows[1..], invoice);
      assert multiset(rows) == multiset{rows[0]} + multiset(rows[1..]);
      if invoice == rows[0] {
        assert invoice !in rows[1..];
      }
    }
  }

  lemma ReorderedIsLoaded(t: Table<CustomInvoice>, rows: seq<CustomInvoice>, reordered: seq<CustomInvoice>)
    requires CustomLoaded(t, rows) && NamesDistinct(rows) && multiset(rows) == multiset(reordered)
    ensures CustomLoaded(t, reordered) && NamesDistinct(reordered)
  {
    SameMembers(rows, reordered);
    forall i | 0 <= i < |reordered|
      ensures reordered[i].id in t.rows && t.rows[reordered[i].id] == reordered[i] && reordered[i].state.Pending?
    {
      assert reordered[i] in rows;
    }
    forall i, j | 0 <= i < j < |reordered|
      ensures reordered[i].id != reordered[j].id && reordered[i].name != reordered[j].name
    {
      if reordered[i] == reordered[j] {
        RepeatCounts(reordered, i, j);
        DistinctCounts(rows, reordered[i]);
      }
      assert reordered[i] in rows && reordered[j] in rows;
    }
  }

  function FullCustomPass(r: Registry, turns: Id -> CustomTurn): Registry {
    CustomPass(r, CustomInState(r.invoices, Pending, r.invoices.next), turns)
  }

  lemma FullCustomPassLoads(t: Table<CustomInvoice>)
    requires CustomKeyed(t) && OnePendingPerName(t)
    ensures var rows := CustomInState(t, Pending, t.next); CustomLoaded(t, rows) && NamesDistinct(rows)
    ensures forall id :: id in t.rows && t.rows[id].state.Pending? ==> t.rows[id] in CustomInState(t, Pending, t.next)
  {
    CustomInStateMeaning(t, Pending, t.next);
  }

  function OutcomeIfPending(r: Registry, id: Id, turn: CustomTurn): CustomInvoice
    requires id in r.invoices.rows
  {
    var invoice := r.invoices.rows[id];
    if invoice.state.Pending? then CustomOutcome(r.addresses, invoice, turn) else invoice
  }

  lemma FullCustomPassLeaves(r: Registry, turns: Id -> CustomTurn)
    requires CustomKeyed(r.invoices) && OnePendingPerName(r.invoices) && AddressKeyed(r.addresses)
    ensures var after := FullCustomPass(r, turns);
      && CustomPassLeaves(r, CustomInState(r.invoices, Pending, r.invoices.next), turns, after)
      && forall id :: id in r.invoices.rows ==> after.invoices.rows[id] == OutcomeIfPending(r, id, turns(id))
  {
    var rows := CustomInState(r.invoices, Pending, r.invoices.next);
    FullCustomPassLoads(r.invoices);
    CustomPassConcludes(r, rows, turns);
    forall id | id in r.invoices.rows
      ensures FullCustomPass(r, turns).invoices.rows[id] == OutcomeIfPending(r, id, turns(id))
    {
      if r.invoices.rows[id].state.Pending? {
        assert r.invoices.rows[id] in rows;
      } else {
        assert forall invoice :: invoice in rows ==> invoice.id != id;
      }
    }
  }

  /** Reservations that are still pending are those on which no registry would make the pass act. */
  lemma PendingOutcomeStays(addresses: Table<CustomAddress>, later: Table<CustomAddress>, invoice: CustomInvoice,
                            turn: CustomTurn)
    requires invoice.state.Pending? && CustomOutcome(addresses, invoice, turn).state.Pending?
    ensures CustomOutcome(addresses, invoice, turn) == invoice && CustomOutcome(later, invoice, turn) == invoice
  {
  }

  lemma FullCustomPassFrame(r: Registry, turns: Id -> CustomTurn)
    requires CustomKeyed(r.invoices) && OnePendingPerName(r.invoices) && AddressKeyed(r.addresses)
    ensures var after := FullCustomPass(r, turns);
      after.invoices.rows.Keys == r.invoices.rows.Keys && after.invoices.next == r.invoices.next
        && AddressKeyed(after.addresses)
  {
    FullCustomPassLeaves(r, turns);
  }

  lemma FullCustomPassOutcome(r: Registry, turns: Id -> CustomTurn, id: Id)
    requires CustomKeyed(r.invoices) && OnePendingPerName(r.invoices) && AddressKeyed(r.addresses)
      && id in r.invoices.rows
    ensures var once := FullCustomPass(r, turns);
      id in once.invoices.rows && once.invoices.rows[id] == OutcomeIfPending(r, id, turns(id))
  {
    FullCustomPassLeaves(r, turns);
  }

  lemma FullCustomPassRow(r: Registry, turns: Id -> CustomTurn, id: Id)
    requires CustomKeyed(r.invoices) && OnePendingPerName(r.invoices) && AddressKeyed(r.addresses)
      && id in r.invoices.rows
    ensures var once := FullCustomPass(r, turns);
      && id in once.invoices.rows && once.invoices.rows[id].id == id
      && (once.invoices.rows[id].state.Pending? ==>
            && once.invoices.rows[id] == r.invoices.rows[id]
            && CustomOutcome(once.addresses, once.invoices.rows[id], turns(id)) == once.invoices.rows[id])
  {
    var once := FullCustomPass(r, turns);
    FullCustomPassOutcome(r, turns, id);
    if once.invoices.rows[id].state.Pending? {
      PendingOutcomeStays(r.addresses, once.addresses, r.invoices.rows[id], turns(id));
    }
  }

  lemma CustomPassSettlesDown(r: Registry, turns: Id -> CustomTurn)
    requires CustomKeyed(r.invoices) && OnePendingPerName(r.invoices) && AddressKeyed(r.addresses)
    ensures var once := FullCustomPass(r, turns);
      && CustomKeyed(once.invoices) && OnePendingPerName(once.invoices) && AddressKeyed(once.addresses)
      && forall id :: id in once.invoices.rows && once.invoices.rows[id].state.Pending? ==>
           CustomOutcome(once.addresses, once.invoices.rows[id], turns(id)) == once.invoices.rows[id]
  {
    FullCustomPassFrame(r, turns);
    var once := FullCustomPass(r, turns);
    forall id | id in r.invoices.rows
      ensures id in once.invoices.rows && once.invoices.rows[id].id == id
      ensures once.invoices.rows[id].state.Pending? ==>
        && once.invoices.rows[id] == r.invoices.rows[id]
        && CustomOutcome(once.addresses, once.invoices.rows[id], turns(id)) == once.invoices.rows[id]
    {
      FullCustomPassRow(r, turns, id);
    }
  }

  lemma CustomPassIdempotent(r: Registry, turns: Id -> CustomTurn)
    requires CustomKeyed(r.invoices) && OnePendingPerName(r.invoices) && AddressKeyed(r.addresses)
    ensures FullCustomPass(FullCustomPass(r, turns), turns).invoices == FullCustomPass(r, turns).invoices
    ensures Entries(FullCustomPass(FullCustomPass(r, turns), turns).addresses)
      == Entries(FullCustomPass(r, turns).addresses)
  {
    var once := FullCustomPass(r, turns);
    CustomPassSettlesDown(r, turns);
    FullCustomPassLeaves(once, turns);
    assert FullCustomPass(once, turns).invoices.rows == once.invoices.rows;
    var again := CustomInState(once.invoices, Pending, once.invoices.next);
    FullCustomPassLoads(once.invoices);
    assert Activated(once.addresses, again, turns) == {};
  }

  // ---------- An Arkade pass ----------

  /** The iteration needs the database and does not get it. */
  predicate Aborts(invoice: Invoice, turn: ArkadeTurn) {
    !turn.connected && (Lapsed(invoice.expiresAt, invoice.bolt11, turn.now) || turn.claim.Ok?)
  }

  function ArkadeOutcome(invoice: Invoice, turn: ArkadeTurn): Invoice {
    if Lapsed(invoice.expiresAt, invoice.bolt11, turn.now) then invoice.(state := Cancelled)
    else if turn.claim.Ok? then invoice.(state := Settled, preimage := turn.claim.value, settledAt := Some(turn.dbNow))
    else invoice
  }

  /** How far the pass gets: up to the first iteration that aborts. */
  function Reached(rows: seq<Invoice>, turns: Id -> ArkadeTurn): nat {
    if rows == [] then 0
    else if Aborts(rows[0], turns(rows[0].id)) then 0
    else 1 + Reached(rows[1..], turns)
  }

  lemma {:induction false} ReachedMeaning(rows: seq<Invoice>, turns: Id -> ArkadeTurn)
    ensures var k := Reached(rows, turns);
      && k <= |rows|
      && (forall i :: 0 <= i < k ==> !Aborts(rows[i], turns(rows[i].id)))
      && (k < |rows| ==> Aborts(rows[k], turns(rows[k].id)))
  {
    if rows != [] && !Aborts(rows[0], turns(rows[0].id)) {
      ReachedMeaning(rows[1..], turns);
      forall i | 0 <= i < Reached(rows, turns) ensures !Aborts(rows[i], turns(rows[i].id)) {
        if i > 0 {
          assert rows[i] == rows[1..][i - 1];
        }
      }
    }
  }

  /** Exactly the rows in `visited` are concluded. */
  ghost predicate ArkadePassLeaves(t: Table<Invoice>, visited: seq<Invoice>, turns: Id -> ArkadeTurn,
                                   after: Table<Invoice>) {
    && after.rows.Keys == t.rows.Keys
    && (forall invoice :: invoice in visited ==>
          invoice.id in after.rows && after.rows[invoice.id] == ArkadeOutcome(invoice, turns(invoice.id)))
    && (forall id :: id in t.rows && (forall invoice :: invoice in visited ==> invoice.id != id) ==>
          after.rows[id] == t.rows[id])
  }

  lemma ReachedPrefix(rows: seq<Invoice>, turns: Id -> ArkadeTurn)
    requires rows != []
    ensures var init, last := rows[..|rows| - 1], rows[|rows| - 1];
      Reached(rows, turns) ==
        if Reached(init, turns) < |init| || Aborts(last, turns(last.id)) then Reached(init, turns) else |rows|
  {
    var init := rows[..|rows| - 1];
    ReachedMeaning(rows, turns);
    ReachedMeaning(init, turns);
    var k, k' := Reached(rows, turns), Reached(init, turns);
    assert forall i :: 0 <= i < |init| ==> init[i] == rows[i];
    assert k < |init| ==> Aborts(init[k], turns(init[k].id));
    assert k' < |init| ==> Aborts(rows[k'], turns(rows[k'].id));
  }

  /** Arkade errors are not isolated: rows before the first lost connection are concluded, the rest are not visited. */
  lemma {:induction false} ArkadePassConcludes(t: Table<Invoice>, rows: seq<Invoice>, turns: Id -> ArkadeTurn)
    requires Loaded(t, rows)
    ensures Reached(rows, turns) <= |rows|
    ensures ArkadePass(t, rows, turns).ok <==> Reached(rows, turns) == |rows|
    ensures ArkadePassLeaves(t, rows[..Reached(rows, turns)], turns, ArkadePass(t, rows, turns).table)
    decreases |rows|
  {
    ReachedMeaning(rows, turns);
    if rows != [] {
      var init, last := rows[..|rows| - 1], rows[|rows| - 1];
      LoadedSplit(t, rows);
      ArkadePassConcludes(t, init, turns);
      ReachedPrefix(rows, turns);
      var before := ArkadePass(t, init, turns);
      if before.ok {
        assert init[..|init|] == init && rows[..|rows|] == rows;
        ArkadePassStep(t, rows, turns, before.table);
      } else {
        AbortedBefore(rows, turns);
      }
    }
  }

  /** A pass that aborted before the last row has visited the same rows as without it. */
  lemma AbortedBefore(rows: seq<Invoice>, turns: Id -> ArkadeTurn)
    requires rows != [] && Reached(rows[..|rows| - 1], turns) < |rows| - 1
    ensures Reached(rows, turns) == Reached(rows[..|rows| - 1], turns)
    ensures rows[..Reached(rows, turns)] == rows[..|rows| - 1][..Reached(rows, turns)]
  {
    ReachedPrefix(rows, turns);
  }

  lemma ArkadePassStep(t: Table<Invoice>, rows: seq<Invoice>, turns: Id -> ArkadeTurn, before: Table<Invoice>)
    requires Loaded(t, rows) && rows != [] && ArkadePassLeaves(t, rows[..|rows| - 1], turns, before)
    ensures var last := rows[|rows| - 1];
      var claimed := ClaimArkade(before, last, turns(last.id));
      && (claimed.ok <==> !Aborts(last, turns(last.id)))
      && ArkadePassLeaves(t, if claimed.ok then rows else rows[..|rows| - 1], turns, claimed.table)
  {
    var last := rows[|rows| - 1];
    LoadedSplit(t, rows);
    assert before.rows[last.id] == last;
    ClaimArkadeConcludes(before, last, turns(last.id));
  }

  lemma ClaimArkadeConcludes(t: Table<Invoice>, invoice: Invoice, turn: ArkadeTurn)
    requires invoice.id in t.rows && t.rows[invoice.id] == invoice && invoice.state.Pending?
    ensures var claimed := ClaimArkade(t, invoice, turn);
      && (claimed.ok <==> !Aborts(invoice, turn))
      && claimed.table == if claimed.ok then t.(rows := t.rows[invoice.id := ArkadeOutcome(invoice, turn)]) else t
  {
    assert t.rows == t.rows[invoice.id := invoice];
  }

  function FullArkadePass(t: Table<Invoice>, turns: Id -> ArkadeTurn): Claimed {
    ArkadePass(t, InState(t, Pending, t.next), turns)
  }

  lemma {:induction false} ArkadePassKeepsNext(t: Table<Invoice>, rows: seq<Invoice>, turns: Id -> ArkadeTurn)
    ensures ArkadePass(t, rows, turns).table.next == t.next
    decreases |rows|
  {
    if rows != [] {
      ArkadePassKeepsNext(t, rows[..|rows| - 1], turns);
    }
  }

  /** What a full pass leaves behind: rows below the first abort are concluded, and every other row is as before. */
  ghost predicate ConcludedBelow(t: Table<Invoice>, turns: Id -> ArkadeTurn, after: Table<Invoice>, bound: Id) {
    && after.rows.Keys == t.rows.Keys && after.next == t.next && Keyed(after)
    && forall id :: id in t.rows ==> ConcludedIfBelow(t.rows[id], turns(id), after, id, id < bound)
  }

  predicate ConcludedIfBelow(row: Invoice, turn: ArkadeTurn, after: Table<Invoice>, id: Id, below: bool) {
    id in after.rows && after.rows[id].id == row.id &&
    if below && row.state.Pending? then !Aborts(row, turn) && after.rows[id] == ArkadeOutcome(row, turn)
      else after.rows[id] == row
  }

  /** `bound` is the first pending row on which the pass aborts, or the end of the table if there is none. */
  ghost predicate FirstAbort(t: Table<Invoice>, turns: Id -> ArkadeTurn, bound: Id) {
    bound == t.next || (bound in t.rows && t.rows[bound].state.Pending? && Aborts(t.rows[bound], turns(bound)))
  }

  /** In ascending order, the first `k` rows are the pending ones below the next row's id. */
  lemma VisitedBelow(t: Table<Invoice>, rows: seq<Invoice>, k: nat, id: Id)
    requires Keyed(t) && AscendingIn(t, Pending, t.next, rows) && k <= |rows| && id in t.rows
      && t.rows[id].state.Pending?
    ensures t.rows[id] in rows[..k] <==> id < (if k < |rows| then rows[k].id else t.next)
  {
    var i :| 0 <= i < |rows| && rows[i] == t.rows[id];
    if i < k {
      assert rows[..k][i] == t.rows[id];
    }
  }

  lemma VisitedConcludes(t: Table<Invoice>, rows: seq<Invoice>, turns: Id -> ArkadeTurn, id: Id)
    requires Keyed(t) && AscendingIn(t, Pending, t.next, rows) && id in t.rows
    ensures var k := Reached(rows, turns);
      && k <= |rows|
      && var bound := if k < |rows| then rows[k].id else t.next;
         ConcludedIfBelow(t.rows[id], turns(id), ArkadePass(t, rows, turns).table, id, id < bound)
  {
    var k := Reached(rows, turns);
    NoneAborted(rows, turns);
    ArkadePassConcludes(t, rows, turns);
    if t.rows[id].state.Pending? {
      VisitedBelow(t, rows, k, id);
    }
    VisitedArePending(t, rows, k, id);
    LeavesConcluded(t, rows[..k], turns, ArkadePass(t, rows, turns).table, id);
  }

  lemma NoneAborted(rows: seq<Invoice>, turns: Id -> ArkadeTurn)
    ensures Reached(rows, turns) <= |rows|
    ensures forall invoice :: invoice in rows[..Reached(rows, turns)] ==> !Aborts(invoice, turns(invoice.id))
  {
    ReachedMeaning(rows, turns);
  }

  lemma LeavesConcluded(t: Table<Invoice>, visited: seq<Invoice>, turns: Id -> ArkadeTurn, after: Table<Invoice>,
                        id: Id)
    requires Keyed(t) && id in t.rows && ArkadePassLeaves(t, visited, turns, after)
    requires forall invoice :: invoice in visited ==> !Aborts(invoice, turns(invoice.id))
    requires t.rows[id] in visited ==> t.rows[id].state.Pending?
    requires t.rows[id] !in visited ==> forall invoice :: invoice in visited ==> invoice.id != id
    ensures ConcludedIfBelow(t.rows[id], turns(id), after, id, t.rows[id] in visited)
  {
  }

  lemma VisitedArePending(t: Table<Invoice>, rows: seq<Invoice>, k: nat, id: Id)
    requires Keyed(t) && AscendingIn(t, Pending, t.next, rows) && k <= |rows| && id in t.rows
    ensures t.rows[id] in rows[..k] ==> t.rows[id].state.Pending?
    ensures t.rows[id] !in rows[..k] ==> forall invoice :: invoice in rows[..k] ==> invoice.id != id
  {
  }

  lemma AbortBound(t: Table<Invoice>, rows: seq<Invoice>, turns: Id -> ArkadeTurn)
    requires Keyed(t) && AscendingIn(t, Pending, t.next, rows)
    ensures var k := Reached(rows, turns);
      && k <= |rows| && FirstAbort(t, turns, if k < |rows| then rows[k].id else t.next)
      && (k < |rows| ==> rows[k].id < t.next)
      && (ArkadePass(t, rows, turns).ok <==> k == |rows|)
      && ArkadePass(t, rows, turns).table.rows.Keys == t.rows.Keys
  {
    ReachedMeaning(rows, turns);
    ArkadePassConcludes(t, rows, turns);
  }

  lemma FullArkadePassConcludes(t: Table<Invoice>, turns: Id -> ArkadeTurn) returns (bound: Id)
    requires Keyed(t)
    ensures ConcludedBelow(t, turns, FullArkadePass(t, turns).table, bound) && FirstAbort(t, turns, bound)
    ensures FullArkadePass(t, turns).ok <==> bound == t.next
  {
    var rows := InState(t, Pending, t.next);
    InStateMeaning(t, Pending, t.next);
    bound := AscendingPassConcludes(t, rows, turns);
  }

  lemma AscendingPassConcludes(t: Table<Invoice>, rows: seq<Invoice>, turns: Id -> ArkadeTurn) returns (bound: Id)
    requires Keyed(t) && AscendingIn(t, Pending, t.next, rows)
    ensures ConcludedBelow(t, turns, ArkadePass(t, rows, turns).table, bound) && FirstAbort(t, turns, bound)
    ensures ArkadePass(t, rows, turns).ok <==> bound == t.next
  {
    var k, after := Reached(rows, turns), ArkadePass(t, rows, turns).table;
    AbortBound(t, rows, turns);
    ArkadePassKeepsNext(t, rows, turns);
    bound := if k < |rows| then rows[k].id else t.next;
    forall id | id in t.rows ensures ConcludedIfBelow(t.rows[id], turns(id), after, id, id < bound) {
      VisitedConcludes(t, rows, turns, id);
    }
  }

  /** A second full pass with the same answers stops where the first one did, and changes nothing. */
  lemma ArkadePassIdempotent(t: Table<Invoice>, turns: Id -> ArkadeTurn)
    requires Keyed(t)
    ensures var once := FullArkadePass(t, turns);
      FullArkadePass(once.table, turns).table == once.table && FullArkadePass(once.table, turns).ok == once.ok
  {
    var once := FullArkadePass(t, turns);
    var bound := FullArkadePassConcludes(t, turns);
    var again := FullArkadePassConcludes(once.table, turns);
    assert bound == again;
    assert FullArkadePass(once.table, turns).table.rows == once.table.rows;
  }
}

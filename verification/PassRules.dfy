/**
 The rules that a pass and a whole poll follow for every row, in stored columns, clock readings, and what barkd lists,
 answers and has in its history.
 */
module PassRules {
  import opened Wrappers
  import opened Decimals
  import opened Barkd
  import opened Ledger
  import opened Poller
  import opened PassOutcomes

  // ---------- A Bark pass with a list of receives ----------

  /** Entry `k` is the last one for this hash. */
  ghost predicate LastFor(receives: seq<Receive>, k: int, hash: string) {
    && 0 <= k < |receives| && receives[k].paymentHash == hash
    && forall j :: k < j < |receives| ==> receives[j].paymentHash != hash
  }

  /** One more entry is the last one for its own hash, and leaves the last ones of other hashes in place. */
  lemma LastForNext(init: seq<Receive>, last: Receive, hash: string)
    ensures last.paymentHash == hash ==> LastFor(init + [last], |init|, hash)
    ensures last.paymentHash != hash ==> forall k :: LastFor(init + [last], k, hash) <==> LastFor(init, k, hash)
  {
    var receives := init + [last];
    if last.paymentHash != hash {
      forall k ensures LastFor(receives, k, hash) <==> LastFor(init, k, hash) {
        assert forall j :: 0 <= j < |init| ==> receives[j] == init[j];
        assert LastFor(receives, k, hash) ==> forall j :: k < j < |init| ==> receives[j].paymentHash != hash;
      }
    }
  }

  /** The map that the list is collected into: exactly the listed hashes, each with its last entry. */
  lemma {:induction false} ByHashMeaning(receives: seq<Receive>, hash: string)
    ensures hash in ByHash(receives) <==> exists k :: LastFor(receives, k, hash)
    ensures forall k :: LastFor(receives, k, hash) ==> ByHash(receives)[hash] == receives[k]
  {
    if receives != [] {
      var init, last := receives[..|receives| - 1], receives[|receives| - 1];
      assert receives == init + [last];
      ByHashMeaning(init, hash);
      LastForNext(init, last, hash);
    }
  }

  /** What a claim goes by: the last entry of a list that has the row's hash, otherwise the answer for the hash. */
  ghost function Sighting(invoice: Invoice, status: Result<Option<Receive>, Failure>,
                          listed: Result<seq<Receive>, Failure>): Result<Option<Receive>, Failure> {
    var hash := HashOf(invoice.paymentHash, invoice.bolt11);
    if listed.Ok? && exists k :: LastFor(listed.value, k, hash) then
      var k :| LastFor(listed.value, k, hash);
      Ok(Some(listed.value[k]))
    else status
  }

  lemma SightingObserved(invoice: Invoice, turn: Turn, listed: Result<seq<Receive>, Failure>)
    ensures Observed(invoice, turn, ListingOf(listed)) == Sighting(invoice, turn.status, listed)
  {
    if listed.Ok? {
      ByHashMeaning(listed.value, HashOf(invoice.paymentHash, invoice.bolt11));
    }
  }

  /** What one pass leaves of the table: every pending row is concluded from its own sighting, the others stay. */
  ghost predicate AllConcluded(t: Table<Invoice>, turns: Id -> Turn, listed: Result<seq<Receive>, Failure>,
                               after: Table<Invoice>) {
    && after.rows.Keys == t.rows.Keys && after.next == t.next
    && forall id :: id in t.rows ==>
         after.rows[id] == if t.rows[id].state.Pending?
           then Concluded(t.rows[id], turns(id), Sighting(t.rows[id], turns(id).status, listed)) else t.rows[id]
  }

  lemma ListedPassConcludes(t: Table<Invoice>, turns: Id -> Turn, listed: Result<seq<Receive>, Failure>)
    requires Keyed(t)
    ensures AllConcluded(t, turns, listed, FullBarkPass(t, turns, ListingOf(listed)))
  {
    FullBarkPassFrame(t, turns, ListingOf(listed));
    forall id | id in t.rows
      ensures FullBarkPass(t, turns, ListingOf(listed)).rows[id] == if t.rows[id].state.Pending?
        then Concluded(t.rows[id], turns(id), Sighting(t.rows[id], turns(id).status, listed)) else t.rows[id]
    {
      FullBarkPassRow(t, turns, ListingOf(listed), id);
      SightingObserved(t.rows[id], turns(id), listed);
    }
  }

  /**
   The documented rule for one pass, over everything that barkd may list or answer: a pending row ends settled exactly
   if its preimage is out, with that preimage; cancelled exactly if it has expired and barkd shows no receive or one
   still waiting for its payment; and as it was otherwise.
   */
  lemma BarkPassRule(t: Table<Invoice>, turns: Id -> Turn, listed: Result<seq<Receive>, Failure>, id: Id)
    requires Keyed(t) && IsPending(t, id)
    ensures var row, turn, after := t.rows[id], turns(id), FullBarkPass(t, turns, ListingOf(listed)).rows;
      var seen := Sighting(row, turn.status, listed);
      var out := seen.Ok? && seen.value.Some? && seen.value.value.preimage.Some?
                 && seen.value.value.phase in {"preimage-revealed", "delivering", "settled"};
      var unpaid := seen.Ok? && (seen.value.None? || seen.value.value.phase == "awaiting-payment");
      var expired := row.bolt11.expiry < turn.now || (row.expiresAt.Some? && row.expiresAt.value <= turn.now);
      && id in after
      && (after[id].state.Settled? <==> turn.connected && out)
      && (after[id].state.Settled? ==>
            && after[id].preimage == seen.value.value.preimage.value && after[id].settledAt == Some(turn.dbNow)
            && SameInvoice(row, after[id]))
      && (after[id].state.Cancelled? <==> turn.connected && unpaid && expired)
      && (after[id].state.Cancelled? ==> after[id] == row.(state := Cancelled))
      && (after[id].state.Pending? ==> after[id] == row)
  {
    ListedPassConcludes(t, turns, listed);
  }

  /** The receive is in a phase in which its preimage is out, and this is it. */
  ghost predicate Reveals(receive: Receive, preimage: string) {
    receive.phase in {"preimage-revealed", "delivering", "settled"} && receive.preimage == Some(preimage)
  }

  /** A preimage that a pass stores was revealed for the row's own hash, by the list or by the answer for the hash. */
  lemma PassSettlesOwnHash(t: Table<Invoice>, turns: Id -> Turn, listed: Result<seq<Receive>, Failure>, id: Id)
    requires Keyed(t) && IsPending(t, id) && id in FullBarkPass(t, turns, ListingOf(listed)).rows
    requires FullBarkPass(t, turns, ListingOf(listed)).rows[id].state.Settled?
    ensures var row, preimage := t.rows[id], FullBarkPass(t, turns, ListingOf(listed)).rows[id].preimage;
      || (turns(id).status.Ok? && turns(id).status.value.Some? && Reveals(turns(id).status.value.value, preimage))
      || (listed.Ok? && exists receive :: receive in listed.value && Reveals(receive, preimage)
                          && receive.paymentHash == HashOf(row.paymentHash, row.bolt11))
  {
    BarkPassRule(t, turns, listed, id);
  }

  /** barkd is quiescent: what it lists is what it would answer for the hash. */
  ghost predicate ListAgrees(rows: seq<Invoice>, turns: Id -> Turn, listed: Result<seq<Receive>, Failure>) {
    listed.Ok? ==>
      forall i, k :: 0 <= i < |rows| && LastFor(listed.value, k, HashOf(rows[i].paymentHash, rows[i].bolt11)) ==>
        turns(rows[i].id).status == Ok(Some(listed.value[k]))
  }

  lemma AgreedSighting(rows: seq<Invoice>, turns: Id -> Turn, listed: Result<seq<Receive>, Failure>, i: nat)
    requires i < |rows| && ListAgrees(rows, turns, listed)
    ensures Observed(rows[i], turns(rows[i].id), ListingOf(listed)) == turns(rows[i].id).status
  {
    SightingObserved(rows[i], turns(rows[i].id), listed);
  }

  /** The batch path refines the simple one, for hashes in the list, hashes missing from it, and no list at all. */
  lemma {:induction false} BatchRefinesSimple(t: Table<Invoice>, rows: seq<Invoice>, turns: Id -> Turn,
                                              listed: Result<seq<Receive>, Failure>)
    requires ListAgrees(rows, turns, listed)
    ensures BarkPass(t, rows, turns, ListingOf(listed)) == BarkPass(t, rows, turns, None)
    decreases |rows|
  {
    if rows != [] {
      BatchRefinesSimple(t, rows[..|rows| - 1], turns, listed);
      AgreedSighting(rows, turns, listed, |rows| - 1);
    }
  }

  /** A claim reports success exactly if barkd answered, and the database did whenever a row had to be written. */
  lemma BarkClaimReports(t: Table<Invoice>, invoice: Invoice, turn: Turn, listed: Result<seq<Receive>, Failure>)
    ensures var seen := Sighting(invoice, turn.status, listed);
      var writes := PreimageSeen(seen).Some?
        || (UnpaidSeen(seen) && Lapsed(invoice.expiresAt, invoice.bolt11, turn.now));
      ClaimListed(t, invoice, turn, ListingOf(listed)).ok <==> seen.Ok? && (writes ==> turn.connected)
  {
    SightingObserved(invoice, turn, listed);
  }

  /** The same for a reservation, where the history has to be read unless a preimage is out. */
  lemma NameClaimReports(r: Registry, invoice: CustomInvoice, turn: CustomTurn)
    ensures var writes := PaymentSeen(invoice, turn).Some? || Releasable(invoice, turn);
      ClaimCustom(r, invoice, turn).ok <==>
        && turn.status.Ok? && (PreimageSeen(turn.status).Some? || turn.history.Ok?)
        && (writes ==> turn.connected)
  {
  }

  // ---------- A pass over the reservations ----------

  /** Some output in this history pays the whole satoshis of the amount to the fee address, under this reference. */
  ghost predicate ArkPays(history: seq<Movement>, invoice: CustomInvoice, reference: string) {
    exists m: nat, d: nat ::
      && m < |history| && d < |history[m].receivedOn|
      && history[m].receivedOn[d].paymentMethod == Ark(invoice.feeReceiveAddress)
      && (history[m].receivedOn[d].amountSat + 1) * 1_000 > invoice.amountMsats
      && reference == "bark-movement:" + Decimal(history[m].id)
  }

  lemma ArkSearchMeaning(history: seq<Movement>, invoice: CustomInvoice)
    ensures var found := ReceivedArkPayment(history, invoice.feeReceiveAddress, invoice.amountMsats / 1_000);
      && (found.Some? <==> exists reference :: ArkPays(history, invoice, reference))
      && (found.Some? ==> ArkPays(history, invoice, found.value.reference))
  {
    var address, fee := invoice.feeReceiveAddress, invoice.amountMsats / 1_000;
    ReceivedArkPaymentMeaning(history, address, fee);
    if ReceivedArkPayment(history, address, fee).Some? {
      var m: nat, d: nat :| PaysAt(history, m, d, address, fee)
        && MovementReference(history[m].id) == ReceivedArkPayment(history, address, fee).value.reference;
      assert history[m].receivedOn[d].paymentMethod == Ark(invoice.feeReceiveAddress);
      assert ArkPays(history, invoice, MovementReference(history[m].id));
    }
    if reference :| ArkPays(history, invoice, reference) {
      var m: nat, d: nat :|
        && m < |history| && d < |history[m].receivedOn|
        && history[m].receivedOn[d].paymentMethod == Ark(invoice.feeReceiveAddress)
        && (history[m].receivedOn[d].amountSat + 1) * 1_000 > invoice.amountMsats;
      assert PaysAt(history, m, d, address, fee);
    }
  }

  /**
   The documented rule for one pass over the reservations: a revealed preimage or an Ark transfer of the amount
   activates the name, unless it is active already; a reservation that has run out with neither on either rail is
   released; and every other one stays.
   */
  lemma CustomPassRule(r: Registry, turns: Id -> CustomTurn, id: Id)
    requires CustomKeyed(r.invoices) && OnePendingPerName(r.invoices) && AddressKeyed(r.addresses)
      && CustomIsPending(r.invoices, id)
    ensures var row, turn, after := r.invoices.rows[id], turns(id), FullCustomPass(r, turns).invoices.rows;
      var taken := exists a :: a in r.addresses.rows && r.addresses.rows[a].name == row.name;
      var seen := turn.status;
      var out := seen.Ok? && seen.value.Some? && seen.value.value.preimage.Some?
                 && seen.value.value.phase in {"preimage-revealed", "delivering", "settled"};
      var transferred := seen.Ok? && turn.history.Ok?
                         && exists reference :: ArkPays(turn.history.value, row, reference);
      var unpaid := seen.Ok? && (seen.value.None? || seen.value.value.phase == "awaiting-payment");
      var expired := row.bolt11.expiry < turn.now || row.expiresAt <= turn.now;
      && id in after && SameCustom(row, after[id])
      && (after[id].state.Settled? <==> turn.connected && !taken && (out || transferred))
      && (after[id].state.Settled? ==> after[id].settledAt == Some(turn.dbNow))
      && (after[id].state.Settled? && out ==>
            after[id].preimage == seen.value.value.preimage.value && after[id].arkPaymentReference.None?)
      && (after[id].state.Settled? && !out ==>
            && after[id].preimage == "" && after[id].arkPaymentReference.Some?
            && ArkPays(turn.history.value, row, after[id].arkPaymentReference.value))
      && (after[id].state.Cancelled? <==>
            && turn.connected
            && if out || transferred then taken else unpaid && turn.history.Ok? && expired)
      && (after[id].state.Pending? ==> after[id] == row)
  {
    FullCustomPassOutcome(r, turns, id);
    if turns(id).history.Ok? {
      ArkSearchMeaning(turns(id).history.value, r.invoices.rows[id]);
    }
  }

  // ---------- A whole poll ----------

  /** Both registries hold the same names for the same addresses; only serial ids may differ. */
  ghost predicate SameRows(left: Rows, right: Rows) {
    && left.invoices == right.invoices && left.arkade == right.arkade && left.names.invoices == right.names.invoices
    && Entries(left.names.addresses) == Entries(right.names.addresses)
  }

  ghost predicate RowsKeyed(rows: Rows) {
    && Keyed(rows.invoices) && Keyed(rows.arkade)
    && CustomKeyed(rows.names.invoices) && OnePendingPerName(rows.names.invoices) && AddressKeyed(rows.names.addresses)
  }

  /** Every pending reservation is concluded, and the registry gains the names of those that settle. */
  ghost predicate NamesConcluded(r: Registry, turns: Id -> CustomTurn, after: Registry) {
    && after.invoices.rows.Keys == r.invoices.rows.Keys && after.invoices.next == r.invoices.next
    && (forall id :: id in r.invoices.rows ==> after.invoices.rows[id] == OutcomeIfPending(r, id, turns(id)))
    && forall entry :: entry in Entries(after.addresses) <==> entry in Entries(r.addresses) || exists id ::
         && CustomIsPending(r.invoices, id) && after.invoices.rows[id].state.Settled?
         && entry == CustomAddress(r.invoices.rows[id].name, r.invoices.rows[id].arkAddress)
  }

  lemma FullCustomPassConcludes(r: Registry, turns: Id -> CustomTurn)
    requires CustomKeyed(r.invoices) && OnePendingPerName(r.invoices) && AddressKeyed(r.addresses)
    ensures NamesConcluded(r, turns, FullCustomPass(r, turns))
  {
    var rows, after := CustomInState(r.invoices, Pending, r.invoices.next), FullCustomPass(r, turns);
    FullCustomPassLoads(r.invoices);
    FullCustomPassLeaves(r, turns);
    forall entry ensures entry in Activated(r.addresses, rows, turns) <==> exists id ::
      && CustomIsPending(r.invoices, id) && after.invoices.rows[id].state.Settled?
      && entry == CustomAddress(r.invoices.rows[id].name, r.invoices.rows[id].arkAddress)
    {
      ActivatedMeaning(r, turns, entry);
    }
  }

  lemma ActivatedMeaning(r: Registry, turns: Id -> CustomTurn, entry: CustomAddress)
    requires CustomKeyed(r.invoices) && OnePendingPerName(r.invoices) && AddressKeyed(r.addresses)
    ensures entry in Activated(r.addresses, CustomInState(r.invoices, Pending, r.invoices.next), turns) <==>
      exists id ::
      && CustomIsPending(r.invoices, id) && CustomOutcome(r.addresses, r.invoices.rows[id], turns(id)).state.Settled?
      && entry == CustomAddress(r.invoices.rows[id].name, r.invoices.rows[id].arkAddress)
  {
    var rows := CustomInState(r.invoices, Pending, r.invoices.next);
    FullCustomPassLoads(r.invoices);
    if entry in Activated(r.addresses, rows, turns) {
      var invoice :| invoice in rows && CustomOutcome(r.addresses, invoice, turns(invoice.id)).state.Settled?
        && entry == CustomAddress(invoice.name, invoice.arkAddress);
      assert CustomIsPending(r.invoices, invoice.id) && r.invoices.rows[invoice.id] == invoice;
    }
    if id :|
      && CustomIsPending(r.invoices, id) && CustomOutcome(r.addresses, r.invoices.rows[id], turns(id)).state.Settled?
      && entry == CustomAddress(r.invoices.rows[id].name, r.invoices.rows[id].arkAddress)
    {
      assert r.invoices.rows[id] in rows;
    }
  }

  /** Some pending row of the one table is settled in the other. */
  ghost predicate SomeSettle(t: Table<Invoice>, after: Table<Invoice>) {
    exists id :: IsPending(t, id) && id in after.rows && after.rows[id].state.Settled?
  }

  lemma FullBarkPassNotifies(t: Table<Invoice>, turns: Id -> Turn, listing: Listing)
    requires Keyed(t)
    ensures var (after, notified) := BarkPass(t, InState(t, Pending, t.next), turns, listing);
      notified > 0 <==> SomeSettle(t, after)
  {
    var rows := InState(t, Pending, t.next);
    FullPassLoads(t);
    BarkPassConcludes(t, rows, turns, listing);
    if invoice :| invoice in rows && BarkOutcome(invoice, turns(invoice.id), listing).state.Settled? {
      assert IsPending(t, invoice.id);
    }
    if id :| IsPending(t, id) && BarkPass(t, rows, turns, listing).0.rows[id].state.Settled? {
      assert t.rows[id] in rows;
    }
  }

  /** One more row of an Arkade pass that has not stopped. */
  lemma ArkadeNotifiesNext(t: Table<Invoice>, before: Table<Invoice>, invoice: Invoice, turn: ArkadeTurn)
    requires IsPending(t, invoice.id) && invoice.id in before.rows && before.rows[invoice.id] == invoice
      && invoice.state.Pending? && before.rows.Keys == t.rows.Keys
    ensures var claimed := ClaimArkade(before, invoice, turn);
      && (claimed.notified > 0 || SomeSettle(t, before) <==> SomeSettle(t, claimed.table))
      && (claimed.notified > 0 ==> claimed.ok)
  {
    var claimed := ClaimArkade(before, invoice, turn);
    ClaimArkadeConcludes(before, invoice, turn);
    assert forall id :: id in before.rows && id != invoice.id ==> claimed.table.rows[id] == before.rows[id];
    if claimed.notified > 0 {
      assert claimed.table.rows[invoice.id].state.Settled?;
    }
    if SomeSettle(t, before) {
      var id :| IsPending(t, id) && id in before.rows && before.rows[id].state.Settled?;
      assert claimed.table.rows[id].state.Settled?;
    }
  }

  lemma {:induction false} ArkadePassNotifies(t: Table<Invoice>, rows: seq<Invoice>, turns: Id -> ArkadeTurn)
    requires Loaded(t, rows)
    ensures var claimed := ArkadePass(t, rows, turns); claimed.notified > 0 <==> SomeSettle(t, claimed.table)
    decreases |rows|
  {
    if rows != [] {
      var init, last := rows[..|rows| - 1], rows[|rows| - 1];
      LoadedSplit(t, rows);
      ArkadePassNotifies(t, init, turns);
      var before := ArkadePass(t, init, turns);
      if before.ok {
        ArkadeUnvisited(t, init, last, turns);
        ArkadeNotifiesNext(t, before.table, last, turns(last.id));
      }
    }
  }

  /** A pass leaves the rows alone that it did not load. */
  lemma ArkadeUnvisited(t: Table<Invoice>, rows: seq<Invoice>, other: Invoice, turns: Id -> ArkadeTurn)
    requires Loaded(t, rows) && other.id in t.rows && t.rows[other.id] == other
    requires forall invoice :: invoice in rows ==> invoice.id != other.id
    ensures var after := ArkadePass(t, rows, turns).table;
      after.rows.Keys == t.rows.Keys && after.rows[other.id] == other
  {
    ArkadePassConcludes(t, rows, turns);
  }

  /**
   What one poll leaves. The three passes run in order, and each concludes every row it loaded; a failed load ends the
   poll and leaves this table and the later ones alone; an Arkade row that needs a connection and gets none ends it too.
   The publisher is notified exactly if some invoice was settled, also by a poll that fails later on.
   */
  lemma PollConcludes(rows: Rows, poll: Poll, arkadeEnabled: bool) returns (bound: Id)
    requires RowsKeyed(rows)
    ensures var Polled(after, notified, ok) := AfterPoll(rows, poll, arkadeEnabled);
      var reachesBark := poll.customLoads && poll.barkLoads;
      var reachesArkade := reachesBark && arkadeEnabled && poll.arkadeLoads;
      && (if poll.customLoads then NamesConcluded(rows.names, poll.custom, after.names) else after.names == rows.names)
      && (if reachesBark then AllConcluded(rows.invoices, poll.bark, poll.listed, after.invoices)
          else after.invoices == rows.invoices)
      && (if reachesArkade then
            ConcludedBelow(rows.arkade, poll.arkade, after.arkade, bound) && FirstAbort(rows.arkade, poll.arkade, bound)
          else after.arkade == rows.arkade)
      && (ok <==> reachesBark && (arkadeEnabled ==> poll.arkadeLoads && bound == rows.arkade.next))
      && (notified > 0 <==> SomeSettle(rows.invoices, after.invoices) || SomeSettle(rows.arkade, after.arkade))
  {
    FullCustomPassConcludes(rows.names, poll.custom);
    ListedPassConcludes(rows.invoices, poll.bark, poll.listed);
    FullBarkPassNotifies(rows.invoices, poll.bark, ListingOf(poll.listed));
    bound := FullArkadePassConcludes(rows.arkade, poll.arkade);
    FullPassLoads(rows.arkade);
    ArkadePassNotifies(rows.arkade, InState(rows.arkade, Pending, rows.arkade.next), poll.arkade);
  }

  /** Polling twice in an unchanged world is polling once, whatever fails along the way. */
  lemma PollIdempotent(rows: Rows, poll: Poll, arkadeEnabled: bool)
    requires RowsKeyed(rows)
    ensures var Polled(once, _, ok) := AfterPoll(rows, poll, arkadeEnabled);
      SameRows(AfterPoll(once, poll, arkadeEnabled).rows, once) && AfterPoll(once, poll, arkadeEnabled).ok == ok
  {
    CustomPassIdempotent(rows.names, poll.custom);
    BarkPassIdempotent(rows.invoices, poll.bark, ListingOf(poll.listed));
    ArkadePassIdempotent(rows.arkade, poll.arkade);
  }
}

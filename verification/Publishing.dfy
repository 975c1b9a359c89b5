/** One round of the receipt publisher: the due zaps in order, up to the first write that fails. */
module Publishing {
  import opened Wrappers
  import opened Ledger
  import opened Receipts

  const RETRY_WINDOW: Time := 24 * HOUR

  /** How many relays accepted the receipt, and whether the database could then be reached. */
  datatype Sending = Sending(accepted: Result<nat, Failure>, connected: bool)

  /** The receipt of one zap, from the row it belongs to. */
  function ReceiptOf(nostr: Nostr, request: string, row: Invoice): Option<Event> {
    if row.settledAt.None? then None
    else match ReceiptToSend(nostr, request, row.bolt11.encoded, row.preimage, row.settledAt.value)
      case Ok(receipt) => Some(receipt)
      case Err(_) => None
  }

  /** The zaps, the receipts handed to relays, and whether the round got through. */
  datatype Round = Round(zaps: map<Id, Zap>, sent: set<(Id, string)>, ok: bool)

  function PublishOne(nostr: Nostr, zaps: map<Id, Zap>, due: Due, sending: Sending): Round {
    match ReceiptOf(nostr, due.zap.request, due.row)
    case None => Round(zaps, {}, true)
    case Some(receipt) =>
      var eventId := nostr.eventId(receipt);
      if sending.accepted.Err? || sending.accepted.value == 0 then Round(zaps, {(due.zap.id, eventId)}, true)
      else if !sending.connected then Round(zaps, {(due.zap.id, eventId)}, false)
      else Round(SetEventId(zaps, due.zap.id, eventId), {(due.zap.id, eventId)}, true)
  }

  function PublishRound(nostr: Nostr, zaps: map<Id, Zap>, due: seq<Due>, sendings: Id -> Sending): Round {
    if due == [] then Round(zaps, {}, true)
    else
      var before := PublishRound(nostr, zaps, due[..|due| - 1], sendings);
      if !before.ok then before
      else
        var last := due[|due| - 1];
        var after := PublishOne(nostr, before.zaps, last, sendings(last.zap.id));
        after.(sent := before.sent + after.sent)
  }

  // ---------- What a round does ----------

  /** Some relay has the receipt. */
  predicate Accepted(nostr: Nostr, due: Due, sending: Sending) {
    ReceiptOf(nostr, due.zap.request, due.row).Some? && sending.accepted.Ok? && sending.accepted.value > 0
  }

  function Recorded(nostr: Nostr, due: Due, sending: Sending): Zap {
    if Accepted(nostr, due, sending)
    then due.zap.(eventId := Some(nostr.eventId(ReceiptOf(nostr, due.zap.request, due.row).value))) else due.zap
  }

  ghost predicate DueFrom(zaps: map<Id, Zap>, due: seq<Due>) {
    && (forall i :: 0 <= i < |due| ==> due[i].zap.id in zaps && zaps[due[i].zap.id] == due[i].zap)
    && (forall i, j :: 0 <= i < j < |due| ==> due[i].zap.id != due[j].zap.id)
  }

  /** Exactly the zaps in `visited` are recorded, those of them that a relay accepted. */
  ghost predicate RoundLeaves(nostr: Nostr, zaps: map<Id, Zap>, visited: seq<Due>, sendings: Id -> Sending,
                              after: map<Id, Zap>) {
    && after.Keys == zaps.Keys
    && (forall due :: due in visited ==>
          due.zap.id in after && after[due.zap.id] == Recorded(nostr, due, sendings(due.zap.id)))
    && (forall id :: id in zaps && (forall due :: due in visited ==> due.zap.id != id) ==> after[id] == zaps[id])
  }

  lemma DueSplit(zaps: map<Id, Zap>, due: seq<Due>)
    requires DueFrom(zaps, due) && due != []
    ensures var init, last := due[..|due| - 1], due[|due| - 1];
      && due == init + [last] && DueFrom(zaps, init) && last.zap.id in zaps && zaps[last.zap.id] == last.zap
      && (forall other :: other in init ==> other.zap.id != last.zap.id)
      && (forall other :: other in due <==> other in init || other == last)
  {
    assert due == due[..|due| - 1] + [due[|due| - 1]];
  }

  lemma RoundStep(nostr: Nostr, zaps: map<Id, Zap>, due: seq<Due>, sendings: Id -> Sending, before: map<Id, Zap>)
    requires DueFrom(zaps, due) && due != [] && RoundLeaves(nostr, zaps, due[..|due| - 1], sendings, before)
    ensures var last := due[|due| - 1];
      var round := PublishOne(nostr, before, last, sendings(last.zap.id));
      && (round.ok <==> !(Accepted(nostr, last, sendings(last.zap.id)) && !sendings(last.zap.id).connected))
      && RoundLeaves(nostr, zaps, if round.ok then due else due[..|due| - 1], sendings, round.zaps)
  {
    var last := due[|due| - 1];
    DueSplit(zaps, due);
    assert before[last.zap.id] == last.zap;
    PublishOneConcludes(nostr, before, last, sendings(last.zap.id));
    RoundLeavesNext(nostr, zaps, due, sendings, before);
  }

  lemma RoundLeavesNext(nostr: Nostr, zaps: map<Id, Zap>, due: seq<Due>, sendings: Id -> Sending, before: map<Id, Zap>)
    requires DueFrom(zaps, due) && due != [] && RoundLeaves(nostr, zaps, due[..|due| - 1], sendings, before)
    ensures var last := due[|due| - 1];
      RoundLeaves(nostr, zaps, due, sendings, before[last.zap.id := Recorded(nostr, last, sendings(last.zap.id))])
  {
    DueSplit(zaps, due);
  }

  lemma PublishOneConcludes(nostr: Nostr, zaps: map<Id, Zap>, due: Due, sending: Sending)
    requires due.zap.id in zaps && zaps[due.zap.id] == due.zap
    ensures var round := PublishOne(nostr, zaps, due, sending);
      && (round.ok <==> !(Accepted(nostr, due, sending) && !sending.connected))
      && round.zaps == if round.ok then zaps[due.zap.id := Recorded(nostr, due, sending)] else zaps
  {
    assert zaps == zaps[due.zap.id := due.zap];
  }

  /**
   Failures to send are isolated, failures to record are not: the first receipt that was accepted but could not be
   recorded ends the round, everything before it is concluded, and everything after it is left for the next round.
   */
  lemma {:induction false} RoundConcludes(nostr: Nostr, zaps: map<Id, Zap>, due: seq<Due>, sendings: Id -> Sending)
    returns (k: nat)
    requires DueFrom(zaps, due)
    ensures k <= |due| && (PublishRound(nostr, zaps, due, sendings).ok <==> k == |due|)
    ensures forall i :: 0 <= i < k && Accepted(nostr, due[i], sendings(due[i].zap.id)) ==>
      sendings(due[i].zap.id).connected
    ensures k < |due| ==> Accepted(nostr, due[k], sendings(due[k].zap.id)) && !sendings(due[k].zap.id).connected
    ensures RoundLeaves(nostr, zaps, due[..k], sendings, PublishRound(nostr, zaps, due, sendings).zaps)
    decreases |due|
  {
    if due == [] {
      k := 0;
    } else {
      var init, last := due[..|due| - 1], due[|due| - 1];
      DueSplit(zaps, due);
      k := RoundConcludes(nostr, zaps, init, sendings);
      assert init[..k] == due[..k];
      if k == |init| {
        RoundStep(nostr, zaps, due, sendings, PublishRound(nostr, zaps, init, sendings).zaps);
        assert due[..|due|] == due && due[..|init|] == init;
        k := if PublishRound(nostr, zaps, due, sendings).ok then |due| else k;
      }
    }
  }

  /** Whatever is handed to relays is the receipt of a due zap. */
  lemma {:induction false} SentAreReceipts(nostr: Nostr, zaps: map<Id, Zap>, due: seq<Due>, sendings: Id -> Sending,
                                           id: Id, eventId: string)
    requires (id, eventId) in PublishRound(nostr, zaps, due, sendings).sent
    ensures exists i :: 0 <= i < |due| && due[i].zap.id == id && ReceiptOf(nostr, due[i].zap.request, due[i].row).Some?
                        && eventId == nostr.eventId(ReceiptOf(nostr, due[i].zap.request, due[i].row).value)
    decreases |due|
  {
    var init, last := due[..|due| - 1], due[|due| - 1];
    var before := PublishRound(nostr, zaps, init, sendings);
    if (id, eventId) in before.sent {
      SentAreReceipts(nostr, zaps, init, sendings, id, eventId);
      var i :| 0 <= i < |init| && init[i].zap.id == id && ReceiptOf(nostr, init[i].zap.request, init[i].row).Some?
               && eventId == nostr.eventId(ReceiptOf(nostr, init[i].zap.request, init[i].row).value);
      assert due[i] == init[i];
    } else {
      assert due[|due| - 1] == last;
    }
  }

  ghost predicate ZapsKeyed(zaps: map<Id, Zap>) {
    forall id :: id in zaps ==> zaps[id].id == id
  }

  /**
   Any later round, whatever happened to the tables in between, sends only what this round did not record, and then the
   very same receipt: settled rows are frozen, so request, invoice, preimage and settlement time are what they were.
   */
  lemma RetryRepeats(nostr: Nostr, zaps: map<Id, Zap>, t: Table<Invoice>, since: Time, due: seq<Due>,
                     sendings: Id -> Sending,
                     zaps': map<Id, Zap>, t': Table<Invoice>, since': Time, due': seq<Due>, sendings': Id -> Sending,
                     id: Id, first: string, second: string)
    requires ZapsKeyed(zaps) && Keyed(t) && AllDue(zaps, t, since, due)
    requires ZapsKeyed(zaps') && Keyed(t') && AllDue(zaps', t', since', due')
    requires TableEvolves(t, t') && ZapsEvolve(PublishRound(nostr, zaps, due, sendings).zaps, zaps')
    requires (id, first) in PublishRound(nostr, zaps, due, sendings).sent
    requires (id, second) in PublishRound(nostr, zaps', due', sendings').sent
    ensures first == second
    ensures id in PublishRound(nostr, zaps, due, sendings).zaps
      && PublishRound(nostr, zaps, due, sendings).zaps[id].eventId.None?
  {
    SentWasDue(nostr, zaps, t, since, due, sendings, id, first);
    SentWasDue(nostr, zaps', t', since', due', sendings', id, second);
    DueIsFrom(zaps, t, since, due);
    RoundKeepsRequest(nostr, zaps, due, sendings, id);
    SameReceipt(nostr, zaps, t, PublishRound(nostr, zaps, due, sendings).zaps, zaps', t', since, since', id);
  }

  lemma RoundKeepsRequest(nostr: Nostr, zaps: map<Id, Zap>, due: seq<Due>, sendings: Id -> Sending, id: Id)
    requires DueFrom(zaps, due) && id in zaps
    ensures var after := PublishRound(nostr, zaps, due, sendings).zaps;
      id in after && after[id].request == zaps[id].request
  {
    var k := RoundConcludes(nostr, zaps, due, sendings);
    RequestsKept(nostr, zaps, due[..k], sendings, PublishRound(nostr, zaps, due, sendings).zaps, id);
  }

  /** A zap that is due before and after has the same receipt both times. */
  lemma SameReceipt(nostr: Nostr, zaps: map<Id, Zap>, t: Table<Invoice>, after: map<Id, Zap>, zaps': map<Id, Zap>,
                    t': Table<Invoice>,
                    since: Time, since': Time, id: Id)
    requires IsDue(zaps, t, since, id) && IsDue(zaps', t', since', id) && TableEvolves(t, t')
      && ZapsEvolve(after, zaps')
    requires id in after && after[id].request == zaps[id].request
    ensures ReceiptOf(nostr, zaps'[id].request, t'.rows[id]) == ReceiptOf(nostr, zaps[id].request, t.rows[id])
    ensures after[id].eventId.None?
  {
  }

  /**
   What was sent for a zap is the receipt of its stored request and its settled row, and nothing was recorded before.
   */
  lemma SentWasDue(nostr: Nostr, zaps: map<Id, Zap>, t: Table<Invoice>, since: Time, due: seq<Due>,
                   sendings: Id -> Sending,
                   id: Id, eventId: string)
    requires ZapsKeyed(zaps) && Keyed(t) && AllDue(zaps, t, since, due)
      && (id, eventId) in PublishRound(nostr, zaps, due, sendings).sent
    ensures IsDue(zaps, t, since, id)
    ensures var receipt := ReceiptOf(nostr, zaps[id].request, t.rows[id]);
      receipt.Some? && eventId == nostr.eventId(receipt.value)
  {
    SentAreReceipts(nostr, zaps, due, sendings, id, eventId);
  }

  lemma DueIsFrom(zaps: map<Id, Zap>, t: Table<Invoice>, since: Time, due: seq<Due>)
    requires ZapsKeyed(zaps) && Keyed(t) && AllDue(zaps, t, since, due)
    ensures DueFrom(zaps, due)
  {
  }

  lemma RequestsKept(nostr: Nostr, zaps: map<Id, Zap>, visited: seq<Due>, sendings: Id -> Sending, after: map<Id, Zap>,
                     id: Id)
    requires DueFrom(zaps, visited) && RoundLeaves(nostr, zaps, visited, sendings, after) && id in zaps
    ensures id in after && after[id].request == zaps[id].request && after[id].id == zaps[id].id
  {
  }

  /** A round over one more due zap. */
  lemma RoundNext(nostr: Nostr, zaps: map<Id, Zap>, due: seq<Due>, sendings: Id -> Sending, i: nat)
    requires i < |due| && PublishRound(nostr, zaps, due[..i], sendings).ok
    ensures var before := PublishRound(nostr, zaps, due[..i], sendings);
      var one := PublishOne(nostr, before.zaps, due[i], sendings(due[i].zap.id));
      PublishRound(nostr, zaps, due[..i + 1], sendings) == one.(sent := before.sent + one.sent)
  {
    assert due[..i + 1][..i] == due[..i];
  }

  // ---------- The publisher object ----------

  class PublisherTask {
    const db: Database
    const nostr: Nostr

    constructor (db: Database, nostr: Nostr)
      ensures this.db == db && this.nostr == nostr
    {
      this.db, this.nostr := db, nostr;
    }

    /** The event id, once a relay has accepted the receipt; `sent` is the receipt that relays were offered. */
    method PublishReceipt(due: Due, settledAt: Time, sending: Sending)
      returns (published: Result<Option<string>, PublishError>, ghost sent: Option<string>)
      requires due.row.settledAt == Some(settledAt)
      ensures var receipt := ReceiptOf(nostr, due.zap.request, due.row);
        && sent == (if receipt.Some? then Some(nostr.eventId(receipt.value)) else None)
        && (published.Ok? && published.value.Some? <==> Accepted(nostr, due, sending))
        && (Accepted(nostr, due, sending) ==> published.value == sent)
    {
      sent := None;
      var event := nostr.parseEvent(due.zap.request);
      if event.None? { return Err(StoredRequestInvalid), None; }
      var relays := ZapRequestRelays(nostr, event.value);
      if relays == [] { return Err(StoredRequestLacksRelays), None; }
      var receipt := BuildZapReceipt(nostr, event.value, due.zap.request, due.row.bolt11.encoded, due.row.preimage,
          settledAt);
      sent := Some(nostr.eventId(receipt));
      if sending.accepted.Err? { return Err(SendFailed), sent; }
      if sending.accepted.value == 0 { return Ok(None), sent; }
      published := Ok(Some(nostr.eventId(receipt)));
    }

    method PublishBark(due: seq<Due>, sendings: Id -> Sending) returns (ok: bool, ghost sent: set<(Id, string)>)
      modifies db`zaps
      ensures Round(db.zaps, sent, ok) == PublishRound(nostr, old(db.zaps), due, sendings)
    {
      sent := {};
      for i := 0 to |due|
        invariant Round(db.zaps, sent, true) == PublishRound(nostr, old(db.zaps), due[..i], sendings)
      {
        RoundNext(nostr, old(db.zaps), due, sendings, i);
        var settledAt := due[i].row.settledAt;
        if settledAt.None? { continue; }
        var sending := sendings(due[i].zap.id);
        var published, offered := PublishReceipt(due[i], settledAt.value, sending);
        sent := sent + if offered.Some? then {(due[i].zap.id, offered.value)} else {};
        if published.Ok? && published.value.Some? {
          if !sending.connected {
            AbortedRoundStays(nostr, old(db.zaps), due, sendings, i + 1);
            return false, sent;
          }
          db.SetZapEventId(due[i].zap, published.value.value);
        }
      }
      assert due[..|due|] == due;
      ok := true;
    }

    method PublishArkade(due: seq<Due>, sendings: Id -> Sending) returns (ok: bool, ghost sent: set<(Id, string)>)
      modifies db`arkadeZaps
      ensures Round(db.arkadeZaps, sent, ok) == PublishRound(nostr, old(db.arkadeZaps), due, sendings)
    {
      sent := {};
      for i := 0 to |due|
        invariant Round(db.arkadeZaps, sent, true) == PublishRound(nostr, old(db.arkadeZaps), due[..i], sendings)
      {
        RoundNext(nostr, old(db.arkadeZaps), due, sendings, i);
        var settledAt := due[i].row.settledAt;
        if settledAt.None? { continue; }
        var sending := sendings(due[i].zap.id);
        var published, offered := PublishReceipt(due[i], settledAt.value, sending);
        sent := sent + if offered.Some? then {(due[i].zap.id, offered.value)} else {};
        if published.Ok? && published.value.Some? {
          if !sending.connected {
            AbortedRoundStays(nostr, old(db.arkadeZaps), due, sendings, i + 1);
            return false, sent;
          }
          db.SetArkadeZapEventId(due[i].zap, published.value.value);
        }
      }
      assert due[..|due|] == due;
      ok := true;
    }

    /**
     Both tables are queried before anything is sent; a round that fails on Bark zaps does not reach the Arkade ones.
     */
    method PublishPending(now: Time, loads: bool, sendings: Id -> Sending, arkadeSendings: Id -> Sending)
      returns (ok: bool, ghost due: seq<Due>, ghost arkadeDue: seq<Due>)
      requires Keyed(db.invoices) && Keyed(db.arkadeInvoices)
      modifies db`zaps, db`arkadeZaps
      ensures !loads ==> !ok && db.zaps == old(db.zaps) && db.arkadeZaps == old(db.arkadeZaps)
      ensures loads ==>
        && AllDue(old(db.zaps), db.invoices, now - RETRY_WINDOW, due)
        && AllDue(old(db.arkadeZaps), db.arkadeInvoices, now - RETRY_WINDOW, arkadeDue)
        && var bark := PublishRound(nostr, old(db.zaps), due, sendings);
           var arkade := PublishRound(nostr, old(db.arkadeZaps), arkadeDue, arkadeSendings);
           && db.zaps == bark.zaps && db.arkadeZaps == (if bark.ok then arkade.zaps else old(db.arkadeZaps))
           && ok == (bark.ok && arkade.ok)
    {
      due, arkadeDue := [], [];
      if !loads { return false, [], []; }
      var barkRows := db.GetUnpublishedSettled(now - RETRY_WINDOW);
      var arkadeRows := db.GetArkadeUnpublishedSettled(now - RETRY_WINDOW);
      due, arkadeDue := barkRows, arkadeRows;
      var done, _ := PublishBark(barkRows, sendings);
      if !done { return false, due, arkadeDue; }
      var arkadeDone, _ := PublishArkade(arkadeRows, arkadeSendings);
      ok := arkadeDone;
    }
  }

  lemma {:induction false} AbortedRoundStays(nostr: Nostr, zaps: map<Id, Zap>, due: seq<Due>, sendings: Id -> Sending,
                                             k: nat)
    requires k <= |due| && !PublishRound(nostr, zaps, due[..k], sendings).ok
    ensures PublishRound(nostr, zaps, due, sendings) == PublishRound(nostr, zaps, due[..k], sendings)
    decreases |due|
  {
    if k == |due| {
      assert due[..k] == due;
    } else {
      var init := due[..|due| - 1];
      assert init[..k] == due[..k];
      AbortedRoundStays(nostr, zaps, init, sendings, k);
    }
  }
}

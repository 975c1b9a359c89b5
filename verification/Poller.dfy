/**
 The periodic passes over loaded rows.

 A `Turn` holds everything one iteration learns from outside: the answers of barkd or of the
 Arkade client, the clock readings, and whether a database connection could be had. Turns are
 indexed by row id, and a pass visits an id once, so they range over all behaviours of the
 environment during a pass. The methods run the passes on the database; the functions say what
 a pass leaves behind.
 */
module Poller {
  import opened Wrappers
  import opened Barkd
  import opened Ledger

  // ---------- Bark invoices ----------

  datatype Turn = Turn(status: Result<Option<Receive>, Failure>, now: Time, dbNow: Time, connected: bool)

  type Listing = Option<map<string, Receive>>

  /** The table, how many times the publisher was notified, and whether the call returned `Ok`. */
  datatype Claimed = Claimed(table: Table<Invoice>, notified: nat, ok: bool)

  function CancelIfExpired(t: Table<Invoice>, invoice: Invoice, turn: Turn): Claimed {
    if !HasExpired(invoice, turn.now) then Claimed(t, 0, true)
    else if !turn.connected then Claimed(t, 0, false)
    else Claimed(CancelInvoice(t, invoice.id).0, 0, true)
  }

  function ApplyReceive(t: Table<Invoice>, invoice: Invoice, receive: Receive, turn: Turn): Claimed {
    match RevealedPreimage(receive)
    case Some(preimage) =>
      if !turn.connected then Claimed(t, 0, false)
      else
        var (settled, updated) := SettleInvoice(t, invoice.id, preimage, turn.dbNow);
        Claimed(settled, if updated then 1 else 0, true)
    case None => if AllowsExpiry(receive) then CancelIfExpired(t, invoice, turn) else Claimed(t, 0, true)
  }

  function ClaimIfPaid(t: Table<Invoice>, invoice: Invoice, turn: Turn): Claimed {
    match turn.status
    case Err(_) => Claimed(t, 0, false)
    case Ok(None) => CancelIfExpired(t, invoice, turn)
    case Ok(Some(receive)) => ApplyReceive(t, invoice, receive, turn)
  }

  /** One iteration: the listed receive if there is one, otherwise a request for this hash. */
  function ClaimListed(t: Table<Invoice>, invoice: Invoice, turn: Turn, listing: Listing): Claimed {
    if listing.Some? && PaymentHashOf(invoice) in listing.value
    then ApplyReceive(t, invoice, listing.value[PaymentHashOf(invoice)], turn)
    else ClaimIfPaid(t, invoice, turn)
  }

  function BarkPass(t: Table<Invoice>, rows: seq<Invoice>, turns: Id -> Turn, listing: Listing): (Table<Invoice>, nat) {
    if rows == [] then (t, 0)
    else
      var (before, notified) := BarkPass(t, rows[..|rows| - 1], turns, listing);
      var last := rows[|rows| - 1];
      var claimed := ClaimListed(before, last, turns(last.id), listing);
      (claimed.table, notified + claimed.notified)
  }

  /** Collecting the list into a map: a later entry replaces an earlier one for the same hash. */
  function ByHash(receives: seq<Receive>): map<string, Receive> {
    if receives == [] then map[]
    else ByHash(receives[..|receives| - 1])[receives[|receives| - 1].paymentHash := receives[|receives| - 1]]
  }

  // ---------- Custom address invoices ----------

  datatype CustomTurn = CustomTurn(
    status: Result<Option<Receive>, Failure>, history: Result<seq<Movement>, Failure>,
    now: Time, dbNow: Time, connected: bool)

  datatype CustomClaimed = CustomClaimed(registry: Registry, ok: bool)

  function CustomCancelIfExpired(r: Registry, invoice: CustomInvoice, turn: CustomTurn): CustomClaimed {
    if !CustomHasExpired(invoice, turn.now) then CustomClaimed(r, true)
    else if !turn.connected then CustomClaimed(r, false)
    else CustomClaimed(r.(invoices := CancelCustom(r.invoices, invoice.id).0), true)
  }

  /** The result of the Ark check: whether a payment was found, or the error that ends the claim. */
  function ClaimIfArkPaid(r: Registry, invoice: CustomInvoice, turn: CustomTurn): Result<(Registry, bool), Failure> {
    if turn.history.Err? then Err(Unavailable)
    else match ReceivedArkPayment(turn.history.value, invoice.feeReceiveAddress, FeeSats(invoice))
      case None => Ok((r, false))
      case Some(payment) =>
        if !turn.connected then Err(Unavailable)
        else Ok((SettleAndActivate(r, invoice, ArkTransfer(payment.reference), turn.dbNow).0, true))
  }

  function ClaimCustom(r: Registry, invoice: CustomInvoice, turn: CustomTurn): CustomClaimed {
    match turn.status
    case Err(_) => CustomClaimed(r, false)
    case Ok(None) =>
      (match ClaimIfArkPaid(r, invoice, turn)
       case Err(_) => CustomClaimed(r, false)
       case Ok((settled, true)) => CustomClaimed(settled, true)
       case Ok((_, false)) => CustomCancelIfExpired(r, invoice, turn))
    case Ok(Some(receive)) =>
      match RevealedPreimage(receive)
      case Some(preimage) =>
        if !turn.connected then CustomClaimed(r, false)
        else CustomClaimed(SettleAndActivate(r, invoice, Lightning(preimage), turn.dbNow).0, true)
      case None =>
        match ClaimIfArkPaid(r, invoice, turn)
        case Err(_) => CustomClaimed(r, false)
        case Ok((settled, true)) => CustomClaimed(settled, true)
        case Ok((_, false)) =>
          if AllowsExpiry(receive) then CustomCancelIfExpired(r, invoice, turn) else CustomClaimed(r, true)
  }

  function CustomPass(r: Registry, rows: seq<CustomInvoice>, turns: Id -> CustomTurn): Registry {
    if rows == [] then r
    else
      var last := rows[|rows| - 1];
      ClaimCustom(CustomPass(r, rows[..|rows| - 1], turns), last, turns(last.id)).registry
  }

  // ---------- Arkade invoices ----------

  datatype ArkadeTurn = ArkadeTurn(now: Time, dbNow: Time, connected: bool, claim: Result<string, Failure>)

  /** Unlike the Bark pass, a failed connection ends the whole pass (`ok` is false). */
  function ClaimArkade(t: Table<Invoice>, invoice: Invoice, turn: ArkadeTurn): Claimed {
    if HasExpired(invoice, turn.now) then
      if turn.connected then Claimed(CancelInvoice(t, invoice.id).0, 0, true) else Claimed(t, 0, false)
    else match turn.claim
      case Err(_) => Claimed(t, 0, true)
      case Ok(preimage) =>
        if !turn.connected then Claimed(t, 0, false)
        else
          var (settled, updated) := SettleInvoice(t, invoice.id, preimage, turn.dbNow);
          Claimed(settled, if updated then 1 else 0, true)
  }

  function ArkadePass(t: Table<Invoice>, rows: seq<Invoice>, turns: Id -> ArkadeTurn): Claimed {
    if rows == [] then Claimed(t, 0, true)
    else
      var before := ArkadePass(t, rows[..|rows| - 1], turns);
      if !before.ok then before
      else
        var last := rows[|rows| - 1];
        var claimed := ClaimArkade(before.table, last, turns(last.id));
        claimed.(notified := before.notified + claimed.notified)
  }

  // ---------- One poll ----------

  /** What one poll meets: whether each load of pending rows succeeds, and the turns of the three passes. */
  datatype Poll = Poll(
    customLoads: bool, custom: Id -> CustomTurn,
    barkLoads: bool, bark: Id -> Turn, listed: Result<seq<Receive>, Failure>,
    arkadeLoads: bool, arkade: Id -> ArkadeTurn)

  datatype Rows = Rows(names: Registry, invoices: Table<Invoice>, arkade: Table<Invoice>)

  function ListingOf(listed: Result<seq<Receive>, Failure>): Listing {
    if listed.Ok? then Some(ByHash(listed.value)) else None
  }

  /** The tables, how many times the publisher was notified, and whether the poll returned `Ok`. */
  datatype Polled = Polled(rows: Rows, notified: nat, ok: bool)

  /** Reservations first, then Bark, then Arkade; a failed load ends the poll, and so does an aborted Arkade pass. */
  function AfterPoll(rows: Rows, poll: Poll, arkadeEnabled: bool): Polled {
    if !poll.customLoads then Polled(rows, 0, false)
    else
      var names := CustomPass(rows.names, CustomInState(rows.names.invoices, Pending, rows.names.invoices.next),
          poll.custom);
      if !poll.barkLoads then Polled(rows.(names := names), 0, false)
      else
        var (invoices, notified) := BarkPass(rows.invoices, InState(rows.invoices, Pending, rows.invoices.next),
            poll.bark, ListingOf(poll.listed));
        if !arkadeEnabled then Polled(rows.(names := names, invoices := invoices), notified, true)
        else if !poll.arkadeLoads then Polled(rows.(names := names, invoices := invoices), notified, false)
        else
          var arkade := ArkadePass(rows.arkade, InState(rows.arkade, Pending, rows.arkade.next), poll.arkade);
          Polled(Rows(names, invoices, arkade.table), notified + arkade.notified, arkade.ok)
  }

  // ---------- The tasks ----------

  /** The background task's view of the server. */
  class PollerTask {
    const db: Database
    const arkadeEnabled: bool
    /** `Notify` stores at most one permit. */
    var permit: bool

    constructor (db: Database, arkadeEnabled: bool)
      ensures this.db == db && this.arkadeEnabled == arkadeEnabled && !permit
    {
      this.db, this.arkadeEnabled, permit := db, arkadeEnabled, false;
    }

    method NotifyOne()
      modifies this`permit
      ensures permit
    {
      permit := true;
    }

    method CancelInvoiceIfExpired(invoice: Invoice, turn: Turn) returns (ok: bool)
      modifies db`invoices
      ensures Claimed(db.invoices, 0, ok) == CancelIfExpired(old(db.invoices), invoice, turn)
    {
      if HasExpired(invoice, turn.now) {
        if !turn.connected { return false; }
        var _ := db.MarkCancelled(invoice);
      }
      ok := true;
    }

    method ApplyInvoiceReceiveStatus(invoice: Invoice, receive: Receive, turn: Turn)
      returns (ok: bool, ghost notified: nat)
      modifies db`invoices, this`permit
      ensures Claimed(db.invoices, notified, ok) == ApplyReceive(old(db.invoices), invoice, receive, turn)
      ensures permit == (old(permit) || notified > 0)
    {
      notified := 0;
      var preimage := RevealedPreimage(receive);
      if preimage.Some? {
        if !turn.connected { return false, 0; }
        var updated := db.MarkSettled(invoice, preimage.value, turn.dbNow);
        if updated {
          NotifyOne();
          notified := 1;
        }
        return true, notified;
      }
      ok := true;
      if AllowsExpiry(receive) {
        ok := CancelInvoiceIfExpired(invoice, turn);
      }
    }

    method ClaimInvoiceIfPaid(invoice: Invoice, turn: Turn) returns (ok: bool, ghost notified: nat)
      modifies db`invoices, this`permit
      ensures Claimed(db.invoices, notified, ok) == ClaimIfPaid(old(db.invoices), invoice, turn)
      ensures permit == (old(permit) || notified > 0)
    {
      if turn.status.Err? { return false, 0; }
      if turn.status.value.None? {
        ok := CancelInvoiceIfExpired(invoice, turn);
        return ok, 0;
      }
      ok, notified := ApplyInvoiceReceiveStatus(invoice, turn.status.value.value, turn);
    }

    /** One iteration of the loop over Bark invoices. */
    method ClaimListedInvoice(invoice: Invoice, turn: Turn, listing: Listing) returns (ok: bool, ghost notified: nat)
      modifies db`invoices, this`permit
      ensures Claimed(db.invoices, notified, ok) == ClaimListed(old(db.invoices), invoice, turn, listing)
      ensures permit == (old(permit) || notified > 0)
    {
      if listing.Some? && PaymentHashOf(invoice) in listing.value {
        ok, notified := ApplyInvoiceReceiveStatus(invoice, listing.value[PaymentHashOf(invoice)], turn);
      } else {
        ok, notified := ClaimInvoiceIfPaid(invoice, turn);
      }
    }

    method ClaimPaidBarkInvoicesOnce(turns: Id -> Turn, listed: Result<seq<Receive>, Failure>)
      returns (ghost notified: nat)
      modifies db`invoices, this`permit
      ensures (db.invoices, notified) == BarkPass(old(db.invoices),
                InState(old(db.invoices), Pending, old(db.invoices).next), turns, ListingOf(listed))
      ensures permit == (old(permit) || notified > 0)
    {
      var invoices := db.GetByState(Pending);
      var listing: Listing := None;
      if listed.Ok? {
        var byHash := CollectByHash(listed.value);
        listing := Some(byHash);
      }
      notified := 0;
      for i := 0 to |invoices|
        invariant (db.invoices, notified) == BarkPass(old(db.invoices), invoices[..i], turns, listing)
        invariant permit == (old(permit) || notified > 0)
      {
        BarkPassNext(old(db.invoices), invoices, turns, listing, i);
        var _, more := ClaimListedInvoice(invoices[i], turns(invoices[i].id), listing);
        notified := notified + more;
      }
      assert invoices[..|invoices|] == invoices;
    }

    static method CollectByHash(receives: seq<Receive>) returns (byHash: map<string, Receive>)
      ensures byHash == ByHash(receives)
    {
      byHash := map[];
      for i := 0 to |receives|
        invariant byHash == ByHash(receives[..i])
      {
        assert receives[..i + 1][..i] == receives[..i];
        byHash := byHash[receives[i].paymentHash := receives[i]];
      }
      assert receives[..|receives|] == receives;
    }

    method CancelCustomInvoiceIfExpired(invoice: CustomInvoice, turn: CustomTurn) returns (ok: bool)
      modifies db`customInvoices
      ensures CustomClaimed(db.Names(), ok) == CustomCancelIfExpired(old(db.Names()), invoice, turn)
    {
      if CustomHasExpired(invoice, turn.now) {
        if !turn.connected { return false; }
        var _ := db.MarkCustomCancelled(invoice);
      }
      ok := true;
    }

    method ClaimCustomInvoiceIfArkPaid(invoice: CustomInvoice, turn: CustomTurn) returns (found: Result<bool, Failure>)
      modifies db`customInvoices, db`customAddresses
      ensures ClaimIfArkPaid(old(db.Names()), invoice, turn)
           == if found.Ok? then Ok((db.Names(), found.value)) else Err(Unavailable)
      ensures found.Err? ==> db.Names() == old(db.Names())
    {
      if turn.history.Err? { return Err(Unavailable); }
      var payment := ReceivedArkPayment(turn.history.value, invoice.feeReceiveAddress, FeeSats(invoice));
      if payment.None? { return Ok(false); }
      if !turn.connected { return Err(Unavailable); }
      var _ := db.MarkSettledAndActivate(invoice, ArkTransfer(payment.value.reference), turn.dbNow);
      return Ok(true);
    }

    method ClaimCustomInvoiceIfPaid(invoice: CustomInvoice, turn: CustomTurn) returns (ok: bool)
      modifies db`customInvoices, db`customAddresses
      ensures CustomClaimed(db.Names(), ok) == ClaimCustom(old(db.Names()), invoice, turn)
    {
      if turn.status.Err? { return false; }
      var receive := turn.status.value;
      if receive.Some? {
        var preimage := RevealedPreimage(receive.value);
        if preimage.Some? {
          if !turn.connected { return false; }
          var _ := db.MarkSettledAndActivate(invoice, Lightning(preimage.value), turn.dbNow);
          return true;
        }
      }
      var found := ClaimCustomInvoiceIfArkPaid(invoice, turn);
      if found.Err? { return false; }
      if found.value { return true; }
      ok := true;
      if receive.None? || AllowsExpiry(receive.value) {
        ok := CancelCustomInvoiceIfExpired(invoice, turn);
      }
    }

    method ClaimPaidCustomAddressInvoicesOnce(turns: Id -> CustomTurn)
      modifies db`customInvoices, db`customAddresses
      ensures db.Names() == CustomPass(old(db.Names()),
                CustomInState(old(db.customInvoices), Pending, old(db.customInvoices).next), turns)
    {
      var invoices := db.GetCustomByState(Pending);
      for i := 0 to |invoices|
        invariant db.Names() == CustomPass(old(db.Names()), invoices[..i], turns)
      {
        assert invoices[..i + 1][..i] == invoices[..i];
        var _ := ClaimCustomInvoiceIfPaid(invoices[i], turns(invoices[i].id));
      }
      assert invoices[..|invoices|] == invoices;
    }

    method ClaimPaidArkadeInvoicesOnce(turns: Id -> ArkadeTurn) returns (ok: bool, ghost notified: nat)
      modifies db`arkadeInvoices, this`permit
      ensures Claimed(db.arkadeInvoices, notified, ok)
           == ArkadePass(old(db.arkadeInvoices), InState(old(db.arkadeInvoices), Pending, old(db.arkadeInvoices).next),
             turns)
      ensures permit == (old(permit) || notified > 0)
    {
      var invoices := db.GetArkadeByState(Pending);
      notified := 0;
      for i := 0 to |invoices|
        invariant Claimed(db.arkadeInvoices, notified, true) == ArkadePass(old(db.arkadeInvoices), invoices[..i], turns)
        invariant permit == (old(permit) || notified > 0)
      {
        var invoice, turn := invoices[i], turns(invoices[i].id);
        assert invoices[..i + 1][..i] == invoices[..i];
        if HasExpired(invoice, turn.now) {
          if !turn.connected {
            AbortedPassStays(old(db.arkadeInvoices), invoices, turns, i + 1);
            return false, notified;
          }
          var _ := db.MarkArkadeCancelled(invoice);
        } else if turn.claim.Ok? {
          if !turn.connected {
            AbortedPassStays(old(db.arkadeInvoices), invoices, turns, i + 1);
            return false, notified;
          }
          var updated := db.MarkArkadeSettled(invoice, turn.claim.value, turn.dbNow);
          if updated {
            NotifyOne();
            notified := notified + 1;
          }
        }
      }
      assert invoices[..|invoices|] == invoices;
      ok := true;
    }

    ghost function CurrentRows(): Rows
      reads db
    {
      Rows(db.Names(), db.invoices, db.arkadeInvoices)
    }

    /** One tick of the background task; the source runs the reservations from within its Bark pass. */
    method ClaimPaidInvoicesOnce(poll: Poll) returns (ok: bool, ghost notified: nat)
      modifies db`invoices, db`arkadeInvoices, db`customInvoices, db`customAddresses, this`permit
      ensures Polled(CurrentRows(), notified, ok) == AfterPoll(old(CurrentRows()), poll, arkadeEnabled)
      ensures permit == (old(permit) || notified > 0)
    {
      notified := 0;
      if !poll.customLoads { return false, 0; }
      ClaimPaidCustomAddressInvoicesOnce(poll.custom);
      if !poll.barkLoads { return false, 0; }
      notified := ClaimPaidBarkInvoicesOnce(poll.bark, poll.listed);
      ok := true;
      if arkadeEnabled {
        if !poll.arkadeLoads { return false, notified; }
        var done, more := ClaimPaidArkadeInvoicesOnce(poll.arkade);
        ok, notified := done, notified + more;
      }
    }
  }

  /** A pass over one more row. */
  lemma BarkPassNext(t: Table<Invoice>, rows: seq<Invoice>, turns: Id -> Turn, listing: Listing, i: nat)
    requires i < |rows|
    ensures var (before, notified) := BarkPass(t, rows[..i], turns, listing);
      var claimed := ClaimListed(before, rows[i], turns(rows[i].id), listing);
      BarkPass(t, rows[..i + 1], turns, listing) == (claimed.table, notified + claimed.notified)
  {
    assert rows[..i + 1][..i] == rows[..i];
  }

  lemma {:induction false} AbortedPassStays(t: Table<Invoice>, rows: seq<Invoice>, turns: Id -> ArkadeTurn, k: nat)
    requires k <= |rows| && !ArkadePass(t, rows[..k], turns).ok
    ensures ArkadePass(t, rows, turns) == ArkadePass(t, rows[..k], turns)
    decreases |rows|
  {
    if k == |rows| {
      assert rows[..k] == rows;
    } else {
      var init := rows[..|rows| - 1];
      assert init[..k] == rows[..k];
      AbortedPassStays(t, init, turns, k);
    }
  }
}

/** What the service reads from barkd: Lightning receive phases and the wallet history. */
module Barkd {
  import opened Wrappers
  import opened Decimals

  // ---------- Receive phases ----------

  datatype Receive = Receive(paymentHash: string, phase: string, preimage: Option<string>)

  /** The preimage, once barkd has revealed it. */
  function RevealedPreimage(receive: Receive): Option<string> {
    if receive.phase in {"preimage-revealed", "delivering", "settled"} then receive.preimage else None
  }

  /** Expiry ends a receive only while it waits for its payment; unknown phases hold the row. */
  predicate AllowsExpiry(receive: Receive) {
    receive.phase == "awaiting-payment"
  }

  /** What an observation of one hash shows: its preimage, if it is revealed. */
  function PreimageIn(seen: Option<Receive>): Option<string> {
    if seen.Some? then RevealedPreimage(seen.value) else None
  }

  /** No receive, or one still waiting for its payment. */
  predicate Unpaid(seen: Option<Receive>) {
    seen.None? || AllowsExpiry(seen.value)
  }

  // ---------- Wallet history ----------

  datatype PaymentMethod = Ark(address: string) | OtherMethod

  datatype Destination = Destination(paymentMethod: PaymentMethod, amountSat: nat)

  datatype Movement = Movement(id: nat, receivedOn: seq<Destination>)

  datatype ArkPayment = ArkPayment(reference: string, amountSat: nat)

  function MovementReference(id: nat): string { "bark-movement:" + Decimal(id) }

  /** A stored reference names one movement. */
  lemma MovementReferenceInjective(m: nat, n: nat)
    requires MovementReference(m) == MovementReference(n)
    ensures m == n
  {
    var prefix := "bark-movement:";
    assert Decimal(m) == MovementReference(m)[|prefix|..] && Decimal(n) == MovementReference(n)[|prefix|..];
    DecimalInjective(m, n);
  }

  predicate Pays(destination: Destination, address: string, minAmountSat: nat) {
    destination.paymentMethod == Ark(address) && destination.amountSat >= minAmountSat
  }

  function FirstPaying(destinations: seq<Destination>, address: string, minAmountSat: nat): Option<nat> {
    if destinations == [] then None
    else if Pays(destinations[0], address, minAmountSat) then Some(destinations[0].amountSat)
    else FirstPaying(destinations[1..], address, minAmountSat)
  }

  /** `received_ark_payment`: the nested search over the listed movements. */
  function ReceivedArkPayment(movements: seq<Movement>, address: string, minAmountSat: nat): Option<ArkPayment> {
    if movements == [] then None
    else match FirstPaying(movements[0].receivedOn, address, minAmountSat)
      case Some(amount) => Some(ArkPayment(MovementReference(movements[0].id), amount))
      case None => ReceivedArkPayment(movements[1..], address, minAmountSat)
  }

  /** Output `d` of movement `m` pays `address` at least `minAmountSat`. */
  ghost predicate PaysAt(movements: seq<Movement>, m: nat, d: nat, address: string, minAmountSat: nat) {
    m < |movements| && d < |movements[m].receivedOn| && Pays(movements[m].receivedOn[d], address, minAmountSat)
  }

  /** Some movement with this reference pays `address` at least `minAmountSat`. */
  ghost predicate PaidBy(movements: seq<Movement>, reference: string, address: string, minAmountSat: nat) {
    exists m: nat, d: nat ::
      PaysAt(movements, m, d, address, minAmountSat) && MovementReference(movements[m].id) == reference
  }

  lemma {:induction false} FirstPayingMeaning(destinations: seq<Destination>, address: string, minAmountSat: nat)
    ensures var found := FirstPaying(destinations, address, minAmountSat);
      && (found.None? <==> forall d :: 0 <= d < |destinations| ==> !Pays(destinations[d], address, minAmountSat))
      && (found.Some? ==> exists d :: 0 <= d < |destinations| && Pays(destinations[d], address, minAmountSat)
                                      && destinations[d].amountSat == found.value
                                      && forall e :: 0 <= e < d ==> !Pays(destinations[e], address, minAmountSat))
  {
    if destinations != [] && !Pays(destinations[0], address, minAmountSat) {
      var rest := destinations[1..];
      FirstPayingMeaning(rest, address, minAmountSat);
      assert forall d :: 0 < d < |destinations| ==> destinations[d] == rest[d - 1];
      if FirstPaying(rest, address, minAmountSat).Some? {
        var d :| 0 <= d < |rest| && Pays(rest[d], address, minAmountSat)
                 && rest[d].amountSat == FirstPaying(rest, address, minAmountSat).value
                 && forall e :: 0 <= e < d ==> !Pays(rest[e], address, minAmountSat);
        assert destinations[d + 1] == rest[d];
      }
    }
  }

  /** The search answers with the first paying output in history order, and fails exactly when there is none. */
  lemma {:induction false} ReceivedArkPaymentMeaning(movements: seq<Movement>, address: string, minAmountSat: nat)
    ensures var found := ReceivedArkPayment(movements, address, minAmountSat);
      && (found.None? <==> forall m: nat, d: nat :: !PaysAt(movements, m, d, address, minAmountSat))
      && (found.Some? ==> exists m: nat, d: nat ::
            && PaysAt(movements, m, d, address, minAmountSat)
            && found.value == ArkPayment(MovementReference(movements[m].id), movements[m].receivedOn[d].amountSat)
            && (forall m': nat, d': nat :: PaysAt(movements, m', d', address, minAmountSat) ==>
                  m < m' || (m == m' && d <= d')))
  {
    if movements != [] {
      var rest := movements[1..];
      FirstPayingMeaning(movements[0].receivedOn, address, minAmountSat);
      ReceivedArkPaymentMeaning(rest, address, minAmountSat);
      assert forall m: nat, d: nat :: m > 0 ==>
        (PaysAt(movements, m, d, address, minAmountSat) <==> PaysAt(rest, m - 1, d, address, minAmountSat));
      if FirstPaying(movements[0].receivedOn, address, minAmountSat).Some? {
        var d: nat :| d < |movements[0].receivedOn| && Pays(movements[0].receivedOn[d], address, minAmountSat)
                 && movements[0].receivedOn[d].amountSat == FirstPaying(movements[0].receivedOn, address,
                      minAmountSat).value
                 && forall e :: 0 <= e < d ==> !Pays(movements[0].receivedOn[e], address, minAmountSat);
        assert PaysAt(movements, 0, d, address, minAmountSat);
      } else {
        assert forall d: nat :: !PaysAt(movements, 0, d, address, minAmountSat);
        if ReceivedArkPayment(rest, address, minAmountSat).Some? {
          var m: nat, d: nat :| PaysAt(rest, m, d, address, minAmountSat)
            && ReceivedArkPayment(rest, address, minAmountSat).value
               == ArkPayment(MovementReference(rest[m].id), rest[m].receivedOn[d].amountSat)
            && (forall m': nat, d': nat :: PaysAt(rest, m', d', address, minAmountSat) ==>
                  m < m' || (m == m' && d <= d'));
          assert PaysAt(movements, m + 1, d, address, minAmountSat);
        } else {
          forall m: nat, d: nat ensures !PaysAt(movements, m, d, address, minAmountSat) {
            if m > 0 {
              assert !PaysAt(rest, m - 1, d, address, minAmountSat);
            }
          }
        }
      }
    }
  }

  /** The listing endpoint's own address filter, which the search makes redundant. */
  function HistoryFor(movements: seq<Movement>, address: string): seq<Movement> {
    if movements == [] then []
    else
      var rest := HistoryFor(movements[1..], address);
      if exists d :: 0 <= d < |movements[0].receivedOn| && movements[0].receivedOn[d].paymentMethod == Ark(address)
      then [movements[0]] + rest else rest
  }

  lemma {:induction false} ListingFilterRedundant(movements: seq<Movement>, address: string, minAmountSat: nat)
    ensures ReceivedArkPayment(HistoryFor(movements, address), address, minAmountSat)
         == ReceivedArkPayment(movements, address, minAmountSat)
  {
    if movements != [] {
      ListingFilterRedundant(movements[1..], address, minAmountSat);
      FirstPayingMeaning(movements[0].receivedOn, address, minAmountSat);
      var rest := HistoryFor(movements[1..], address);
      assert ([movements[0]] + rest)[1..] == rest;
    }
  }

  // ---------- What an address has received ----------

  ghost function ReceivedIn(destinations: seq<Destination>, addresses: set<string>): nat {
    if destinations == [] then 0
    else
      (if destinations[0].paymentMethod.Ark? && destinations[0].paymentMethod.address in addresses
       then destinations[0].amountSat else 0) + ReceivedIn(destinations[1..], addresses)
  }

  /** The total that the history shows as received on these addresses. */
  ghost function ReceivedOn(movements: seq<Movement>, addresses: set<string>): nat {
    if movements == [] then 0
      else ReceivedIn(movements[0].receivedOn, addresses) + ReceivedOn(movements[1..], addresses)
  }

  lemma {:induction false} ReceivedInDisjoint(destinations: seq<Destination>, left: set<string>, right: set<string>)
    requires left !! right
    ensures ReceivedIn(destinations, left + right) == ReceivedIn(destinations, left) + ReceivedIn(destinations, right)
  {
    if destinations != [] {
      ReceivedInDisjoint(destinations[1..], left, right);
    }
  }

  lemma {:induction false} ReceivedOnDisjoint(movements: seq<Movement>, left: set<string>, right: set<string>)
    requires left !! right
    ensures ReceivedOn(movements, left + right) == ReceivedOn(movements, left) + ReceivedOn(movements, right)
  {
    if movements != [] {
      ReceivedInDisjoint(movements[0].receivedOn, left, right);
      ReceivedOnDisjoint(movements[1..], left, right);
    }
  }

  lemma {:induction false} PaidInAtLeast(destinations: seq<Destination>, d: nat, address: string, minAmountSat: nat)
    requires d < |destinations| && Pays(destinations[d], address, minAmountSat)
    ensures ReceivedIn(destinations, {address}) >= minAmountSat
  {
    if d > 0 {
      PaidInAtLeast(destinations[1..], d - 1, address, minAmountSat);
    }
  }

  lemma {:induction false} PaidAtLeast(movements: seq<Movement>, m: nat, d: nat, address: string, minAmountSat: nat)
    requires PaysAt(movements, m, d, address, minAmountSat)
    ensures ReceivedOn(movements, {address}) >= minAmountSat
  {
    if m == 0 {
      PaidInAtLeast(movements[0].receivedOn, d, address, minAmountSat);
    } else {
      PaidAtLeast(movements[1..], m - 1, d, address, minAmountSat);
    }
  }
}

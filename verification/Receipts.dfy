/** Zap requests, relay selection and zap receipts (NIP-57). */
module Receipts {
  import opened Wrappers
  import opened Decimals
  import opened Ledger

  const MAX_RELAYS := 10
  const ZAP_REQUEST_KIND := 9734
  const ZAP_RECEIPT_KIND := 9735

  /** A tag is never empty; its first entry is its kind. */
  type Tag = t: seq<string> | t != [] witness [""]

  datatype Event = Event(kind: nat, pubkey: string, createdAt: nat, tags: seq<Tag>, content: string)

  /** A parsed relay URL; `internal` covers localhost, local addresses and onion hosts. */
  datatype Relay = Relay(url: string, internal: bool)

  /** The foreign parts: JSON and URL parsing, event signatures and event ids. */
  datatype Nostr = Nostr(
    parseEvent: string -> Option<Event>,
    parseRelay: string -> Option<Relay>,
    signed: Event -> bool,
    eventId: Event -> string,
    serverKey: string)

  // ---------- Tags ----------

  function FindTag(tags: seq<Tag>, kind: string): Option<Tag> {
    if tags == [] then None else if tags[0][0] == kind then Some(tags[0]) else FindTag(tags[1..], kind)
  }

  function TagCount(tags: seq<Tag>, kind: string): nat {
    if tags == [] then 0 else (if tags[0][0] == kind then 1 else 0) + TagCount(tags[1..], kind)
  }

  function TagValue(event: Event, kind: string): Option<string> {
    match FindTag(event.tags, kind)
    case Some(tag) => if |tag| > 1 then Some(tag[1]) else None
    case None => None
  }

  // ---------- Relay selection ----------

  /** The public relays among the entries, in order, duplicates included. */
  function PublicRelays(nostr: Nostr, entries: seq<string>): seq<Relay> {
    if entries == [] then []
    else
      var before := PublicRelays(nostr, entries[..|entries| - 1]);
      match nostr.parseRelay(entries[|entries| - 1])
      case Some(relay) => if relay.internal then before else before + [relay]
      case None => before
  }

  /** Keeps the first occurrence of each element. */
  function Dedup(relays: seq<Relay>): seq<Relay> {
    if relays == [] then []
    else
      var before := Dedup(relays[..|relays| - 1]);
      if relays[|relays| - 1] in before then before else before + [relays[|relays| - 1]]
  }

  function Take(relays: seq<Relay>, n: nat): seq<Relay> {
    if |relays| <= n then relays else relays[..n]
  }

  function SelectRelays(nostr: Nostr, request: Event): seq<Relay> {
    match FindTag(request.tags, "relays")
    case Some(tag) => Take(Dedup(PublicRelays(nostr, tag[1..])), MAX_RELAYS)
    case None => []
  }

  lemma {:induction false} DedupMeaning(relays: seq<Relay>)
    ensures forall relay :: relay in Dedup(relays) <==> relay in relays
    ensures forall i, j :: 0 <= i < j < |Dedup(relays)| ==> Dedup(relays)[i] != Dedup(relays)[j]
  {
    if relays != [] {
      DedupMeaning(relays[..|relays| - 1]);
      assert relays == relays[..|relays| - 1] + [relays[|relays| - 1]];
    }
  }

  lemma {:induction false} DedupExtends(relays: seq<Relay>, k: nat)
    requires k <= |relays|
    ensures Dedup(relays[..k]) <= Dedup(relays)
  {
    if k < |relays| {
      DedupExtends(relays[..|relays| - 1], k);
      assert relays[..|relays| - 1][..k] == relays[..k];
    } else {
      assert relays[..k] == relays;
    }
  }

  lemma {:induction false} PublicRelaysExtends(nostr: Nostr, entries: seq<string>, k: nat)
    requires k <= |entries|
    ensures PublicRelays(nostr, entries[..k]) <= PublicRelays(nostr, entries)
  {
    if k < |entries| {
      PublicRelaysExtends(nostr, entries[..|entries| - 1], k);
      assert entries[..|entries| - 1][..k] == entries[..k];
    } else {
      assert entries[..k] == entries;
    }
  }

  /** Stopping early is harmless: ten distinct relays from a prefix are the ten of the whole tag. */
  lemma EarlyStop(nostr: Nostr, entries: seq<string>, k: nat)
    requires k <= |entries| && |Dedup(PublicRelays(nostr, entries[..k]))| == MAX_RELAYS
    ensures Take(Dedup(PublicRelays(nostr, entries)), MAX_RELAYS) == Dedup(PublicRelays(nostr, entries[..k]))
  {
    var part, all := PublicRelays(nostr, entries[..k]), PublicRelays(nostr, entries);
    PublicRelaysExtends(nostr, entries, k);
    assert all[..|part|] == part;
    DedupExtends(all, |part|);
  }

  lemma NextRelay(nostr: Nostr, entries: seq<string>, i: nat)
    requires i < |entries|
    ensures var before := Dedup(PublicRelays(nostr, entries[..i]));
      Dedup(PublicRelays(nostr, entries[..i + 1])) ==
        match nostr.parseRelay(entries[i]) {
          case None => before
          case Some(relay) => if relay.internal || relay in before then before else before + [relay]
        }
  {
    assert entries[..i + 1][..i] == entries[..i];
    var public := PublicRelays(nostr, entries[..i]);
    if nostr.parseRelay(entries[i]).Some? {
      assert (public + [nostr.parseRelay(entries[i]).value])[..|public|] == public;
    }
  }

  method ZapRequestRelays(nostr: Nostr, request: Event) returns (relays: seq<Relay>)
    ensures relays == SelectRelays(nostr, request)
  {
    relays := [];
    var tag := FindTag(request.tags, "relays");
    if tag.None? { return; }
    var entries := tag.value[1..];
    for i := 0 to |entries|
      invariant relays == Dedup(PublicRelays(nostr, entries[..i])) && |relays| < MAX_RELAYS
    {
      NextRelay(nostr, entries, i);
      var relay := nostr.parseRelay(entries[i]);
      if relay.None? || relay.value.internal {
        continue;
      }
      if relay.value !in relays {
        relays := relays + [relay.value];
      }
      if |relays| == MAX_RELAYS {
        EarlyStop(nostr, entries, i + 1);
        return;
      }
    }
    assert entries[..|entries|] == entries;
  }

  /** `relay` is one of the public relays that the request's first `relays` tag lists. */
  ghost predicate ListsPublic(nostr: Nostr, request: Event, relay: Relay) {
    var tag := FindTag(request.tags, "relays");
    tag.Some? && !relay.internal && exists i :: 0 < i < |tag.value| && nostr.parseRelay(tag.value[i]) == Some(relay)
  }

  lemma {:induction false} PublicRelaysMeaning(nostr: Nostr, entries: seq<string>, relay: Relay)
    ensures relay in PublicRelays(nostr, entries)
      <==> !relay.internal && exists i :: 0 <= i < |entries| && nostr.parseRelay(entries[i]) == Some(relay)
  {
    if entries != [] {
      var init := entries[..|entries| - 1];
      PublicRelaysMeaning(nostr, init, relay);
      assert forall i :: 0 <= i < |init| ==> init[i] == entries[i];
      assert PublicRelays(nostr, entries) == PublicRelays(nostr, init)
          || PublicRelays(nostr, entries)[|PublicRelays(nostr, init)|..]
               == [nostr.parseRelay(entries[|entries| - 1]).value];
    }
  }

  /** At most ten, pairwise distinct, all of them listed and public; and all of those if there are fewer than ten. */
  lemma SelectRelaysMeaning(nostr: Nostr, request: Event)
    ensures var relays := SelectRelays(nostr, request);
      && |relays| <= 10
      && (forall i, j :: 0 <= i < j < |relays| ==> relays[i] != relays[j])
      && (forall relay :: relay in relays ==> ListsPublic(nostr, request, relay))
      && (|relays| < 10 ==> forall relay :: ListsPublic(nostr, request, relay) ==> relay in relays)
  {
    var tag := FindTag(request.tags, "relays");
    if tag.Some? {
      var entries := tag.value[1..];
      var public := PublicRelays(nostr, entries);
      DedupMeaning(public);
      forall relay ensures relay in public <==> ListsPublic(nostr, request, relay) {
        PublicRelaysMeaning(nostr, entries, relay);
        assert forall i :: 0 <= i < |entries| ==> entries[i] == tag.value[i + 1];
      }
    }
  }

  /** The relay is listed and public, among the first `k` entries behind the tag's kind. */
  ghost predicate ListsAmongFirst(nostr: Nostr, tag: Tag, k: nat, relay: Relay)
    requires k < |tag|
  {
    !relay.internal && exists i :: 0 < i <= k && nostr.parseRelay(tag[i]) == Some(relay)
  }

  /** The selection is that of some prefix of the tag: all of it, or the first entries that hold ten relays. */
  lemma SelectsFromFront(nostr: Nostr, request: Event, tag: Tag) returns (k: nat)
    requires FindTag(request.tags, "relays") == Some(tag)
    ensures k < |tag| && (k == |tag| - 1 || |SelectRelays(nostr, request)| == 10)
    ensures forall relay :: relay in SelectRelays(nostr, request) <==> ListsAmongFirst(nostr, tag, k, relay)
  {
    var entries := tag[1..];
    k := 0;
    while k < |entries| && |Dedup(PublicRelays(nostr, entries[..k]))| < MAX_RELAYS
      invariant k <= |entries| && |Dedup(PublicRelays(nostr, entries[..k]))| <= MAX_RELAYS
    {
      NextRelay(nostr, entries, k);
      k := k + 1;
    }
    if |Dedup(PublicRelays(nostr, entries[..k]))| == MAX_RELAYS {
      EarlyStop(nostr, entries, k);
    } else {
      assert entries[..k] == entries;
    }
    FrontMembers(nostr, tag, k);
  }

  lemma FrontMembers(nostr: Nostr, tag: Tag, k: nat)
    requires k < |tag|
    ensures forall relay ::
      relay in Dedup(PublicRelays(nostr, tag[1..][..k])) <==> ListsAmongFirst(nostr, tag, k, relay)
  {
    var front := tag[1..][..k];
    DedupMeaning(PublicRelays(nostr, front));
    forall relay ensures relay in PublicRelays(nostr, front) <==> ListsAmongFirst(nostr, tag, k, relay) {
      PublicRelaysMeaning(nostr, front, relay);
      assert forall i :: 0 <= i < k ==> front[i] == tag[i + 1];
      if ListsAmongFirst(nostr, tag, k, relay) {
        var i :| 0 < i <= k && nostr.parseRelay(tag[i]) == Some(relay);
        assert front[i - 1] == tag[i];
      }
    }
  }

  // ---------- Validation ----------

  datatype RequestError = WrongKind | BadSignature | WrongTagCount | NoUsableRelays | AmountNotANumber | AmountMismatch

  function ValidateZapRequest(nostr: Nostr, event: Event, amountMsats: nat): Result<(), RequestError> {
    if event.kind != ZAP_REQUEST_KIND then Err(WrongKind)
    else if !nostr.signed(event) then Err(BadSignature)
    else if TagCount(event.tags, "p") != 1 || TagCount(event.tags, "e") > 1
      || TagCount(event.tags, "a") > 1 || TagCount(event.tags, "P") > 1 then Err(WrongTagCount)
    else if SelectRelays(nostr, event) == [] then Err(NoUsableRelays)
    else match TagValue(event, "amount")
      case None => Ok(())
      case Some(amount) =>
        match ParseU64(amount)
        case None => Err(AmountNotANumber)
        case Some(requested) => if requested != amountMsats then Err(AmountMismatch) else Ok(())
  }

  ghost predicate HasTag(tags: seq<Tag>, kind: string) {
    exists i :: 0 <= i < |tags| && tags[i][0] == kind
  }

  ghost predicate NotRepeated(tags: seq<Tag>, kind: string) {
    forall i, j :: 0 <= i < |tags| && 0 <= j < |tags| && tags[i][0] == kind && tags[j][0] == kind ==> i == j
  }

  lemma {:induction false} TagCountMeaning(tags: seq<Tag>, kind: string)
    ensures TagCount(tags, kind) > 0 <==> HasTag(tags, kind)
    ensures TagCount(tags, kind) <= 1 <==> NotRepeated(tags, kind)
  {
    if tags != [] {
      var rest := tags[1..];
      TagCountMeaning(rest, kind);
      TagRepeats(tags, kind);
    }
  }

  /** One more tag in front repeats a kind exactly if that kind is repeated or was there already. */
  lemma TagRepeats(tags: seq<Tag>, kind: string)
    requires tags != []
    ensures HasTag(tags, kind) <==> tags[0][0] == kind || HasTag(tags[1..], kind)
    ensures NotRepeated(tags, kind) <==>
      NotRepeated(tags[1..], kind) && !(tags[0][0] == kind && HasTag(tags[1..], kind))
  {
    var rest := tags[1..];
    assert forall i :: 0 <= i < |rest| ==> rest[i] == tags[i + 1];
    assert forall i :: 0 < i < |tags| ==> tags[i] == rest[i - 1];
    if tags[0][0] == kind && HasTag(rest, kind) {
      var i :| 0 <= i < |rest| && rest[i][0] == kind;
      assert tags[i + 1][0] == kind;
    }
    if NotRepeated(tags, kind) {
      forall i, j | 0 <= i < |rest| && 0 <= j < |rest| && rest[i][0] == kind && rest[j][0] == kind ensures i == j {
        assert tags[i + 1][0] == kind && tags[j + 1][0] == kind;
      }
    }
  }

  /** NIP-57, Appendix D: what a zap request has to satisfy before an invoice is created for it. */
  ghost predicate IsValidRequest(nostr: Nostr, event: Event, amountMsats: nat) {
    && event.kind == 9734 && nostr.signed(event)
    && HasTag(event.tags, "p")
    && (forall kind :: kind in {"p", "e", "a", "P"} ==> NotRepeated(event.tags, kind))
    && (exists relay :: ListsPublic(nostr, event, relay))
    && (TagValue(event, "amount").Some? ==>
          amountMsats < 0x1_0000_0000_0000_0000 && Spells(TagValue(event, "amount").value, amountMsats))
  }

  /** Validation accepts exactly the valid requests. */
  lemma ValidateZapRequestIff(nostr: Nostr, event: Event, amountMsats: nat)
    ensures ValidateZapRequest(nostr, event, amountMsats).Ok? <==> IsValidRequest(nostr, event, amountMsats)
  {
    var relays := SelectRelays(nostr, event);
    SelectRelaysMeaning(nostr, event);
    if relays != [] {
      assert relays[0] in relays;
    }
    TagCountMeaning(event.tags, "p");
    TagCountMeaning(event.tags, "e");
    TagCountMeaning(event.tags, "a");
    TagCountMeaning(event.tags, "P");
    if TagValue(event, "amount").Some? {
      ParseU64Meaning(TagValue(event, "amount").value, amountMsats);
    }
    assert IsValidRequest(nostr, event, amountMsats) ==>
      forall kind :: kind == "p" || kind == "e" || kind == "a" || kind == "P" ==>
        kind in {"p", "e", "a", "P"} && NotRepeated(event.tags, kind);
  }

  /** An amount printed in decimal is accepted for that amount and for no other. */
  lemma PrintedAmountAccepted(nostr: Nostr, event: Event, printed: nat, amountMsats: nat)
    requires TagValue(event, "amount") == Some(Decimal(printed)) && ValidateZapRequest(nostr, event, amountMsats).Ok?
    ensures printed == amountMsats && amountMsats < 0x1_0000_0000_0000_0000
  {
    DecimalRoundTrip(printed);
  }

  /** The stored text of a zap request that `get_invoice_impl` accepted for this amount. */
  ghost predicate AcceptedRequest(nostr: Nostr, request: string, amountMsats: nat) {
    var event := nostr.parseEvent(request);
    event.Some? && ValidateZapRequest(nostr, event.value, amountMsats).Ok?
  }

  // ---------- Receipts ----------

  function CopiedTag(request: Event, kind: string): seq<Tag> {
    match FindTag(request.tags, kind)
    case Some(tag) => [tag]
    case None => []
  }

  /** The invoice, the request, and the preimage if there is one. */
  function InvoiceTags(requestJson: string, bolt11: string, preimage: string): seq<Tag> {
    var head: seq<Tag> := [["bolt11", bolt11], ["description", requestJson]];
    if preimage != "" then head + [["preimage", preimage]] else head
  }

  function ReceiptTags(request: Event, requestJson: string, bolt11: string, preimage: string): seq<Tag> {
    var sender: seq<Tag> := [["P", request.pubkey]];
    InvoiceTags(requestJson, bolt11, preimage)
      + CopiedTag(request, "p") + CopiedTag(request, "e") + CopiedTag(request, "a") + sender
  }

  /** Whole seconds since the epoch, not below zero. */
  function ReceiptTime(settledAt: Time): nat {
    if settledAt < 0 then 0 else settledAt / MICROS
  }

  function ZapReceipt(nostr: Nostr, request: Event, requestJson: string, bolt11: string, preimage: string,
                      settledAt: Time): Event {
    Event(ZAP_RECEIPT_KIND, nostr.serverKey, ReceiptTime(settledAt),
      ReceiptTags(request, requestJson, bolt11, preimage), "")
  }

  /** The tags copied so far, in the order p, e, a. */
  ghost function CopiedTags(request: Event, copied: nat): seq<Tag> {
    (if copied > 0 then CopiedTag(request, "p") else [])
      + (if copied > 1 then CopiedTag(request, "e") else [])
      + (if copied > 2 then CopiedTag(request, "a") else [])
  }

  function CopiedKind(i: nat): string {
    if i == 0 then "p" else if i == 1 then "e" else "a"
  }

  lemma CopiedNext(request: Event, i: nat)
    requires i < 3
    ensures CopiedTags(request, i + 1) == CopiedTags(request, i) + CopiedTag(request, CopiedKind(i))
  {
  }

  lemma CopiedOne(tags: seq<Tag>, request: Event, kind: string)
    ensures var found := FindTag(request.tags, kind);
      tags + CopiedTag(request, kind) == if found.Some? then tags + [found.value] else tags
  {
  }

  lemma CopiedMore(head: seq<Tag>, request: Event, i: nat)
    requires i < 3
    ensures head + CopiedTags(request, i + 1) == head + CopiedTags(request, i) + CopiedTag(request, CopiedKind(i))
  {
    CopiedNext(request, i);
  }

  lemma CopiedAll(request: Event, requestJson: string, bolt11: string, preimage: string)
    ensures InvoiceTags(requestJson, bolt11, preimage) + CopiedTags(request, 3) + [["P", request.pubkey]]
      == ReceiptTags(request, requestJson, bolt11, preimage)
  {
    var head, sender := InvoiceTags(requestJson, bolt11, preimage), [["P", request.pubkey]];
    var p, e, a := CopiedTag(request, "p"), CopiedTag(request, "e"), CopiedTag(request, "a");
    assert head + (p + e + a) + sender == head + p + e + a + sender;
  }

  /** Pushes the first tag of each copied kind. */
  method CopyTags(request: Event, head: seq<Tag>) returns (tags: seq<Tag>)
    ensures tags == head + CopiedTags(request, 3)
  {
    tags := head;
    for i := 0 to 3
      invariant tags == head + CopiedTags(request, i)
    {
      CopiedOne(tags, request, CopiedKind(i));
      CopiedMore(head, request, i);
      var tag := FindTag(request.tags, CopiedKind(i));
      if tag.Some? {
        tags := tags + [tag.value];
      }
    }
  }

  method BuildZapReceipt(nostr: Nostr, request: Event, requestJson: string, bolt11: string, preimage: string,
                         settledAt: Time)
    returns (receipt: Event)
    ensures receipt == ZapReceipt(nostr, request, requestJson, bolt11, preimage, settledAt)
  {
    var tags: seq<Tag> := [["bolt11", bolt11], ["description", requestJson]];
    if preimage != "" {
      tags := tags + [["preimage", preimage]];
    }
    tags := CopyTags(request, tags);
    tags := tags + [["P", request.pubkey]];
    CopiedAll(request, requestJson, bolt11, preimage);
    receipt := Event(ZAP_RECEIPT_KIND, nostr.serverKey, ReceiptTime(settledAt), tags, "");
  }

  lemma {:induction false} FindTagConcat(left: seq<Tag>, right: seq<Tag>, kind: string)
    ensures FindTag(left + right, kind) == if FindTag(left, kind).Some? then FindTag(left, kind)
      else FindTag(right, kind)
  {
    if left == [] {
      assert left + right == right;
    } else {
      assert (left + right)[1..] == left[1..] + right;
      FindTagConcat(left[1..], right, kind);
    }
  }

  lemma {:induction false} FindTagKind(tags: seq<Tag>, kind: string)
    ensures FindTag(tags, kind).Some? ==> FindTag(tags, kind).value in tags && FindTag(tags, kind).value[0] == kind
    ensures FindTag(tags, kind).Some? <==> TagCount(tags, kind) > 0
  {
    if tags != [] {
      FindTagKind(tags[1..], kind);
    }
  }

  /** What NIP-57 clients read back from a receipt. */
  lemma ReceiptCommits(nostr: Nostr, request: Event, requestJson: string, bolt11: string, preimage: string,
                       settledAt: Time)
    ensures var receipt := ZapReceipt(nostr, request, requestJson, bolt11, preimage, settledAt);
      && TagValue(receipt, "bolt11") == Some(bolt11)
      && TagValue(receipt, "description") == Some(requestJson)
      && TagValue(receipt, "preimage") == (if preimage == "" then None else Some(preimage))
      && (forall kind :: kind in ["p", "e", "a"] ==> FindTag(receipt.tags, kind) == FindTag(request.tags, kind))
      && TagValue(receipt, "P") == Some(request.pubkey)
      && receipt.kind == 9735 && receipt.pubkey == nostr.serverKey
      && (settledAt >= 0 ==> receipt.createdAt * 1_000_000 <= settledAt < (receipt.createdAt + 1) * 1_000_000)
  {
    ReceiptTag(request, requestJson, bolt11, preimage, "bolt11");
    ReceiptTag(request, requestJson, bolt11, preimage, "description");
    ReceiptTag(request, requestJson, bolt11, preimage, "preimage");
    ReceiptTag(request, requestJson, bolt11, preimage, "P");
    forall kind | kind in ["p", "e", "a"]
      ensures FindTag(ReceiptTags(request, requestJson, bolt11, preimage), kind) == FindTag(request.tags, kind)
    {
      ReceiptTag(request, requestJson, bolt11, preimage, kind);
    }
  }

  lemma CopiedTagFinds(request: Event, copied: string, kind: string)
    ensures FindTag(CopiedTag(request, copied), kind) == if copied == kind then FindTag(request.tags, kind) else None
  {
    FindTagKind(request.tags, copied);
    if FindTag(request.tags, copied).Some? {
      assert CopiedTag(request, copied)[1..] == [];
    }
  }

  lemma InvoiceTag(requestJson: string, bolt11: string, preimage: string, kind: string)
    ensures FindTag(InvoiceTags(requestJson, bolt11, preimage), kind)
        == if kind == "bolt11" then Some(["bolt11", bolt11])
           else if kind == "description" then Some(["description", requestJson])
           else if kind == "preimage" && preimage != "" then Some(["preimage", preimage])
           else None
  {
    var first, second, third := ["bolt11", bolt11], ["description", requestJson], ["preimage", preimage];
    FindTagConcat([first], [second], kind);
    FindTagConcat([first, second], [third], kind);
    FindOnlyTag(first, kind);
    FindOnlyTag(second, kind);
    FindOnlyTag(third, kind);
    assert [first] + [second] == [first, second];
  }

  lemma FindOnlyTag(tag: Tag, kind: string)
    ensures FindTag([tag], kind) == if tag[0] == kind then Some(tag) else None
  {
    assert [tag][1..] == [];
  }

  lemma ReceiptTag(request: Event, requestJson: string, bolt11: string, preimage: string, kind: string)
    requires kind in ["bolt11", "description", "preimage", "p", "e", "a", "P"]
    ensures FindTag(ReceiptTags(request, requestJson, bolt11, preimage), kind)
        == if kind == "bolt11" then Some(["bolt11", bolt11])
           else if kind == "description" then Some(["description", requestJson])
           else if kind == "preimage" then (if preimage == "" then None else Some(["preimage", preimage]))
           else if kind == "P" then Some(["P", request.pubkey])
           else FindTag(request.tags, kind)
  {
    var head := InvoiceTags(requestJson, bolt11, preimage);
    var sender: seq<Tag> := [["P", request.pubkey]];
    var p, e, a := CopiedTag(request, "p"), CopiedTag(request, "e"), CopiedTag(request, "a");
    FindTagConcat(head + p + e + a, sender, kind);
    FindTagConcat(head + p + e, a, kind);
    FindTagConcat(head + p, e, kind);
    FindTagConcat(head, p, kind);
    InvoiceTag(requestJson, bolt11, preimage, kind);
    CopiedTagFinds(request, "p", kind);
    CopiedTagFinds(request, "e", kind);
    CopiedTagFinds(request, "a", kind);
    FindOnlyTag(sender[0], kind);
  }

  // ---------- Publishing one receipt ----------

  datatype PublishError = StoredRequestInvalid | StoredRequestLacksRelays | SendFailed

  /** The receipt to send, or why there is none. */
  function ReceiptToSend(nostr: Nostr, request: string, bolt11: string, preimage: string,
                         settledAt: Time): Result<Event, PublishError> {
    match nostr.parseEvent(request)
    case None => Err(StoredRequestInvalid)
    case Some(event) =>
      if SelectRelays(nostr, event) == [] then Err(StoredRequestLacksRelays)
      else Ok(ZapReceipt(nostr, event, request, bolt11, preimage, settledAt))
  }

  /** A request that was accepted when its invoice was issued never fails publication for its own sake. */
  lemma AcceptedRequestPublishes(nostr: Nostr, request: string, amountMsats: nat, bolt11: string, preimage: string,
                                 settledAt: Time)
    requires AcceptedRequest(nostr, request, amountMsats)
    ensures ReceiptToSend(nostr, request, bolt11, preimage, settledAt).Ok?
    ensures exists relay :: ListsPublic(nostr, nostr.parseEvent(request).value, relay)
    ensures TagValue(ReceiptToSend(nostr, request, bolt11, preimage, settledAt).value, "description") == Some(request)
  {
    var event := nostr.parseEvent(request).value;
    SelectRelaysMeaning(nostr, event);
    assert SelectRelays(nostr, event)[0] in SelectRelays(nostr, event);
    ReceiptCommits(nostr, event, request, bolt11, preimage, settledAt);
  }
}

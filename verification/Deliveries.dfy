/**
 Receipts that get through: a round of the publisher with willing relays records a receipt for every zap that waits for
 one, and a zap request that is stored with its invoice and then paid ends with its receipt at the relays, whatever the
 publisher was doing.
 */
module Deliveries {
  import opened Wrappers
  import opened Barkd
  import opened Ledger
  import opened Receipts
  import opened Publishing
  import opened Server
  import opened ServerInvariant
  import opened Guarantees
  import opened Scenarios
  import opened Races
  import opened Requests

  lemma PublisherSteps(cfg: Config, start: State, s: State, move: PublisherStep) returns (s': State)
    requires Follows(cfg, start, s) && CanPublish(cfg, s, move)
    ensures Follows(cfg, start, s') && s' == Publish(cfg, s, move)
  {
    FollowsStep(cfg, start, s, PublisherMoves(move));
    s' := Do(cfg, s, PublisherMoves(move));
  }

  /** Only the publisher has moved, and it has written nothing. */
  ghost predicate OnlyPublisher(s: State, s': State) {
    s'.now == s.now && s'.db == s.db && s'.tasks == s.tasks && s'.wallet == s.wallet
  }

  /** From whatever it is doing, the publisher can get to its next load. */
  lemma {:induction false} GetsLoading(cfg: Config, start: State, s: State) returns (s': State)
    requires Follows(cfg, start, s)
    ensures Follows(cfg, start, s') && s'.publisher == Loading && OnlyPublisher(s, s')
    decreases if s.publisher.Working? then |s.publisher.jobs| else 0
  {
    match s.publisher
    case Loading => s' := s;
    case LoadingArkade(_) => s' := ParksAndWakes(cfg, start, s, LoadFails);
    case Working(jobs) =>
      if jobs == [] {
        s' := ParksAndWakes(cfg, start, s, Finish);
      } else {
        s' := PublisherSteps(cfg, start, s, SkipJob(false));
        s' := GetsLoading(cfg, start, s');
      }
    case Writing(_, _, _) => s' := ParksAndWakes(cfg, start, s, WriteFails);
    case Parked(_) => s' := PublisherSteps(cfg, start, s, WakeByTimer);
  }

  lemma ParksAndWakes(cfg: Config, start: State, s: State, move: PublisherStep) returns (s': State)
    requires Follows(cfg, start, s) && CanPublish(cfg, s, move) && move in {LoadFails, Finish, WriteFails}
    ensures Follows(cfg, start, s') && s'.publisher == Loading && OnlyPublisher(s, s')
  {
    s' := PublisherSteps(cfg, start, s, move);
    s' := PublisherSteps(cfg, start, s', WakeByTimer);
  }

  // ---------- What a load returns ----------

  lemma InsertsDue(due: seq<Due>, next: Due) returns (k: nat, more: seq<Due>)
    requires next.row.settledAt.Some? && forall i :: 0 <= i < |due| ==> due[i].row.settledAt.Some?
    requires forall i, j :: 0 <= i < j < |due| ==> due[i].row.settledAt.value <= due[j].row.settledAt.value
    ensures InsertedAt(due, next, k, more)
  {
    k := |due|;
    while k > 0 && next.row.settledAt.value < due[k - 1].row.settledAt.value
      invariant k <= |due|
      invariant forall i :: k <= i < |due| ==> next.row.settledAt.value < due[i].row.settledAt.value
    {
      k := k - 1;
    }
    more := due[..k] + [next] + due[k..];
  }

  lemma {:induction false} DueBelow(zaps: map<Id, Zap>, t: Table<Invoice>, since: Time, upTo: Id)
    returns (due: seq<Due>)
    requires Keyed(t)
    ensures DueRows(zaps, t, since, upTo, due)
    ensures forall id: Id :: id < upTo && IsDue(zaps, t, since, id) ==> HasRow(due, id)
  {
    if upTo == 0 {
      due := [];
    } else {
      due := DueBelow(zaps, t, since, upTo - 1);
      if IsDue(zaps, t, since, upTo - 1) {
        var before, next := due, Due(zaps[upTo - 1], t.rows[upTo - 1]);
        var k, more := InsertsDue(before, next);
        InsertKeepsDueRows(zaps, t, since, upTo - 1, before, k, more);
        forall id: Id | HasRow(before, id) || id == upTo - 1 ensures HasRow(more, id) {
          InsertedHasRows(before, next, k, more, id);
        }
        due := more;
      }
    }
  }

  lemma LoadReturns(db: Db, kind: Kind, now: Time) returns (jobs: seq<Job>)
    requires !kind.NameRow? && Keyed(TableOf(db, kind))
    ensures IsLoad(db, kind, now, jobs)
  {
    var t, zaps, since := TableOf(db, kind), ZapsOf(db, kind), now - RETRY_WINDOW;
    var due := DueBelow(zaps, t, since, t.next);
    jobs := seq(|due|, i requires 0 <= i < |due| => Job(Key(kind, due[i].row.id), due[i].zap, due[i].row));
    forall id | Unpublished(db, kind, now, id) ensures exists i :: 0 <= i < |jobs| && jobs[i].key.id == id {
      assert HasRow(due, id);
      var i :| 0 <= i < |due| && due[i].row.id == id;
      assert jobs[i].key.id == id;
    }
  }

  // ---------- A round ----------

  /** The first job is sent and recorded. */
  lemma PublishesFirst(cfg: Config, start: State, s: State) returns (s': State)
    requires Follows(cfg, start, s) && s.publisher.Working? && s.publisher.jobs != []
      && JobOk(s.db, s.publisher.jobs[0])
    requires ReceiptFor(cfg, s.publisher.jobs[0].zap.request, s.publisher.jobs[0].row).Some?
    ensures Follows(cfg, start, s') && s'.publisher == Working(s.publisher.jobs[1..])
    ensures s'.now == s.now && s'.tasks == s.tasks && s'.wallet == s.wallet
    ensures var Job(key, zap, row) := s.publisher.jobs[0];
      var eventId := cfg.nostr.eventId(ReceiptFor(cfg, zap.request, row).value);
      var zaps := ZapsOf(s.db, key.kind);
      s'.db == WithZaps(s.db, key.kind, zaps[key.id := zaps[key.id].(eventId := Some(eventId))])
  {
    s' := PublisherSteps(cfg, start, s, SendReceipt);
    s' := PublisherSteps(cfg, start, s', WriteEventId);
  }

  lemma FirstJobReady(cfg: Config, s: State)
    requires Reachable(cfg, s) && s.publisher.Working? && s.publisher.jobs != []
    ensures JobOk(s.db, s.publisher.jobs[0])
    ensures ReceiptFor(cfg, s.publisher.jobs[0].zap.request, s.publisher.jobs[0].row).Some?
  {
    ReachablePublisher(cfg, s);
    var job := s.publisher.jobs[0];
    assert JobOk(s.db, job);
    SettledZapsPublish(cfg, s, job.key.kind, job.key.id);
  }

  /** Rows are as before, and so are the zaps other than these, which now have their event ids. */
  ghost predicate Records(db: Db, keys: set<Key>, db': Db) {
    && db' == db.(zaps := db'.zaps, arkadeZaps := db'.arkadeZaps)
    && RecordsIn(db, BarkRow, keys, db') && RecordsIn(db, ArkadeRow, keys, db')
  }

  ghost predicate RecordsIn(db: Db, kind: Kind, keys: set<Key>, db': Db) {
    && ZapsOf(db', kind).Keys == ZapsOf(db, kind).Keys
    && forall id :: id in ZapsOf(db, kind) ==>
         && ZapsOf(db', kind)[id] == ZapsOf(db, kind)[id].(eventId := ZapsOf(db', kind)[id].eventId)
         && (Key(kind, id) in keys ==> ZapsOf(db', kind)[id].eventId.Some?)
         && (Key(kind, id) !in keys ==> ZapsOf(db', kind)[id] == ZapsOf(db, kind)[id])
  }

  lemma RecordsOne(db: Db, key: Key, eventId: string)
    requires !key.kind.NameRow? && key.id in ZapsOf(db, key.kind)
    ensures var zaps := ZapsOf(db, key.kind);
      Records(db, {key}, WithZaps(db, key.kind, zaps[key.id := zaps[key.id].(eventId := Some(eventId))]))
  {
  }

  lemma RecordsCompose(db1: Db, keys1: set<Key>, db2: Db, keys2: set<Key>, db3: Db)
    requires Records(db1, keys1, db2) && Records(db2, keys2, db3)
    ensures Records(db1, keys1 + keys2, db3)
  {
  }

  lemma DeliversFirst(cfg: Config, start: State, s: State) returns (s': State)
    requires Reachable(cfg, start) && Follows(cfg, start, s) && s.publisher.Working? && s.publisher.jobs != []
    ensures Follows(cfg, start, s') && s'.publisher == Working(s.publisher.jobs[1..])
    ensures s'.now == s.now && s'.tasks == s.tasks && s'.wallet == s.wallet
    ensures Records(s.db, {s.publisher.jobs[0].key}, s'.db)
  {
    var job := s.publisher.jobs[0];
    ReachableOnwards(cfg, start, s);
    FirstJobReady(cfg, s);
    s' := PublishesFirst(cfg, start, s);
    RecordsOne(s.db, job.key, cfg.nostr.eventId(ReceiptFor(cfg, job.zap.request, job.row).value));
  }

  lemma KeysSplit(jobs: seq<Job>)
    requires jobs != []
    ensures KeysOf(jobs) == {jobs[0].key} + KeysOf(jobs[1..])
  {
    assert jobs == [jobs[0]] + jobs[1..];
  }

  /** The publisher works off what it has loaded. */
  lemma {:induction false} Delivers(cfg: Config, start: State, s: State) returns (s': State)
    requires Reachable(cfg, start) && Follows(cfg, start, s) && s.publisher.Working?
    ensures Follows(cfg, start, s') && s'.publisher == Parked(true)
    ensures s'.now == s.now && s'.tasks == s.tasks && s'.wallet == s.wallet
    ensures Records(s.db, KeysOf(s.publisher.jobs), s'.db)
    decreases |s.publisher.jobs|
  {
    var jobs := s.publisher.jobs;
    if jobs == [] {
      s' := PublisherSteps(cfg, start, s, Finish);
    } else {
      var s1 := DeliversFirst(cfg, start, s);
      s' := Delivers(cfg, start, s1);
      RecordsCompose(s.db, {jobs[0].key}, s1.db, KeysOf(jobs[1..]), s'.db);
      KeysSplit(jobs);
    }
  }

  lemma LoadedKeys(s: State, kind: Kind, jobs: seq<Job>, id: Id)
    requires IsLoad(s.db, kind, s.now, jobs) && !kind.NameRow?
    ensures Key(kind, id) in KeysOf(jobs) <==> AwaitsReceipt(s, kind, id)
  {
    if AwaitsReceipt(s, kind, id) {
      assert Unpublished(s.db, kind, s.now, id);
      var i :| 0 <= i < |jobs| && jobs[i].key.id == id;
      assert jobs[i] in jobs;
    }
  }

  lemma BothLoads(cfg: Config, start: State, s: State) returns (s': State)
    requires Reachable(cfg, start) && Follows(cfg, start, s) && s.publisher == Loading
    ensures Follows(cfg, start, s') && OnlyPublisher(s, s') && s'.publisher.Working?
    ensures forall kind: Kind, id | !kind.NameRow? ::
      Key(kind, id) in KeysOf(s'.publisher.jobs) <==> AwaitsReceipt(s, kind, id)
  {
    ReachableOnwards(cfg, start, s);
    ReachableInvoices(cfg, s, BarkRow);
    ReachableInvoices(cfg, s, ArkadeRow);
    var bark := LoadReturns(s.db, BarkRow, s.now);
    var arkade := LoadReturns(s.db, ArkadeRow, s.now);
    s' := PublisherSteps(cfg, start, s, LoadBark(bark));
    s' := PublisherSteps(cfg, start, s', LoadArkade(arkade));
    forall kind: Kind, id | !kind.NameRow?
      ensures Key(kind, id) in KeysOf(bark + arkade) <==> AwaitsReceipt(s, kind, id)
    {
      JobsOfKind(s, bark, arkade, kind, id);
    }
  }

  lemma JobsOfKind(s: State, bark: seq<Job>, arkade: seq<Job>, kind: Kind, id: Id)
    requires IsLoad(s.db, BarkRow, s.now, bark) && IsLoad(s.db, ArkadeRow, s.now, arkade) && !kind.NameRow?
    ensures Key(kind, id) in KeysOf(bark + arkade) <==> AwaitsReceipt(s, kind, id)
  {
    LoadedKeys(s, kind, if kind.BarkRow? then bark else arkade, id);
    assert forall job :: job in bark + arkade <==> job in bark || job in arkade;
    assert forall job :: job in bark ==> job.key.kind == BarkRow;
    assert forall job :: job in arkade ==> job.key.kind == ArkadeRow;
  }

  /** The state after a round that got through: exactly the zaps that waited have a receipt now, and relays have it. */
  ghost predicate AllDelivered(s: State, s': State) {
    && s'.db == s.db.(zaps := s'.db.zaps, arkadeZaps := s'.db.arkadeZaps)
    && forall kind: Kind, id | !kind.NameRow? && id in ZapsOf(s.db, kind) ::
         && id in ZapsOf(s'.db, kind)
         && ZapsOf(s'.db, kind)[id] == ZapsOf(s.db, kind)[id].(eventId := ZapsOf(s'.db, kind)[id].eventId)
         && (AwaitsReceipt(s, kind, id) ==>
               && ZapsOf(s'.db, kind)[id].eventId.Some?
               && (Key(kind, id), ZapsOf(s'.db, kind)[id].eventId.value) in s'.sent)
         && (!AwaitsReceipt(s, kind, id) ==> ZapsOf(s'.db, kind)[id] == ZapsOf(s.db, kind)[id])
  }

  lemma RecordedAreDelivered(cfg: Config, s: State, keys: set<Key>, s': State)
    requires Reachable(cfg, s') && Records(s.db, keys, s'.db)
    requires forall kind: Kind, id | !kind.NameRow? :: Key(kind, id) in keys <==> AwaitsReceipt(s, kind, id)
    ensures AllDelivered(s, s')
  {
    ReachablePublisher(cfg, s');
    forall kind: Kind, id | !kind.NameRow? && id in ZapsOf(s.db, kind)
      ensures id in ZapsOf(s'.db, kind)
        && ZapsOf(s'.db, kind)[id] == ZapsOf(s.db, kind)[id].(eventId := ZapsOf(s'.db, kind)[id].eventId)
      ensures AwaitsReceipt(s, kind, id) ==>
        ZapsOf(s'.db, kind)[id].eventId.Some? && (Key(kind, id), ZapsOf(s'.db, kind)[id].eventId.value) in s'.sent
      ensures !AwaitsReceipt(s, kind, id) ==> ZapsOf(s'.db, kind)[id] == ZapsOf(s.db, kind)[id]
    {
      assert RecordsIn(s.db, kind, keys, s'.db);
    }
  }

  /**
   A round that nobody interrupts, with relays that accept: it loads, sends and records, and parks with a receipt for
   every zap that waited for one. No other zap is touched.
   */
  lemma UninterruptedRound(cfg: Config, start: State, s: State) returns (s': State)
    requires Reachable(cfg, start) && Follows(cfg, start, s) && s.publisher == Loading
    ensures Follows(cfg, start, s') && s'.publisher == Parked(true)
    ensures s'.now == s.now && s'.tasks == s.tasks && s'.wallet == s.wallet && AllDelivered(s, s')
  {
    var s1 := BothLoads(cfg, start, s);
    s' := Delivers(cfg, start, s1);
    ReachableOnwards(cfg, start, s');
    RecordedAreDelivered(cfg, s, KeysOf(s1.publisher.jobs), s');
  }

  // ---------- From the request to the receipt ----------

  /** Relays have a receipt for this zap that commits to its request, invoice and preimage, and it is recorded. */
  ghost predicate ReceiptDelivered(cfg: Config, s: State, key: Key, request: string, bolt11: string, preimage: string) {
    !key.kind.NameRow? && key.id in ZapsOf(s.db, key.kind) && exists receipt ::
      && (key, cfg.nostr.eventId(receipt)) in s.sent
      && ZapsOf(s.db, key.kind)[key.id].eventId == Some(cfg.nostr.eventId(receipt))
      && TagValue(receipt, "description") == Some(request)
      && TagValue(receipt, "bolt11") == Some(bolt11)
      && TagValue(receipt, "preimage") == (if preimage == "" then None else Some(preimage))
  }

  lemma WaitingZapIsDelivered(cfg: Config, start: State, s: State, key: Key) returns (s': State)
    requires Reachable(cfg, start) && Follows(cfg, start, s) && !key.kind.NameRow? && AwaitsReceipt(s, key.kind, key.id)
    ensures Follows(cfg, start, s') && s'.tasks == s.tasks
    ensures var row := TableOf(s.db, key.kind).rows[key.id];
      ReceiptDelivered(cfg, s', key, ZapsOf(s.db, key.kind)[key.id].request, row.bolt11.encoded, row.preimage)
  {
    var s1 := GetsLoading(cfg, start, s);
    s' := UninterruptedRound(cfg, start, s1);
    assert AwaitsReceipt(s1, key.kind, key.id);
    ReachableOnwards(cfg, start, s');
    ReachableOnwards(cfg, start, s);
    SentReceiptsAreFaithful(cfg, s', key, ZapsOf(s'.db, key.kind)[key.id].eventId.value);
  }

  /** The invoice and its zap are stored together. */
  lemma Issues(cfg: Config, s: State, kind: Kind, row: Invoice, request: string) returns (s': State)
    requires CanIssue(cfg, s.db, kind, row, Some(request))
    ensures Follows(cfg, s, s') && s'.tasks == s.tasks && s'.now == s.now && s'.wallet == s.wallet
    ensures row.id in TableOf(s'.db, kind).rows && TableOf(s'.db, kind).rows[row.id] == row
    ensures row.id in ZapsOf(s'.db, kind) && ZapsOf(s'.db, kind)[row.id] == Zap(row.id, request, None)
  {
    FollowsItself(cfg, s);
    FollowsStep(cfg, s, s, IssueInvoice(kind, row, Some(request)));
    s' := Do(cfg, s, IssueInvoice(kind, row, Some(request)));
  }

  lemma PreimageShows(cfg: Config, start: State, s: State, hash: string, preimage: string) returns (s': State)
    requires Follows(cfg, start, s)
    ensures Follows(cfg, start, s') && s'.tasks == s.tasks && s'.now == s.now && s'.db == s.db
    ensures hash in s'.wallet.receives && s'.wallet.receives[hash] == Receive(hash, "settled", Some(preimage))
  {
    FollowsStep(cfg, start, s, SetReceive(Receive(hash, "settled", Some(preimage))));
    s' := Do(cfg, s, SetReceive(Receive(hash, "settled", Some(preimage))));
  }

  /**
   From the request to the receipt: a Bark invoice that can be issued for a zap request is stored with it, paid, claimed
   and published in some run that leaves all other tasks alone, whatever state the server is in.
   */
  lemma PaidZapIsDelivered(cfg: Config, s: State, row: Invoice, request: string, preimage: string) returns (s': State)
    requires Reachable(cfg, s) && CanIssue(cfg, s.db, BarkRow, row, Some(request))
    ensures Follows(cfg, s, s') && s'.tasks == s.tasks
    ensures ReceiptDelivered(cfg, s', Key(BarkRow, row.id), request, row.bolt11.encoded, preimage)
  {
    var s1 := Issues(cfg, s, BarkRow, row, request);
    var s2 := PreimageShows(cfg, s, s1, row.bolt11.paymentHash, preimage);
    ReachableOnwards(cfg, s, s2);
    ReachableInvoices(cfg, s2, BarkRow);
    var s3 := RevealedRowSettles(cfg, s, s2, row.id, preimage);
    s' := WaitingZapIsDelivered(cfg, s, s3, Key(BarkRow, row.id));
  }

  lemma ClaimedRowSettles(cfg: Config, start: State, s: State, id: Id, preimage: string) returns (s': State)
    requires Follows(cfg, start, s) && IsPending(s.db.arkade, id) && Keyed(s.db.arkade)
    requires var row := s.db.arkade.rows[id];
      s.now <= row.bolt11.expiry && (row.expiresAt.Some? ==> s.now < row.expiresAt.value)
    ensures Follows(cfg, start, s') && s'.tasks == s.tasks && Quiet(s, s')
    ensures s'.db == s.db.(arkade := s.db.arkade.(rows := s.db.arkade.rows[id :=
      s.db.arkade.rows[id].(state := Settled, preimage := preimage, settledAt := Some(s.now))]))
  {
    var tid := UnusedTask(s);
    FollowsStep(cfg, start, s, StartArkade(tid, id));
    var s1 := Do(cfg, s, StartArkade(tid, id));
    s' := UninterruptedArkadeClaim(cfg, s1, tid, preimage);
    FollowsOn(cfg, start, s1, s');
  }

  /** The same for an Arkade invoice that has not expired, with whatever preimage its swap yields. */
  lemma ClaimedZapIsDelivered(cfg: Config, s: State, row: Invoice, request: string, preimage: string)
    returns (s': State)
    requires Reachable(cfg, s) && CanIssue(cfg, s.db, ArkadeRow, row, Some(request))
    requires s.now <= row.bolt11.expiry && (row.expiresAt.Some? ==> s.now < row.expiresAt.value)
    ensures Follows(cfg, s, s') && s'.tasks == s.tasks
    ensures ReceiptDelivered(cfg, s', Key(ArkadeRow, row.id), request, row.bolt11.encoded, preimage)
  {
    var s1 := Issues(cfg, s, ArkadeRow, row, request);
    ReachableOnwards(cfg, s, s1);
    ReachableInvoices(cfg, s1, ArkadeRow);
    var s2 := ClaimedRowSettles(cfg, s, s1, row.id, preimage);
    s' := WaitingZapIsDelivered(cfg, s, s2, Key(ArkadeRow, row.id));
  }
}

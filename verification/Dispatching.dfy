/** The outbox dispatcher's loop, run against the shared system with everybody else interleaving. */
module Dispatching {
  import opened Rows
  import opened Protocol
  import opened Agents
  import opened Platform

  /** How one DispatchPending call ends. */
  datatype Report = Report(token: nat, batch: seq<EventId>, marked: nat, error: bool)

  /** The outbox of a lone dispatcher that has marked the first `i` rows of its batch: those are published, the rest of
      the batch is reserved under its token, all other rows are as before. */
  function InProgress(outbox: OutboxTable, batch: seq<EventId>, token: nat, stamp: nat, now: nat, i: nat): OutboxTable
    requires i <= |batch|
  {
    map e | e in outbox ::
      if e in batch[..i] then outbox[e].(publishedAt := Some(now), token := None, dispatchingAt := None)
      else if e in batch[i..] then outbox[e].(token := Some(token), dispatchingAt := Some(stamp))
      else outbox[e]
  }

  lemma ProgressStart(outbox: OutboxTable, batch: seq<EventId>, token: nat, stamp: nat, now: nat)
    ensures InProgress(outbox, batch, token, stamp, now, 0) == ReservedOutbox(outbox, batch, token, stamp)
    ensures batch == [] ==> ReservedOutbox(outbox, batch, token, stamp) == outbox
  {
    assert batch[0..] == batch;
  }

  lemma ProgressStep(outbox: OutboxTable, batch: seq<EventId>, token: nat, stamp: nat, now: nat, i: nat)
    requires Distinct(batch) && i < |batch|
    requires forall e | e in batch :: e in outbox && outbox[e].publishedAt.None?
    ensures var progress := InProgress(outbox, batch, token, stamp, now, i);
            batch[i] in progress && Reserved(progress[batch[i]], token)
    ensures PublishedOutbox(InProgress(outbox, batch, token, stamp, now, i), batch[i], token, now)
            == InProgress(outbox, batch, token, stamp, now, i + 1)
  {
    assert batch[..i + 1] == batch[..i] + [batch[i]] && batch[i..] == [batch[i]] + batch[i + 1..];
  }

  /** What a lone dispatcher never changes. */
  ghost predicate Untouched(s: State, s': State, token: nat) {
    && s'.now == s.now && s'.events == s.events && s'.letters == s.letters && s'.handlings == s.handlings
    && s'.retries == s.retries && s'.replays == s.replays
    && s'.rounds - {token} == s.rounds - {token}
  }

  /** How one item went: the confirm, whether the broker has the message, the mark's reply, and whether it matched. */
  datatype ItemReport = ItemReport(confirmed: bool, enqueued: bool, db: Db, ok: bool)

  function OutboxAfter(outbox: OutboxTable, e: EventId, token: nat, now: nat, item: ItemReport): OutboxTable {
    if item.db.Refused? then outbox
    else if item.confirmed then PublishedOutbox(outbox, e, token, now) else RejectedOutbox(outbox, e, token)
  }

  function BrokerAfter(broker: map<nat, Message>, nextId: nat, item: Item, enqueued: bool): map<nat, Message> {
    if enqueued then broker[nextId := Message(item.event, item.content, None)] else broker
  }

  method PublishItem(system: System, token: nat, ghost since: Run) returns (confirmed: bool, ghost enqueued: bool)
    requires system.Valid() && Follows(system.run, since, system.alone) && token < system.nextId
    requires Standing(system.Snapshot(), token, Unpublished)
    modifies system
    ensures system.Valid() && Follows(system.run, since, system.alone) && token < system.nextId
    ensures token in system.rounds
    ensures system.rounds[token] == old(system.rounds)[token].(stage := if confirmed then Published else Rejected)
    ensures confirmed ==> enqueued
    ensures system.healthy ==> confirmed
    ensures system.alone ==>
              && system.nextId == old(system.nextId) + 1 && system.outbox == old(system.outbox)
              && Untouched(old(system.Snapshot()), system.Snapshot(), token)
              && system.broker == BrokerAfter(old(system.broker), old(system.nextId),
                   old(system.rounds)[token].items[0], enqueued)
  {
    hide Protocol.Valid; hide Last; hide Continues;
    system.Interfere({token});
    confirmed, enqueued := system.Publish(token);
    system.Interfere({token});
  }

  /** The broker after one message for each of `items`, in order. */
  function SentBroker(broker: map<nat, Message>, first: nat, items: seq<Item>): map<nat, Message> {
    if items == [] then broker
    else
      var last := items[|items| - 1];
      SentBroker(broker, first, items[..|items| - 1])[first + |items| - 1 := Message(last.event, last.content, None)]
  }

  lemma SentStep(broker: map<nat, Message>, first: nat, items: seq<Item>, i: nat, enqueued: bool)
    requires i < |items|
    ensures BrokerAfter(SentBroker(broker, first, items[..i]), first + i, items[i], enqueued)
            == SentBroker(broker, first, items[..if enqueued then i + 1 else i])
  {
    assert items[..i + 1][..i] == items[..i];
  }

  /** Publish the first item left and mark the outcome; unless it is published and marked the call is over. */
  method DispatchItem(system: System, token: nat, ghost since: Run)
      returns (more: bool, error: bool, ghost item: ItemReport)
    requires system.Valid() && Follows(system.run, since, system.alone) && token < system.nextId
    requires Standing(system.Snapshot(), token, Unpublished)
    modifies system
    ensures system.Valid() && Follows(system.run, since, system.alone) && token < system.nextId
    ensures more == (item.confirmed && item.ok) && error == (item.confirmed && !item.ok)
    ensures Find(system.rounds, token) == if more then Find(Advanced(old(system.rounds), token), token) else None
    ensures system.alone ==>
              var first := old(system.rounds)[token].items[0];
              && system.nextId == old(system.nextId) + 1
              && Untouched(old(system.Snapshot()), system.Snapshot(), token)
              && system.outbox == OutboxAfter(old(system.outbox), first.event, token, system.now, item)
              && system.broker == BrokerAfter(old(system.broker), old(system.nextId), first, item.enqueued)
              && (item.ok ==> item.db.Done?)
    ensures item.confirmed ==> item.enqueued
    ensures system.alone && system.healthy ==>
              var e := old(system.rounds)[token].items[0].event;
              item.confirmed && (e in old(system.outbox) && Reserved(old(system.outbox)[e], token) ==> item.ok)
  {
    hide Protocol.Valid; hide Last; hide Continues; hide PublishedOutbox; hide RejectedOutbox;
    var confirmed, enqueued := PublishItem(system, token, since);
    if confirmed {
      var ok, db := system.MarkOutboxPublished(token);
      more, error, item := ok, !ok, ItemReport(confirmed, enqueued, db, ok);
    } else {
      var db := system.MarkOutboxFailed(token);
      more, error, item := false, false, ItemReport(confirmed, enqueued, db, false);
    }
  }

  /** The rows of a lone dispatcher's batch after it stopped: marked, at most one in doubt, not reached. The row in
      doubt is still reserved if its mark never reached the table; else it is freed with one more attempt after a failed
      publish, and published after a mark whose reply was lost. */
  ghost predicate SplitAt(before: OutboxTable, after: OutboxTable, report: Report, now: nat) {
    && report.marked <= |report.batch| && after.Keys == before.Keys
    && (forall e | e in report.batch :: e in before)
    && (forall e | e in before && e !in report.batch :: after[e] == before[e])
    && (forall i | 0 <= i < report.marked :: after[report.batch[i]] == PublishedRow(before[report.batch[i]], now))
    && (forall i | report.marked < i < |report.batch| ::
          after[report.batch[i]] == ReservedRow(before[report.batch[i]], report.token, now))
    && (report.error ==> report.marked < |report.batch|)
    && (report.marked < |report.batch| ==>
          var row, row' := before[report.batch[report.marked]], after[report.batch[report.marked]];
          || row' == ReservedRow(row, report.token, now)
          || row' == if report.error then PublishedRow(row, now)
                     else row.(attempts := row.attempts + 1, token := None, dispatchingAt := None))
  }

  function PublishedRow(row: OutboxRow, now: nat): OutboxRow {
    row.(publishedAt := Some(now), token := None, dispatchingAt := None)
  }

  function ReservedRow(row: OutboxRow, token: nat, now: nat): OutboxRow {
    row.(token := Some(token), dispatchingAt := Some(now))
  }

  lemma ProgressSplits(before: OutboxTable, report: Report, now: nat, item: ItemReport)
    requires Distinct(report.batch) && report.marked <= |report.batch|
    requires forall e | e in report.batch :: e in before && before[e].publishedAt.None?
    requires report.error == (report.marked < |report.batch| && item.confirmed)
    ensures var progress := InProgress(before, report.batch, report.token, now, now, report.marked);
            && (report.marked == |report.batch| ==> SplitAt(before, progress, report, now))
            && (report.marked < |report.batch| ==>
                  var e := report.batch[report.marked];
                  SplitAt(before, OutboxAfter(progress, e, report.token, now, item), report, now))
  {
    var batch, k := report.batch, report.marked;
    ProgressRows(before, batch, report.token, now, k);
    hide InProgress;
    if k < |batch| {
      var progress := InProgress(before, batch, report.token, now, now, k);
      DoubtRow(progress, batch[k], before[batch[k]], report.token, now, item);
      hide OutboxAfter;
    }
  }

  /** The row whose mark was attempted: reserved before, and one of three things after. */
  lemma DoubtRow(outbox: OutboxTable, e: EventId, row: OutboxRow, token: nat, now: nat, item: ItemReport)
    requires e in outbox && outbox[e] == ReservedRow(row, token, now) && row.publishedAt.None?
    ensures var after := OutboxAfter(outbox, e, token, now, item);
            && after.Keys == outbox.Keys && (forall f | f in outbox && f != e :: after[f] == outbox[f])
            && (|| after[e] == ReservedRow(row, token, now)
                || after[e] == if item.confirmed then PublishedRow(row, now)
                               else row.(attempts := row.attempts + 1, token := None, dispatchingAt := None))
  {
  }

  lemma ProgressRows(before: OutboxTable, batch: seq<EventId>, token: nat, now: nat, k: nat)
    requires Distinct(batch) && k <= |batch| && forall e | e in batch :: e in before
    ensures var progress := InProgress(before, batch, token, now, now, k);
            && progress.Keys == before.Keys
            && (forall e | e in before && e !in batch :: progress[e] == before[e])
            && (forall i | 0 <= i < k :: progress[batch[i]] == PublishedRow(before[batch[i]], now))
            && (forall i | k <= i < |batch| :: progress[batch[i]] == ReservedRow(before[batch[i]], token, now))
  {
    assert forall i | 0 <= i < k :: batch[i] in batch[..k];
    assert forall i | k <= i < |batch| :: batch[i] in batch[k..] && batch[i] !in batch[..k];
  }

  /** How many messages a call has sent: one per marked row, and one for the row in doubt if the broker took it, as it
      did whenever the mark is what failed. */
  ghost predicate Sent(report: Report, sent: nat) {
    && report.marked <= sent <= report.marked + 1 && sent <= |report.batch|
    && (report.error ==> sent == report.marked + 1)
  }

  /** The loop over a claimed batch; `outbox` is the table before the claim. */
  method DispatchBatch(system: System, token: nat, batch: seq<EventId>, ghost outbox: OutboxTable, ghost since: Run)
    returns (report: Report, ghost sent: nat)
    requires system.Valid() && Follows(system.run, since, system.alone) && token < system.nextId && batch != []
    requires Distinct(batch) && forall e | e in batch :: e in outbox && outbox[e].publishedAt.None?
    requires Find(system.rounds, token) == Some(Round(BatchItems(outbox, batch), Unpublished))
    requires system.alone ==> system.outbox == InProgress(outbox, batch, token, system.now, system.now, 0)
    modifies system
    ensures system.Valid() && Follows(system.run, since, system.alone)
    ensures token !in system.rounds
    ensures report.token == token && report.batch == batch && report.marked <= |batch|
    ensures system.alone ==>
              && SplitAt(outbox, system.outbox, report, system.now) && Sent(report, sent)
              && Untouched(old(system.Snapshot()), system.Snapshot(), token)
              && system.broker == SentBroker(old(system.broker), old(system.nextId), BatchItems(outbox, batch)[..sent])
    ensures system.alone && system.healthy ==> report.marked == |batch| && !report.error
  {
    hide Protocol.Valid; hide Last; hide Continues; hide Follows; hide PublishedOutbox; hide RejectedOutbox;
    hide InProgress; hide SplitAt; hide SentBroker; hide BrokerAfter;
    ghost var items := BatchItems(outbox, batch);
    ghost var broker, first := system.broker, system.nextId;
    NothingSent(broker, first, items);
    var i := 0;
    while i < |batch|
      invariant 0 <= i <= |batch| == |items|
      invariant system.Valid() && Follows(system.run, since, system.alone) && token < system.nextId
      invariant if i < |batch| then Find(system.rounds, token) == Some(Round(items[i..], Unpublished))
                else token !in system.rounds
      invariant system.alone ==>
                  && Untouched(old(system.Snapshot()), system.Snapshot(), token)
                  && system.nextId == first + i && system.broker == SentBroker(broker, first, items[..i])
                  && system.outbox == InProgress(outbox, batch, token, system.now, system.now, i)
    {
      ProgressStep(outbox, batch, token, system.now, system.now, i);
      var more, error, item := DispatchItem(system, token, since);
      SentStep(broker, first, items, i, item.enqueued);
      if !more {
        report, sent := Report(token, batch, i, error), if item.enqueued then i + 1 else i;
        ProgressSplits(outbox, report, system.now, item);
        return;
      }
      i := i + 1;
    }
    report, sent := Report(token, batch, i, false), i;
    ProgressSplits(outbox, report, system.now, ItemReport(false, false, Refused, false));
  }

  lemma NothingSent(broker: map<nat, Message>, first: nat, items: seq<Item>)
    ensures SentBroker(broker, first, items[..0]) == broker
  {
  }

  /** Claim a batch, publish and mark item by item, stop at the first failure. Every execution is a run of the protocol
      and leaves no round of its own behind. A lone dispatcher takes the lowest eligible ids and splits its batch into
      marked rows, at most one row whose publish or mark failed, and rows it has not reached, which still carry its
      token; every other row is as before, and the broker has gained exactly the messages sent. If the claim itself
      fails, nothing is sent, and no row or the whole would-be batch `reserved` is reserved. On a healthy system it
      marks the whole batch. */
  method DispatchPending(system: System) returns (report: Report, ghost reserved: seq<EventId>, ghost sent: nat)
    requires system.Valid()
    modifies system
    ensures system.Valid() && Follows(system.run, old(system.run), system.alone)
    ensures report.token !in system.rounds && (report.batch == [] || report.batch == reserved)
    ensures forall e | e in reserved :: system.alone ==> e in old(system.outbox)
    ensures system.alone ==>
              && (|| FirstRows(old(system.outbox), system.now, system.cfg.dispatchLease, system.cfg.batchSize, reserved)
                  || (reserved == [] && report.error))
              && (report.batch != reserved ==> report.error)
              && Untouched(old(system.Snapshot()), system.Snapshot(), report.token)
    ensures system.alone && report.batch == reserved && !(reserved == [] && report.error) ==>
              && SplitAt(old(system.outbox), system.outbox, report, system.now) && Sent(report, sent)
              && system.broker == SentBroker(old(system.broker), report.token + 1,
                                             BatchItems(old(system.outbox), reserved)[..sent])
    ensures system.alone && report.batch == [] && report.error ==>
              && system.broker == old(system.broker)
              && system.outbox == if reserved == [] then old(system.outbox)
                                  else ReservedOutbox(old(system.outbox), reserved, report.token, system.now)
    ensures system.alone && system.healthy ==>
              report.batch == reserved && report.marked == |report.batch| && !report.error
  {
    hide Protocol.Valid; hide Last; hide Continues; hide Follows; hide InProgress; hide ReservedOutbox; hide FirstRows;
    hide SentBroker;
    hide SplitAt; hide BatchItems;
    FollowsSelf(system.run, system.alone);
    system.Interfere({});
    var stamp := system.now;
    system.Interfere({});
    ghost var outbox, broker := system.outbox, system.broker;
    FreshIdentity(system.cfg, system.run);
    ghost var earlier := system.run;
    var ok, batch, token, taken := system.ClaimPendingOutbox(stamp);
    reserved := taken;
    ghost var claimed := Then(earlier, Dispatcher(ClaimBatch(stamp, reserved)));
    FollowsThen(earlier, old(system.run), system.alone, Dispatcher(ClaimBatch(stamp, reserved)));
    FollowsThen(claimed, old(system.run), system.alone, Environment(Crash({token})));
    ProgressStart(outbox, batch, token, stamp, system.now);
    if batch == [] {
      report, sent := Report(token, batch, 0, !ok), 0;
      NothingSent(broker, token + 1, BatchItems(outbox, batch));
      if ok {
        EmptySplit(outbox, report, system.now);
      }
    } else {
      report, sent := DispatchBatch(system, token, batch, outbox, old(system.run));
    }
  }

  lemma EmptySplit(outbox: OutboxTable, report: Report, now: nat)
    requires report.batch == [] && report.marked == 0 && !report.error
    ensures SplitAt(outbox, outbox, report, now)
  {
  }
}

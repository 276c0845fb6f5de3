/** The outbox dispatcher: one batch of at-least-once publications. */
module Dispatcher {
  import opened Domain
  import opened Tables
  import opened Transitions
  import opened Protocol
  import opened Liveness
  import opened Store

  // ---------------------------------------------------------------------------------------
  // Rows that wait
  // ---------------------------------------------------------------------------------------

  function Waiting(outbox: seq<OutboxRow>): nat {
    if outbox == [] then 0
    else Waiting(outbox[..|outbox| - 1]) + if outbox[|outbox| - 1].publishedAt.None? then 1 else 0
  }

  /** How many outbox rows of the whole database are not published. */
  function WaitingIn(entries: seq<Entry>): nat {
    if entries == [] then 0
    else WaitingIn(entries[..|entries| - 1]) + Waiting(entries[|entries| - 1].outbox)
  }

  lemma {:induction false} WaitingAfterRow(outbox: seq<OutboxRow>, i: nat, row: OutboxRow)
    requires i < |outbox|
    ensures Waiting(outbox[i := row])
         == Waiting(outbox) - (if outbox[i].publishedAt.None? then 1 else 0) + if row.publishedAt.None? then 1 else 0
  {
    var n := |outbox| - 1;
    if i < n {
      WaitingAfterRow(outbox[..n], i, row);
      assert outbox[i := row][..n] == outbox[..n][i := row];
    } else {
      assert outbox[i := row][..n] == outbox[..n];
    }
  }

  lemma {:induction false} WaitingAfterPut(entries: seq<Entry>, r: nat, e: Entry)
    requires r < |entries|
    ensures WaitingIn(entries[r := e]) == WaitingIn(entries) - Waiting(entries[r].outbox) + Waiting(e.outbox)
  {
    var n := |entries| - 1;
    if r < n {
      WaitingAfterPut(entries[..n], r, e);
      assert entries[r := e][..n] == entries[..n][r := e];
    } else {
      assert entries[r := e][..n] == entries[..n];
    }
  }

  method FirstWaiting(outbox: seq<OutboxRow>) returns (row: Option<nat>)
    ensures row.Some? ==> row.value < |outbox| && outbox[row.value].publishedAt.None?
    ensures row.None? <==> Waiting(outbox) == 0
  {
    row := None;
    for i := 0 to |outbox|
      invariant row.Some? ==> row.value < i && outbox[row.value].publishedAt.None?
      invariant row.None? <==> Waiting(outbox[..i]) == 0
    {
      assert outbox[..i + 1][..i] == outbox[..i];
      if row.None? && outbox[i].publishedAt.None? {
        row := Some(i);
      }
    }
    assert outbox[..|outbox|] == outbox;
  }

  /** One unpublished row, if there is any. */
  method SelectUnpublished(entries: seq<Entry>) returns (r: nat, row: Option<nat>)
    ensures row.Some? ==> r < |entries| && row.value < |entries[r].outbox| && entries[r].outbox[row.value].publishedAt.None?
    ensures row.None? <==> WaitingIn(entries) == 0
  {
    r, row := 0, None;
    for i := 0 to |entries|
      invariant row.Some? ==> r < i && row.value < |entries[r].outbox| && entries[r].outbox[row.value].publishedAt.None?
      invariant row.None? <==> WaitingIn(entries[..i]) == 0
    {
      assert entries[..i + 1][..i] == entries[..i];
      if row.None? {
        row := FirstWaiting(entries[i].outbox);
        r := i;
      }
    }
    assert entries[..|entries|] == entries;
  }

  // ---------------------------------------------------------------------------------------
  // The dispatcher
  // ---------------------------------------------------------------------------------------

  /** What the broker does with one publication: confirm it, or fail before or after taking it. */
  datatype Reply = Confirm | Fail(reached: bool)

  function AsPublication(reply: Reply): Publication {
    match reply
    case Confirm => Confirmed
    case Fail(reached) => Refused(reached)
  }

  ghost predicate AllPublications(steps: seq<Step>) {
    forall i :: 0 <= i < |steps| ==> steps[i].Publish?
  }

  /** Publishing is the outbox row's own update, its event, and the message. */
  lemma PublicationEffect(s: State, r: nat, row: nat, p: Publication)
    requires r < |s.entries| && row < |s.entries[r].outbox| && s.entries[r].outbox[row].publishedAt.None?
    ensures WaitingIn(PublishTx(s, r, row, p).entries) == WaitingIn(s.entries) - if p.Confirmed? then 1 else 0
  {
    var e' := PublishedRows(s.entries[r], row, s.clock, p);
    WaitingAfterPut(s.entries, r, e');
    WaitingAfterRow(s.entries[r].outbox, row, e'.outbox[row]);
    assert e'.outbox == s.entries[r].outbox[row := e'.outbox[row]];
  }

  /** The row was waiting; it has one more attempt, and is published now or marked as failed. */
  ghost predicate Tries(s: State, s': State, r: nat, row: nat, published: bool) {
    && r < |s.entries| == |s'.entries| && row < |s.entries[r].outbox| == |s'.entries[r].outbox|
    && var o := s.entries[r].outbox[row];
       && o.publishedAt.None?
       && s'.entries[r].outbox[row] == OutboxRow(o.delivery, if published then Some(s.clock) else None, o.publishAttempts + 1, !published)
  }

  class OutboxDispatcher {
    const db: Database
    const batchSize: nat

    constructor (database: Database, size: nat)
      ensures db == database && batchSize == size
    {
      db := database;
      batchSize := size;
    }

    method DispatchOne(reply: Reply) returns (found: bool, published: bool, ghost steps: seq<Step>)
      requires db.Valid()
      modifies db
      ensures db.Valid() && db.history == old(db.history) + steps && AllPublications(steps)
      ensures found == (WaitingIn(old(db.state).entries) > 0)
      ensures published == (found && reply.Confirm?)
      ensures WaitingIn(db.state.entries) == WaitingIn(old(db.state).entries) - if published then 1 else 0
      ensures !found ==> steps == [] && db.state == old(db.state)
      ensures found ==> |steps| == 1 && steps[0].publication == AsPublication(reply) &&
                        Tries(old(db.state), db.state, steps[0].r, steps[0].row, published)
    {
      var r, row := SelectUnpublished(db.state.entries);
      if row.None? {
        return false, false, [];
      }
      var e := db.state.entries[r];
      var event := e.outbox[row.value];
      if event.delivery.QueueRun? && (reply.Confirm? || reply.reached) {
        e := e.(queued := e.queued + 1);
      }
      event := event.(publishAttempts := event.publishAttempts + 1);
      match reply {
        case Fail(_) =>
          event := event.(failed := true);
          e := e.(events := e.events + [OutboxPublishFailed(row.value)]);
        case Confirm =>
          event := event.(publishedAt := Some(db.state.clock));
          event := event.(failed := false);
          e := e.(events := e.events + [OutboxPublished(row.value)]);
      }
      e := e.(outbox := e.outbox[row.value := event]);
      steps := [Publish(r, row.value, AsPublication(reply))];
      One(db.config, db.state, steps[0]);
      PublicationEffect(db.state, r, row.value, AsPublication(reply));
      db.Commit(Put(db.state, r, e), steps);
      return true, reply.Confirm?, steps;
    }

    /** One round of the batch: the others move, then one row is tried. */
    method Round(reply: Reply, others: seq<Step>) returns (found: bool, ghost step: Step)
      requires db.Valid()
      modifies db
      ensures db.Valid() && db.history == old(db.history) + others + (if found then [step] else [])
      ensures found ==> step.Publish? && step.publication == AsPublication(reply)
      ensures !found ==> WaitingIn(db.state.entries) == 0
    {
      db.Wait(others);
      ghost var one;
      var published;
      found, published, one := DispatchOne(reply);
      step := if found then one[0] else Tick(0.0);
    }

    /**
     `dispatch_once`: at most one batch, each row in a transaction of its own, with whatever the rest
     of the system does before each of them. It publishes only rows that wait at that moment, stops
     at the first failure, and otherwise stops short of a batch only when nothing waits any more.
     */
    method DispatchOnce(replies: nat -> Reply, others: nat -> seq<Step>)
      returns (count: nat, ghost own: seq<Step>, ghost rest: seq<Step>)
      requires db.Valid()
      modifies db
      ensures db.Valid() && db.history == old(db.history) + Woven(others, own) + rest
      ensures rest == [] || rest == others(|own|)
      ensures Tried(own, replies) && count <= |own| <= count + 1 && count <= batchSize
      ensures forall i :: 0 <= i < count ==> replies(i).Confirm?
      ensures |own| > count ==> replies(count).Fail?
      ensures count < batchSize ==> WaitingIn(db.state.entries) == 0 || |own| == count + 1
    {
      count, own, rest := 0, [], [];
      for i := 0 to batchSize
        invariant db.Valid() && rest == []
        invariant db.history == old(db.history) + Woven(others, own)
        invariant count == i == |own| && Tried(own, replies)
        invariant forall k :: 0 <= k < count ==> replies(k).Confirm?
      {
        var found;
        ghost var step;
        found, step := Round(replies(i), others(i));
        if !found {
          rest := others(i);
          break;
        }
        HistoryGrows(old(db.history), others, own, step);
        own := own + [step];
        if replies(i).Fail? {
          break;
        }
        count := count + 1;
      }
    }
  }

  /** Publications whose outcomes are the broker's replies, in order. */
  ghost predicate Tried(own: seq<Step>, replies: nat -> Reply) {
    forall i: nat :: i < |own| ==> own[i].Publish? && own[i].publication == AsPublication(replies(i))
  }

  /** The dispatcher's own publications, each after what the others did before it. */
  ghost function Woven(others: nat -> seq<Step>, own: seq<Step>): seq<Step> {
    if own == [] then []
    else
      var n := |own| - 1;
      Woven(others, own[..n]) + others(n) + [own[n]]
  }

  lemma {:induction false} HistoryGrows(before: seq<Step>, others: nat -> seq<Step>, own: seq<Step>, step: Step)
    ensures before + Woven(others, own) + others(|own|) + [step] == before + Woven(others, own + [step])
  {
    WovenSnoc(others, own, step);
    Regrouped(before, Woven(others, own), others(|own|), [step]);
  }

  lemma Regrouped(a: seq<Step>, b: seq<Step>, d: seq<Step>, e: seq<Step>)
    ensures a + b + d + e == a + (b + d + e)
  {
  }

  lemma {:induction false} WovenSnoc(others: nat -> seq<Step>, own: seq<Step>, step: Step)
    ensures Woven(others, own + [step]) == Woven(others, own) + others(|own|) + [step]
  {
    assert (own + [step])[..|own|] == own;
  }
}

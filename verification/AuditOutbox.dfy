/**
 The audit outbox (services/api/app/repositories/audit_outbox_repository.py): pending
 documents under lease, and a collection of events given up on.  Times are milliseconds.
 */
module AuditOutbox {
  import opened Options

  type Event = string  // the event_id, unique in the outbox by its index, with the bytes it stands for

  datatype Document = Document(event: Event, attempts: nat, nextAttemptAt: int, claimedAt: Option<int>)

  datatype Dead = Dead(event: Event, attempts: nat, lastStatus: int)

  datatype PendingEvent = PendingEvent(id: nat, event: Event, attempts: nat)

  type Documents = map<nat, Document>

  predicate Claimable(d: Document, now: int, lease: int) {
    d.nextAttemptAt <= now && (d.claimedAt.Some? ==> d.claimedAt.value <= now - lease)
  }

  /** A claimable document none of the others is due before; ties are the database's choice. */
  ghost predicate FirstDue(docs: Documents, id: nat, now: int, lease: int) {
    && id in docs && Claimable(docs[id], now, lease)
    && forall other :: other in docs && Claimable(docs[other], now, lease)
                       ==> docs[id].nextAttemptAt <= docs[other].nextAttemptAt
  }

  function WithClaim(docs: Documents, id: nat, now: int): Documents
    requires id in docs
  {
    docs[id := docs[id].(claimedAt := Some(now))]
  }

  /** The update of defer, which does not look at who claimed, and does nothing to a missing document. */
  function Deferred(docs: Documents, id: nat, nextAttemptAt: int): Documents {
    if id in docs then
      docs[id := docs[id].(attempts := docs[id].attempts + 1, nextAttemptAt := nextAttemptAt, claimedAt := None)]
    else docs
  }

  function Grave(p: PendingEvent, status: int): Dead {
    Dead(p.event, p.attempts + 1, status)
  }

  class Outbox {
    var docs: Documents
    var dead: seq<Dead>
    var nextId: nat

    constructor ()
      ensures docs == map[] && dead == [] && nextId == 0 && Valid()
    {
      docs, dead, nextId := map[], [], 0;
    }

    ghost predicate Valid()
      reads this
    {
      forall id :: id in docs ==> id < nextId
    }

    method Enqueue(event: Event, now: int) returns (id: nat)
      requires Valid()
      modifies this
      ensures Valid() && id == old(nextId) && nextId == id + 1 && dead == old(dead)
      ensures id !in old(docs) && docs == old(docs)[id := Document(event, 0, now, None)]
    {
      id := nextId;
      docs := docs[id := Document(event, 0, now, None)];
      nextId := nextId + 1;
    }

    method Claim(lease: int, now: int) returns (claimed: Option<PendingEvent>)
      modifies `docs
      ensures claimed == None ==>
                docs == old(docs) && forall id :: id in docs ==> !Claimable(docs[id], now, lease)
      ensures claimed.Some? ==>
                && FirstDue(old(docs), claimed.value.id, now, lease)
                && docs == WithClaim(old(docs), claimed.value.id, now)
                && claimed.value.event == docs[claimed.value.id].event
                && claimed.value.attempts == docs[claimed.value.id].attempts
    {
      var best: Option<nat> := None;
      var rest := docs.Keys;
      while rest != {}
        invariant rest <= docs.Keys
        invariant best == None ==> forall id :: id in docs.Keys - rest ==> !Claimable(docs[id], now, lease)
        invariant best.Some? ==>
                    && best.value in docs && Claimable(docs[best.value], now, lease)
                    && forall id :: id in docs.Keys - rest && Claimable(docs[id], now, lease)
                                    ==> docs[best.value].nextAttemptAt <= docs[id].nextAttemptAt
      {
        var id :| id in rest;
        rest := rest - {id};
        if Claimable(docs[id], now, lease)
           && (best == None || docs[id].nextAttemptAt < docs[best.value].nextAttemptAt) {
          best := Some(id);
        }
      }
      if best == None {
        return None;
      }
      var d := docs[best.value];
      docs := WithClaim(docs, best.value, now);
      return Some(PendingEvent(best.value, d.event, d.attempts));
    }

    method Release(id: nat)
      modifies `docs
      ensures docs == old(docs) - {id}
    {
      docs := docs - {id};
    }

    method Defer(id: nat, nextAttemptAt: int)
      modifies `docs
      ensures docs == Deferred(old(docs), id, nextAttemptAt)
    {
      if id in docs {
        var d := docs[id];
        docs := docs[id := d.(attempts := d.attempts + 1, nextAttemptAt := nextAttemptAt, claimedAt := None)];
      }
    }

    /** Two writes, the insertion first. */
    method Bury(p: PendingEvent, status: int)
      modifies `docs, `dead
      ensures dead == old(dead) + [Grave(p, status)] && docs == old(docs) - {p.id}
    {
      dead := dead + [Grave(p, status)];
      docs := docs - {p.id};
    }
  }
}

/** The participant's registry of prepared contexts, as the object its handlers share. */
module PreparedRegistry {
  import opened Options
  import opened PreparedTxn

  class Entry {
    const request: Request
    var state: Status
    var lsn: nat

    constructor (r: Request)
      ensures request == r && state == PREPARING
    {
      request := r;
      state := PREPARING;
      lsn := 0;
    }
  }

  class Table {
    var entries: map<Option<Id>, Entry>

    ghost predicate Valid()
      reads this
    {
      forall id :: id in entries ==> entries[id].request.id == id
    }

    /** The live contexts. */
    ghost function Contents(): Live
      reads this, entries.Values
    {
      map id | id in entries :: Slot(entries[id].request, entries[id].state)
    }

    ghost predicate IsLive(e: Entry)
      reads this
    {
      e.request.id in entries && entries[e.request.id] == e
    }

    constructor ()
      ensures Valid() && entries == map[]
    {
      entries := map[];
    }

    /** The entry a Prepare works on: a new one, the live one with the same payload, or none. */
    method Begin(r: Request) returns (e: Entry?, inserted: bool)
      requires Valid()
      modifies this
      ensures Valid()
      ensures inserted <==> r.id !in old(entries)
      ensures inserted ==>
        e != null && fresh(e) && e.request == r && e.state == PREPARING && entries == old(entries)[r.id := e]
      ensures !inserted ==>
        entries == old(entries) && (if entries[r.id].request == r then e == entries[r.id] else e == null)
      ensures Contents() == Began(old(Contents()), r)
    {
      if r.id in entries {
        var live := entries[r.id];
        if live.request != r { return null, false; }
        return live, false;
      }
      var created := new Entry(r);
      entries := entries[r.id := created];
      return created, true;
    }

    /** The Prepared record is durable. */
    method MarkPrepared(e: Entry, lsn: nat)
      requires Valid()
      modifies e
      ensures Valid() && e.state == PREPARED && e.lsn == lsn
      ensures Contents() == if IsLive(e) then Marked(old(Contents()), e.request.id) else old(Contents())
    {
      e.lsn := lsn;
      e.state := PREPARED;
      assert forall id :: id in entries && entries[id] == e ==> id == e.request.id;
    }

    /**
     One look of a Commit at the context it has found. A version-2 context still
     being prepared makes it wait and look again; a prepared one is its own.
     */
    method Take(e: Entry, c: Commit) returns (o: Outcome)
      requires Valid() && Matches(e.request, c)
      modifies e`state
      ensures Valid()
      ensures o == WAIT <==> old(e.state) == PREPARING && e.request.version == PROTOCOL_VERSION
      ensures o == TAKEN <==> old(e.state) == PREPARED
      ensures e.state == if o == TAKEN then APPLYING else old(e.state)
      ensures Contents() == if IsLive(e) then Committed(old(Contents()), c) else old(Contents())
    {
      assert forall id :: id in entries && entries[id] == e ==> id == e.request.id;
      if e.state == PREPARING && e.request.version == PROTOCOL_VERSION { return WAIT; }
      if e.state != PREPARED { return REFUSED; }
      e.state := APPLYING;
      return TAKEN;
    }

    /** The live context a Commit belongs to. */
    method Look(c: Commit) returns (e: Entry?)
      requires Valid()
      ensures e != null <==> c.id in entries && Matches(entries[c.id].request, c)
      ensures e != null <==>
        && c.id in entries && entries[c.id].request.tx == c.tx
        && entries[c.id].request.start == c.start && entries[c.id].request.commit == c.commit
      ensures e != null ==> e == entries[c.id]
    {
      if c.id !in entries { return null; }
      var live := entries[c.id];
      if live.request.tx != c.tx || live.request.start != c.start || live.request.commit != c.commit { return null; }
      return live;
    }

    method Erase(e: Entry)
      requires Valid()
      modifies this
      ensures Valid() && entries == old(entries) - {e.request.id}
      ensures Contents() == old(Contents()) - {e.request.id}
    {
      entries := entries - {e.request.id};
    }
  }
}

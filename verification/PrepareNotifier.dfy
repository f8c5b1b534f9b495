/**
 Storage's aggregation of durable Prepared records: when all participants of a
 transaction have one, its coordinator is told. A bounded memory of completed
 transactions keeps repeated records from starting over.
 */
module PrepareNotifier {
  import opened Options
  import opened PreparedTxn

  /** How many completed identities are remembered. */
  const RECENT: nat := 4096

  /** What all records of one transaction have in common, and what its coordinator is told. */
  datatype Meta = Meta(version: int, id: Option<Id>, start: nat, commit: nat, participants: seq<int>)

  function MetaOf(r: Request): Meta { Meta(r.version, r.id, r.start, r.commit, r.participants) }

  datatype VoteSet = VoteSet(meta: Meta, votes: map<int, Request>, notified: bool)

  datatype Votes = Votes(open: map<Option<Id>, VoteSet>, completed: map<Option<Id>, Meta>, order: seq<Option<Id>>)

  const NO_VOTES := Votes(map[], map[], [])

  /** `Failed` is a check of the code that stops the process. */
  datatype Outcome = Failed | Nothing | Notified(meta: Meta)

  predicate AllVoted(x: VoteSet) {
    forall p :: p in x.meta.participants ==> p in x.votes
  }

  function SetOf(v: Votes, r: Request): VoteSet {
    if r.id in v.open then v.open[r.id] else VoteSet(MetaOf(r), map[], false)
  }

  /** AddVote. */
  function Add(v: Votes, r: Request): (Votes, Outcome) {
    if r.id in v.completed then (v, if v.completed[r.id] == MetaOf(r) then Nothing else Failed)
    else
      var x := SetOf(v, r);
      var voted := x.(votes := x.votes[r.participant := r]);
      if x.meta != MetaOf(r) || (r.participant in x.votes && x.votes[r.participant] != r) then (v, Failed)
      else if x.notified || |voted.votes| != |x.meta.participants| then (v.(open := v.open[r.id := voted]), Nothing)
      else if !AllVoted(voted) then (v, Failed)
      else (v.(open := v.open[r.id := voted.(notified := true)]), Notified(x.meta))
  }

  /** The oldest completions are forgotten until few enough are left. */
  function Trimmed(completed: map<Option<Id>, Meta>, order: seq<Option<Id>>): (map<Option<Id>, Meta>, seq<Option<Id>>)
    decreases |order|
  {
    if |order| <= RECENT then (completed, order) else Trimmed(completed - {order[0]}, order[1..])
  }

  /** NotifyDone: the coordinator has answered. */
  function Complete(v: Votes, id: Option<Id>): Votes
    requires id in v.open
  {
    var kept := if id in v.completed then v.completed else v.completed[id := v.open[id].meta];
    var (completed, order) := Trimmed(kept, v.order + [id]);
    Votes(v.open - {id}, completed, order)
  }

  /** The object that the log writers and the notification callbacks share. */
  class Notifier {
    var open: map<Option<Id>, VoteSet>
    var completed: map<Option<Id>, Meta>
    var order: seq<Option<Id>>

    function Contents(): Votes
      reads this
    {
      Votes(open, completed, order)
    }

    constructor ()
      ensures Contents() == NO_VOTES
    {
      open, completed, order := map[], map[], [];
    }

    method AddVote(r: Request) returns (o: Outcome)
      modifies this`open
      ensures (Contents(), o) == Add(old(Contents()), r)
      ensures o.Notified? ==> o.meta == Meta(r.version, r.id, r.start, r.commit, r.participants)
      ensures r.id in old(completed) ==>
        var meta := Meta(r.version, r.id, r.start, r.commit, r.participants);
        o == if old(completed)[r.id] == meta then Nothing else Failed
    {
      var meta := MetaOf(r);
      if r.id in completed { return if completed[r.id] == meta then Nothing else Failed; }
      var x := if r.id in open then open[r.id] else VoteSet(meta, map[], false);
      if x.meta != meta { return Failed; }
      if r.participant in x.votes && x.votes[r.participant] != r { return Failed; }
      var voted := x.(votes := x.votes[r.participant := r]);
      if voted.notified || |voted.votes| != |meta.participants| {
        open := open[r.id := voted];
        return Nothing;
      }
      var i := 0;
      while i < |meta.participants|
        invariant 0 <= i <= |meta.participants| && open == old(open)
        invariant forall j :: 0 <= j < i ==> meta.participants[j] in voted.votes
      {
        var p := meta.participants[i];
        if p !in voted.votes {
          assert p in voted.meta.participants;
          return Failed;
        }
        i := i + 1;
      }
      assert AllVoted(voted);
      open := open[r.id := voted.(notified := true)];
      return Notified(meta);
    }

    method NotifyDone(id: Option<Id>)
      requires id in open
      modifies this
      ensures Contents() == Complete(old(Contents()), id)
    {
      if id !in completed { completed := completed[id := open[id].meta]; }
      open := open - {id};
      order := order + [id];
      ghost var last := Trimmed(completed, order);
      while |order| > RECENT
        invariant Trimmed(completed, order) == last && open == old(open) - {id}
        decreases |order|
      {
        completed := completed - {order[0]};
        order := order[1..];
      }
    }
  }
}

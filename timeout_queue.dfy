/**
 * The retransmission timer queue: a priority queue of TimeoutObjects ordered
 * by expiry, represented as a sequence kept sorted by `expires`, so that
 * peek is the head and poll drops the head.
 */
module TimeoutQueue {
  import opened CoapTypes

  ghost predicate Sorted(q: seq<TimeoutObject>) {
    forall i, j :: 0 <= i < j < |q| ==> q[i].expires <= q[j].expires
  }

  /** PriorityQueue.add: the entry joins the queue, which stays ordered by expiry. */
  function Insert(q: seq<TimeoutObject>, t: TimeoutObject): (r: seq<TimeoutObject>)
    requires Sorted(q)
    ensures Sorted(r)
    ensures |r| == |q| + 1
    ensures forall x :: x in r <==> x in q || x == t
  {
    if q == [] || t.expires < q[0].expires then
      [t] + q
    else
      var rest := Insert(q[1..], t);
      assert q == [q[0]] + q[1..];
      assert forall k :: 0 <= k < |rest| ==> q[0].expires <= rest[k].expires by {
        forall k | 0 <= k < |rest|
          ensures q[0].expires <= rest[k].expires
        {
          assert rest[k] in q[1..] || rest[k] == t;
        }
      }
      [q[0]] + rest
  }

  /** Insertion adds exactly one entry and loses none: the new queue is the old one plus `t`. */
  lemma {:induction false} InsertAddsOne(q: seq<TimeoutObject>, t: TimeoutObject)
    requires Sorted(q)
    ensures multiset(Insert(q, t)) == multiset(q) + multiset{t}
  {
    if q == [] || t.expires < q[0].expires {
    } else {
      assert q == [q[0]] + q[1..];
      InsertAddsOne(q[1..], t);
    }
  }

  /** The number of entries that have expired at `now`. */
  function DueCount(q: seq<TimeoutObject>, now: int): nat {
    if q == [] then 0
    else (if q[0].expires <= now then 1 else 0) + DueCount(q[1..], now)
  }

  /** Adding an entry adds one expired entry exactly when the new entry has expired. */
  lemma {:induction false} DueCountInsert(q: seq<TimeoutObject>, t: TimeoutObject, now: int)
    requires Sorted(q)
    ensures DueCount(Insert(q, t), now) == DueCount(q, now) + (if t.expires <= now then 1 else 0)
  {
    if q == [] || t.expires < q[0].expires {
      assert ([t] + q)[1..] == q;
    } else {
      var rest := Insert(q[1..], t);
      assert ([q[0]] + rest)[1..] == rest;
      DueCountInsert(q[1..], t, now);
    }
  }

  /** In an ordered queue whose head has not expired, nothing has expired. */
  lemma HeadNotDue(q: seq<TimeoutObject>, now: int)
    requires Sorted(q) && q != [] && now < q[0].expires
    ensures forall i :: 0 <= i < |q| ==> now < q[i].expires
  {
  }
}

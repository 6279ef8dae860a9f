/** The `notifications` sub-collections of all users, as a value, and what the handler's
    fan-out does to them: one `add` per user of the snapshot, each of which may succeed or
    fail on its own, combined all-or-nothing by `Promise.all`. */
module Inboxes {
  import opened NotificationRecord

  type UserId = string

  /** `users/{uid}/notifications` for every user that has one, in the order the model
      applies the writes. */
  type Inboxes = map<UserId, seq<Notification>>

  /** The notifications of one user; a user without the sub-collection has none. */
  function Inbox(inboxes: Inboxes, user: UserId): seq<Notification>
  {
    if user in inboxes then inboxes[user] else []
  }

  /** The document ids of a collection snapshot are pairwise distinct. */
  predicate Distinct(users: seq<UserId>)
  {
    forall i, j :: 0 <= i < j < |users| ==> users[i] != users[j]
  }

  /** A successful `users/{user}/notifications.add(record)`. */
  function Append(inboxes: Inboxes, user: UserId, record: Notification): (r: Inboxes)
    ensures r.Keys == inboxes.Keys + {user}
    ensures Inbox(r, user) == Inbox(inboxes, user) + [record]
    ensures forall u :: u != user ==> Inbox(r, u) == Inbox(inboxes, u)
  {
    inboxes[user := Inbox(inboxes, user) + [record]]
  }

  /** `k` copies of one record. */
  function Copies(record: Notification, k: nat): (r: seq<Notification>)
    ensures |r| == k
    ensures forall i :: 0 <= i < k ==> r[i] == record
  {
    if k == 0 then [] else Copies(record, k - 1) + [record]
  }

  /** How many of the writes aimed at `user` succeeded. */
  function Count(audience: seq<UserId>, outcomes: seq<bool>, user: UserId): (r: nat)
    requires |outcomes| == |audience|
    ensures r <= |audience|
  {
    if |audience| == 0 then 0
    else
      var last := |audience| - 1;
      Count(audience[..last], outcomes[..last], user)
        + (if audience[last] == user && outcomes[last] then 1 else 0)
  }

  /** How many of the writes succeeded. */
  function Successes(outcomes: seq<bool>): (r: nat)
    ensures r <= |outcomes|
  {
    if |outcomes| == 0 then 0
    else Successes(outcomes[..|outcomes| - 1]) + (if outcomes[|outcomes| - 1] then 1 else 0)
  }

  /** `Promise.all` over the writes: it resolves only when every write resolves. */
  function AllSucceeded(outcomes: seq<bool>): (ok: bool)
    ensures ok <==> forall i :: 0 <= i < |outcomes| ==> outcomes[i]
    ensures ok <==> Successes(outcomes) == |outcomes|
  {
    if |outcomes| == 0 then true
    else
      var last := |outcomes| - 1;
      AllSucceeded(outcomes[..last]) && outcomes[last]
  }

  /** The store after the writes of one dispatch, in snapshot order: the write to
      `audience[i]` appends `record` when `outcomes[i]` holds and changes nothing when it
      fails. */
  function FanOut(inboxes: Inboxes, audience: seq<UserId>, outcomes: seq<bool>, record: Notification): Inboxes
    requires |outcomes| == |audience|
  {
    if |audience| == 0 then inboxes
    else
      var last := |audience| - 1;
      var before := FanOut(inboxes, audience[..last], outcomes[..last], record);
      if outcomes[last] then Append(before, audience[last], record) else before
  }

  /** After a dispatch each user's list is their old list followed by one copy of the
      record per successful write aimed at them: nothing is removed, reordered or rolled
      back, whatever the other writes did. */
  lemma {:induction false} FanOutInbox(inboxes: Inboxes, audience: seq<UserId>, outcomes: seq<bool>, record: Notification, u: UserId)
    requires |outcomes| == |audience|
    ensures Inbox(FanOut(inboxes, audience, outcomes, record), u)
      == Inbox(inboxes, u) + Copies(record, Count(audience, outcomes, u))
  {
    if |audience| > 0 {
      var last := |audience| - 1;
      var before := FanOut(inboxes, audience[..last], outcomes[..last], record);
      var c := Count(audience[..last], outcomes[..last], u);
      FanOutInbox(inboxes, audience[..last], outcomes[..last], record, u);
      if audience[last] == u && outcomes[last] {
        assert Copies(record, c + 1) == Copies(record, c) + [record];
        assert Inbox(FanOut(inboxes, audience, outcomes, record), u) == Inbox(before, u) + [record];
      }
    }
  }

  /** No write reaches a user outside the audience. */
  lemma {:induction false} CountOutside(audience: seq<UserId>, outcomes: seq<bool>, user: UserId)
    requires |outcomes| == |audience|
    requires user !in audience
    ensures Count(audience, outcomes, user) == 0
  {
    if |audience| > 0 {
      var last := |audience| - 1;
      CountOutside(audience[..last], outcomes[..last], user);
    }
  }

  /** In a snapshot of distinct users, each user gets one write: it lands iff it succeeded. */
  lemma {:induction false} CountDistinct(audience: seq<UserId>, outcomes: seq<bool>, i: nat)
    requires |outcomes| == |audience| && Distinct(audience)
    requires i < |audience|
    ensures Count(audience, outcomes, audience[i]) == if outcomes[i] then 1 else 0
  {
    var last := |audience| - 1;
    if i == last {
      CountOutside(audience[..last], outcomes[..last], audience[i]);
    } else {
      CountDistinct(audience[..last], outcomes[..last], i);
    }
  }

  /** One dispatch over distinct users: each user of the snapshot whose write succeeded has
      exactly `record` appended to their own list, a user whose write failed keeps their
      list, and every user outside the snapshot keeps theirs. */
  lemma OneRecordPerUser(inboxes: Inboxes, audience: seq<UserId>, outcomes: seq<bool>, record: Notification)
    requires |outcomes| == |audience| && Distinct(audience)
    ensures forall i :: 0 <= i < |audience| ==>
      Inbox(FanOut(inboxes, audience, outcomes, record), audience[i])
        == Inbox(inboxes, audience[i]) + (if outcomes[i] then [record] else [])
    ensures forall u :: u !in audience ==>
      Inbox(FanOut(inboxes, audience, outcomes, record), u) == Inbox(inboxes, u)
  {
    forall i | 0 <= i < |audience|
      ensures Inbox(FanOut(inboxes, audience, outcomes, record), audience[i])
        == Inbox(inboxes, audience[i]) + (if outcomes[i] then [record] else [])
    {
      FanOutInbox(inboxes, audience, outcomes, record, audience[i]);
      CountDistinct(audience, outcomes, i);
    }
    forall u | u !in audience
      ensures Inbox(FanOut(inboxes, audience, outcomes, record), u) == Inbox(inboxes, u)
    {
      FanOutInbox(inboxes, audience, outcomes, record, u);
      CountOutside(audience, outcomes, u);
    }
  }

  /** The number of notifications held by the users of `audience`. */
  function Tally(inboxes: Inboxes, audience: seq<UserId>): nat
  {
    if |audience| == 0 then 0
    else Tally(inboxes, audience[..|audience| - 1]) + |Inbox(inboxes, audience[|audience| - 1])|
  }

  lemma {:induction false} TallyGrowth(before: Inboxes, after: Inboxes, audience: seq<UserId>, outcomes: seq<bool>)
    requires |outcomes| == |audience|
    requires forall i :: 0 <= i < |audience| ==>
      |Inbox(after, audience[i])| == |Inbox(before, audience[i])| + (if outcomes[i] then 1 else 0)
    ensures Tally(after, audience) == Tally(before, audience) + Successes(outcomes)
  {
    if |audience| > 0 {
      var last := |audience| - 1;
      TallyGrowth(before, after, audience[..last], outcomes[..last]);
    }
  }

  /** One dispatch over N distinct users appends exactly as many records as writes
      succeeded: N when `Promise.all` resolves, and none for an empty snapshot. */
  lemma DispatchAppendsPerSuccess(inboxes: Inboxes, audience: seq<UserId>, outcomes: seq<bool>, record: Notification)
    requires |outcomes| == |audience| && Distinct(audience)
    ensures Tally(FanOut(inboxes, audience, outcomes, record), audience) == Tally(inboxes, audience) + Successes(outcomes)
    ensures AllSucceeded(outcomes) ==>
      Tally(FanOut(inboxes, audience, outcomes, record), audience) == Tally(inboxes, audience) + |audience|
    ensures |audience| == 0 ==> FanOut(inboxes, audience, outcomes, record) == inboxes
  {
    OneRecordPerUser(inboxes, audience, outcomes, record);
    TallyGrowth(inboxes, FanOut(inboxes, audience, outcomes, record), audience, outcomes);
  }

  /** Follows from the contract of `Copies`: both sides hold `j + k` copies. */
  lemma CopiesAdd(record: Notification, j: nat, k: nat)
    ensures Copies(record, j) + Copies(record, k) == Copies(record, j + k)
  {
  }

  /** The handler does not deduplicate: two dispatches of the same request append both
      batches, each user keeping every record that either batch wrote to them. */
  lemma RedispatchAppendsBoth(inboxes: Inboxes, audience: seq<UserId>, first: seq<bool>, second: seq<bool>, record: Notification, u: UserId)
    requires |first| == |audience| && |second| == |audience|
    ensures Inbox(FanOut(FanOut(inboxes, audience, first, record), audience, second, record), u)
      == Inbox(inboxes, u) + Copies(record, Count(audience, first, u) + Count(audience, second, u))
  {
    var once := FanOut(inboxes, audience, first, record);
    var twice := FanOut(once, audience, second, record);
    var j, k := Count(audience, first, u), Count(audience, second, u);
    calc {
      Inbox(twice, u);
      == { FanOutInbox(once, audience, second, record, u); }
      Inbox(once, u) + Copies(record, k);
      == { FanOutInbox(inboxes, audience, first, record, u); }
      (Inbox(inboxes, u) + Copies(record, j)) + Copies(record, k);
      == { CopiesAdd(record, j, k); }
      Inbox(inboxes, u) + Copies(record, j + k);
    }
  }

  /** Dispatching the same request twice over distinct users, every write succeeding,
      leaves two copies of the record at the end of each user's list. */
  lemma RedispatchDuplicates(inboxes: Inboxes, audience: seq<UserId>, record: Notification, first: seq<bool>, second: seq<bool>, i: nat)
    requires |first| == |audience| && |second| == |audience| && Distinct(audience)
    requires AllSucceeded(first) && AllSucceeded(second)
    requires i < |audience|
    ensures Inbox(FanOut(FanOut(inboxes, audience, first, record), audience, second, record), audience[i])
      == Inbox(inboxes, audience[i]) + [record, record]
  {
    RedispatchAppendsBoth(inboxes, audience, first, second, record, audience[i]);
    CountDistinct(audience, first, i);
    CountDistinct(audience, second, i);
    assert Copies(record, 2) == [record, record];
  }
}

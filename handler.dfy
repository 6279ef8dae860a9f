/** The Cloud Function `sendChannelRequestNotification`: on creation of
    `channel_requests/{requestId}` it reads the `users` collection and adds one notification
    to `users/{uid}/notifications` for every user of the snapshot. */
module Handler {
  import opened NotificationRecord
  import opened Inboxes

  /** What the handler's promise settles to: `Promise.all` resolves with one document
      reference per user, or rejects when the user read or any write rejects. */
  datatype DispatchResult = Delivered(written: nat) | AudienceReadFailed | WriteFailed

  /** The part of the Firestore database the handler touches. */
  class Firestore {
    /** Document ids of the `users` collection, in the order a snapshot lists them. */
    var users: seq<UserId>
    /** The `notifications` sub-collection of each user. */
    var notifications: Inboxes
    /** The `channel_requests` collection, keyed by document id. */
    var channelRequests: map<string, ChannelRequest>

    /** Document ids within one collection are unique. */
    ghost predicate Valid()
      reads this
    {
      Distinct(users)
    }

    constructor (users: seq<UserId>, notifications: Inboxes, channelRequests: map<string, ChannelRequest>)
      requires Distinct(users)
      ensures Valid()
      ensures this.users == users && this.notifications == notifications
      ensures this.channelRequests == channelRequests
    {
      this.users := users;
      this.notifications := notifications;
      this.channelRequests := channelRequests;
    }

    /** `users/{user}/notifications.add(record)`: on success the record is appended to that
        user's sub-collection (created if it did not exist); on failure nothing changes.
        `succeeds` stands for the store's answer. */
    method AddNotification(user: UserId, record: Notification, succeeds: bool) returns (ok: bool)
      requires Valid()
      modifies this
      ensures Valid()
      ensures ok == succeeds
      ensures notifications == if succeeds then Append(old(notifications), user, record) else old(notifications)
      ensures users == old(users) && channelRequests == old(channelRequests)
    {
      ok := succeeds;
      if succeeds {
        var existing := if user in notifications then notifications[user] else [];
        notifications := notifications[user := existing + [record]];
      }
    }

    /** The handler for the creation of `channel_requests/{requestId}`. `audienceRead` is
        whether `collection('users').get()` resolves, and `writeOutcomes[i]` whether the
        write for the i-th user of the snapshot resolves. */
    method SendChannelRequestNotification(requestId: string, audienceRead: bool, writeOutcomes: seq<bool>)
      returns (result: DispatchResult)
      requires Valid()
      requires requestId in channelRequests
      requires |writeOutcomes| == |users|
      modifies this
      ensures Valid() && users == old(users) && channelRequests == old(channelRequests)
      ensures !audienceRead ==> result == AudienceReadFailed && notifications == old(notifications)
      ensures audienceRead ==>
        notifications == FanOut(old(notifications), users, writeOutcomes, BuildNotification(channelRequests[requestId], requestId))
      ensures audienceRead ==> result == if AllSucceeded(writeOutcomes) then Delivered(|users|) else WriteFailed
    {
      var requestData := channelRequests[requestId];
      if !audienceRead {
        return AudienceReadFailed;
      }
      var usersSnapshot := users;
      ghost var record := BuildNotification(requestData, requestId);
      var pending: seq<bool> := [];
      var i := 0;
      while i < |usersSnapshot|
        invariant 0 <= i <= |usersSnapshot|
        invariant Valid()
        invariant users == usersSnapshot && channelRequests == old(channelRequests)
        invariant pending == writeOutcomes[..i]
        invariant notifications == FanOut(old(notifications), usersSnapshot[..i], writeOutcomes[..i], record)
      {
        var ok := AddNotification(usersSnapshot[i], BuildNotification(requestData, requestId), writeOutcomes[i]);
        pending := pending + [ok];
        assert usersSnapshot[..i + 1][..i] == usersSnapshot[..i];
        assert writeOutcomes[..i + 1][..i] == writeOutcomes[..i];
        i := i + 1;
      }
      assert usersSnapshot[..i] == usersSnapshot && writeOutcomes[..i] == writeOutcomes;
      result := if AllSucceeded(pending) then Delivered(|pending|) else WriteFailed;
    }
  }

  /** The record written for a request whose text is shorter than 100 characters. */
  method RecordScenario()
  {
    var text := "Looking for a ride to the airport tomorrow morning";
    var request := ChannelRequest("ch1", "General", "Alice", text);
    var record := BuildNotification(request, "req1");
    assert record.title == "New Request in General";
    assert |text| <= ExcerptLength;
    BodyRoundTrip(record.body, "Alice", text);
    assert record.body == "Alice" + Separator + text + Ellipsis;
    assert record.channelId == "ch1" && record.requestId == "req1";
    assert !record.read && record.kind == "channel_request";
  }

  /** Two users, every write succeeding: both get the same record. */
  method TwoUsersScenario(request: ChannelRequest)
  {
    var db := new Firestore(["u1", "u2"], map[], map["req1" := request]);
    var result := db.SendChannelRequestNotification("req1", true, [true, true]);
    var record := BuildNotification(request, "req1");
    assert result == Delivered(2);
    var audience := ["u1", "u2"];
    OneRecordPerUser(map[], audience, [true, true], record);
    assert audience[0] == "u1" && audience[1] == "u2";
    assert Inbox(db.notifications, "u1") == [record];
    assert Inbox(db.notifications, "u2") == [record];
  }

  /** Three users, the second write failing: the first and third records stay in place and
      the handler reports failure. */
  method PartialFailureScenario(request: ChannelRequest)
  {
    var db := new Firestore(["u1", "u2", "u3"], map[], map["req1" := request]);
    var result := db.SendChannelRequestNotification("req1", true, [true, false, true]);
    var record := BuildNotification(request, "req1");
    assert result == WriteFailed;
    var audience := ["u1", "u2", "u3"];
    OneRecordPerUser(map[], audience, [true, false, true], record);
    assert audience[0] == "u1" && audience[1] == "u2" && audience[2] == "u3";
    assert Inbox(db.notifications, "u1") == [record];
    assert Inbox(db.notifications, "u2") == [];
    assert Inbox(db.notifications, "u3") == [record];
  }

  /** No users: no writes, and the handler succeeds. */
  method EmptyAudienceScenario(request: ChannelRequest, notifications: Inboxes)
  {
    var db := new Firestore([], notifications, map["req1" := request]);
    var result := db.SendChannelRequestNotification("req1", true, []);
    assert result == Delivered(0);
    assert db.notifications == notifications;
  }

  /** The same request delivered twice: every user ends with two identical records. */
  method RedeliveryScenario(request: ChannelRequest)
  {
    var db := new Firestore(["u1", "u2"], map[], map["req1" := request]);
    var first := db.SendChannelRequestNotification("req1", true, [true, true]);
    var second := db.SendChannelRequestNotification("req1", true, [true, true]);
    var record := BuildNotification(request, "req1");
    assert first == second == Delivered(2);
    RedispatchDuplicates(map[], ["u1", "u2"], record, [true, true], [true, true], 0);
    RedispatchDuplicates(map[], ["u1", "u2"], record, [true, true], [true, true], 1);
    assert Inbox(db.notifications, "u1") == [record, record];
    assert Inbox(db.notifications, "u2") == [record, record];
  }
}

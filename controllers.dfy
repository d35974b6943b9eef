/**
 * The three operations behind the notifications endpoint, over a store of
 * saved notifications. Each checks, in this order: the caller's identity,
 * the required parameter, then the persistence steps, translating the
 * persistence failures it catches into the service's own errors.
 */
module Controllers {
  import opened Wrappers
  import opened Errors
  import opened Targets
  import opened Models

  /** A document id assigned by the store on save. */
  datatype ObjectId = ObjectId(serial: nat)

  /** Decimal digits of `n`. */
  function DecimalText(n: nat): string
    decreases n
  {
    var digit := ['0' + (n % 10) as char];
    if n < 10 then digit else DecimalText(n / 10) + digit
  }

  /** How an id is rendered inside a message. */
  function IdText(id: ObjectId): string
  {
    DecimalText(id.serial)
  }

  /**
   * The identity check every operation starts with: the identity provider's
   * answer for the token carries an id, or the caller is forbidden.
   */
  function Authorize(identity: string -> Option<string>, token: string): (r: Result<string, Error>)
    ensures r.Failure? <==> identity(token).None?
    ensures r.Failure? ==> r.error == ForbiddenError()
    ensures r.Success? ==> Some(r.value) == identity(token)
  {
    match identity(token)
    case None => Failure(ForbiddenError())
    case Some(id) => Success(id)
  }

  /** Whether some target of `n` matches `targetUser` under the store's matching rule. */
  predicate IsTargeted(matches: (TargetIds, string) -> bool, n: Notification, targetUser: string)
  {
    exists i :: 0 <= i < |n.targets| && matches(n.targets[i], targetUser)
  }

  /** The records the query `objects(targets=target_user)` selects. */
  function Selected(records: map<ObjectId, Notification>, matches: (TargetIds, string) -> bool, targetUser: string)
    : map<ObjectId, Notification>
  {
    map id | id in records && IsTargeted(matches, records[id], targetUser) :: records[id]
  }

  /** The store after the selected records have their last access set to `now`. */
  function Touched(records: map<ObjectId, Notification>, matches: (TargetIds, string) -> bool, targetUser: string,
                   now: Timestamp): map<ObjectId, Notification>
  {
    map id | id in records ::
      if IsTargeted(matches, records[id], targetUser) then records[id].(lastAccessed := Some(now)) else records[id]
  }

  /**
   * The touch changes the last access of exactly the selected records and
   * nothing else, so no record appears or disappears.
   */
  lemma TouchChangesOnlySelected(records: map<ObjectId, Notification>, matches: (TargetIds, string) -> bool,
                                 targetUser: string, now: Timestamp)
    ensures Touched(records, matches, targetUser, now).Keys == records.Keys
    ensures forall id :: id in records ==>
      var after := Touched(records, matches, targetUser, now)[id];
      && after.targets == records[id].targets
      && (after.ListInviteNotification? <==> records[id].ListInviteNotification?)
      && (after.ListInviteNotification? ==> after.listId == records[id].listId)
      && (after.lastAccessed == if IsTargeted(matches, records[id], targetUser) then Some(now) else records[id].lastAccessed)
  {
  }

  /**
   * Reading after the touch returns exactly the records that matched before
   * it, each with its last access set to `now` and otherwise unchanged.
   */
  lemma ReadAfterTouch(records: map<ObjectId, Notification>, matches: (TargetIds, string) -> bool,
                       targetUser: string, now: Timestamp)
    ensures var listed := Selected(Touched(records, matches, targetUser, now), matches, targetUser);
      && (forall id :: id in listed <==> id in records && IsTargeted(matches, records[id], targetUser))
      && (forall id :: id in listed ==> listed[id] == records[id].(lastAccessed := Some(now)))
  {
    var touched := Touched(records, matches, targetUser, now);
    forall id | id in records
      ensures IsTargeted(matches, touched[id], targetUser) <==> IsTargeted(matches, records[id], targetUser)
    {
      assert touched[id].targets == records[id].targets;
    }
  }

  const TargetUserMissingMessage := "target_user must be a value."
  const NotificationIdMissingMessage := "notification_id must be a value."

  /** The error for a failed query or touch in `get_notifications`. */
  function QueryFailedError(detail: string): Error
  {
    Error(Internal, "There was an internal service error: " + detail)
  }

  /** The error for an id that matches no stored notification. */
  function NotFoundError(id: ObjectId): (e: Error)
    ensures e.kind == NotFound && e.Status() == 404
    ensures e.message == "Unable to find unique notification_id: " + IdText(id)
  {
    Error(NotFound, "Unable to find unique notification_id: " + IdText(id))
  }

  /** The error for a failed fetch or delete in `delete_notifications`. */
  function DeleteFailedError(id: ObjectId, detail: string): Error
  {
    Error(Internal, "Unable to delete notification " + IdText(id) + ": " + detail)
  }

  /** The error for a notification that fails validation on save. */
  function SaveFailedError(detail: string): Error
  {
    Error(BadRequest, "There was an issue creating notification: " + detail)
  }

  /**
   * The notification collection: saved documents by id, and the serial of
   * the next id to hand out. `matches` is the database's rule for whether a
   * stored target matches the `target_user` of a query.
   */
  class NotificationStore {
    var records: map<ObjectId, Notification>
    var nextSerial: nat
    const matches: (TargetIds, string) -> bool

    /** Every id in use was handed out before `nextSerial`. */
    ghost predicate Valid()
      reads this
    {
      forall id :: id in records ==> id.serial < nextSerial
    }

    /** An empty collection. */
    constructor (matches: (TargetIds, string) -> bool)
      ensures Valid()
      ensures records == map[] && nextSerial == 0 && this.matches == matches
    {
      records := map[];
      nextSerial := 0;
      this.matches := matches;
    }

    /**
     * `get_notifications`. `touchFault` and `readFault` are the persistence
     * failures (OperationError, InvalidQueryError) of the touch and of the
     * read, if they happen. The touch runs before the read, so the records
     * returned carry the new last access.
     */
    method GetNotifications(identity: string -> Option<string>, token: string, targetUser: Option<string>,
                            now: Timestamp, touchFault: Option<string>, readFault: Option<string>)
      returns (r: Result<map<ObjectId, Notification>, Error>)
      requires Valid()
      modifies this`records
      ensures Valid()
      ensures Authorize(identity, token).Failure? ==>
        r == Failure(ForbiddenError()) && records == old(records)
      ensures Authorize(identity, token).Success? && targetUser.None? ==>
        r == Failure(Error(BadRequest, TargetUserMissingMessage)) && records == old(records)
      ensures Authorize(identity, token).Success? && targetUser.Some? && touchFault.Some? ==>
        r == Failure(QueryFailedError(touchFault.value)) && records == old(records)
      ensures Authorize(identity, token).Success? && targetUser.Some? && touchFault.None? ==>
        && records == Touched(old(records), matches, targetUser.value, now)
        && r == if readFault.Some? then Failure(QueryFailedError(readFault.value))
                else Success(Selected(records, matches, targetUser.value))
    {
      var caller := Authorize(identity, token);
      if caller.Failure? {
        return Failure(caller.error);
      }
      if targetUser.None? {
        return Failure(Error(BadRequest, TargetUserMissingMessage));
      }
      if touchFault.Some? {
        return Failure(QueryFailedError(touchFault.value));
      }
      records := Touched(records, matches, targetUser.value, now);
      if readFault.Some? {
        return Failure(QueryFailedError(readFault.value));
      }
      return Success(Selected(records, matches, targetUser.value));
    }

    /**
     * `delete_notifications`. `fetchFault` is a failure (ValidationError,
     * OperationError) of the fetch by id and `deleteFault` one of the
     * deletion, if they happen. Success removes exactly the one record.
     */
    method DeleteNotifications(identity: string -> Option<string>, token: string, notificationId: Option<ObjectId>,
                               fetchFault: Option<string>, deleteFault: Option<string>)
      returns (r: Result<(), Error>)
      requires Valid()
      modifies this`records
      ensures Valid()
      ensures r.Failure? ==> records == old(records)
      ensures Authorize(identity, token).Failure? ==> r == Failure(ForbiddenError())
      ensures Authorize(identity, token).Success? && notificationId.None? ==>
        r == Failure(Error(BadRequest, NotificationIdMissingMessage))
      ensures Authorize(identity, token).Success? && notificationId.Some? && fetchFault.Some? ==>
        r == Failure(DeleteFailedError(notificationId.value, fetchFault.value))
      ensures Authorize(identity, token).Success? && notificationId.Some? && fetchFault.None? &&
              notificationId.value !in old(records) ==>
        r == Failure(NotFoundError(notificationId.value))
      ensures Authorize(identity, token).Success? && notificationId.Some? && fetchFault.None? &&
              notificationId.value in old(records) ==>
        r == (if deleteFault.Some? then Failure(DeleteFailedError(notificationId.value, deleteFault.value))
              else Success(()))
      ensures r.Success? ==>
        && notificationId.Some? && notificationId.value in old(records)
        && records == old(records) - {notificationId.value}
    {
      var caller := Authorize(identity, token);
      if caller.Failure? {
        return Failure(caller.error);
      }
      if notificationId.None? {
        return Failure(Error(BadRequest, NotificationIdMissingMessage));
      }
      var id := notificationId.value;
      if fetchFault.Some? {
        return Failure(DeleteFailedError(id, fetchFault.value));
      }
      if id !in records {
        return Failure(NotFoundError(id));
      }
      if deleteFault.Some? {
        return Failure(DeleteFailedError(id, deleteFault.value));
      }
      records := records - {id};
      return Success(());
    }

    /**
     * `post_notifications`: build the notification with the factory, then
     * save it under a fresh id. Errors of the factory propagate as they are;
     * a validation failure on save becomes a bad request.
     */
    method PostNotifications(identity: string -> Option<string>, token: string, payload: Payload, lookups: Lookups)
      returns (r: Result<(), Error>)
      requires Valid()
      modifies this
      ensures Valid()
      ensures r.Failure? ==> records == old(records) && nextSerial == old(nextSerial)
      ensures Authorize(identity, token).Failure? ==> r == Failure(ForbiddenError())
      ensures Authorize(identity, token).Success? && Factory(payload, lookups).outcome.Failure? ==>
        r == Failure(Factory(payload, lookups).outcome.error)
      ensures Authorize(identity, token).Success? && Factory(payload, lookups).outcome.Success? ==>
        var n := Factory(payload, lookups).outcome.value;
        if MissingRequiredField(n).Some? then
          r == Failure(SaveFailedError(MissingRequiredField(n).value))
        else
          && r == Success(())
          && ObjectId(old(nextSerial)) !in old(records)
          && records == old(records)[ObjectId(old(nextSerial)) := n]
          && |records| == |old(records)| + 1
          && nextSerial == old(nextSerial) + 1
    {
      var caller := Authorize(identity, token);
      if caller.Failure? {
        return Failure(caller.error);
      }
      var built := NotificationFactory(payload, lookups);
      if built.outcome.Failure? {
        return Failure(built.outcome.error);
      }
      var n := built.outcome.value;
      var missing := MissingRequiredField(n);
      if missing.Some? {
        return Failure(SaveFailedError(missing.value));
      }
      var id := ObjectId(nextSerial);
      assert id !in records;
      records := records[id := n];
      nextSerial := nextSerial + 1;
      r := Success(());
    }
  }

  /** Listing a one-record store by a user its record targets returns that record, touched. */
  lemma ListSingleRecord(id: ObjectId, n: Notification, matches: (TargetIds, string) -> bool,
                         targetUser: string, now: Timestamp)
    requires IsTargeted(matches, n, targetUser)
    ensures Selected(Touched(map[id := n], matches, targetUser, now), matches, targetUser)
      == map[id := n.(lastAccessed := Some(now))]
  {
    ReadAfterTouch(map[id := n], matches, targetUser, now);
  }

  /** The factory builds a list invite for one fully specified target without any lookup. */
  lemma ListInviteFactory(target: TargetIds, listId: string, lookups: Lookups)
    requires HasBothIds(target)
    ensures Factory(Payload([target], Some("list-invite"), Some(listId)), lookups)
      == Resolution(Success(ListInviteNotification([target], None, Some(listId))), [])
  {
    FullySpecifiedTargetsKept([target], lookups);
    assert IsRegistered(Some("list-invite"));
  }

  /**
   * Creating a list invite for one fully specified target and then listing
   * that target's notifications returns that one notification, with the
   * same target and list id, touched by the read.
   */
  method ListInviteRoundTrip(identity: string -> Option<string>, token: string, matches: (TargetIds, string) -> bool,
                             userId: string, keycloakId: string, listId: string, lookups: Lookups, now: Timestamp)
    returns (listed: Result<map<ObjectId, Notification>, Error>)
    requires identity(token).Some?
    requires matches(TargetIds(Some(userId), Some(keycloakId)), userId)
    ensures listed.Success? && |listed.value| == 1
    ensures forall id :: id in listed.value ==>
      listed.value[id] == ListInviteNotification([TargetIds(Some(userId), Some(keycloakId))], Some(now), Some(listId))
  {
    var target := TargetIds(Some(userId), Some(keycloakId));
    var store := new NotificationStore(matches);
    var payload := Payload([target], Some("list-invite"), Some(listId));
    var n := ListInviteNotification([target], None, Some(listId));
    ListInviteFactory(target, listId, lookups);
    assert Authorize(identity, token).Success?;
    assert MissingRequiredField(n) == None;
    var posted := store.PostNotifications(identity, token, payload, lookups);
    assert store.records == map[ObjectId(0) := n];
    assert IsTargeted(matches, n, userId) by {
      assert n.targets[0] == target;
    }
    ListSingleRecord(ObjectId(0), n, matches, userId, now);
    listed := store.GetNotifications(identity, token, Some(userId), now, None, None);
    assert listed.value == map[ObjectId(0) := n.(lastAccessed := Some(now))];
  }
}

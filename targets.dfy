/**
 * Target validation and resolution: a request target names a user by
 * `user_id`, by `keycloak_id` or by both; a target with only one of them is
 * completed through the lookup for that field.
 */
module Targets {
  import opened Wrappers
  import opened Errors

  /**
   * The two identity fields of a request target, of a lookup's answer and of
   * the embedded target document alike. `None` is a missing key or a null
   * value; any string, the empty one included, is present.
   */
  datatype TargetIds = TargetIds(userId: Option<string>, keycloakId: Option<string>)

  /** The field whose value drives a lookup. */
  datatype IdKey = UserIdKey | KeycloakIdKey

  /**
   * The user-service lookups that complete a partial target: from a user_id
   * and from a keycloak_id. They are external, so the model takes them as
   * parameters and assumes nothing about them.
   */
  datatype Lookups = Lookups(fromUserId: string -> TargetIds, fromKeycloakId: string -> TargetIds)

  /** One call of a lookup: which one, and with which value. */
  datatype LookupCall = LookupCall(key: IdKey, value: string)

  /** What a resolution step returns or raises, with the lookups it called in order. */
  datatype Resolution<+T> = Resolution(outcome: Result<T, Error>, calls: seq<LookupCall>)

  const MissingIdMessage := "Payload.targets must contain at least user_id or keycloak_id"

  /** The error raised for a target that has neither id. */
  function MissingIdError(): Error
  {
    Error(BadRequest, MissingIdMessage)
  }

  predicate HasSomeId(t: TargetIds)
  {
    t.userId.Some? || t.keycloakId.Some?
  }

  predicate HasBothIds(t: TargetIds)
  {
    t.userId.Some? && t.keycloakId.Some?
  }

  /**
   * `check_for_valid_id`: the field to look up from, `None` when both are
   * present, and a bad-request error when neither is.
   */
  function CheckForValidId(t: TargetIds): (r: Result<Option<IdKey>, Error>)
    ensures r.Failure? <==> !HasSomeId(t)
    ensures r.Failure? ==> r.error == MissingIdError() && r.error.Status() == 400
    ensures r == Success(None) <==> HasBothIds(t)
    ensures r == Success(Some(KeycloakIdKey)) <==> t.userId.None? && t.keycloakId.Some?
    ensures r == Success(Some(UserIdKey)) <==> t.userId.Some? && t.keycloakId.None?
  {
    if t.userId.None? && t.keycloakId.None? then
      Failure(MissingIdError())
    else if t.userId.None? then
      Success(Some(KeycloakIdKey))
    else if t.keycloakId.None? then
      Success(Some(UserIdKey))
    else
      Success(None)
  }

  /** The explicit two-entry dispatch from a field to its lookup. */
  function Lookup(lookups: Lookups, key: IdKey, value: string): TargetIds
  {
    match key
    case UserIdKey => lookups.fromUserId(value)
    case KeycloakIdKey => lookups.fromKeycloakId(value)
  }

  /**
   * `obtain_target_document`: validate first; keep a fully specified target
   * as it is; otherwise build the document from the one lookup that the
   * present field selects.
   */
  function ObtainTargetDocument(t: TargetIds, lookups: Lookups): (r: Resolution<TargetIds>)
    ensures !HasSomeId(t) ==> r == Resolution(Failure(MissingIdError()), [])
    ensures HasBothIds(t) ==> r == Resolution(Success(t), [])
    ensures t.userId.Some? && t.keycloakId.None? ==>
      r == Resolution(Success(lookups.fromUserId(t.userId.value)), [LookupCall(UserIdKey, t.userId.value)])
    ensures t.userId.None? && t.keycloakId.Some? ==>
      r == Resolution(Success(lookups.fromKeycloakId(t.keycloakId.value)), [LookupCall(KeycloakIdKey, t.keycloakId.value)])
  {
    match CheckForValidId(t)
    case Failure(e) => Resolution(Failure(e), [])
    case Success(None) => Resolution(Success(t), [])
    case Success(Some(key)) =>
      var value := if key == UserIdKey then t.userId.value else t.keycloakId.value;
      Resolution(Success(Lookup(lookups, key, value)), [LookupCall(key, value)])
  }

  /** Presence is "not None": an empty user_id is a present one and is looked up. */
  lemma EmptyIdCountsAsPresent(lookups: Lookups)
    ensures CheckForValidId(TargetIds(Some(""), None)) == Success(Some(UserIdKey))
    ensures ObtainTargetDocument(TargetIds(Some(""), None), lookups).calls == [LookupCall(UserIdKey, "")]
  {
  }
}

/**
 * The notification documents, the registry of notification types, and the
 * factory that turns a creation payload into an unsaved notification.
 */
module Models {
  import opened Wrappers
  import opened Errors
  import opened Targets

  /** An opaque point in time (`datetime.now()` is a parameter of the model). */
  type Timestamp = int

  /** The closed set of notification document classes. */
  datatype Variant = Base | ListInvite

  /**
   * A notification document: `Notification` or its subclass
   * `ListInviteNotification`, which adds `list_id`. The id is not part of the
   * document value; the store assigns it on save.
   */
  datatype Notification =
    | BaseNotification(targets: seq<TargetIds>, lastAccessed: Option<Timestamp>)
    | ListInviteNotification(targets: seq<TargetIds>, lastAccessed: Option<Timestamp>, listId: Option<string>)

  /** The creation payload after schema validation: `targets` is always there. */
  datatype Payload = Payload(targets: seq<TargetIds>, notificationType: Option<string>, listId: Option<string>)

  /** `AVAILABLE_NOTIFICATION_TYPES`: discriminator to document class. */
  const AvailableNotificationTypes: map<string, Variant> := map["base" := Base, "list-invite" := ListInvite]

  /** The registry holds exactly the two kebab-case keys, matched case-sensitively. */
  lemma RegistryIsClosed()
    ensures AvailableNotificationTypes.Keys == {"base", "list-invite"}
    ensures AvailableNotificationTypes["base"] == Base
    ensures AvailableNotificationTypes["list-invite"] == ListInvite
    ensures "Base" !in AvailableNotificationTypes && "list_invite" !in AvailableNotificationTypes
  {
  }

  /** `notification_type not in AVAILABLE_NOTIFICATION_TYPES.keys()`, with a missing type never registered. */
  predicate IsRegistered(notificationType: Option<string>)
  {
    notificationType.Some? && notificationType.value in AvailableNotificationTypes
  }

  /** Python's rendering of an optional string inside an f-string. */
  function ShowOption(s: Option<string>): string
  {
    if s.None? then "None" else s.value
  }

  /** The error raised for an unsupported discriminator. */
  function UnsupportedTypeError(notificationType: Option<string>): (e: Error)
    ensures e.kind == NotificationType && e.Status() == 400
    ensures notificationType.None? ==> e.message == "notification_type: None is not supported."
    ensures notificationType.Some? ==> e.message == "notification_type: " + notificationType.value + " is not supported."
  {
    Error(NotificationType, "notification_type: " + ShowOption(notificationType) + " is not supported.")
  }

  /** Calling the document class with `targets` and `list_id`; a fresh document is never accessed. */
  function Instantiate(v: Variant, targets: seq<TargetIds>, listId: Option<string>): (n: Notification)
    ensures n.targets == targets && n.lastAccessed == None
    ensures n.ListInviteNotification? <==> v == ListInvite
    ensures n.ListInviteNotification? ==> n.listId == listId
  {
    match v
    case Base => BaseNotification(targets, None)
    case ListInvite => ListInviteNotification(targets, None, listId)
  }

  /**
   * Specification of `create_target_list`: resolve the targets from first to
   * last, stopping at the first that fails.
   */
  function ResolveTargets(targets: seq<TargetIds>, lookups: Lookups): Resolution<seq<TargetIds>>
    decreases |targets|
  {
    if targets == [] then
      Resolution(Success([]), [])
    else
      var before := ResolveTargets(targets[..|targets| - 1], lookups);
      var last := ObtainTargetDocument(targets[|targets| - 1], lookups);
      if before.outcome.Failure? then
        before
      else if last.outcome.Failure? then
        Resolution(Failure(last.outcome.error), before.calls + last.calls)
      else
        Resolution(Success(before.outcome.value + [last.outcome.value]), before.calls + last.calls)
  }

  /** Once a prefix of the targets fails, the whole list fails the same way, with no further lookups. */
  lemma {:induction false} FailureIsFinal(targets: seq<TargetIds>, k: nat, lookups: Lookups)
    requires k <= |targets|
    requires ResolveTargets(targets[..k], lookups).outcome.Failure?
    ensures ResolveTargets(targets, lookups) == ResolveTargets(targets[..k], lookups)
    decreases |targets| - k
  {
    if k < |targets| {
      var front := targets[..|targets| - 1];
      assert front[..k] == targets[..k];
      FailureIsFinal(front, k, lookups);
    } else {
      assert targets[..k] == targets;
    }
  }

  /** `create_target_list`: one target document per target, appended in order. */
  method CreateTargetList(targets: seq<TargetIds>, lookups: Lookups) returns (r: Resolution<seq<TargetIds>>)
    ensures r == ResolveTargets(targets, lookups)
  {
    var targetsOut: seq<TargetIds> := [];
    var calls: seq<LookupCall> := [];
    for i := 0 to |targets|
      invariant ResolveTargets(targets[..i], lookups) == Resolution(Success(targetsOut), calls)
    {
      var step := ObtainTargetDocument(targets[i], lookups);
      assert targets[..i + 1][..i] == targets[..i];
      calls := calls + step.calls;
      if step.outcome.Failure? {
        FailureIsFinal(targets, i + 1, lookups);
        return Resolution(Failure(step.outcome.error), calls);
      }
      targetsOut := targetsOut + [step.outcome.value];
    }
    assert targets[..|targets|] == targets;
    return Resolution(Success(targetsOut), calls);
  }

  /** Target resolution succeeds exactly when every target carries at least one id. */
  lemma {:induction false} ResolveTargetsSucceedsIff(targets: seq<TargetIds>, lookups: Lookups)
    ensures ResolveTargets(targets, lookups).outcome.Success? <==>
      forall i :: 0 <= i < |targets| ==> HasSomeId(targets[i])
    ensures ResolveTargets(targets, lookups).outcome.Failure? ==>
      ResolveTargets(targets, lookups).outcome.error == MissingIdError()
    decreases |targets|
  {
    if targets != [] {
      var front := targets[..|targets| - 1];
      ResolveTargetsSucceedsIff(front, lookups);
      assert forall i :: 0 <= i < |front| ==> front[i] == targets[i];
    }
  }

  /**
   * On success there is one document per target, in input order, each the
   * document resolved from the target at the same position.
   */
  lemma {:induction false} ResolveTargetsInOrder(targets: seq<TargetIds>, lookups: Lookups)
    requires ResolveTargets(targets, lookups).outcome.Success?
    ensures |ResolveTargets(targets, lookups).outcome.value| == |targets|
    ensures forall i :: 0 <= i < |targets| ==> HasSomeId(targets[i])
    ensures forall i :: 0 <= i < |targets| ==>
      ResolveTargets(targets, lookups).outcome.value[i] == ObtainTargetDocument(targets[i], lookups).outcome.value
    decreases |targets|
  {
    ResolveTargetsSucceedsIff(targets, lookups);
    if targets != [] {
      var front := targets[..|targets| - 1];
      ResolveTargetsInOrder(front, lookups);
      assert forall i :: 0 <= i < |front| ==> front[i] == targets[i];
    }
  }

  /** Targets that all carry both ids are kept exactly as given, without a single lookup. */
  lemma {:induction false} FullySpecifiedTargetsKept(targets: seq<TargetIds>, lookups: Lookups)
    requires forall i :: 0 <= i < |targets| ==> HasBothIds(targets[i])
    ensures ResolveTargets(targets, lookups) == Resolution(Success(targets), [])
    decreases |targets|
  {
    if targets != [] {
      var front := targets[..|targets| - 1];
      var last := targets[|targets| - 1];
      assert forall i :: 0 <= i < |front| ==> front[i] == targets[i];
      FullySpecifiedTargetsKept(front, lookups);
      assert HasBothIds(last);
      assert ObtainTargetDocument(last, lookups) == Resolution(Success(last), []);
      assert front + [last] == targets;
    }
  }

  /** Each target costs at most one lookup call. */
  lemma {:induction false} LookupsAtMostOnePerTarget(targets: seq<TargetIds>, lookups: Lookups)
    ensures |ResolveTargets(targets, lookups).calls| <= |targets|
    decreases |targets|
  {
    if targets != [] {
      LookupsAtMostOnePerTarget(targets[..|targets| - 1], lookups);
    }
  }

  /**
   * Specification of `notification_factory`: reject an unregistered type
   * before touching any target, then resolve the targets and build the
   * selected document with the payload's `list_id`.
   */
  function Factory(payload: Payload, lookups: Lookups): (r: Resolution<Notification>)
    ensures !IsRegistered(payload.notificationType) ==>
      r == Resolution(Failure(UnsupportedTypeError(payload.notificationType)), [])
    ensures IsRegistered(payload.notificationType) ==>
      r.calls == ResolveTargets(payload.targets, lookups).calls
  {
    if !IsRegistered(payload.notificationType) then
      Resolution(Failure(UnsupportedTypeError(payload.notificationType)), [])
    else
      var resolved := ResolveTargets(payload.targets, lookups);
      match resolved.outcome
      case Failure(e) => Resolution(Failure(e), resolved.calls)
      case Success(documents) =>
        Resolution(Success(Instantiate(AvailableNotificationTypes[payload.notificationType.value], documents, payload.listId)),
                   resolved.calls)
  }

  /** `notification_factory`. */
  method NotificationFactory(payload: Payload, lookups: Lookups) returns (r: Resolution<Notification>)
    ensures r == Factory(payload, lookups)
  {
    if !IsRegistered(payload.notificationType) {
      return Resolution(Failure(UnsupportedTypeError(payload.notificationType)), []);
    }
    var resolved := CreateTargetList(payload.targets, lookups);
    if resolved.outcome.Failure? {
      return Resolution(Failure(resolved.outcome.error), resolved.calls);
    }
    var variant := AvailableNotificationTypes[payload.notificationType.value];
    return Resolution(Success(Instantiate(variant, resolved.outcome.value, payload.listId)), resolved.calls);
  }

  /**
   * The factory succeeds exactly for a registered type whose targets all
   * carry an id; a single target without one fails the whole call with the
   * bad-request error.
   */
  lemma FactorySucceedsIff(payload: Payload, lookups: Lookups)
    ensures Factory(payload, lookups).outcome.Success? <==>
      IsRegistered(payload.notificationType) &&
      forall i :: 0 <= i < |payload.targets| ==> HasSomeId(payload.targets[i])
    ensures IsRegistered(payload.notificationType) && Factory(payload, lookups).outcome.Failure? ==>
      Factory(payload, lookups).outcome.error == MissingIdError()
  {
    ResolveTargetsSucceedsIff(payload.targets, lookups);
  }

  /**
   * A successful factory call yields the registered variant, carrying one
   * resolved document per payload target in order, and, for a list invite,
   * the payload's `list_id`.
   */
  lemma FactoryResult(payload: Payload, lookups: Lookups)
    requires Factory(payload, lookups).outcome.Success?
    ensures var n := Factory(payload, lookups).outcome.value;
      && n.lastAccessed == None
      && (n.ListInviteNotification? <==> payload.notificationType == Some("list-invite"))
      && (n.ListInviteNotification? ==> n.listId == payload.listId)
      && |n.targets| == |payload.targets|
      && (forall i :: 0 <= i < |payload.targets| ==> HasSomeId(payload.targets[i]))
      && forall i :: 0 <= i < |payload.targets| ==>
           n.targets[i] == ObtainTargetDocument(payload.targets[i], lookups).outcome.value
  {
    ResolveTargetsInOrder(payload.targets, lookups);
  }

  /**
   * The required fields that `save()` validates: `targets` on every variant
   * (an empty list counts as missing) and `list_id` on a list invite. The
   * result names the first missing field, if any.
   */
  function MissingRequiredField(n: Notification): (field: Option<string>)
    ensures field.None? <==> |n.targets| > 0 && (n.ListInviteNotification? ==> n.listId.Some?)
  {
    if n.targets == [] then Some("targets")
    else if n.ListInviteNotification? && n.listId.None? then Some("list_id")
    else None
  }
}

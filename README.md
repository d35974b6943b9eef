# Notification service core, modelled in Dafny

This project models the core of a small notification service. The service creates, lists and deletes notification records addressed to one or more target users. It checks each caller's bearer token against an identity provider. The model covers five parts:

- **Target resolution** (`Targets`, from `utils.py`). A target names a user by `user_id`, by `keycloak_id`, or by both. A target with neither is rejected before any lookup runs. A target with both is kept as it is. A target with exactly one is completed by the lookup for that field.
- **Variant registry and factory** (`Models`, from `models.py`). The registry maps the discriminators `"base"` and `"list-invite"` to the two document classes. The factory rejects an unknown or missing discriminator before it resolves any target. It then resolves the targets in order and builds the selected document. `CreateTargetList` is the source's loop, proved against the function `ResolveTargets`.
- **Operations** (`Controllers`, from `controllers.py`). `NotificationStore` is a class holding the saved documents in a `map<ObjectId, Notification>`. Its three methods do the get, delete and post operations. Each checks the caller's identity first, then the required parameter, then runs the persistence steps. Persistence failures are translated as the source translates them.
- **Error kinds** (`Errors`, from `exceptions.py`). There are five exception classes, each with a fixed HTTP status and a message.
- **Token extraction** (`Routes`, from `routes.py`). This models `headers.get("Authorization", "").lstrip("Bearer").strip()` with its quirk: `lstrip("Bearer")` removes a leading run of the characters B, e, a and r, not the word "Bearer".

External collaborators are parameters of the model:

- the identity provider is a function from token to optional id;
- the two user-service lookups are a pair of functions (`Lookups`);
- the clock is a `Timestamp` argument;
- the database's matching of a stored target against `target_user` is a predicate given to the store;
- each failure the database may raise is an optional detail string per persistence step.

Every resolution also returns the list of lookup calls it made. That is how "no lookup happens" is stated: the returned list is empty.

Three behaviours of the code are easy to misread, and the model follows the code in each:

- The code treats a caller as unauthenticated only when the provider's id is `None`. An empty id string passes (`Controllers.Authorize`).
- No "lookup found nothing" case exists in the code: the lookups are stubs whose result is always used. The model takes the lookups as total functions.
- The list operation touches `last_accessed` before it reads. So the records returned already carry the new timestamp.

## Model

| member | source | states |
|---|---|---|
| `Errors.StatusCode` | application/namespaces/notifications/exceptions.py:9-52 | every status is 4xx or 5xx; it is 5xx exactly for the internal error and 404 exactly for not-found |
| `Errors.StatusTable` | application/namespaces/notifications/exceptions.py:9-52 | forbidden 403, type error 400, bad request 400, not found 404, internal 500 |
| `Errors.ForbiddenError` | application/namespaces/notifications/exceptions.py:4-13 | the forbidden error built without a message has status 403 and the message "You don't have permission to access this resource" |
| `Errors.MessageIsConstructorArgument` | application/namespaces/notifications/exceptions.py:21-56 | an error carries exactly the message it was constructed with, and its class's status |
| `Targets.CheckForValidId` | application/namespaces/notifications/utils.py:37-65 | fails with bad request "Payload.targets must contain at least user_id or keycloak_id" exactly when both ids are absent; gives "keycloak_id" exactly when only keycloak_id is present, "user_id" exactly when only user_id is, and no key exactly when both are |
| `Targets.ObtainTargetDocument` | application/namespaces/notifications/utils.py:8-35 | no ids: the bad-request error and no lookup call; both ids: the target unchanged and no lookup call; one id: exactly one call, to that field's lookup with that field's value, and the document is the lookup's answer |
| `Targets.EmptyIdCountsAsPresent` | application/namespaces/notifications/utils.py:53-64 | presence means "not None": an empty user_id is present and is looked up |
| `Models.RegistryIsClosed` | application/namespaces/notifications/models.py:43-48 | the registry's keys are exactly "base" and "list-invite", mapped to the base and list-invite variants; other spellings are not keys |
| `Models.UnsupportedTypeError` | application/namespaces/notifications/models.py:91-94 | the type error has status 400 and the message "notification_type: {t} is not supported.", with "None" for a missing type |
| `Models.Instantiate` | application/namespaces/notifications/models.py:25-40 | a new document carries the given targets and no last access; it is a list invite exactly for that variant, and then it carries the given list_id |
| `Models.CreateTargetList` | application/namespaces/notifications/models.py:51-71 | the loop's result and lookup calls are those of `ResolveTargets`, the in-order resolution that stops at the first failing target |
| `Models.FailureIsFinal` | application/namespaces/notifications/models.py:64-69 | once a prefix of the targets fails, the whole list fails with that error and no further lookup calls |
| `Models.ResolveTargetsSucceedsIff` | application/namespaces/notifications/models.py:62-71 | resolving the targets succeeds exactly when every target has at least one id; otherwise it fails with the missing-id bad-request error |
| `Models.ResolveTargetsInOrder` | application/namespaces/notifications/models.py:62-71 | on success there is one document per target, same length, and the i-th document is the one resolved from the i-th target |
| `Models.FullySpecifiedTargetsKept` | application/namespaces/notifications/models.py:62-71 | targets that all carry both ids come back unchanged, with no lookup call |
| `Models.LookupsAtMostOnePerTarget` | application/namespaces/notifications/models.py:64-69 | resolving a list makes at most one lookup call per target |
| `Models.Factory` | application/namespaces/notifications/models.py:74-99 | an unregistered or missing type fails with the type error before any target is resolved (no lookup call); a registered type makes the lookup calls of the target resolution |
| `Models.NotificationFactory` | application/namespaces/notifications/models.py:74-99 | the method returns what `Factory` specifies |
| `Models.FactorySucceedsIff` | application/namespaces/notifications/models.py:89-99 | the factory succeeds exactly for a registered type whose targets all carry an id; with a registered type, one target without ids fails the whole call with the bad-request error |
| `Models.FactoryResult` | application/namespaces/notifications/models.py:95-99 | a successful call gives the selected variant with no last access, one resolved document per payload target in order, and for a list invite the payload's list_id |
| `Models.MissingRequiredField` | application/namespaces/notifications/models.py:29-40 | a document passes save validation exactly when its targets are non-empty and, for a list invite, its list_id is present |
| `Controllers.Authorize` | application/namespaces/notifications/controllers.py:64-66 | the caller is forbidden, with the default forbidden error, exactly when the identity provider gives no id for the token |
| `Controllers.TouchChangesOnlySelected` | application/namespaces/notifications/controllers.py:70-71 | the touch keeps the same ids, and changes only the last access of the records the query selects, to the current time |
| `Controllers.ReadAfterTouch` | application/namespaces/notifications/controllers.py:70-77 | the read after the touch returns exactly the records that matched before it, each with the new last access and otherwise unchanged |
| `Controllers.NotFoundError` | application/namespaces/notifications/controllers.py:116-119 | the not-found error has status 404 and the message "Unable to find unique notification_id: {id}" |
| `Controllers.NotificationStore.GetNotifications` | application/namespaces/notifications/controllers.py:43-86 | forbidden first, then bad request "target_user must be a value.", then a failed touch gives an internal error; all three leave the store unchanged. Otherwise the selected records are touched, and the result is either those records or an internal error from a failed read |
| `Controllers.NotificationStore.DeleteNotifications` | application/namespaces/notifications/controllers.py:89-122 | forbidden first, then bad request "notification_id must be a value.", then a failed fetch gives an internal error, an id not in the store gives not-found, and a failed delete gives an internal error; every failure leaves the store unchanged. Success removes exactly that one record and keeps every other |
| `Controllers.NotificationStore.PostNotifications` | application/namespaces/notifications/controllers.py:125-154 | forbidden first; factory errors (type error, missing-id bad request) propagate unchanged; a document failing validation gives a bad request; every failure leaves the store unchanged. Success adds exactly one record under a fresh id, equal to the factory's result |
| `Controllers.ListSingleRecord` | application/namespaces/notifications/controllers.py:70-77 | listing a one-record store by a user its record targets returns that record, touched |
| `Controllers.ListInviteFactory` | tests/fixtures/notification_data.py:8-15 | the list-invite payload with one fully specified target builds that list invite without a lookup |
| `Controllers.ListInviteRoundTrip` | tests/test_notifications.py:15-26 | creating a list invite for one fully specified target and then listing that user gives exactly one record, with the same target, the same list_id and the new last access |
| `Routes.LeadingRun` | application/namespaces/notifications/routes.py:59 | the length of the longest leading run of characters from the set: all characters before it are in the set, the one at it is not |
| `Routes.TrailingRun` | application/namespaces/notifications/routes.py:59 | the same for the trailing run |
| `Routes.Strip` | application/namespaces/notifications/routes.py:59 | `strip()` gives a string with no leading or trailing whitespace (Python's `str.isspace` set) |
| `Routes.StripResult` | application/namespaces/notifications/routes.py:59 | `strip()` gives a contiguous slice of its input, and only whitespace is cut off on either side |
| `Routes.LStripPastRun` | application/namespaces/notifications/routes.py:59 | `lstrip` removes a whole leading run of set characters and stops at the first character outside the set |
| `Routes.StripKeepsTrimmed` | application/namespaces/notifications/routes.py:59 | `strip()` leaves a string without surrounding whitespace unchanged |
| `Routes.GetTokenFromHeader` | application/namespaces/notifications/routes.py:49-60 | a missing Authorization header gives ""; the token never has leading or trailing whitespace |
| `Routes.BearerSchemeRemoved` | application/namespaces/notifications/routes.py:59 | "Bearer " followed by a token without surrounding whitespace gives exactly that token, whatever its first character |
| `Routes.LeadingBearerCharLost` | application/namespaces/notifications/routes.py:59 | not prefix-safe: a header value starting with B, e, a or r gives the same token as the value without that character |
| `Routes.BareTokenDamaged` | application/namespaces/notifications/routes.py:59 | the bare header value "eyJ0" gives "yJ0" |
| `Routes.SchemeWithoutSpaceDamaged` | application/namespaces/notifications/routes.py:59 | "Bearerabc" gives "bc" |
| `Routes.LowercaseSchemeKept` | application/namespaces/notifications/routes.py:59 | "bearer xyz" is returned unchanged, because lower-case b is not in the set |

## Left out

- HTTP routing, request marshalling and `abort` (routes.py outside `get_token_from_header`) are framework glue. The schema check that a payload has `targets` sits there too, so `Models.Payload` always carries a targets list. The "'targets' is a required property" message comes from that layer.
- Building the keycloak client and reading the configuration are foreign calls. Identity is a function from token to optional id. An exception raised by the client itself is not modelled.
- The bodies of `get_id_data_from_user_id` and `get_id_data_from_keycloak_id` are `pass` stubs. They are parameters (`Targets.Lookups`). The `TypeError` that unpacking their `None` would raise is not modelled, and neither is the name-based `getattr` dispatch, which becomes a two-case match.
- Extra keys in a target dictionary are not modelled. mongoengine would reject them when building the embedded document.
- `Controllers.NotificationStore.GetNotifications`: the source calls `modify(lastAccessed=...)`. That call touches at most one document and names a field that does not exist (its field is `last_accessed`). The model touches every selected record's `last_accessed`, because the effect of that call depends on library behaviour outside this model.
- How `objects(targets=target_user)` matches embedded target documents is library behaviour. It is the store's `matches` predicate.
- `Controllers.NotificationStore.GetNotifications`: the source returns a list in database order. The model returns the selected records as a map from id, so order is not modelled.
- `Models.Instantiate`: the source passes `list_id` to the base class too. mongoengine may reject that as an unknown field. The model drops `list_id` for the base variant, because that is library behaviour outside this model.
- `Models.MissingRequiredField`: the model gives the name of the missing field as the validation detail. mongoengine's own error text is not modelled.
- The detail text of the persistence exceptions (`OperationError`, `InvalidQueryError`, `ValidationError`) is a parameter of each operation.
- `Controllers.NotificationStore.DeleteNotifications`: the id is an `ObjectId` value, not the query string. A malformed id string raises `ValidationError` in the source. The model covers it as a failure of the fetch step (`fetchFault`).
- `MultipleObjectsReturned` on delete is uncaught in the source. Ids are unique keys in the model, so it cannot occur. `OperationError` on save is also uncaught in the source, and the model does not produce it.
- The store hands out ids from a counter. MongoDB's id generation is not modelled.
- The current time (`datetime.now()`) is a `Timestamp` argument.
- `Routes.GetTokenFromHeader`: headers are a map with an exact-case "Authorization" key. Flask's case-insensitive header lookup is not modelled.
- The default `None` message of the four exception classes other than the forbidden one is never used by the core. The model's messages are always strings.
- Concurrency between requests is not modelled. Application wiring, `custom_fields.py` and the test fixtures' uuid generation are also left out.

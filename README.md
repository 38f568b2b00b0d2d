# dynamodb-toolbox-py: entity operations and storage-error translation

This project models the core of `dynamodb-toolbox-py`, a thin asynchronous CRUD layer over DynamoDB, in Dafny. It has two parts.

- **Storage errors** (`storage_errors.dfy`, module `StorageErrors`):
  - the error kinds `UnknownStorageError` and `ObjectNotFoundError`, with their status `code` and their `botocore_code` sets;
  - `BaseStorageError.from_boto`, a first-match search over the ordered registry of kinds that falls back to `UnknownStorageError`;
  - the `handle_botocore_exceptions(warn)` wrapper's three-way decision over how a wrapped call ended: return the result, swallow a `ClientError` whose code is in `warn`, or raise the translated error. Exceptions that are not `ClientError`s pass through unchanged.
- **The entity accessor** (`requests.dfy`, `entity.dfy`; modules `Requests` and `Entities`):
  - Every operation builds one request record: the key `{pk: uid, sk: uid}`, the existence conditions over `#key -> pk`, the `patch_item` update expression and its value map, and the optional `ExclusiveStartKey` of `query_index`.
  - `get_item` and `query_index` shape the response into what they return. `get_item` applies its local not-found rule.
  - `class Entity` holds the fields `create_entity` assigns. Its methods mutate the caller's dict (`class ItemDict`) in place through the key-derivation callback, as `create_item` and `replace_item` do, then send the request to the table handle.
  - Each method's result is what the wrapper makes of the call's outcome.

Supporting modules:

- `Dicts` models Python dicts. A dict is an ordered list of entries with a map view; assigning a key keeps its position or appends it.
- `Tables` is a minimal stand-in for the database service that the repository calls but does not contain. It stores items by partition key, as the tests' table does (`KeySchema` on the string attribute `pk`).
  - A conditional put succeeds only when its existence condition holds.
  - A get returns the stored item.
  - An update whose SET clause separates its actions by commas, and whose condition holds, assigns the fields named by its `:f` placeholders. Any other update expression is refused with a `ValidationException`.
  - A delete removes the key.
  - Every call is appended to a request log.

The callback is a parameter of `Entity`. The uuid of `create_item` is a `token` parameter. The tests' `set_keys` (`pk := uid; sk := pk`) is the concrete callback `TestSetKeys`, and the three CRUD tests are replayed as the methods `TestCreate`, `TestReplace` and `TestDelete`.

A failed write condition (`ConditionalCheckFailedException`) is claimed by no error kind, so it is raised as `UnknownStorageError` (500), not as a conflict or not-found error. This is what a create on a taken uid, or a replace or patch of a missing uid, ends with: `UnknownStorageError` inherits an empty code set and `ObjectNotFoundError` claims only `ResourceNotFoundException` (`Tables.ConditionFailureIsUnknown`, `Entities.CreateCollides`, `Entities.ReplaceMissing`, `Entities.PatchOneFieldMissing`).

## Model

| member | source | states |
|---|---|---|
| StorageErrors.StatusCode | dynamodb_toolbox_py/exceptions/boto.py:83-89 | the status is 404 exactly for `ObjectNotFoundError` and 500 exactly for `UnknownStorageError` |
| StorageErrors.BotocoreCodes | dynamodb_toolbox_py/exceptions/boto.py:53-88 | `UnknownStorageError` claims no code; `ResourceNotFoundException` is the only code claimed, and only by `ObjectNotFoundError` |
| StorageErrors.RegistryClaims | dynamodb_toolbox_py/exceptions/boto.py:64-89 | the registry lists the two subclasses in definition order, `UnknownStorageError` then `ObjectNotFoundError`, and the only code it claims is `ResourceNotFoundException`, for `ObjectNotFoundError` |
| StorageErrors.FirstMatch | dynamodb_toolbox_py/exceptions/boto.py:64-66 | the index found is the first registry entry whose code set contains the code: it contains it, and no earlier entry does; no index means no entry contains it |
| StorageErrors.ClassifyIn | dynamodb_toolbox_py/exceptions/boto.py:64-68 | the kind is that of the first entry claiming the code, in registry order; if no entry claims it, the kind is `UnknownStorageError` |
| StorageErrors.Classify | dynamodb_toolbox_py/exceptions/boto.py:83-89 | against the package's registry, `ResourceNotFoundException` and only it classifies as `ObjectNotFoundError` with status 404; every other code is `UnknownStorageError` with status 500 |
| StorageErrors.FromBoto | dynamodb_toolbox_py/exceptions/boto.py:59-79 | the raised error keeps the client error as its `inner_error`; it is `ObjectNotFoundError`/404 exactly for `ResourceNotFoundException` and 500 otherwise; its message is the service message, defaulting to "Unknown boto error" |
| StorageErrors.Returning | dynamodb_toolbox_py/entity.py:37-43 | a body that returns a value after its call ends in success with that value exactly when the call succeeded; otherwise it ends with the call's own error |
| StorageErrors.Handle | dynamodb_toolbox_py/exceptions/boto.py:28-42 | the wrapper returns the result unchanged exactly on success; it returns `None` exactly for a `ClientError` whose code is in `warn`; any other `ClientError` is raised as `from_boto(e)`; any other exception propagates unchanged |
| StorageErrors.DefaultWarnTranslates | dynamodb_toolbox_py/exceptions/boto.py:10-42 | with the default empty `warn`, nothing is swallowed and every `ClientError` is raised as a storage error wrapping it |
| Requests.KeyConditionTexts | dynamodb_toolbox_py/entity.py:37-56 | the two conditions are the strings `attribute_exists(#key)` and `attribute_not_exists(#key)` |
| Requests.Uid | dynamodb_toolbox_py/entity.py:35 | the uid is the entity name, one underscore and the token, in that order, and splits back into them |
| Requests.KeyFor | dynamodb_toolbox_py/entity.py:66-69 | the key record has exactly the attributes `pk` and `sk`, both the uid |
| Requests.CreateRequest | dynamodb_toolbox_py/entity.py:37-41 | the create is a put of the keyed item conditioned on `attribute_not_exists(#key)` with `#key` naming `pk` |
| Requests.ReplaceRequest | dynamodb_toolbox_py/entity.py:52-56 | the replace is a put of the keyed item conditioned on `attribute_exists(#key)` with `#key` naming `pk` |
| Requests.Placeholder | dynamodb_toolbox_py/entity.py:73-75 | a value placeholder is `:` followed by the field name, so the field can be read back from it |
| Requests.AssignmentUsesPlaceholder | dynamodb_toolbox_py/entity.py:70-75 | the assignment `f=:f` assigns field `f` from the placeholder the value map defines for `f` |
| Requests.Assignments | dynamodb_toolbox_py/entity.py:70-72 | there is one assignment per field, in the dict's key order |
| Requests.JoinSnoc | dynamodb_toolbox_py/entity.py:70-72 | joining one more part appends it after exactly one separator |
| Requests.SetExpression | dynamodb_toolbox_py/entity.py:70-72 | a SET clause built from the fields' assignments starts with `"set "`; the source's expression is this clause joined by `" "`, the corrected one the same clause joined by `", "` |
| Requests.UpdateExpressionGrows | dynamodb_toolbox_py/entity.py:70-72 | the update expression is `"set "` for an empty patch, `"set f=:f"` for one field, and each further field adds `" f=:f"` at the end (space-joined, no commas) |
| Requests.AttributeValuesMatch | dynamodb_toolbox_py/entity.py:73-75 | the value map binds `:f` to the caller's value of `f` for every field `f`, and binds no key that is not `:` plus a field of the dict |
| Requests.PatchRequest | dynamodb_toolbox_py/entity.py:65-78 | the patch is an update keyed `{pk: uid, sk: uid}`, with the update expression over the dict's keys in order, the value map of its entries, and the condition `attribute_exists(#key)` with `#key` naming `pk` |
| Requests.CommaPatchRequest | dynamodb_toolbox_py/entity.py:65-78 | the corrected patch is the same update as `PatchRequest` except that its expression joins the assignments with commas |
| Requests.PatchPlaceholdersDefined | dynamodb_toolbox_py/entity.py:70-75 | the i-th assignment of the expression uses a placeholder that the value map defines, bound to the caller's value of that field |
| Requests.PatchPlaceholdersUsed | dynamodb_toolbox_py/entity.py:70-75 | every placeholder of the value map is used by one of the expression's assignments |
| Requests.GetRequest | dynamodb_toolbox_py/entity.py:87-89 | the get is keyed `{pk: uid, sk: uid}` |
| Requests.DeleteRequest | dynamodb_toolbox_py/entity.py:133-138 | the delete is unconditional and keyed `{pk: uid, sk: uid}` |
| Requests.QueryRequest | dynamodb_toolbox_py/entity.py:108-121 | the query carries the index name, the `Key(pk_field).eq(pk_val)` condition and the page size; it has a start key exactly when a cursor is given (even an empty one), and the start key is `set_keys({}, cursor)` |
| Requests.NotFoundMessage | dynamodb_toolbox_py/entity.py:93-95 | the message starts with `Object "`, ends with `" not found!` and is 32 characters longer than the entity name and uid together |
| Requests.NotFoundMessageNames | dynamodb_toolbox_py/entity.py:93-95 | the not-found message contains both the entity name and the uid |
| Requests.ShapeGet | dynamodb_toolbox_py/entity.py:90-95 | the item is returned exactly when it is present and non-empty; otherwise an `ObjectNotFoundError` (404) is raised locally with the not-found message and no inner client error |
| Requests.ShapeQuery | dynamodb_toolbox_py/entity.py:123-126 | `items` is the response's items unchanged; `last_evaluated_uid` is `None` (the attribute value `Null`) when there is no `LastEvaluatedKey`, and is its `pk` otherwise; a `LastEvaluatedKey` without `pk` raises `KeyError` |
| Dicts.Set | tests/test_crud_basics.py:16-17 | assigning a key gives the old map updated at that key; an existing key keeps its position and a new key is appended |
| Dicts.SetKeepsKeysDistinct | tests/test_crud_basics.py:16-17 | assigning a key to a dict whose keys are distinct keeps them distinct |
| Tables.Put | dynamodb_toolbox_py/entity.py:37-41 | the stand-in's put succeeds exactly when the item has a string `pk` and the condition holds, and then stores the whole item under it; a refused put is a client error and changes nothing |
| Tables.Get | dynamodb_toolbox_py/entity.py:87-89 | the stand-in's get changes nothing; with a string `pk` it answers with the item stored under it, or with nothing exactly when none is |
| Tables.Update | dynamodb_toolbox_py/entity.py:65-78 | the stand-in's update succeeds only for a string `pk`, a comma-separated SET clause, no assignment of `pk` and a holding condition; it then changes the entry under that `pk` alone, to the stored item (or the key record) with the assigned fields overwritten; a refused update is a client error and changes nothing |
| Tables.Delete | dynamodb_toolbox_py/entity.py:133-138 | the stand-in's delete succeeds exactly for a string `pk`, removes it whether or not it was stored, and otherwise changes nothing |
| Tables.Table.PutItem | dynamodb_toolbox_py/entity.py:37-41 | the stand-in's answer to a put is logged; the new store and outcome are those of a conditional put keyed by `pk`; the store stays keyed by each item's own `pk` |
| Tables.Table.UpdateItem | dynamodb_toolbox_py/entity.py:65-78 | the stand-in's answer to an update is logged; the new store and outcome are those of `Update`: a refused expression, a `pk` assignment or a failed condition leaves the store unchanged, otherwise the assigned fields are written; the store stays keyed by each item's own `pk` |
| Tables.Table.GetItem | dynamodb_toolbox_py/entity.py:87-89 | the stand-in's answer to a get is logged; it leaves the store unchanged and answers with the item stored under the key's `pk`, if any |
| Tables.Table.Query | dynamodb_toolbox_py/entity.py:110-121 | the stand-in's answer to a query is logged; it leaves the store unchanged and answers with the outcome given, a page or an error |
| Tables.Table.DeleteItem | dynamodb_toolbox_py/entity.py:133-138 | the stand-in's answer to a delete is logged; the key's `pk` is removed; the store stays keyed by each item's own `pk` |
| Tables.UpdateKeepsWellKeyed | tests/test_crud_basics.py:25-26 | an update that does not assign `pk` keeps every item stored under its own string `pk` |
| Tables.ConditionFailureIsUnknown | dynamodb_toolbox_py/exceptions/boto.py:62-73 | a failed write condition is translated into `UnknownStorageError` carrying the service's message and the client error |
| Tables.KeyAddresses | dynamodb_toolbox_py/entity.py:66-69 | the key record of a uid addresses the item stored under that uid |
| Tables.AssignedFields | dynamodb_toolbox_py/entity.py:73-75 | an update assigns field `f` exactly when its value map binds `:f`, and assigns it that value |
| Tables.AssignedPatch | dynamodb_toolbox_py/entity.py:70-75 | the fields a patch assigns are exactly the caller's dict: the value map decodes back into it |
| Tables.BadExpressionIsUnknown | dynamodb_toolbox_py/exceptions/boto.py:62-73 | a refused update expression (`ValidationException`) is translated into `UnknownStorageError` carrying the service's message and the client error |
| Tables.EmptyPatchIsMalformed | dynamodb_toolbox_py/entity.py:70-72 | the expression of an empty patch, the bare `"set "`, is not a well-formed SET clause |
| Tables.SpaceJoinedIsMalformed | dynamodb_toolbox_py/entity.py:70-72 | for two or more fields the space-joined expression is not a well-formed SET clause: its first two actions are separated by a space with no comma |
| Tables.OneFieldIsWellFormed | dynamodb_toolbox_py/entity.py:70-72 | for one field of a plain name the expression is a well-formed SET clause |
| Tables.CommaJoinedIsWellFormed | dynamodb_toolbox_py/entity.py:70-72 | for any non-empty list of plain names the comma-joined expression is a well-formed SET clause |
| Entities.TestSetKeys | tests/test_crud_basics.py:15-18 | the tests' `set_keys` adds `pk` and `sk`, both equal to the uid, and keeps every other field and its value |
| Entities.TestSetKeysOrder | tests/test_crud_basics.py:15-18 | on a dict without keys, `set_keys` keeps the caller's key order and appends `pk` and then `sk` |
| Entities.Entity.CreateEntity | dynamodb_toolbox_py/entity.py:21-28 | the accessor holds the table name, entity name, key callback and table handle it was given |
| Entities.Entity.CreateItem | dynamodb_toolbox_py/entity.py:30-43 | the caller's dict is replaced by `set_keys(dict, entity_name + "_" + token)`; the keyed dict is sent as the create put; the table's store becomes the put's outcome; the wrapper's view of the outcome, returning the dict itself, is the result |
| Entities.Entity.ReplaceItem | dynamodb_toolbox_py/entity.py:45-58 | the caller's dict is replaced by `set_keys(dict, uid)` with the given uid; the replace put is sent; the result is the wrapped outcome returning the dict |
| Entities.Entity.PatchItem | dynamodb_toolbox_py/entity.py:60-80 | the caller's dict is unchanged; the patch update built from it is sent; the result is the wrapped outcome returning the dict itself |
| Entities.Entity.GetItem | dynamodb_toolbox_py/entity.py:82-95 | the get is sent and the store is unchanged; the result is the wrapper applied to the shaped response |
| Entities.GetOutcome | dynamodb_toolbox_py/entity.py:87-95 | the body of `get_item` succeeds exactly when the table answered with a non-empty item, which it returns; a missing or empty item raises the locally built `ObjectNotFoundError`; the table's errors pass through unchanged |
| Entities.QueryOutcome | dynamodb_toolbox_py/entity.py:110-126 | the body of `query_index` succeeds on a page exactly when the page has no `LastEvaluatedKey` or one with `pk`, keeping its items; `last_evaluated_uid` is `None` (the attribute value `Null`) without a `LastEvaluatedKey` and its `pk` otherwise; a `LastEvaluatedKey` without `pk` raises `KeyError`; the table's errors pass through unchanged |
| Entities.Entity.QueryIndex | dynamodb_toolbox_py/entity.py:97-126 | the query with the cursor-derived start key is sent and the store is unchanged; the result is the wrapper applied to the shaped outcome, so a client error of the query is translated and a page is shaped |
| Entities.Entity.DeleteItem | dynamodb_toolbox_py/entity.py:128-138 | the delete is sent; the store loses the uid; the wrapped result is nothing on success |
| Entities.CreateThenGet | dynamodb_toolbox_py/entity.py:35-43 | a create on a fresh uid stores the keyed item under `entity_name + "_" + token` with `pk == sk == uid` and the caller's fields kept; a get of that uid returns exactly that item |
| Entities.CreateCollides | dynamodb_toolbox_py/entity.py:37-41 | a create on a taken uid leaves the store unchanged and raises `UnknownStorageError` wrapping the condition failure |
| Entities.ReplaceThenGet | dynamodb_toolbox_py/entity.py:50-58 | replacing an existing uid stores the replacement as the whole item; a later get returns it: the replacement's fields plus the two keys |
| Entities.ReplaceMissing | dynamodb_toolbox_py/entity.py:52-56 | replacing a uid with no item leaves the store unchanged and raises `UnknownStorageError` |
| Entities.PatchStep | dynamodb_toolbox_py/entity.py:65-78 | an update keyed by an existing uid, with a well-formed SET clause, the patch's value map and condition, merges the dict's fields into the stored item |
| Entities.PatchOneField | dynamodb_toolbox_py/entity.py:65-78 | the update a one-field patch of an existing uid sends sets that field on the stored item and keeps the others |
| Entities.PatchOneFieldThenGet | dynamodb_toolbox_py/entity.py:65-95 | a one-field patch of an existing uid sets the field, returns the caller's dict itself, and a later get returns the patched item |
| Entities.PatchOneFieldMissing | dynamodb_toolbox_py/entity.py:65-78 | a one-field patch of a uid with no item leaves the store unchanged and raises `UnknownStorageError` |
| Entities.PatchRefused | dynamodb_toolbox_py/entity.py:65-78 | a patch with no field, or with two or more, is refused whatever the table holds: the store is unchanged and `UnknownStorageError` wrapping the `ValidationException` is raised instead of the dict being returned |
| Entities.CommaPatch | dynamodb_toolbox_py/entity.py:65-78 | with comma-separated actions, the update of any non-empty patch of plain names without `pk` merges the dict into the stored item |
| Entities.CommaPatchThenGet | dynamodb_toolbox_py/entity.py:65-95 | with comma-separated actions, such a patch returns the caller's dict, and a later get returns the stored item with the dict merged in |
| Entities.GetMissing | dynamodb_toolbox_py/entity.py:87-95 | a get of a missing uid raises the locally built `ObjectNotFoundError`, untranslated by the wrapper |
| Entities.DeleteThenGet | dynamodb_toolbox_py/entity.py:133-138 | a delete succeeds with nothing returned, whether or not the uid held an item; a later get of the uid raises `ObjectNotFoundError` |
| Entities.QueryCursorIsKey | dynamodb_toolbox_py/entity.py:108-113 | with the tests' `set_keys`, the start key of a query with a cursor is the key record `{pk: cursor, sk: cursor}` |
| Entities.TestCreate | tests/test_crud_basics.py:31-53 | the created dict has `pk` and `name == "test"`, and getting it by its `pk` returns an item with `name == "test"` |
| Entities.TestReplace | tests/test_crud_basics.py:56-81 | after replacing the created uid with `{name: "updated name"}`, a get returns an item with that name |
| Entities.TestDelete | tests/test_crud_basics.py:84-108 | after deleting the created uid, a get raises `ObjectNotFoundError` |

## Left out

- `create_entity` resolving the table handle (`await ...Table(table_name)`) is an external asynchronous lookup. `Entity.CreateEntity` receives the handle instead.
- `uuid.uuid4()` is randomness. `Entity.CreateItem` receives the token as a parameter.
- The async/await machinery and the logging calls of the wrapper are left out. They do not change any result.
- `Key(pk_field).eq(pk_val)` belongs to boto3. It is kept as the opaque pair `KeyEquals(field, value)`.
- DynamoDB itself is not part of this model, only a stand-in for it. Left out are index evaluation, `Limit` paging, consistency, sort-key handling, the full condition-expression language and the real service's other validation errors. `Entity.QueryIndex` receives how the index query ends, a page or an error, as a parameter.
- UpdateItem: the stand-in parses the update expression only as far as the separators of its SET clause: `set ` followed by at least one action, with every space right after a comma. Reserved words, spaces inside an action, other clauses (`REMOVE`, `ADD`, `DELETE`), and whether the placeholders of the expression match the value map are not checked; the fields assigned are read from the value map. The patch lemmas therefore require plain field names (no space, no comma). Because reserved words are not checked, `Entities.PatchOneFieldThenGet` and `Entities.CommaPatchThenGet` also prove success for a field such as the tests' `name`, a DynamoDB reserved word, which the real service refuses in an update expression unless it is aliased through `ExpressionAttributeNames`; the source does not alias it.
- Entities.ItemDict: the constructor requires distinct keys, and `Dicts.Set` keeps them distinct, but a key callback that leaves duplicate keys behind is not excluded.
- Entities.KeyDerivation: the callback is a function of the dict and the uid. It is assumed to return the dict it leaves behind, as the tests' `set_keys` does. A callback that returns something else (for example `None`) as the `ExclusiveStartKey`, or that has other side effects, is not modelled.
- Python's open-ended `__subclasses__()` discovery is modelled as the fixed ordered registry of the two kinds the package defines.
- Attribute values are strings, integers, booleans or null. Nested lists, maps, sets and binary values are not modelled, because the layer never inspects them.
- A query response is assumed to carry `Items`. A client error is assumed to carry `Error.Code`, as `from_boto` reads it unguarded.
- The stand-in answers only with the codes the scenarios need: `ConditionalCheckFailedException` and `ValidationException`.

## Findings

| source | as written | input that shows it | evidently intended | confidence | as-written member | corrected member |
|---|---|---|---|---|---|---|
| dynamodb_toolbox_py/entity.py:70-72 | `patch_item` joins the assignments with a space, giving `set a=:a b=:b` | a patch of an existing uid with the dict `{"a": 1, "b": 2}` | join them with `", "`, giving `set a=:a, b=:b`, as the SET clause of DynamoDB's update-expression grammar (`SET action [, action] ...`) requires; the patch then merges the dict and returns it | medium, not executed | Entities.PatchRefused | Entities.CommaPatchThenGet |

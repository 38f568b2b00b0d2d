/**
 * The entity accessor (dynamodb_toolbox_py/entity.py): one resource type's
 * create, replace, patch, get, query and delete operations against one
 * table, each wrapped by `handle_botocore_exceptions()`.
 */
module Entities {
  import opened Options
  import opened Dicts
  import opened StorageErrors
  import opened Requests
  import opened Tables

  /** A caller's dict; `create_item` and `replace_item` change it in place. */
  class ItemDict {
    var entries: Entries

    constructor (entries: Entries)
      requires DistinctKeys(entries)
      ensures this.entries == entries
    {
      this.entries := entries;
    }
  }

  /**
   * A `set_keys(item, uid)` callback: the dict it leaves behind, which it
   * also returns (as the tests' `set_keys` does).
   */
  type KeyDerivation = (Entries, string) -> Entries

  /** The tests' `set_keys`: `item['pk'] = uid; item['sk'] = item['pk']`. */
  function TestSetKeys(e: Entries, uid: string): (r: Entries)
    ensures ToMap(r).Keys == ToMap(e).Keys + {PartitionKey, SortKey}
    ensures ToMap(r)[PartitionKey] == Str(uid) && ToMap(r)[SortKey] == Str(uid)
    ensures forall f :: f in ToMap(e) && f != PartitionKey && f != SortKey ==> ToMap(r)[f] == ToMap(e)[f]
  {
    var withPk := Set(e, PartitionKey, Str(uid));
    Set(withPk, SortKey, ToMap(withPk)[PartitionKey])
  }

  /** The caller's keys keep their order; new `pk` and `sk` keys go to the end, in that order. */
  lemma TestSetKeysOrder(e: Entries, uid: string)
    requires PartitionKey !in Keys(e) && SortKey !in Keys(e)
    ensures Keys(TestSetKeys(e, uid)) == Keys(e) + [PartitionKey, SortKey]
  {
    var withPk := Set(e, PartitionKey, Str(uid));
    assert Keys(withPk) == Keys(e) + [PartitionKey];
    assert SortKey !in Keys(withPk);
  }

  /** What the wrapped body of `get_item` ends with, given the table's answer. */
  function GetOutcome(entityName: string, uid: string, o: Outcome<Option<Item>>): (r: Outcome<Item>)
    ensures r.Ok? <==> o.Ok? && o.value.Some? && o.value.value != map[]
    ensures r.Ok? ==> r.value == o.value.value
    ensures o.Ok? && !r.Ok? ==> r == OtherErr(Storage(StorageError(ObjectNotFound, NotFoundMessage(entityName, uid), None)))
    ensures o.ClientErr? ==> r == ClientErr(o.error)
    ensures o.OtherErr? ==> r == OtherErr(o.raised)
  {
    match o
    case Ok(found) => ShapeGet(entityName, uid, found)
    case ClientErr(e) => ClientErr(e)
    case OtherErr(x) => OtherErr(x)
  }

  /** What the wrapped body of `query_index` ends with, given the table's answer. */
  function QueryOutcome(o: Outcome<QueryResponse>): (r: Outcome<Page>)
    ensures r.Ok? ==> o.Ok? && r.value.items == o.value.items
    ensures o.Ok? ==> (r.Ok? <==> o.value.lastEvaluatedKey.None? || PartitionKey in o.value.lastEvaluatedKey.value)
    ensures o.Ok? && !r.Ok? ==> r == OtherErr(MissingKey)
    ensures r.Ok? && o.value.lastEvaluatedKey.None? ==> r.value.lastEvaluatedUid == Null
    ensures r.Ok? && o.value.lastEvaluatedKey.Some? ==>
              r.value.lastEvaluatedUid == o.value.lastEvaluatedKey.value[PartitionKey]
    ensures o.ClientErr? ==> r == ClientErr(o.error)
    ensures o.OtherErr? ==> r == OtherErr(o.raised)
  {
    match o
    case Ok(response) => ShapeQuery(response)
    case ClientErr(e) => ClientErr(e)
    case OtherErr(x) => OtherErr(x)
  }

  class Entity {
    const tableName: string
    const entityName: string
    const setKeys: KeyDerivation
    const table: Table

    /** `Entity.create_entity`, with the table handle already resolved. */
    constructor CreateEntity(tableName: string, entityName: string, setKeys: KeyDerivation, table: Table)
      ensures this.tableName == tableName && this.entityName == entityName
      ensures this.setKeys == setKeys && this.table == table
    {
      this.tableName := tableName;
      this.entityName := entityName;
      this.setKeys := setKeys;
      this.table := table;
    }

    /** `create_item`: `token` stands for `uuid.uuid4()`. */
    method CreateItem(item: ItemDict, token: string) returns (r: Handled<ItemDict>)
      requires table.Valid()
      modifies item, table
      ensures table.Valid()
      ensures item.entries == setKeys(old(item.entries), Uid(entityName, token))
      ensures table.requests == old(table.requests) + [CreateRequest(ToMap(item.entries))]
      ensures var step := Put(old(table.items), CreateRequest(ToMap(item.entries)));
              table.items == step.store && r == Handle(NoWarn, Returning(step.outcome, item))
    {
      item.entries := setKeys(item.entries, Uid(entityName, token));
      var o := table.PutItem(CreateRequest(ToMap(item.entries)));
      r := Handle(NoWarn, Returning(o, item));
    }

    /** `replace_item`. */
    method ReplaceItem(uid: string, item: ItemDict) returns (r: Handled<ItemDict>)
      requires table.Valid()
      modifies item, table
      ensures table.Valid()
      ensures item.entries == setKeys(old(item.entries), uid)
      ensures table.requests == old(table.requests) + [ReplaceRequest(ToMap(item.entries))]
      ensures var step := Put(old(table.items), ReplaceRequest(ToMap(item.entries)));
              table.items == step.store && r == Handle(NoWarn, Returning(step.outcome, item))
    {
      item.entries := setKeys(item.entries, uid);
      var o := table.PutItem(ReplaceRequest(ToMap(item.entries)));
      r := Handle(NoWarn, Returning(o, item));
    }

    /** `patch_item`: the caller's dict is sent, not changed, and returned as it is. */
    method PatchItem(uid: string, item: ItemDict) returns (r: Handled<ItemDict>)
      requires table.Valid()
      modifies table
      ensures table.Valid()
      ensures table.requests == old(table.requests) + [PatchRequest(uid, item.entries)]
      ensures var step := Update(old(table.items), PatchRequest(uid, item.entries));
              table.items == step.store && r == Handle(NoWarn, Returning(step.outcome, item))
    {
      var o := table.UpdateItem(PatchRequest(uid, item.entries));
      r := Handle(NoWarn, Returning(o, item));
    }

    /** `get_item`. */
    method GetItem(uid: string) returns (r: Handled<Item>)
      requires table.Valid()
      modifies table
      ensures table.Valid() && table.items == old(table.items)
      ensures table.requests == old(table.requests) + [GetRequest(uid)]
      ensures r == Handle(NoWarn, GetOutcome(entityName, uid, Get(table.items, GetRequest(uid)).outcome))
    {
      var o := table.GetItem(GetRequest(uid));
      r := Handle(NoWarn, GetOutcome(entityName, uid, o));
    }

    /** `query_index`: `answer` is how the service's query call ends for the request. */
    method QueryIndex(indexName: string, pkField: string, pkVal: string, pageSize: int,
                      lastEvaluatedUid: Option<string>, answer: Outcome<QueryResponse>) returns (r: Handled<Page>)
      requires table.Valid()
      modifies table
      ensures table.Valid() && table.items == old(table.items)
      ensures table.requests ==
                old(table.requests) + [QueryRequest(setKeys, indexName, pkField, pkVal, pageSize, lastEvaluatedUid)]
      ensures r == Handle(NoWarn, QueryOutcome(answer))
    {
      var req := QueryRequest(setKeys, indexName, pkField, pkVal, pageSize, lastEvaluatedUid);
      var o := table.Query(req, answer);
      r := Handle(NoWarn, QueryOutcome(o));
    }

    /** `delete_item`: returns nothing. */
    method DeleteItem(uid: string) returns (r: Handled<()>)
      requires table.Valid()
      modifies table
      ensures table.Valid()
      ensures table.requests == old(table.requests) + [DeleteRequest(uid)]
      ensures var step := Delete(old(table.items), DeleteRequest(uid));
              table.items == step.store && r == Handle(NoWarn, step.outcome)
    {
      var o := table.DeleteItem(DeleteRequest(uid));
      r := Handle(NoWarn, o);
    }
  }

  /**
   * Creating with the tests' `set_keys` stores the item under its fresh uid,
   * with `pk == sk == uid` and the caller's fields kept, and a get of that
   * uid returns exactly the stored item.
   */
  lemma CreateThenGet(store: Store, e: Entries, entityName: string, token: string)
    requires Uid(entityName, token) !in store
    ensures var uid := Uid(entityName, token);
            var created := ToMap(TestSetKeys(e, uid));
            var put := Put(store, CreateRequest(created));
            && put == Step(store[uid := created], Ok(()))
            && created[PartitionKey] == Str(uid) && created[SortKey] == Str(uid)
            && (forall f :: f in ToMap(e) && f != PartitionKey && f != SortKey ==> created[f] == ToMap(e)[f])
            && Handle(NoWarn, GetOutcome(entityName, uid, Get(put.store, GetRequest(uid)).outcome)) == Returned(created)
  {
    var uid := Uid(entityName, token);
    var created := ToMap(TestSetKeys(e, uid));
    KeyConditionTexts();
    assert PkOf(created) == Some(uid);
    KeyAddresses(uid);
  }

  /**
   * A create whose uid is already taken changes nothing and fails; the
   * failed condition's code is claimed by no error kind, so the caller sees
   * an `UnknownStorageError` (status 500) wrapping the service's error.
   */
  lemma CreateCollides(store: Store, e: Entries, entityName: string, token: string, item: ItemDict)
    requires WellKeyed(store) && Uid(entityName, token) in store
    ensures var put := Put(store, CreateRequest(ToMap(TestSetKeys(e, Uid(entityName, token)))));
            && put.store == store
            && Handle(NoWarn, Returning(put.outcome, item))
               == Raise(Storage(StorageError(UnknownStorage, "The conditional request failed", Some(ConditionFailed))))
  {
    var put := Put(store, CreateRequest(ToMap(TestSetKeys(e, Uid(entityName, token)))));
    CreateTakenFails(store, e, Uid(entityName, token));
    assert put.outcome == ClientErr(ConditionFailed);
    ConditionFailureIsUnknown();
  }

  lemma CreateTakenFails(store: Store, e: Entries, uid: string)
    requires WellKeyed(store) && uid in store
    ensures Put(store, CreateRequest(ToMap(TestSetKeys(e, uid)))) == Step(store, ClientErr(ConditionFailed))
  {
    assert PkOf(ToMap(TestSetKeys(e, uid))) == Some(uid);
    assert PkOf(store[uid]) == Some(uid);
  }

  /**
   * Replacing an existing uid stores the replacement as the whole item:
   * a get returns exactly its fields plus the two keys, and nothing of the
   * item it replaced.
   */
  lemma ReplaceThenGet(store: Store, uid: string, e: Entries, entityName: string)
    requires WellKeyed(store) && uid in store
    ensures var replaced := ToMap(TestSetKeys(e, uid));
            var put := Put(store, ReplaceRequest(replaced));
            && put == Step(store[uid := replaced], Ok(()))
            && Handle(NoWarn, GetOutcome(entityName, uid, Get(put.store, GetRequest(uid)).outcome)) == Returned(replaced)
            && replaced.Keys == ToMap(e).Keys + {PartitionKey, SortKey}
  {
    var replaced := ToMap(TestSetKeys(e, uid));
    assert PkOf(replaced) == Some(uid);
    assert PkOf(store[uid]) == Some(uid);
    KeyAddresses(uid);
  }

  /** Replacing a uid that holds no item changes nothing and fails with an `UnknownStorageError`. */
  lemma ReplaceMissing(store: Store, uid: string, e: Entries, item: ItemDict)
    requires uid !in store
    ensures var put := Put(store, ReplaceRequest(ToMap(TestSetKeys(e, uid))));
            && put.store == store
            && Handle(NoWarn, Returning(put.outcome, item))
               == Raise(Storage(StorageError(UnknownStorage, "The conditional request failed", Some(ConditionFailed))))
  {
    var put := Put(store, ReplaceRequest(ToMap(TestSetKeys(e, uid))));
    assert put == Step(store, ClientErr(ConditionFailed)) by {
      assert PkOf(ToMap(TestSetKeys(e, uid))) == Some(uid);
    }
    ConditionFailureIsUnknown();
  }

  /**
   * An update keyed by an existing uid, with a well-formed SET clause, the
   * patch's value map and the patch's condition, merges the dict's fields
   * into the stored item.
   */
  lemma PatchStep(store: Store, uid: string, e: Entries, expression: string, req: Request)
    requires WellKeyed(store) && uid in store && PartitionKey !in ToMap(e)
    requires req == UpdateItem(KeyFor(uid), expression, AttributeValues(e), AttributeExists(KeyPlaceholder), KeyNames)
    requires WellFormedSet(expression)
    ensures Update(store, req) == Step(store[uid := store[uid] + ToMap(e)], Ok(()))
  {
    AssignedPatch(e);
    KeyAddresses(uid);
    assert PkOf(store[uid]) == Some(uid);
  }

  /**
   * Patching an existing uid with a one-field dict sets that field on the
   * stored item and keeps the others; the caller's dict itself is returned,
   * and a later get returns the patched item.
   */
  lemma PatchOneFieldThenGet(store: Store, uid: string, e: Entries, entityName: string, item: ItemDict)
    requires WellKeyed(store) && uid in store
    requires |e| == 1 && PlainName(e[0].0) && e[0].0 != PartitionKey
    ensures var upd := Update(store, PatchRequest(uid, e));
            && upd == Step(store[uid := store[uid][e[0].0 := e[0].1]], Ok(()))
            && Handle(NoWarn, Returning(upd.outcome, item)) == Returned(item)
            && Handle(NoWarn, GetOutcome(entityName, uid, Get(upd.store, GetRequest(uid)).outcome))
               == Returned(store[uid][e[0].0 := e[0].1])
  {
    PatchOneField(store, uid, e);
    assert PkOf(store[uid]) == Some(uid);
    GetStored(store, uid, store[uid][e[0].0 := e[0].1], entityName);
  }

  /** The update a one-field patch sends sets that field on the stored item. */
  lemma PatchOneField(store: Store, uid: string, e: Entries)
    requires WellKeyed(store) && uid in store
    requires |e| == 1 && PlainName(e[0].0) && e[0].0 != PartitionKey
    ensures Update(store, PatchRequest(uid, e)) == Step(store[uid := store[uid][e[0].0 := e[0].1]], Ok(()))
  {
    OneFieldExpression(e);
    var req := PatchRequest(uid, e);
    PatchStep(store, uid, e, req.updateExpression, req);
    OneFieldMerge(store[uid], e);
  }

  /** Merging a one-entry dict into an item sets that one field. */
  lemma OneFieldMerge(stored: Item, e: Entries)
    requires |e| == 1
    ensures stored + ToMap(e) == stored[e[0].0 := e[0].1]
  {
    assert ToMap(e) == map[e[0].0 := e[0].1];
  }

  /** The expression of a one-field patch of a plain name is well formed. */
  lemma OneFieldExpression(e: Entries)
    requires |e| == 1 && PlainName(e[0].0)
    ensures WellFormedSet(UpdateExpression(Keys(e)))
  {
    assert Keys(e) == [e[0].0];
    OneFieldIsWellFormed(e[0].0);
  }

  /** Patching a uid that holds no item with one field changes nothing and fails with an `UnknownStorageError`. */
  lemma PatchOneFieldMissing(store: Store, uid: string, e: Entries, item: ItemDict)
    requires uid !in store
    requires |e| == 1 && PlainName(e[0].0) && e[0].0 != PartitionKey
    ensures var upd := Update(store, PatchRequest(uid, e));
            && upd.store == store
            && Handle(NoWarn, Returning(upd.outcome, item))
               == Raise(Storage(StorageError(UnknownStorage, "The conditional request failed", Some(ConditionFailed))))
  {
    var req := PatchRequest(uid, e);
    assert Update(store, req) == Step(store, ClientErr(ConditionFailed)) by {
      OneFieldExpression(e);
      assert ToMap(e) == map[e[0].0 := e[0].1];
      PatchMissingStep(store, uid, e, req.updateExpression, req);
    }
    ConditionFailureIsUnknown();
  }

  /**
   * An update keyed by a uid that holds no item, otherwise as in `PatchStep`,
   * fails its condition and leaves the store as it was.
   */
  lemma PatchMissingStep(store: Store, uid: string, e: Entries, expression: string, req: Request)
    requires uid !in store && PartitionKey !in ToMap(e)
    requires req == UpdateItem(KeyFor(uid), expression, AttributeValues(e), AttributeExists(KeyPlaceholder), KeyNames)
    requires WellFormedSet(expression)
    ensures Update(store, req) == Step(store, ClientErr(ConditionFailed))
  {
    AssignedPatch(e);
    KeyAddresses(uid);
  }

  /**
   * Patching with no field, or with two or more, is refused whatever the
   * table holds: the expression the source builds has no action, or runs
   * two actions together with a space. The caller sees an
   * `UnknownStorageError`, not the dict.
   */
  lemma PatchRefused(store: Store, uid: string, e: Entries, item: ItemDict)
    requires |e| != 1 && (e != [] ==> PlainName(e[0].0))
    ensures var upd := Update(store, PatchRequest(uid, e));
            && upd == Step(store, ClientErr(BadExpression))
            && Handle(NoWarn, Returning(upd.outcome, item))
               == Raise(Storage(StorageError(UnknownStorage, "Invalid UpdateExpression: Syntax error", Some(BadExpression))))
  {
    if e == [] {
      assert Keys(e) == [];
      EmptyPatchIsMalformed();
    } else {
      assert Keys(e)[0] == e[0].0;
      SpaceJoinedIsMalformed(Keys(e));
    }
    KeyAddresses(uid);
    BadExpressionIsUnknown();
  }

  /**
   * With its actions separated by commas, a patch of any non-empty dict of
   * plain names merges the dict into the stored item, returns the caller's
   * dict, and a later get returns the merged item.
   */
  lemma CommaPatchThenGet(store: Store, uid: string, e: Entries, entityName: string, item: ItemDict)
    requires WellKeyed(store) && uid in store
    requires e != [] && PartitionKey !in ToMap(e) && PlainFields(e)
    ensures var upd := Update(store, CommaPatchRequest(uid, e));
            && upd == Step(store[uid := store[uid] + ToMap(e)], Ok(()))
            && Handle(NoWarn, Returning(upd.outcome, item)) == Returned(item)
            && Handle(NoWarn, GetOutcome(entityName, uid, Get(upd.store, GetRequest(uid)).outcome))
               == Returned(store[uid] + ToMap(e))
  {
    CommaPatch(store, uid, e);
    assert PkOf(store[uid]) == Some(uid);
    GetStored(store, uid, store[uid] + ToMap(e), entityName);
  }

  /** The comma-separated update of a patch merges the dict into the stored item. */
  lemma CommaPatch(store: Store, uid: string, e: Entries)
    requires WellKeyed(store) && uid in store
    requires e != [] && PartitionKey !in ToMap(e) && PlainFields(e)
    ensures Update(store, CommaPatchRequest(uid, e)) == Step(store[uid := store[uid] + ToMap(e)], Ok(()))
  {
    CommaExpressionWellFormed(e);
    var req := CommaPatchRequest(uid, e);
    PatchStep(store, uid, e, req.updateExpression, req);
  }

  /** Every field of the dict is a plain name. */
  predicate PlainFields(e: Entries)
  {
    e == [] || (PlainName(e[0].0) && PlainFields(e[1..]))
  }

  lemma {:induction false} PlainFieldsAt(e: Entries, i: int)
    requires PlainFields(e) && 0 <= i < |e|
    ensures PlainName(e[i].0)
  {
    if i > 0 {
      PlainFieldsAt(e[1..], i - 1);
    }
  }

  lemma CommaExpressionWellFormed(e: Entries)
    requires e != [] && PlainFields(e)
    ensures WellFormedSet(CommaUpdateExpression(Keys(e)))
  {
    forall i | 0 <= i < |Keys(e)| ensures PlainName(Keys(e)[i]) {
      PlainFieldsAt(e, i);
    }
    CommaJoinedIsWellFormed(Keys(e));
  }

  /** A get of a uid returns the non-empty item just stored under it. */
  lemma GetStored(store: Store, uid: string, stored: Item, entityName: string)
    requires PartitionKey in stored
    ensures Handle(NoWarn, GetOutcome(entityName, uid, Get(store[uid := stored], GetRequest(uid)).outcome)) == Returned(stored)
  {
    KeyAddresses(uid);
  }

  /**
   * A get of a uid that holds no item raises the locally built
   * `ObjectNotFoundError` (status 404), which the wrapper lets through
   * untranslated: it wraps no client error.
   */
  lemma GetMissing(store: Store, uid: string, entityName: string)
    requires uid !in store
    ensures Handle(NoWarn, GetOutcome(entityName, uid, Get(store, GetRequest(uid)).outcome))
            == Raise(Storage(StorageError(ObjectNotFound, NotFoundMessage(entityName, uid), None)))
  {
    KeyAddresses(uid);
  }

  /**
   * Deleting succeeds whether or not the uid holds an item, and a get of
   * the uid afterwards raises `ObjectNotFoundError`.
   */
  lemma DeleteThenGet(store: Store, uid: string, entityName: string)
    ensures var del := Delete(store, DeleteRequest(uid));
            && del == Step(store - {uid}, Ok(()))
            && Handle(NoWarn, del.outcome) == Returned(())
            && Handle(NoWarn, GetOutcome(entityName, uid, Get(del.store, GetRequest(uid)).outcome))
               == Raise(Storage(StorageError(ObjectNotFound, NotFoundMessage(entityName, uid), None)))
  {
    KeyAddresses(uid);
  }

  /** With the tests' `set_keys`, the query cursor is the key record of the cursor's uid. */
  lemma QueryCursorIsKey(indexName: string, pkField: string, pkVal: string, pageSize: int, cursor: string)
    ensures QueryRequest(TestSetKeys, indexName, pkField, pkVal, pageSize, Some(cursor)).exclusiveStartKey
            == Some(KeyFor(cursor))
  {
    var key := ToMap(TestSetKeys([], cursor));
    assert key.Keys == {PartitionKey, SortKey};
  }

  /** A one-field dict keeps its field through the tests' `set_keys`. */
  lemma SingleFieldKept(field: string, v: Value, uid: string)
    requires field != PartitionKey && field != SortKey
    ensures field in ToMap(TestSetKeys([(field, v)], uid))
    ensures ToMap(TestSetKeys([(field, v)], uid))[field] == v
  {
    assert ToMap([(field, v)]) == map[field := v];
  }

  /** tests/test_crud_basics.py `test_create`. */
  method TestCreate(tableName: string, token: string) returns (created: Item, user: Handled<Item>)
    ensures PartitionKey in created && "name" in created && created["name"] == Str("test")
    ensures user.Returned? && "name" in user.value && user.value["name"] == Str("test")
  {
    var table := new Table();
    var users := new Entity.CreateEntity(tableName, "user", TestSetKeys, table);
    var item := new ItemDict([("name", Str("test"))]);
    var r := users.CreateItem(item, token);
    created := ToMap(item.entries);
    CreateThenGet(map[], [("name", Str("test"))], "user", token);
    assert r == Returned(item);
    user := users.GetItem(created[PartitionKey].s);
  }

  /** tests/test_crud_basics.py `test_replace`. */
  method TestReplace(tableName: string, token: string) returns (created: Item, user: Handled<Item>)
    ensures PartitionKey in created && "name" in created && created["name"] == Str("test")
    ensures user.Returned? && "name" in user.value && user.value["name"] == Str("updated name")
  {
    var table := new Table();
    var users := new Entity.CreateEntity(tableName, "user", TestSetKeys, table);
    var item := new ItemDict([("name", Str("test"))]);
    var r := users.CreateItem(item, token);
    created := ToMap(item.entries);
    var uid := Uid("user", token);
    assert table.items == map[uid := created] && created[PartitionKey] == Str(uid) && created["name"] == Str("test") by {
      CreateThenGet(map[], [("name", Str("test"))], "user", token);
      SingleFieldKept("name", Str("test"), uid);
    }
    var update := new ItemDict([("name", Str("updated name"))]);
    var replaced := users.ReplaceItem(created[PartitionKey].s, update);
    assert update.entries == TestSetKeys([("name", Str("updated name"))], uid);
    ghost var stored := ToMap(update.entries);
    assert table.items == Put(map[uid := created], ReplaceRequest(stored)).store;
    ReplaceThenGet(map[uid := created], uid, [("name", Str("updated name"))], "user");
    assert table.items == map[uid := created][uid := stored];
    SingleFieldKept("name", Str("updated name"), uid);
    user := users.GetItem(uid);
  }

  /** tests/test_crud_basics.py `test_delete`. */
  method TestDelete(tableName: string, token: string) returns (created: Item, user: Handled<Item>)
    ensures PartitionKey in created && "name" in created && created["name"] == Str("test")
    ensures user.Raise? && user.raised.Storage? && user.raised.error.kind == ObjectNotFound
  {
    var table := new Table();
    var users := new Entity.CreateEntity(tableName, "user", TestSetKeys, table);
    var item := new ItemDict([("name", Str("test"))]);
    var r := users.CreateItem(item, token);
    created := ToMap(item.entries);
    CreateThenGet(map[], [("name", Str("test"))], "user", token);
    var uid := created[PartitionKey].s;
    DeleteThenGet(table.items, uid, "user");
    var deleted := users.DeleteItem(uid);
    user := users.GetItem(uid);
  }
}

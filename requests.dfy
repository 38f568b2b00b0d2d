/**
 * The requests the entity operations send to the table, and the shaping of
 * the table's responses into what the operations return
 * (dynamodb_toolbox_py/entity.py). Everything here is a value.
 */
module Requests {
  import opened Options
  import opened Dicts
  import opened StorageErrors

  /** The partition-key and sort-key attribute names. */
  const PartitionKey := "pk"
  const SortKey := "sk"

  /** The placeholder every condition names, and its `ExpressionAttributeNames`. */
  const KeyPlaceholder := "#key"
  const KeyNames: map<string, string> := map[KeyPlaceholder := PartitionKey]

  /** A `ConditionExpression` over one attribute path. */
  datatype Condition = AttributeExists(path: string) | AttributeNotExists(path: string)
  {
    /** The expression string sent to the service. */
    function Text(): string
    {
      match this
      case AttributeExists(p) => "attribute_exists(" + p + ")"
      case AttributeNotExists(p) => "attribute_not_exists(" + p + ")"
    }
  }

  /** The two conditions the entity sends, spelled out. */
  lemma KeyConditionTexts()
    ensures AttributeExists(KeyPlaceholder).Text() == "attribute_exists(#key)"
    ensures AttributeNotExists(KeyPlaceholder).Text() == "attribute_not_exists(#key)"
  {
  }

  /** `Key(field).eq(value)`: kept opaque as the pair it is built from. */
  datatype KeyCondition = KeyEquals(field: string, value: string)

  /** One call on the table handle, with the keyword arguments the entity passes. */
  datatype Request =
    | PutItem(item: Item, condition: Condition, attributeNames: map<string, string>)
    | UpdateItem(key: Item, updateExpression: string, attributeValues: map<string, Value>,
                 condition: Condition, attributeNames: map<string, string>)
    | GetItem(key: Item)
    | Query(indexName: string, keyCondition: KeyCondition, exclusiveStartKey: Option<Item>, limit: int)
    | DeleteItem(key: Item)

  /**
   * `f'{entity_name}_{token}'`: the uid `create_item` derives keys from. The
   * entity name comes first, then one underscore, then the token.
   */
  function Uid(entityName: string, token: string): (u: string)
    ensures |u| == |entityName| + 1 + |token|
    ensures u[..|entityName|] == entityName && u[|entityName|] == '_'
    ensures u[|entityName| + 1..] == token
  {
    var u := entityName + "_" + token;
    assert u == entityName + ("_" + token);
    assert u[|entityName|..] == "_" + token;
    u
  }

  /** `{'pk': uid, 'sk': uid}`. */
  function KeyFor(uid: string): (k: Item)
    ensures k.Keys == {PartitionKey, SortKey}
    ensures k[PartitionKey] == Str(uid) && k[SortKey] == Str(uid)
  {
    map[PartitionKey := Str(uid), SortKey := Str(uid)]
  }

  /** The put of `create_item` (entity.py:37-41): only if no item has this partition key. */
  function CreateRequest(item: Item): (r: Request)
    ensures r.PutItem? && r.item == item
    ensures r.condition.Text() == "attribute_not_exists(#key)"
    ensures r.attributeNames == map["#key" := "pk"]
  {
    KeyConditionTexts();
    PutItem(item, AttributeNotExists(KeyPlaceholder), KeyNames)
  }

  /** The put of `replace_item` (entity.py:52-56): only if an item has this partition key. */
  function ReplaceRequest(item: Item): (r: Request)
    ensures r.PutItem? && r.item == item
    ensures r.condition.Text() == "attribute_exists(#key)"
    ensures r.attributeNames == map["#key" := "pk"]
  {
    KeyConditionTexts();
    PutItem(item, AttributeExists(KeyPlaceholder), KeyNames)
  }

  /** `f'{field}=:{field}'`. */
  function Assignment(field: string): string
  {
    field + "=:" + field
  }

  /** `':' + field`, the value placeholder of an assignment. */
  function Placeholder(field: string): (p: string)
    ensures |p| > 0 && p[0] == ':' && p[1..] == field
  {
    ":" + field
  }

  lemma AssignmentUsesPlaceholder(field: string)
    ensures Assignment(field) == field + "=" + Placeholder(field)
  {
    assert "=:" + field == "=" + Placeholder(field);
  }

  /** `separator.join(parts)`. */
  function Join(separator: string, parts: seq<string>): string
  {
    if |parts| == 0 then ""
    else if |parts| == 1 then parts[0]
    else parts[0] + separator + Join(separator, parts[1..])
  }

  /** The assignments of `fields`, in order. */
  function Assignments(fields: seq<string>): (r: seq<string>)
    ensures |r| == |fields|
    ensures forall i :: 0 <= i < |fields| ==> r[i] == Assignment(fields[i])
  {
    seq(|fields|, i requires 0 <= i < |fields| => Assignment(fields[i]))
  }

  /** A SET clause assigning each field from its placeholder, the assignments joined by `separator`. */
  function SetExpression(separator: string, fields: seq<string>): (r: string)
    ensures |r| >= 4 && r[..4] == "set "
  {
    "set " + Join(separator, Assignments(fields))
  }

  /** `'set ' + ' '.join(f'{field}=:{field}' for field in fields)`. */
  function UpdateExpression(fields: seq<string>): string
  {
    SetExpression(" ", fields)
  }

  /** Joining one more part appends it after one separator. */
  lemma {:induction false} JoinSnoc(separator: string, parts: seq<string>, last: string)
    requires parts != []
    ensures Join(separator, parts + [last]) == Join(separator, parts) + separator + last
  {
    if |parts| > 1 {
      assert (parts + [last])[1..] == parts[1..] + [last];
      JoinSnoc(separator, parts[1..], last);
    }
  }

  /**
   * The update expression is built field by field: an empty patch leaves the
   * bare `"set "`, the first field follows it directly, and every further
   * field is appended after exactly one space.
   */
  lemma UpdateExpressionGrows(fields: seq<string>, f: string)
    ensures UpdateExpression([]) == "set "
    ensures UpdateExpression([f]) == "set " + f + "=:" + f
    ensures fields != [] ==> UpdateExpression(fields + [f]) == UpdateExpression(fields) + " " + f + "=:" + f
  {
    assert Assignments([f]) == [Assignment(f)];
    if fields != [] {
      assert Assignments(fields + [f]) == Assignments(fields) + [Assignment(f)];
      JoinSnoc(" ", Assignments(fields), Assignment(f));
    }
  }

  /** `{f':{field}': value for field, value in item.items()}`. */
  function AttributeValues(e: Entries): map<string, Value>
  {
    if e == [] then map[] else map[Placeholder(e[0].0) := e[0].1] + AttributeValues(e[1..])
  }

  /**
   * The value map of a patch binds `:f` to the caller's value of `f` for
   * every field `f` of the dict, and binds nothing else.
   */
  lemma {:induction false} AttributeValuesMatch(e: Entries)
    ensures forall p :: p in AttributeValues(e) ==> |p| > 0 && p[0] == ':' && p[1..] in ToMap(e)
    ensures forall f :: f in ToMap(e) ==> Placeholder(f) in AttributeValues(e) && AttributeValues(e)[Placeholder(f)] == ToMap(e)[f]
  {
    if e != [] {
      AttributeValuesMatch(e[1..]);
      assert ToMap(e) == map[e[0].0 := e[0].1] + ToMap(e[1..]);
    }
  }

  /** The `update_item` call of `patch_item` (entity.py:65-78). */
  function PatchRequest(uid: string, e: Entries): (r: Request)
    ensures r.UpdateItem? && r.key == KeyFor(uid)
    ensures r.updateExpression == UpdateExpression(Keys(e))
    ensures r.attributeValues == AttributeValues(e)
    ensures r.condition.Text() == "attribute_exists(#key)"
    ensures r.attributeNames == map["#key" := "pk"]
  {
    KeyConditionTexts();
    UpdateItem(KeyFor(uid), UpdateExpression(Keys(e)), AttributeValues(e), AttributeExists(KeyPlaceholder), KeyNames)
  }

  /**
   * The update expression with its actions separated by commas, as the SET
   * clause of DynamoDB's update-expression grammar requires
   * (`SET action [, action] ...`).
   */
  function CommaUpdateExpression(fields: seq<string>): string
  {
    SetExpression(", ", fields)
  }

  /** The `update_item` call of `patch_item` with the comma-separated update expression. */
  function CommaPatchRequest(uid: string, e: Entries): (r: Request)
    ensures r.UpdateItem? && r.key == KeyFor(uid)
    ensures r.updateExpression == CommaUpdateExpression(Keys(e))
    ensures r.attributeValues == AttributeValues(e)
    ensures r.condition.Text() == "attribute_exists(#key)"
    ensures r.attributeNames == map["#key" := "pk"]
  {
    KeyConditionTexts();
    UpdateItem(KeyFor(uid), CommaUpdateExpression(Keys(e)), AttributeValues(e), AttributeExists(KeyPlaceholder), KeyNames)
  }

  /**
   * The expression and the value map of a patch agree: every assignment of
   * the expression names a placeholder the map defines, bound to the value
   * the caller gave that field ...
   */
  lemma PatchPlaceholdersDefined(e: Entries, i: int)
    requires 0 <= i < |e|
    ensures Assignments(Keys(e))[i] == e[i].0 + "=" + Placeholder(e[i].0)
    ensures Placeholder(e[i].0) in AttributeValues(e)
    ensures AttributeValues(e)[Placeholder(e[i].0)] == ToMap(e)[e[i].0]
  {
    AttributeValuesMatch(e);
    assert Keys(e)[i] == e[i].0;
    AssignmentUsesPlaceholder(e[i].0);
  }

  /** ... and the map defines no placeholder that no assignment uses. */
  lemma PatchPlaceholdersUsed(e: Entries, p: string)
    requires p in AttributeValues(e)
    ensures exists i :: 0 <= i < |e| && p == Placeholder(Keys(e)[i])
  {
    AttributeValuesMatch(e);
    var f := p[1..];
    assert p == [p[0]] + f;
    assert f in Keys(e);
    var i :| 0 <= i < |Keys(e)| && Keys(e)[i] == f;
  }

  /** The `get_item` call (entity.py:87-89). */
  function GetRequest(uid: string): (r: Request)
    ensures r.GetItem? && r.key == KeyFor(uid)
  {
    GetItem(KeyFor(uid))
  }

  /** The `delete_item` call (entity.py:133-138): unconditional. */
  function DeleteRequest(uid: string): (r: Request)
    ensures r.DeleteItem? && r.key == KeyFor(uid)
  {
    DeleteItem(KeyFor(uid))
  }

  /**
   * The `query` call of `query_index` (entity.py:108-121): the start key is
   * `set_keys({}, cursor)`, sent only when a cursor (even an empty string) is given.
   */
  function QueryRequest(setKeys: (Entries, string) -> Entries, indexName: string, pkField: string,
                        pkVal: string, pageSize: int, cursor: Option<string>): (r: Request)
    ensures r.Query? && r.indexName == indexName && r.limit == pageSize
    ensures r.keyCondition == KeyEquals(pkField, pkVal)
    ensures r.exclusiveStartKey.Some? <==> cursor.Some?
    ensures cursor.Some? ==> r.exclusiveStartKey.value == ToMap(setKeys([], cursor.value))
  {
    var startKey := match cursor case Some(uid) => Some(ToMap(setKeys([], uid))) case None => None;
    Query(indexName, KeyEquals(pkField, pkVal), startKey, pageSize)
  }

  /** `f'Object "{entity_name}" with uid "{uid}" not found!'`. */
  function NotFoundMessage(entityName: string, uid: string): (m: string)
    ensures |m| == |entityName| + |uid| + 32
    ensures m[..8] == "Object \"" && m[|m| - 12..] == "\" not found!"
  {
    "Object \"" + entityName + "\" with uid \"" + uid + "\" not found!"
  }

  /** `t` occurs in `s` starting at position `i`. */
  ghost predicate OccursAt(s: string, t: string, i: int)
  {
    0 <= i && i + |t| <= |s| && s[i..i + |t|] == t
  }

  /** `t` occurs in `s` at some position. */
  ghost predicate Contains(s: string, t: string)
  {
    exists i :: OccursAt(s, t, i)
  }

  /** The not-found message names the entity and the uid. */
  lemma NotFoundMessageNames(entityName: string, uid: string)
    ensures Contains(NotFoundMessage(entityName, uid), entityName)
    ensures Contains(NotFoundMessage(entityName, uid), uid)
  {
    var head, middle, tail := "Object \"", "\" with uid \"", "\" not found!";
    var s := NotFoundMessage(entityName, uid);
    assert s == (head + entityName) + ((middle + uid) + tail);
    var a := |head|;
    var b := |head| + |entityName| + |middle|;
    assert s[..a + |entityName|] == head + entityName;
    assert OccursAt(s, entityName, a);
    assert s[a + |entityName|..] == (middle + uid) + tail;
    assert s[a + |entityName|..][|middle|..|middle| + |uid|] == uid;
    assert OccursAt(s, uid, b);
  }

  /**
   * The shaping of `get_item`'s response (entity.py:90-95): a present and
   * non-empty `Item` is returned; a missing or empty one raises, locally, an
   * `ObjectNotFoundError` that wraps no client error.
   */
  function ShapeGet(entityName: string, uid: string, item: Option<Item>): (r: Outcome<Item>)
    ensures r.Ok? <==> item.Some? && item.value != map[]
    ensures r.Ok? ==> r.value == item.value
    ensures !r.Ok? ==> r.OtherErr? && r.raised.Storage?
    ensures !r.Ok? ==> r.raised.error == StorageError(ObjectNotFound, NotFoundMessage(entityName, uid), None)
    ensures !r.Ok? ==> r.raised.error.Status() == 404
  {
    match item
    case Some(found) => if found != map[] then Ok(found) else NotFound(entityName, uid)
    case None => NotFound(entityName, uid)
  }

  function NotFound(entityName: string, uid: string): Outcome<Item>
  {
    OtherErr(Storage(StorageError(ObjectNotFound, NotFoundMessage(entityName, uid), None)))
  }

  /** The `query` response: `Items` and, when more pages exist, `LastEvaluatedKey`. */
  datatype QueryResponse = QueryResponse(items: seq<Item>, lastEvaluatedKey: Option<Item>)

  /**
   * `{'items': ..., 'last_evaluated_uid': ...}`; Python's `None` is the
   * attribute value `Null`, so a `pk` stored as `None` reads as no cursor.
   */
  datatype Page = Page(items: seq<Item>, lastEvaluatedUid: Value)

  /** Subscripting a `LastEvaluatedKey` without `pk` raises `KeyError`, which is not a `ClientError`. */
  const MissingKey := Foreign("KeyError")

  /** The shaping of `query_index`'s response (entity.py:123-126). */
  function ShapeQuery(response: QueryResponse): (r: Outcome<Page>)
    ensures r.Ok? <==> response.lastEvaluatedKey.None? || PartitionKey in response.lastEvaluatedKey.value
    ensures !r.Ok? ==> r == OtherErr(MissingKey)
    ensures r.Ok? ==> r.value.items == response.items
    ensures r.Ok? && response.lastEvaluatedKey.None? ==> r.value.lastEvaluatedUid == Null
    ensures r.Ok? && response.lastEvaluatedKey.Some? ==>
              r.value.lastEvaluatedUid == response.lastEvaluatedKey.value[PartitionKey]
  {
    match response.lastEvaluatedKey
    case None => Ok(Page(response.items, Null))
    case Some(key) =>
      if PartitionKey in key then Ok(Page(response.items, key[PartitionKey])) else OtherErr(MissingKey)
  }
}

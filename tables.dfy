/**
 * A minimal stand-in for the table handle the entity calls. It is not part
 * of the repository: it replaces the external database service with a map
 * from partition key to item, and does only what the repository's tests
 * rely on. A conditional put succeeds only when its existence condition
 * holds, a get returns the stored item, a delete removes the key, and an
 * update whose SET clause separates its actions by commas, and whose
 * condition holds, assigns the fields its value placeholders name. Index
 * queries are not evaluated: how the service's query ends, with a page or
 * an error, is given to `Table.Query`.
 */
module Tables {
  import opened Options
  import opened Dicts
  import opened StorageErrors
  import opened Requests

  /** Stored items by partition key. */
  type Store = map<string, Item>

  /** What the service answers when a condition does not hold. */
  const ConditionFailed := ClientError("ConditionalCheckFailedException", Some("The conditional request failed"))

  /** What the service answers when an item or key has no string partition key. */
  const KeyMismatch := ClientError("ValidationException", Some("The provided key element does not match the schema"))

  /** What the service answers when an update assigns the partition key. */
  const KeyUpdate := ClientError("ValidationException", Some("Cannot update attribute pk. This attribute is part of the key"))

  /** What the service answers when an update expression does not parse. */
  const BadExpression := ClientError("ValidationException", Some("Invalid UpdateExpression: Syntax error"))

  /** The partition key of an item or key record, when it is a string. */
  function PkOf(item: Item): Option<string>
  {
    if PartitionKey in item && item[PartitionKey].Str? then Some(item[PartitionKey].s) else None
  }

  /** The attribute a condition path names, after `ExpressionAttributeNames`. */
  function Resolve(names: map<string, string>, path: string): string
  {
    if path in names then names[path] else path
  }

  /** Whether the condition holds of whatever is stored under `pk`. */
  predicate Holds(store: Store, pk: string, c: Condition, names: map<string, string>)
  {
    var present := pk in store && Resolve(names, c.path) in store[pk];
    match c
    case AttributeExists(_) => present
    case AttributeNotExists(_) => !present
  }

  /** Every item is stored under its own partition key. */
  ghost predicate WellKeyed(store: Store)
  {
    forall pk :: pk in store ==> PkOf(store[pk]) == Some(pk)
  }

  /** An attribute name with neither white space nor a comma in it. */
  predicate PlainName(f: string)
  {
    forall i :: 0 <= i < |f| ==> f[i] != ' ' && f[i] != ','
  }

  /**
   * The separator rule of a SET clause's actions, the one part of the update
   * expression grammar the stand-in checks: there is at least one action,
   * and a space only ever follows the comma that ends an action.
   */
  predicate CommaSeparated(body: string)
  {
    |body| > 0 && body[0] != ' ' && forall i :: 0 < i < |body| ==> SpaceAfterComma(body, i)
  }

  /** A space at position `i` of `body` follows a comma. */
  predicate SpaceAfterComma(body: string, i: int)
    requires 0 < i < |body|
  {
    body[i] == ' ' ==> body[i - 1] == ','
  }

  /** `set ` followed by comma-separated actions. */
  predicate WellFormedSet(expression: string)
  {
    |expression| > 4 && expression[..4] == "set " && CommaSeparated(expression[4..])
  }

  /** The new store and the answer of one call. */
  datatype Step<+T> = Step(store: Store, outcome: Outcome<T>)

  /**
   * A conditional put: it succeeds exactly when the item has a string key
   * and the condition holds, and then stores the whole item under that key;
   * a refused put leaves the store as it was.
   */
  function Put(store: Store, req: Request): (s: Step<()>)
    requires req.PutItem?
    ensures s.outcome.Ok? <==> PkOf(req.item).Some? && Holds(store, PkOf(req.item).value, req.condition, req.attributeNames)
    ensures s.outcome.Ok? ==> s.store == store[PkOf(req.item).value := req.item]
    ensures !s.outcome.Ok? ==> s.store == store && s.outcome.ClientErr?
  {
    match PkOf(req.item)
    case None => Step(store, ClientErr(KeyMismatch))
    case Some(pk) =>
      if Holds(store, pk, req.condition, req.attributeNames) then Step(store[pk := req.item], Ok(()))
      else Step(store, ClientErr(ConditionFailed))
  }

  /** A get never changes the store and finds the item stored under the key's partition key, if any. */
  function Get(store: Store, req: Request): (s: Step<Option<Item>>)
    requires req.GetItem?
    ensures s.store == store
    ensures s.outcome.Ok? <==> PkOf(req.key).Some?
    ensures s.outcome.Ok? ==> (s.outcome.value.Some? <==> PkOf(req.key).value in store)
    ensures s.outcome.Ok? && s.outcome.value.Some? ==> s.outcome.value.value == store[PkOf(req.key).value]
  {
    match PkOf(req.key)
    case None => Step(store, ClientErr(KeyMismatch))
    case Some(pk) => Step(store, Ok(if pk in store then Some(store[pk]) else None))
  }

  /** The fields `f` an update assigns, one per value placeholder `:f`. */
  function Assigned(values: map<string, Value>): Item
  {
    assert forall p :: |p| > 0 && p[0] == ':' ==> p == Placeholder(p[1..]) by {
      forall p | |p| > 0 && p[0] == ':' ensures p == Placeholder(p[1..]) {
        assert p == [p[0]] + p[1..];
      }
    }
    map p | p in values && |p| > 0 && p[0] == ':' :: p[1..] := values[p]
  }

  /**
   * A conditional update: it succeeds only for a string key, a well-formed
   * SET clause, no assignment of the partition key and a holding condition,
   * and then changes the entry under that key alone, to the old item (or
   * the key record) with the assigned fields overwritten; a refused update
   * leaves the store as it was.
   */
  function Update(store: Store, req: Request): (s: Step<()>)
    requires req.UpdateItem?
    ensures s.outcome.Ok? ==> PkOf(req.key).Some? && WellFormedSet(req.updateExpression)
    ensures s.outcome.Ok? ==> PartitionKey !in Assigned(req.attributeValues)
    ensures s.outcome.Ok? ==> Holds(store, PkOf(req.key).value, req.condition, req.attributeNames)
    ensures s.outcome.Ok? ==> var pk := PkOf(req.key).value;
              && pk in s.store && s.store == store[pk := s.store[pk]]
              && s.store[pk] == (if pk in store then store[pk] else req.key) + Assigned(req.attributeValues)
    ensures !s.outcome.Ok? ==> s.store == store && s.outcome.ClientErr?
  {
    match PkOf(req.key)
    case None => Step(store, ClientErr(KeyMismatch))
    case Some(pk) =>
      if !WellFormedSet(req.updateExpression) then Step(store, ClientErr(BadExpression))
      else if PartitionKey in Assigned(req.attributeValues) then Step(store, ClientErr(KeyUpdate))
      else if Holds(store, pk, req.condition, req.attributeNames) then
        var base := if pk in store then store[pk] else req.key;
        Step(store[pk := base + Assigned(req.attributeValues)], Ok(()))
      else Step(store, ClientErr(ConditionFailed))
  }

  /** An unconditional delete: any string key succeeds and removes that key, whether or not it was stored. */
  function Delete(store: Store, req: Request): (s: Step<()>)
    requires req.DeleteItem?
    ensures s.outcome.Ok? <==> PkOf(req.key).Some?
    ensures s.outcome.Ok? ==> s.store == store - {PkOf(req.key).value}
    ensures !s.outcome.Ok? ==> s.store == store
  {
    match PkOf(req.key)
    case None => Step(store, ClientErr(KeyMismatch))
    case Some(pk) => Step(store - {pk}, Ok(()))
  }

  /** The table handle: what it stores, and every request it has received, in order. */
  class Table {
    var items: Store
    var requests: seq<Request>

    /** The store keeps every item under its own partition key. */
    ghost predicate Valid()
      reads this
    {
      WellKeyed(items)
    }

    constructor ()
      ensures Valid() && items == map[] && requests == []
    {
      items := map[];
      requests := [];
    }

    method PutItem(req: Request) returns (o: Outcome<()>)
      requires Valid() && req.PutItem?
      modifies this
      ensures Valid()
      ensures requests == old(requests) + [req]
      ensures Step(items, o) == Put(old(items), req)
    {
      PutKeepsWellKeyed(items, req);
      var step := Put(items, req);
      items, o := step.store, step.outcome;
      requests := requests + [req];
    }

    method UpdateItem(req: Request) returns (o: Outcome<()>)
      requires Valid() && req.UpdateItem?
      modifies this
      ensures Valid()
      ensures requests == old(requests) + [req]
      ensures Step(items, o) == Update(old(items), req)
    {
      UpdateKeepsWellKeyed(items, req);
      var step := Update(items, req);
      items, o := step.store, step.outcome;
      requests := requests + [req];
    }

    method GetItem(req: Request) returns (o: Outcome<Option<Item>>)
      requires Valid() && req.GetItem?
      modifies this
      ensures Valid()
      ensures requests == old(requests) + [req]
      ensures Step(items, o) == Get(old(items), req)
    {
      var step := Get(items, req);
      o := step.outcome;
      requests := requests + [req];
    }

    method Query(req: Request, answer: Outcome<QueryResponse>) returns (o: Outcome<QueryResponse>)
      requires Valid() && req.Query?
      modifies this
      ensures Valid()
      ensures requests == old(requests) + [req]
      ensures items == old(items) && o == answer
    {
      o := answer;
      requests := requests + [req];
    }

    method DeleteItem(req: Request) returns (o: Outcome<()>)
      requires Valid() && req.DeleteItem?
      modifies this
      ensures Valid()
      ensures requests == old(requests) + [req]
      ensures Step(items, o) == Delete(old(items), req)
    {
      DeleteKeepsWellKeyed(items, req);
      var step := Delete(items, req);
      items, o := step.store, step.outcome;
      requests := requests + [req];
    }
  }

  /** Puts, updates and deletes keep every item under its own partition key. */
  lemma PutKeepsWellKeyed(store: Store, req: Request)
    requires req.PutItem? && WellKeyed(store)
    ensures WellKeyed(Put(store, req).store)
  {
  }

  lemma UpdateKeepsWellKeyed(store: Store, req: Request)
    requires req.UpdateItem? && WellKeyed(store)
    ensures WellKeyed(Update(store, req).store)
  {
    if PkOf(req.key).Some? {
      var pk := PkOf(req.key).value;
      var a := Assigned(req.attributeValues);
      if WellFormedSet(req.updateExpression) && PartitionKey !in a && Holds(store, pk, req.condition, req.attributeNames) {
        var base := if pk in store then store[pk] else req.key;
        var after := store[pk := base + a];
        assert Update(store, req).store == after;
        MergeKeepsKey(base, a, pk);
        StoreUnderOwnKey(store, pk, base + a);
      }
    }
  }

  lemma MergeKeepsKey(base: Item, a: Item, pk: string)
    requires PkOf(base) == Some(pk) && PartitionKey !in a
    ensures PkOf(base + a) == Some(pk)
  {
    assert (base + a)[PartitionKey] == base[PartitionKey];
  }

  lemma StoreUnderOwnKey(store: Store, pk: string, item: Item)
    requires WellKeyed(store) && PkOf(item) == Some(pk)
    ensures WellKeyed(store[pk := item])
  {
  }

  lemma DeleteKeepsWellKeyed(store: Store, req: Request)
    requires req.DeleteItem? && WellKeyed(store)
    ensures WellKeyed(Delete(store, req).store)
  {
  }

  /**
   * A failed condition is claimed by no error kind: it is translated into an
   * `UnknownStorageError` carrying the service's message.
   */
  lemma ConditionFailureIsUnknown()
    ensures FromBoto(ConditionFailed) == StorageError(UnknownStorage, "The conditional request failed", Some(ConditionFailed))
  {
    assert ConditionFailed.code[0] != ResourceNotFound[0];
  }

  /** A malformed update expression is claimed by no error kind either. */
  lemma BadExpressionIsUnknown()
    ensures FromBoto(BadExpression) == StorageError(UnknownStorage, "Invalid UpdateExpression: Syntax error", Some(BadExpression))
  {
    assert BadExpression.code[0] != ResourceNotFound[0];
  }

  /** The key record of a uid addresses the item stored under that uid. */
  lemma KeyAddresses(uid: string)
    ensures PkOf(KeyFor(uid)) == Some(uid)
  {
  }

  /**
   * The service decodes a patch's value map back into the caller's fields:
   * the fields an update assigns are exactly the entries of the patched dict.
   */
  lemma AssignedPatch(e: Entries)
    ensures Assigned(AttributeValues(e)) == ToMap(e)
  {
    var a, m := Assigned(AttributeValues(e)), ToMap(e);
    forall f | f in a ensures f in m && a[f] == m[f] {
      AssignedField(e, f);
    }
    forall f | f in m ensures f in a {
      PatchedField(e, f);
    }
    assert a.Keys == m.Keys;
  }

  /** An update assigns `f` exactly when its value map binds `:f`, to that value. */
  lemma AssignedFields(values: map<string, Value>, f: string)
    ensures f in Assigned(values) <==> Placeholder(f) in values
    ensures f in Assigned(values) ==> Assigned(values)[f] == values[Placeholder(f)]
  {
    var a := Assigned(values);
    var p := Placeholder(f);
    assert p[1..] == f;
    if f in a {
      var q :| q in values && |q| > 0 && q[0] == ':' && q[1..] == f;
      assert q == [q[0]] + q[1..];
      assert q == p;
    }
    if p in values {
      forall q | q in values && |q| > 0 && q[0] == ':' && q[1..] == f ensures q == p {
        assert q == [q[0]] + q[1..];
      }
    }
  }

  lemma AssignedField(e: Entries, f: string)
    requires f in Assigned(AttributeValues(e))
    ensures f in ToMap(e) && Assigned(AttributeValues(e))[f] == ToMap(e)[f]
  {
    AssignedFields(AttributeValues(e), f);
    AttributeValuesMatch(e);
    var p := Placeholder(f);
    assert p in AttributeValues(e) && p[1..] == f;
  }

  lemma PatchedField(e: Entries, f: string)
    requires f in ToMap(e)
    ensures f in Assigned(AttributeValues(e))
  {
    AssignedFields(AttributeValues(e), f);
    AttributeValuesMatch(e);
    var p := Placeholder(f);
    assert p in AttributeValues(e) && p[1..] == f;
  }

  /** The expression of an empty patch, the bare `"set "`, has no action. */
  lemma EmptyPatchIsMalformed()
    ensures !WellFormedSet(UpdateExpression([]))
  {
  }

  /**
   * The expression the source builds for two or more fields is malformed:
   * the first two assignments are separated by a space with no comma.
   */
  lemma SpaceJoinedIsMalformed(fields: seq<string>)
    requires |fields| >= 2 && PlainName(fields[0])
    ensures !WellFormedSet(UpdateExpression(fields))
  {
    var a := Assignments(fields);
    var rest := Join(" ", a[1..]);
    assert Join(" ", a) == a[0] + " " + rest;
    var body := UpdateExpression(fields)[4..];
    assert body == a[0] + " " + rest;
    var i := |a[0]|;
    assert body[i] == ' ';
    LastOfAssignment(fields[0]);
    assert body[i - 1] == a[0][|a[0]| - 1];
    assert !SpaceAfterComma(body, i);
  }

  /** An assignment of a plain name does not end with a comma. */
  lemma LastOfAssignment(f: string)
    requires PlainName(f)
    ensures |Assignment(f)| >= 2 && Assignment(f)[|Assignment(f)| - 1] != ','
  {
    if f != [] {
      assert Assignment(f)[|Assignment(f)| - 1] == f[|f| - 1];
    }
  }

  /** The expression of a one-field patch of a plain name is well formed. */
  lemma OneFieldIsWellFormed(f: string)
    requires PlainName(f)
    ensures WellFormedSet(UpdateExpression([f]))
  {
    assert Assignments([f]) == [Assignment(f)];
    AssignmentHasNoSpace(f);
  }

  /** The comma-separated expression of any non-empty patch of plain names is well formed. */
  lemma CommaJoinedIsWellFormed(fields: seq<string>)
    requires fields != [] && forall i :: 0 <= i < |fields| ==> PlainName(fields[i])
    ensures WellFormedSet(CommaUpdateExpression(fields))
  {
    var a := Assignments(fields);
    forall i | 0 <= i < |a| ensures |a[i]| > 0 && NoSpace(a[i]) {
      AssignmentHasNoSpace(fields[i]);
    }
    JoinCommaSeparated(a);
    assert CommaUpdateExpression(fields)[4..] == Join(", ", a);
  }

  /** No character of `s` is a space. */
  predicate NoSpace(s: string)
  {
    forall i :: 0 <= i < |s| ==> s[i] != ' '
  }

  lemma AssignmentHasNoSpace(f: string)
    requires PlainName(f)
    ensures |Assignment(f)| > 0 && NoSpace(Assignment(f))
  {
    var s := Assignment(f);
    assert s == f + "=:" + f;
    forall i | 0 <= i < |s| ensures s[i] != ' ' {
      if i < |f| {
        assert s[i] == f[i];
      } else if i >= |f| + 2 {
        assert s[i] == f[i - |f| - 2];
      }
    }
  }

  /** Joining space-free, non-empty parts with `", "` puts every space right after a comma. */
  lemma {:induction false} JoinCommaSeparated(parts: seq<string>)
    requires parts != [] && forall i :: 0 <= i < |parts| ==> |parts[i]| > 0 && NoSpace(parts[i])
    ensures CommaSeparated(Join(", ", parts))
  {
    if |parts| > 1 {
      JoinCommaSeparated(parts[1..]);
      var head, tail := parts[0], Join(", ", parts[1..]);
      var s := Join(", ", parts);
      assert s == head + ", " + tail;
      forall i | 0 < i < |s| ensures SpaceAfterComma(s, i) {
        if i > |head| + 1 && s[i] == ' ' {
          assert s[i] == tail[i - |head| - 2];
          if i > |head| + 2 {
            assert SpaceAfterComma(tail, i - |head| - 2);
            assert s[i - 1] == tail[i - |head| - 3];
          }
        }
      }
      assert s[0] == head[0];
    }
  }
}

/**
 * Translation of the database client's structured errors into the domain
 * error taxonomy, and the translate-or-swallow decision taken around every
 * entity operation (dynamodb_toolbox_py/exceptions/boto.py).
 */
module StorageErrors {
  import opened Options

  /** The registered subclasses of `BaseStorageError`. */
  datatype Kind = UnknownStorage | ObjectNotFound

  /** The class attribute `code`: 500 from `BaseError`, overridden to 404 by `ObjectNotFoundError`. */
  function StatusCode(k: Kind): (c: int)
    ensures c == 404 <==> k == ObjectNotFound
    ensures c == 500 <==> k == UnknownStorage
  {
    match k
    case UnknownStorage => 500
    case ObjectNotFound => 404
  }

  const ResourceNotFound := "ResourceNotFoundException"

  /**
   * The class attribute `botocore_code`: `UnknownStorageError` inherits the
   * empty set of `BaseStorageError`, `ObjectNotFoundError` claims one code.
   */
  function BotocoreCodes(k: Kind): (codes: set<string>)
    ensures k == UnknownStorage ==> codes == {}
    ensures codes <= {ResourceNotFound}
    ensures ResourceNotFound in codes <==> k == ObjectNotFound
  {
    match k
    case UnknownStorage => {}
    case ObjectNotFound => {ResourceNotFound}
  }

  /** `BaseStorageError.__subclasses__()`, in the order the classes are defined. */
  const Registry: seq<(Kind, set<string>)> :=
    [(UnknownStorage, BotocoreCodes(UnknownStorage)), (ObjectNotFound, BotocoreCodes(ObjectNotFound))]

  /**
   * The registry lists `UnknownStorageError` first, claims every code at
   * most once, and only `ObjectNotFoundError` claims a code at all.
   */
  lemma RegistryClaims()
    ensures |Registry| == 2 && Registry[0].0 == UnknownStorage && Registry[1].0 == ObjectNotFound
    ensures forall i, code :: 0 <= i < |Registry| && code in Registry[i].1 ==>
              Registry[i].0 == ObjectNotFound && code == ResourceNotFound
  {
  }

  /** The position of the first registry entry that claims `code`, if any. */
  function FirstMatch(registry: seq<(Kind, set<string>)>, code: string): (r: Option<nat>)
    ensures r.Some? ==> r.value < |registry| && code in registry[r.value].1
    ensures r.Some? ==> forall j :: 0 <= j < r.value ==> code !in registry[j].1
    ensures r.None? ==> forall j :: 0 <= j < |registry| ==> code !in registry[j].1
  {
    if registry == [] then None
    else if code in registry[0].1 then Some(0)
    else match FirstMatch(registry[1..], code)
      case None => None
      case Some(i) => Some(i + 1)
  }

  /** The `for ... else` of `from_boto`: the first kind claiming the code, else `UnknownStorageError`. */
  function ClassifyIn(registry: seq<(Kind, set<string>)>, code: string): (k: Kind)
    ensures (exists i :: 0 <= i < |registry| && code in registry[i].1) ==>
              exists i :: 0 <= i < |registry| && code in registry[i].1 && k == registry[i].0
                          && forall j :: 0 <= j < i ==> code !in registry[j].1
    ensures (forall i :: 0 <= i < |registry| ==> code !in registry[i].1) ==> k == UnknownStorage
  {
    match FirstMatch(registry, code)
    case Some(i) => registry[i].0
    case None => UnknownStorage
  }

  /** Classification against the fixed registry of this package. */
  function Classify(code: string): (k: Kind)
    ensures k == ObjectNotFound <==> code == ResourceNotFound
    ensures k == UnknownStorage <==> code != ResourceNotFound
    ensures StatusCode(k) == (if code == ResourceNotFound then 404 else 500)
  {
    ClassifyIn(Registry, code)
  }

  /** A `botocore.exceptions.ClientError`: `response["Error"]["Code"]` and, if present, `["Message"]`. */
  datatype ClientError = ClientError(code: string, message: Option<string>)

  /** A raised `BaseStorageError` subclass: its message and its `inner_error`. */
  datatype StorageError = StorageError(kind: Kind, message: string, inner: Option<ClientError>)
  {
    function Status(): int { StatusCode(kind) }
  }

  const DefaultMessage := "Unknown boto error"

  /** `BaseStorageError.from_boto`. */
  function FromBoto(e: ClientError): (r: StorageError)
    ensures r.inner == Some(e)
    ensures r.kind == ObjectNotFound <==> e.code == ResourceNotFound
    ensures r.Status() == 404 <==> e.code == ResourceNotFound
    ensures r.Status() == 500 <==> e.code != ResourceNotFound
    ensures e.message.Some? ==> r.message == e.message.value
    ensures e.message.None? ==> r.message == DefaultMessage
  {
    var message := match e.message case Some(m) => m case None => DefaultMessage;
    StorageError(Classify(e.code), message, Some(e))
  }

  /** An exception other than a `ClientError`: a domain error raised locally, or anything else. */
  datatype Raised = Storage(error: StorageError) | Foreign(name: string)

  /** How a wrapped operation ended: with a result, a `ClientError`, or another exception. */
  datatype Outcome<+T> = Ok(value: T) | ClientErr(error: ClientError) | OtherErr(raised: Raised)

  /** The same ending, with the success value replaced by what the operation returns. */
  function Returning<T, U>(o: Outcome<T>, v: U): (r: Outcome<U>)
    ensures r.Ok? <==> o.Ok?
    ensures r.Ok? ==> r.value == v
    ensures o.ClientErr? ==> r == ClientErr(o.error)
    ensures o.OtherErr? ==> r == OtherErr(o.raised)
  {
    match o
    case Ok(_) => Ok(v)
    case ClientErr(e) => ClientErr(e)
    case OtherErr(x) => OtherErr(x)
  }

  /**
   * What the caller of a wrapped operation sees: the result, `None` after a
   * swallowed error, or an exception. No `ClientError` can escape the wrapper.
   */
  datatype Handled<+T> = Returned(value: T) | ReturnedNone | Raise(raised: Raised)

  /** The `warn` tuple used by every entity operation: `handle_botocore_exceptions()`. */
  const NoWarn: seq<string> := []

  /** The wrapper built by `handle_botocore_exceptions(warn)` applied to one call's outcome. */
  function Handle<T>(warn: seq<string>, o: Outcome<T>): (h: Handled<T>)
    ensures h.Returned? <==> o.Ok?
    ensures h.Returned? ==> h.value == o.value
    ensures h.ReturnedNone? <==> o.ClientErr? && o.error.code in warn
    ensures o.ClientErr? && o.error.code !in warn ==> h == Raise(Storage(FromBoto(o.error)))
    ensures o.OtherErr? ==> h == Raise(o.raised)
  {
    match o
    case Ok(v) => Returned(v)
    case ClientErr(e) => if e.code in warn then ReturnedNone else Raise(Storage(FromBoto(e)))
    case OtherErr(x) => Raise(x)
  }

  /** With the default empty `warn`, nothing is swallowed and every `ClientError` is translated. */
  lemma DefaultWarnTranslates<T>(o: Outcome<T>)
    ensures !Handle(NoWarn, o).ReturnedNone?
    ensures o.ClientErr? ==> Handle(NoWarn, o).Raise? && Handle(NoWarn, o).raised.Storage?
                             && Handle(NoWarn, o).raised.error.inner == Some(o.error)
  {
  }
}

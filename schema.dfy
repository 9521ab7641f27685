/**
  Extractors given as lists of required keys, read all-or-nothing: either every key is
  found or the first absent one is reported. Each operation's key list is a parameter.
  Plugged into the handler, they show that a complete request yields exactly its own
  values and that a request missing one required key is rejected naming that key.
 */
module Schema {

  import opened StaxOrchestrator
  import opened ValidateInput

  /** The request restricted to the given keys. */
  function Restrict<V>(request: Request<V>, keys: seq<Key>): Fields<V> {
    map k | k in keys && k in request :: request[k]
  }

  /**
    Reads the required keys in order: the first absent one is reported, otherwise the
    result holds every required key with the request's own value.
   */
  function ExtractRequired<V>(keys: seq<Key>, request: Request<V>): (r: Extraction<V>)
    ensures r.Extracted? <==> forall i | 0 <= i < |keys| :: keys[i] in request
    ensures r.Extracted? ==> r.fields == Restrict(request, keys)
    ensures r.KeyMissing? ==> r.key in keys && r.key !in request
    ensures r.KeyMissing? ==>
      exists i | 0 <= i < |keys| :: keys[i] == r.key && forall j | 0 <= j < i :: keys[j] in request
    decreases |keys|
  {
    if keys == [] then Extracted(map[])
    else if keys[0] !in request then KeyMissing(keys[0])
    else match ExtractRequired(keys[1..], request)
      case KeyMissing(key) => KeyMissing(key)
      case Extracted(fields) => Extracted(fields[keys[0] := request[keys[0]]])
  }

  /** A request naming `op` and holding all of `op`'s required keys gets `op`'s event with exactly those values. */
  lemma CompleteRequestYieldsItsValues<V>(o: Orchestrator<V>, keys: seq<Key>, op: Operation, event: Request<V>)
    requires o.DistinctTags()
    requires forall e :: o.Extractor(op)(e) == ExtractRequired(keys, e)
    requires OperationIs(event, o.Tag(op))
    requires forall i | 0 <= i < |keys| :: keys[i] in event
    ensures LambdaHandler(o, event) == EventFor(op, Restrict(event, keys))
  {
  }

  /** A request naming `op` and lacking only `key` of `op`'s required keys is rejected naming `key`. */
  lemma OneMissingKeyIsNamed<V>(o: Orchestrator<V>, keys: seq<Key>, op: Operation, event: Request<V>, key: Key)
    requires o.DistinctTags()
    requires forall e :: o.Extractor(op)(e) == ExtractRequired(keys, e)
    requires OperationIs(event, o.Tag(op))
    requires key in keys && key !in event
    requires forall i | 0 <= i < |keys| && keys[i] != key :: keys[i] in event
    ensures LambdaHandler(o, event) == MissingRequiredInput(key)
  {
  }

  /** Whatever is missing, the error names a required key of `op` that is absent, never a partial event. */
  lemma AnyMissingKeyIsNamed<V>(o: Orchestrator<V>, keys: seq<Key>, op: Operation, event: Request<V>)
    requires o.DistinctTags()
    requires forall e :: o.Extractor(op)(e) == ExtractRequired(keys, e)
    requires OperationIs(event, o.Tag(op))
    requires exists i | 0 <= i < |keys| :: keys[i] !in event
    ensures LambdaHandler(o, event).MissingRequiredInput?
    ensures LambdaHandler(o, event).key in keys && LambdaHandler(o, event).key !in event
  {
  }
}

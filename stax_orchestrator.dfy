/**
  The parts of the `stax_orchestrator` library that the validate-input handler relies on.
  The library itself is not part of this model: its operation tags and its three
  field extractors are abstracted as the fields of an `Orchestrator` value, so every
  property proved about the handler holds for whatever tags and extractors it has.
 */
module StaxOrchestrator {

  import opened Wrappers

  /** A key of the request payload. */
  type Key = string

  /** The loosely-typed request: string keys mapped to values of the caller's choosing. */
  type Request<V> = map<Key, V>

  /** The keyword arguments an extractor hands to an event constructor. */
  type Fields<V> = map<Key, V>

  /** The request key that names the operation. */
  const OPERATION_KEY: Key := "operation"

  /** The closed set of workload operations (the library's `WorkloadOperation`). */
  datatype Operation = DEPLOY | UPDATE | DELETE

  /**
    What a field extractor makes of a request: the event's keyword arguments, or the
    key whose lookup failed (the `KeyError` it raises).
   */
  datatype Extraction<V> = Extracted(fields: Fields<V>) | KeyMissing(key: Key)

  /**
    The library as the handler sees it: the value of each operation tag and the
    extractor of each operation (`get_deploy_workload_kwargs` and the others).
   */
  datatype Orchestrator<!V(==)> = Orchestrator(
    deploy: V,
    update: V,
    delete: V,
    getDeployWorkloadKwargs: Request<V> -> Extraction<V>,
    getUpdateWorkloadKwargs: Request<V> -> Extraction<V>,
    getDeleteWorkloadKwargs: Request<V> -> Extraction<V>)
  {
    /** The tag value of an operation. */
    function Tag(op: Operation): V {
      match op
      case DEPLOY => deploy
      case UPDATE => update
      case DELETE => delete
    }

    /** The field extractor of an operation. */
    function Extractor(op: Operation): Request<V> -> Extraction<V> {
      match op
      case DEPLOY => getDeployWorkloadKwargs
      case UPDATE => getUpdateWorkloadKwargs
      case DELETE => getDeleteWorkloadKwargs
    }

    /** The three tags are distinct, as the members of an enumeration are. */
    predicate DistinctTags() {
      deploy != update && deploy != delete && update != delete
    }

    /**
      The operation a request value names: the first tag, in the order DEPLOY, UPDATE,
      DELETE, that equals it, or None when it equals none of them.
     */
    function Selected(value: V): (r: Option<Operation>)
      ensures r.Some? ==> Tag(r.value) == value
      ensures r.None? <==> value !in {deploy, update, delete}
      // the first matching tag wins, even when tags coincide
      ensures value == deploy ==> r == Some(DEPLOY)
      ensures value != deploy && value == update ==> r == Some(UPDATE)
    {
      if value == deploy then Some(DEPLOY)
      else if value == update then Some(UPDATE)
      else if value == delete then Some(DELETE)
      else None
    }
  }

  /** With distinct tags, the operation named by an operation's tag is that operation. */
  lemma SelectedTag<V>(o: Orchestrator<V>, op: Operation)
    requires o.DistinctTags()
    ensures o.Selected(o.Tag(op)) == Some(op)
  {
  }
}

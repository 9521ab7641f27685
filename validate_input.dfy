/**
  The validate-input step of the workload state machine: the Lambda handler reads the
  request's `operation`, picks the matching field extractor, and returns that
  operation's event, or fails with `MissingRequiredInput` or
  `WorkloadOperationNotSupported`. Raised exceptions are modelled as outcomes.
 */
module ValidateInput {

  import opened Wrappers
  import opened StaxOrchestrator
  import opened Messages

  /** Every way one invocation of the handler can end: three events, two errors. */
  datatype Outcome<V> =
    | Deploy(fields: Fields<V>)                // the deploy event's fields
    | Update(fields: Fields<V>)                // the update event's fields
    | Delete(fields: Fields<V>)                // the delete event's fields
    | MissingRequiredInput(key: Key)           // a required key was absent
    | WorkloadOperationNotSupported(value: V)  // `operation` named no known operation
  {
    predicate IsEvent() {
      Deploy? || Update? || Delete?
    }
  }

  /** The event record of an operation, built from its keyword arguments. */
  function EventFor<V>(op: Operation, fields: Fields<V>): (r: Outcome<V>)
    ensures r.IsEvent() && r.fields == fields
    ensures r.Deploy? <==> op == DEPLOY
    ensures r.Update? <==> op == UPDATE
    ensures r.Delete? <==> op == DELETE
  {
    match op
    case DEPLOY => Deploy(fields)
    case UPDATE => Update(fields)
    case DELETE => Delete(fields)
  }

  /** Builds the event from an extractor's answer; a `KeyError` becomes `MissingRequiredInput`. */
  function Complete<V>(op: Operation, extraction: Extraction<V>): (r: Outcome<V>)
    ensures r.IsEvent() <==> extraction.Extracted?
    ensures extraction.Extracted? ==> r == EventFor(op, extraction.fields)
    ensures extraction.KeyMissing? ==> r == MissingRequiredInput(extraction.key)
  {
    match extraction
    case Extracted(fields) => EventFor(op, fields)
    case KeyMissing(key) => MissingRequiredInput(key)
  }

  /** The request's `operation` is present and equals `tag`. */
  predicate OperationIs<V(==)>(event: Request<V>, tag: V) {
    OPERATION_KEY in event && event[OPERATION_KEY] == tag
  }

  /**
    The answer of the one extractor the handler consults, or None when it consults
    none (no `operation`, or an unsupported one).
   */
  function SelectedExtraction<V(==)>(o: Orchestrator<V>, event: Request<V>): Option<Extraction<V>> {
    if OPERATION_KEY !in event then None
    else match o.Selected(event[OPERATION_KEY])
      case None => None
      case Some(op) => Some(o.Extractor(op)(event))
  }

  /**
    The handler. The tags are compared in the order DEPLOY, UPDATE, DELETE; the first
    match selects the extractor, whose answer becomes that operation's event; a value
    matching none is unsupported; any missing key, `operation` itself included, is
    reported as `MissingRequiredInput` naming that key.
   */
  function LambdaHandler<V(==)>(o: Orchestrator<V>, event: Request<V>): (r: Outcome<V>)
    // no `operation`: the error names it
    ensures OPERATION_KEY !in event ==> r == MissingRequiredInput(OPERATION_KEY)
    // a Deploy event exactly when the deploy tag matches and its extractor succeeds,
    // and then its fields are exactly the extractor's
    ensures r.Deploy? <==> OperationIs(event, o.deploy) && o.getDeployWorkloadKwargs(event).Extracted?
    ensures r.Deploy? ==> r.fields == o.getDeployWorkloadKwargs(event).fields
    // likewise for UPDATE, tried only when DEPLOY did not match
    ensures r.Update? <==>
      OperationIs(event, o.update) && !OperationIs(event, o.deploy)
      && o.getUpdateWorkloadKwargs(event).Extracted?
    ensures r.Update? ==> r.fields == o.getUpdateWorkloadKwargs(event).fields
    // likewise for DELETE, tried only when neither DEPLOY nor UPDATE matched
    ensures r.Delete? <==>
      OperationIs(event, o.delete) && !OperationIs(event, o.deploy) && !OperationIs(event, o.update)
      && o.getDeleteWorkloadKwargs(event).Extracted?
    ensures r.Delete? ==> r.fields == o.getDeleteWorkloadKwargs(event).fields
    // unsupported exactly when `operation` is present and equals no tag; the value is kept verbatim
    ensures r.WorkloadOperationNotSupported? <==>
      OPERATION_KEY in event && event[OPERATION_KEY] !in {o.deploy, o.update, o.delete}
    ensures r.WorkloadOperationNotSupported? ==> r.value == event[OPERATION_KEY]
    // a missing key is reported exactly when `operation` is absent or the consulted extractor
    // missed a key, and then the error names exactly that key
    ensures r.MissingRequiredInput? <==>
      OPERATION_KEY !in event
      || (SelectedExtraction(o, event).Some? && SelectedExtraction(o, event).value.KeyMissing?)
    ensures r.MissingRequiredInput? && OPERATION_KEY in event ==>
      SelectedExtraction(o, event) == Some(KeyMissing(r.key))
  {
    if OPERATION_KEY !in event then MissingRequiredInput(OPERATION_KEY)
    else if event[OPERATION_KEY] == o.deploy then Complete(DEPLOY, o.getDeployWorkloadKwargs(event))
    else if event[OPERATION_KEY] == o.update then Complete(UPDATE, o.getUpdateWorkloadKwargs(event))
    else if event[OPERATION_KEY] == o.delete then Complete(DELETE, o.getDeleteWorkloadKwargs(event))
    else WorkloadOperationNotSupported(event[OPERATION_KEY])
  }

  /**
    With distinct tags the if-chain is a dispatch on the closed set of operations: a
    request naming `op` gets `op`'s event from `op`'s extractor, or the key it missed.
   */
  lemma DispatchByOperation<V>(o: Orchestrator<V>, event: Request<V>, op: Operation)
    requires o.DistinctTags()
    requires OperationIs(event, o.Tag(op))
    ensures LambdaHandler(o, event) == Complete(op, o.Extractor(op)(event))
  {
  }

  /** Without an `operation` key, no extractor and no tag is consulted. */
  lemma MissingOperationConsultsNothing<V>(o: Orchestrator<V>, o': Orchestrator<V>, event: Request<V>)
    requires OPERATION_KEY !in event
    ensures LambdaHandler(o, event) == LambdaHandler(o', event) == MissingRequiredInput(OPERATION_KEY)
  {
  }

  /** A DEPLOY request never consults the update or delete extractor. */
  lemma DeployConsultsOnlyDeployExtractor<V>(
    o: Orchestrator<V>, event: Request<V>,
    update': Request<V> -> Extraction<V>, delete': Request<V> -> Extraction<V>)
    requires OperationIs(event, o.deploy)
    ensures LambdaHandler(o.(getUpdateWorkloadKwargs := update', getDeleteWorkloadKwargs := delete'), event)
         == LambdaHandler(o, event)
  {
  }

  /** An UPDATE request (with distinct tags) never consults the deploy or delete extractor. */
  lemma UpdateConsultsOnlyUpdateExtractor<V>(
    o: Orchestrator<V>, event: Request<V>,
    deploy': Request<V> -> Extraction<V>, delete': Request<V> -> Extraction<V>)
    requires o.DistinctTags()
    requires OperationIs(event, o.update)
    ensures LambdaHandler(o.(getDeployWorkloadKwargs := deploy', getDeleteWorkloadKwargs := delete'), event)
         == LambdaHandler(o, event)
  {
  }

  /** A DELETE request (with distinct tags) never consults the deploy or update extractor. */
  lemma DeleteConsultsOnlyDeleteExtractor<V>(
    o: Orchestrator<V>, event: Request<V>,
    deploy': Request<V> -> Extraction<V>, update': Request<V> -> Extraction<V>)
    requires o.DistinctTags()
    requires OperationIs(event, o.delete)
    ensures LambdaHandler(o.(getDeployWorkloadKwargs := deploy', getUpdateWorkloadKwargs := update'), event)
         == LambdaHandler(o, event)
  {
  }

  /**
    An unsupported operation consults no extractor, and is never reported as a missing
    key: only `KeyError`s are translated, and `WorkloadOperationNotSupported` is taken
    not to be one.
   */
  lemma UnsupportedConsultsNoExtractor<V>(
    o: Orchestrator<V>, event: Request<V>,
    deploy': Request<V> -> Extraction<V>, update': Request<V> -> Extraction<V>,
    delete': Request<V> -> Extraction<V>)
    requires OPERATION_KEY in event && event[OPERATION_KEY] !in {o.deploy, o.update, o.delete}
    ensures LambdaHandler(o.(getDeployWorkloadKwargs := deploy', getUpdateWorkloadKwargs := update',
                             getDeleteWorkloadKwargs := delete'), event)
         == LambdaHandler(o, event)
         == WorkloadOperationNotSupported(event[OPERATION_KEY])
  {
  }

  /**
    The text of the exception the handler raises for an error outcome, None for an
    event; `render` stands for Python's `str` of the request value.
   */
  function RaisedMessage<V>(r: Outcome<V>, render: V -> string): (m: Option<string>)
    ensures m.Some? <==> !r.IsEvent()
    ensures r.MissingRequiredInput? ==> m.Some? && MissingKeyOf(m.value) == Some(r.key)
    ensures r.WorkloadOperationNotSupported? ==>
      m.Some? && UnsupportedValueOf(m.value) == Some(render(r.value)) && MissingKeyOf(m.value) == None
  {
    match r
    case MissingRequiredInput(key) =>
      MissingKeyOfInverts(key);
      Some(MissingInputMessage(key))
    case WorkloadOperationNotSupported(value) =>
      UnsupportedValueOfInverts(render(value));
      UnsupportedNeverReadsAsMissing(render(value));
      Some(NotSupportedMessage(render(value)))
    case _ => None
  }
}

# Validate-input handler of the Stax workload orchestrator

This project models the first step of the workload state machine: the Lambda handler
`lambda_handler` that validates a loosely typed request to deploy, update or delete a
workload and turns it into a typed event. The handler reads the request's `operation` key.
It compares the value with the `DEPLOY`, `UPDATE` and `DELETE` tags in that order. On a
match it calls that operation's field extractor and wraps the extracted keyword arguments
in the operation's event record. Any other value raises `WorkloadOperationNotSupported`.
Every `KeyError` (the missing `operation` key, or a key an extractor could not find)
becomes `MissingRequiredInput`.

The `stax_orchestrator` library is not part of this model. Its operation tags and its three
extractors are the fields of a `StaxOrchestrator.Orchestrator` value, and request values
are a type parameter. So every property of the handler holds whatever tags and
extractors the library provides. An extractor either returns a field map or reports the
key it missed. Raised exceptions are outcomes of `ValidateInput.Outcome`: `Deploy`,
`Update`, `Delete`, `MissingRequiredInput(key)` and `WorkloadOperationNotSupported(value)`.
The handler is a function of the library, given as a parameter, and the request. So it is
deterministic and keeps no state between calls. A fresh `StaxOrchestrator()` is built on
every call.

Files:
- `wrappers.dfy`: the `Option` datatype.
- `stax_orchestrator.dfy`: the library interface (tags, extractors, operation lookup).
- `validate_input.dfy`: the handler, its five-outcome contract and the "which extractor
  is consulted" lemmas.
- `messages.dfy`: the texts of the two exceptions, and readers that recover the key or value.
- `schema.dfy`: extractors given as lists of required keys, read all-or-nothing. Plugging
  them into the handler proves the per-field properties. The lists themselves are
  parameters.

## Model

| member | source | states |
|---|---|---|
| `StaxOrchestrator.Orchestrator.Selected` | functions/validate_input/app.py:31-45 | the operation chosen for a value has that value as its tag, and it is the first matching tag in the order DEPLOY, UPDATE, DELETE, even when tags coincide; no operation is chosen exactly when the value equals none of the three tags |
| `StaxOrchestrator.SelectedTag` | functions/validate_input/app.py:31-41 | with distinct tags, the value of an operation's tag selects that operation |
| `ValidateInput.EventFor` | functions/validate_input/app.py:33-41 | each operation gets its own kind of event, and the event carries exactly the given keyword arguments |
| `ValidateInput.Complete` | functions/validate_input/app.py:32-41 | an extractor's success gives the operation's event with its fields; a missing key k gives `MissingRequiredInput(k)`, never an event |
| `ValidateInput.LambdaHandler` | functions/validate_input/app.py:17-50 | no `operation` gives `MissingRequiredInput("operation")`. Deploy exactly when the deploy tag matches and its extractor succeeds, with exactly its fields. Update and Delete likewise, each tried only after the earlier tags failed to match. Unsupported exactly when `operation` equals no tag, carrying the value verbatim. A missing key is reported exactly when `operation` is absent or the consulted extractor missed a key, and the error names that key |
| `ValidateInput.DispatchByOperation` | functions/validate_input/app.py:31-41 | with distinct tags, a request naming an operation gets that operation's extractor answer, turned into an event or a missing-key error |
| `ValidateInput.MissingOperationConsultsNothing` | functions/validate_input/app.py:31 | without `operation` the result does not depend on the library at all: it is `MissingRequiredInput("operation")` |
| `ValidateInput.DeployConsultsOnlyDeployExtractor` | functions/validate_input/app.py:31-33 | for a DEPLOY request, replacing the update and delete extractors does not change the result |
| `ValidateInput.UpdateConsultsOnlyUpdateExtractor` | functions/validate_input/app.py:35-37 | for an UPDATE request (distinct tags), replacing the deploy and delete extractors does not change the result |
| `ValidateInput.DeleteConsultsOnlyDeleteExtractor` | functions/validate_input/app.py:39-41 | for a DELETE request (distinct tags), replacing the deploy and update extractors does not change the result |
| `ValidateInput.UnsupportedConsultsNoExtractor` | functions/validate_input/app.py:43-47 | an unsupported operation yields `WorkloadOperationNotSupported` with its value, whatever the extractors; it is never translated into `MissingRequiredInput` (taking `WorkloadOperationNotSupported` not to be a `KeyError`) |
| `ValidateInput.RaisedMessage` | functions/validate_input/app.py:43-50 | an error outcome has an exception text and an event has none. The missing-input text reads back as exactly its key. The unsupported text reads back as exactly the rendered value, and never as a missing-key text |
| `Messages.MissingInputMessage` | functions/validate_input/app.py:48-50 | the missing-input text is fixed wording around the key, with the key verbatim in between; `MissingKeyOfInverts` and `MessagesDistinct` state what follows from it |
| `Messages.NotSupportedMessage` | functions/validate_input/app.py:43-45 | the unsupported-operation text is the value verbatim followed by fixed wording; `UnsupportedValueOfInverts` and `MessagesDistinct` state what follows from it |
| `Messages.MissingKeyOf` | functions/validate_input/app.py:48-50 | a text read as naming key k is exactly the missing-input text for k |
| `Messages.UnsupportedValueOf` | functions/validate_input/app.py:43-45 | a text read as naming value v is exactly the "v is not a supported operation." text |
| `Messages.MissingKeyOfInverts` | functions/validate_input/app.py:48-50 | the missing-input text for k reads back as naming exactly k |
| `Messages.UnsupportedValueOfInverts` | functions/validate_input/app.py:43-45 | the unsupported-operation text for v reads back as carrying exactly v |
| `Messages.MessagesDistinct` | functions/validate_input/app.py:44-49 | no missing-input text equals any unsupported-operation text |
| `Messages.UnsupportedNeverReadsAsMissing` | functions/validate_input/app.py:43-49 | an unsupported-operation text is never read as naming a missing key |
| `Schema.ExtractRequired` | functions/validate_input/app.py:32-40 | extraction succeeds exactly when every required key is present, and then returns the request's own values for exactly those keys. Otherwise it names a required key that is absent and is the first absent one in list order |
| `Schema.CompleteRequestYieldsItsValues` | functions/validate_input/app.py:31-41 | with schema extractors, a request naming an operation and holding all its keys gets that operation's event holding exactly the request's values for those keys |
| `Schema.OneMissingKeyIsNamed` | functions/validate_input/app.py:31-50 | with schema extractors, a request lacking only one required key k of its operation is rejected with `MissingRequiredInput(k)` |
| `Schema.AnyMissingKeyIsNamed` | functions/validate_input/app.py:31-50 | with schema extractors, a request lacking any required key is rejected naming a required key that is absent, never with a partial event |

## Left out

- Log level configuration from the `LOG_LEVEL` environment variable (app.py line 11): environment I/O.
- X-Ray recorder configuration and `patch_all()` (app.py lines 13-14): tracing instrumentation over a foreign SDK.
- The `stax_orchestrator` library is not part of this model. Its `StaxOrchestrator()` constructor, `WorkloadOperation` values, the required-key lists of `get_*_workload_kwargs` and the three event classes are not shown. The tags and extractors are parameters. An event carries the extractor's keyword arguments, which assumes its `__dict__` holds exactly them.
- Extractors raising anything other than `KeyError`: the library is not shown. Such errors would leave the handler untranslated, and the model has no outcome for them.
- ValidateInput.EventFor: the event constructors are assumed never to fail, so building an event always succeeds. The constructors are called inside the `try`, so a `KeyError` raised by one would become `MissingRequiredInput`; the model does not capture that case.
- ValidateInput.UnsupportedConsultsNoExtractor: assumes `WorkloadOperationNotSupported` is not a subclass of `KeyError`. It is raised inside the `try`, so if it were one, it would be reported as `MissingRequiredInput`.
- The Lambda context argument and the serialisation of the returned dictionary by the hosting runtime.
- Messages.MissingInputMessage: renders the key verbatim, whereas Python formats the `KeyError` as the key's `repr` (quoted). The outcome itself carries the key value.
- ValidateInput.RaisedMessage: Python's `str` of the operation value is the parameter `render`, because the rendering of arbitrary values belongs to the runtime.
- Schema: the library's own extraction order is not known. The key-list extractors read keys in list order, so when several keys are missing they report the first one in the list.

# collective.webhook core, modelled in Dafny

collective.webhook adds a "webhook" action to Plone content rules. When a rule
fires, the action loads its JSON payload template, interpolates every string in
it against the object the event is about, and joins a two-phase-commit
participant (a `DataManager`) to the current transaction. Only when that
transaction finishes committing does the participant call `submit`, which hands
one HTTP call (`POST` with a JSON body, `POST` with form data, or `GET` with query
parameters) to a single-worker executor. A failure at that point is logged,
never raised.

This project models that core:

- `pybuiltins.dfy` (module `PyBuiltins`): Python exceptions and the outcome of a
  call that may raise, `str.strip` (whitespace, and `'"'`) and `str(int)`.
- `json.dfy` (module `JsonValues`): the JSON values `json.loads` yields, with a
  dict kept as its members in insertion order; `Shape` (the value with the text
  of its strings erased) and `Leaves` (its string leaves in order).
- `datamanager.dfy` (module `DataManagers`): class `DataManager` with its
  callbacks as `const` fields and a ghost `trace` of the callbacks it invokes;
  `Step`/`Run` give the invocations a sequence of coordinator requests causes.
- `webhook.dfy` (module `Webhook`): the method vocabulary, `validate_payload` and
  `PayloadValidator.validate`, `interpolate`, `submit` (a pure `SubmitSpec` and
  the in-place `Submit`, `RewriteForForm`, `RewriteMembers` and `RewriteItems`
  methods proved against it), the
  executor queue, the transaction's list of participants, and
  `WebhookActionExecutor.__call__` as `Execute`.

`json.loads`, `json.dumps` and the string interpolator are parameters
(`loads: string -> Outcome<Json>`, `dumps: Json -> string`,
`interpolator: string -> string`). A callback of the participant is a function
from its arguments to an `Outcome` (returned value or raised exception).

Behaviour of the code worth knowing:

- An empty template (`""`) is rejected by validation, because `json.loads("")`
  raises. A missing template (`None`) passes validation, but then `__call__`
  raises `TypeError` (`MissingTemplateValidatesButFailsExecution`).
- `abort`/`tpc_abort` let an exception raised by the abort callback propagate.
- `tpc_vote` returns whatever the vote callback returns.
- The timeout is the constant 120 (`WebhookActionExecutor.timeout`,
  webhook.py:154).

## Model

| member | source | states |
|---|---|---|
| `PyBuiltins.Strip` | src/collective/webhook/actions/webhook.py:121 | `str.strip`: the result has no dropped character at either end and is no longer than the input |
| `PyBuiltins.StripInfix` | src/collective/webhook/actions/webhook.py:121 | what strip removes is a run of dropped characters at the front and one at the back; the result is the infix between them |
| `PyBuiltins.StripUnique` | src/collective/webhook/actions/webhook.py:139 | any split into dropped characters, a middle with kept characters at both ends, and dropped characters is exactly the one strip returns |
| `PyBuiltins.StripIdempotent` | src/collective/webhook/actions/webhook.py:121 | stripping a stripped string changes nothing |
| `PyBuiltins.IsSpace` | src/collective/webhook/actions/webhook.py:121 | the characters `str.strip()` removes, as `str.isspace` defines them; among ASCII exactly space, tab, newline, carriage return, vertical tab, form feed and the four separators 0x1C-0x1F; never `"` |
| `PyBuiltins.IsException` | src/collective/webhook/actions/datamanager.py:54 | `except Exception` catches every exception kind that can reach it except those deriving only from BaseException |
| `PyBuiltins.Decimal` | src/collective/webhook/actions/datamanager.py:29 | `str(n)` is a non-empty string of digits with no leading zero |
| `PyBuiltins.DecimalRoundTrip` | src/collective/webhook/actions/datamanager.py:29 | reading back the digits of `str(n)` gives `n` |
| `PyBuiltins.DecimalInjective` | src/collective/webhook/actions/datamanager.py:29 | distinct integers have distinct decimal texts |
| `Webhook.VocabularyIsSubmitMethods` | src/collective/webhook/actions/webhook.py:38-42 | the method vocabulary holds exactly GET, POST and FORM, the values `submit` dispatches on |
| `Webhook.ValidatePayload` | src/collective/webhook/actions/webhook.py:45-55 | accepts None or text that loads; a ValueError or TypeError from the parser becomes a ValidationError carrying its message; any other exception propagates |
| `Webhook.ValidatorValidate` | src/collective/webhook/actions/webhook.py:89-94 | the same acceptance rule, failing with Invalid wrapping the parser's exception |
| `Webhook.ValidatorsAgree` | src/collective/webhook/actions/webhook.py:45-94 | the schema constraint and the form validator accept the same values and report the same message |
| `Webhook.Interpolate` | src/collective/webhook/actions/webhook.py:118-126 | a string becomes a string with no surrounding whitespace, a list a list of the same length, a dict a dict with the same keys in order, and anything else is returned unchanged |
| `Webhook.InterpolateItems` | src/collective/webhook/actions/webhook.py:122-123 | a list maps to a list of the same length, element by element in order |
| `Webhook.InterpolateMembers` | src/collective/webhook/actions/webhook.py:124-125 | a dict maps to a dict with the same keys in the same order, each value interpolated on its own |
| `Webhook.InterpolatePreservesShape` | src/collective/webhook/actions/webhook.py:118-126 | interpolation keeps the structure, the dict keys and every non-string leaf |
| `Webhook.InterpolateLeaves` | src/collective/webhook/actions/webhook.py:120-121 | the string leaves of the result are those of the input, in order, each replaced by `interpolator(s).strip()` |
| `Webhook.InterpolatedLeavesStripped` | src/collective/webhook/actions/webhook.py:121 | no interpolated string leaf has leading or trailing whitespace |
| `Webhook.InterpolateKeepsStringFree` | src/collective/webhook/actions/webhook.py:126 | a value with no string leaf (numbers, booleans, None, and lists and dicts of them) comes back unchanged |
| `Webhook.FormValue` | src/collective/webhook/actions/webhook.py:139 | `json.dumps(v).strip('"')` is a string with no `"` at either end |
| `Webhook.FormMembers` | src/collective/webhook/actions/webhook.py:138-139 | the rewrite of a dict keeps its keys in order and makes every value the quote-stripped JSON text of the old one |
| `Webhook.RebuiltDictsKeepDistinctKeys` | src/collective/webhook/actions/webhook.py:125 | the dict interpolation builds, and the dict the form rewrite leaves, have distinct keys exactly when the input's keys were distinct |
| `Webhook.IndexOf` | src/collective/webhook/actions/webhook.py:139 | a list is indexed by an int or bool in [-n, n), negative indices counting from the end; other ints are out of range; anything else is a TypeError |
| `Webhook.ListLoop` | src/collective/webhook/actions/webhook.py:138-139 | iterating a list while rewriting it keeps its length, and every element is either untouched or a quote-stripped string |
| `Webhook.FormLoop` | src/collective/webhook/actions/webhook.py:137-143 | the rewrite loop on each kind of payload: a dict completes with its keys kept and quote-free values; a list keeps its length; an empty string completes unchanged; other strings, None, booleans and numbers fail with TypeError unchanged |
| `Webhook.SubmitSpec` | src/collective/webhook/actions/webhook.py:132-146 | at most one call is enqueued, and one is exactly when the method is in the vocabulary and the rewrite completed; it carries the url, the timeout and the payload as left; POST enqueues `post(json=payload)` unchanged; FORM and GET enqueue `post(data=)`/`get(params=)` of the rewritten payload; any other method does nothing |
| `Webhook.SubmitFormOrGetOnDict` | src/collective/webhook/actions/webhook.py:137-144 | FORM or GET on a dict keeps its keys, makes every value quote-free JSON text, and enqueues exactly one call with that dict |
| `Webhook.Executor.constructor` | src/collective/webhook/actions/webhook.py:129 | the shared executor has one worker and an empty queue |
| `Webhook.Executor.Enqueue` | src/collective/webhook/actions/webhook.py:136 | submitting to the executor appends the call to its queue |
| `Webhook.RewriteForForm` | src/collective/webhook/actions/webhook.py:138-143 | the `for key in payload` loop, run in place on the payload object, leaves it as `FormLoop` says and reports how the loop ended |
| `Webhook.RewriteMembers` | src/collective/webhook/actions/webhook.py:138-139 | the loop over a dict, run in place, leaves the payload holding exactly `FormMembers` of the old members |
| `Webhook.RewriteItems` | src/collective/webhook/actions/webhook.py:138-139 | the loop over a list, run in place and reading each key back from the list as it is being rewritten, leaves the payload and reports the ending that `ListLoop` gives |
| `Webhook.Submit` | src/collective/webhook/actions/webhook.py:132-146 | `submit` rewrites the payload object and extends the executor's queue exactly as `SubmitSpec` says, and reports how it ended |
| `Webhook.LoadTemplate` | src/collective/webhook/actions/webhook.py:167 | loading a missing template raises TypeError; otherwise it is `json.loads` of the text |
| `Webhook.BoundSubmit` | src/collective/webhook/actions/webhook.py:170 | `functools.partial(submit, …)` called with no further arguments has `submit`'s effect, except that a list rewrite that raises IndexError makes the call raise IndexError; called with extra arguments it raises TypeError |
| `Webhook.Transaction.Join` | src/collective/webhook/actions/webhook.py:168 | joining appends the participant to the transaction's resources |
| `Webhook.Execute` | src/collective/webhook/actions/webhook.py:161-173 | if the template does not load, that exception propagates and nothing is joined; otherwise exactly one fresh participant is joined whose callable is `submit` bound to the method, the url, the interpolated payload and timeout 120, with no arguments, no vote and no abort callback, and the result is True |
| `Webhook.MissingTemplateValidatesButFailsExecution` | src/collective/webhook/actions/webhook.py:167 | a missing template passes validation yet makes executing the action raise TypeError |
| `Webhook.ValidatedTemplateLoads` | src/collective/webhook/actions/webhook.py:45-55 | a template text that passed validation loads when the action executes |
| `Webhook.JoinedParticipantDispatchesOnCommitOnly` | src/collective/webhook/actions/webhook.py:168-172 | the joined participant runs `submit` exactly once over a commit run, which for POST, or FORM/GET on a dict, enqueues exactly one call to the configured url with timeout 120, carrying the payload as left after the rewrite (for POST, the interpolated payload unchanged); a run that aborts before `tpc_finish` never runs it |
| `DataManagers.DataManager.constructor` | src/collective/webhook/actions/datamanager.py:13-17 | stores callable, args, vote and onAbort unchanged (as constants no later method can change) and starts with an empty trace |
| `DataManagers.DataManager.Step` | src/collective/webhook/actions/datamanager.py:21-58 | one request invokes at most one callback: the callable exactly on `tpc_finish`, the vote callback exactly on `tpc_vote` when set, the abort callback exactly on `abort`/`tpc_abort` when set; the abort callback gets no arguments, the others the stored ones |
| `DataManagers.DataManager.Run` | src/collective/webhook/actions/datamanager.py:21-58 | a sequence of requests invokes at most one callback per request, each with the stored arguments, or with none for the abort callback |
| `DataManagers.DataManager.StepCount` | src/collective/webhook/actions/datamanager.py:21-58 | of all requests only `tpc_finish` invokes the callable, only `tpc_vote` the vote callback (when set), only `abort`/`tpc_abort` the abort callback (when set) |
| `DataManagers.DataManager.RunCounts` | src/collective/webhook/actions/datamanager.py:21-58 | over any sequence of requests the callable runs once per `tpc_finish`, the vote callback once per `tpc_vote` and the abort callback once per `abort` or `tpc_abort`, when they are set |
| `DataManagers.DataManager.CommitRunInvokesCallableOnce` | src/collective/webhook/actions/datamanager.py:44-56 | `tpc_begin`, `tpc_vote`, `tpc_finish` invoke the callable exactly once, last, with the stored arguments, and the abort callback never |
| `DataManagers.DataManager.AbortedRunNeverInvokesCallable` | src/collective/webhook/actions/datamanager.py:24-26 | a run without `tpc_finish` that ends in `abort` never invokes the callable, and invokes the abort callback exactly when one is set |
| `DataManagers.DataManager.Commit` | src/collective/webhook/actions/datamanager.py:21-22 | returns without raising; it may change nothing, so it invokes no callback |
| `DataManagers.DataManager.Abort` | src/collective/webhook/actions/datamanager.py:24-26 | invokes the abort callback with no arguments exactly when one is set, and returns or raises what it does |
| `DataManagers.DataManager.SortKey` | src/collective/webhook/actions/datamanager.py:28-29 | the key is `~` followed by the decimal digits of the participant's identity, which can be read back from it |
| `DataManagers.SortKeysDistinct` | src/collective/webhook/actions/datamanager.py:28-29 | participants with different identities have different sort keys |
| `DataManagers.DataManager.AbortSub` | src/collective/webhook/actions/datamanager.py:32-34 | returns without raising and changes nothing |
| `DataManagers.DataManager.CommitSub` | src/collective/webhook/actions/datamanager.py:36 | the same as `abort_sub` |
| `DataManagers.DataManager.BeforeCompletion` | src/collective/webhook/actions/datamanager.py:38-40 | returns without raising and changes nothing |
| `DataManagers.DataManager.AfterCompletion` | src/collective/webhook/actions/datamanager.py:42 | the same as `beforeCompletion` |
| `DataManagers.DataManager.TpcBegin` | src/collective/webhook/actions/datamanager.py:44-45 | beginning a subtransaction fails with AssertionError; otherwise it returns and changes nothing |
| `DataManagers.DataManager.TpcVote` | src/collective/webhook/actions/datamanager.py:47-49 | without a vote callback returns None and invokes nothing; otherwise invokes it once with the stored arguments and returns or raises what it does |
| `DataManagers.DataManager.TpcFinish` | src/collective/webhook/actions/datamanager.py:51-56 | invokes the callable exactly once with the stored arguments and never raises an Exception: one the callable raises is logged instead |
| `DataManagers.DataManager.TpcAbort` | src/collective/webhook/actions/datamanager.py:58 | the same as `abort` |

## Left out

- Threads and HTTP: the executor is modelled as its queue of calls; running them on the worker thread, the `requests` calls and their network failures are not modelled.
- The `r` argument of `submit` (always the `requests` module held in `_v_requests`) is not recorded in the queued calls; a call records whether it goes to `r.post` or `r.get`.
- `json.loads` and `json.dumps` are parameters; their internals (including floats, which are kept only as their text, and a parser's recursion limit) are not modelled.
- The string interpolator (`IStringInterpolator` and the substitution adapters in `adapters.py`) is a parameter from string to string.
- Transaction machinery: `transaction.get()`, `transaction.manager`, the participant's `transaction_manager` attribute and `savepoint` (NoRollbackSavepoint) belong to the external coordinator. The transaction is modelled only as its list of joined participants, and the `txn` argument every participant method receives (and ignores) is dropped.
- Logging: what `submit` and `tpc_finish` log is represented only by the outcome they report (`TypeErrorLogged`, the `logged` out-parameter).
- Forms and schema wiring: the add and edit forms, the `IWebhookAction` schema, `WebhookAction.summary` and the page templates are UI.
- Exception messages are placeholders; only the exception kind and the carried message are modelled.
- `DataManager.Abort`: `if self.onAbort:` tests truthiness; the model treats a set callback as true, which holds for every Python function.
- `Webhook.Submit`: a dict is iterated by position, which equals lookup by key when its keys are distinct (`DistinctKeys`, which the rebuilding operations keep, `RebuiltDictsKeepDistinctKeys`); a member list with a repeated key, which no `json.loads` result has, is accepted and rewritten position by position; the queued call holds the rewritten dict as a value, so later aliasing of that one dict object is not modelled.
- `Webhook.Execute`: the participant's callable is a function that returns `submit`'s effect (the rewritten payload and the queued call) instead of performing it; `Submit` is proved to perform exactly that effect.
- `Webhook.JoinedParticipantDispatchesOnCommitOnly`: only POST and FORM/GET on a dict are covered; for lists and strings `SubmitSpec` states the outcome.

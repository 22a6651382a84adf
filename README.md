# AutoGuard request/response protocol, in Dafny

This project models the core of the AutoGuard integration of NeMo Guardrails
(`nemoguardrails/library/autoguard/actions.py`). AutoGuard is an external
moderation service. Before the pipeline handles a user message, or before it
emits a bot message, one of the AutoGuard actions runs. It builds a task
configuration table saying which moderation tasks are switched on and how
they are tuned. It posts the text and that table to the service. It then
reads the service's newline-delimited JSON answer and turns it into a verdict.

The model has five modules:

- `Types` (types.dfy): `Option`, `Result` and the exceptions the actions
  raise. `ValueError` carries its exact message. `KeyError`,
  `JsonDecodeError` and `TypeError` come from the Python runtime. There are
  also JSON values (including `null`, which a PII scan returns verbatim and
  the fact-check scan rejects with `TypeError`), settings records, the configuration table
  and the matching-score table.
- `Text` (text.dfy): `sep.join(items)` and `text.split(sep)` for a
  one-character separator, with the round trip between them. Also the
  decimal rendering of a status code, with its inverse.
- `Config` (config.dfy): the `DEFAULT_CONFIG` and `GUARDRAIL_RESPONSE_TEXT`
  tables, the record each builder writes, and `GenericRun`.
  - `GenericRun` gives the effect of the generic builder's loop as a function
    of the table the loop starts from.
  - Lemmas about `GenericRun` cover which entries the loop activates, which
    it only merges into, which it leaves alone, and when it raises.
  - Further lemmas show that activations persist into later calls.
- `Scan` (scan.dfy): the four first-match scans over the streamed lines. Each
  scan is a `while` loop with an early return. Each is proved equal to a
  specification function built on `FirstWhere`. Lemmas then state the
  first-match rule, that later records are ignored, and how blank lines are
  treated.
- `Actions` (actions.dfy): the class `AutoGuard` and the fact-check calls.
  - `AutoGuard`'s one field, `defaultConfig`, is the module-level table. All
    builders write into this one table rather than into a copy, as the source
    does. So what one call switches on is still on when the next call builds
    its request.
  - `AutoGuard`'s methods are the three builders, the three `*_infer` calls
    and the input, toxicity-input and PII actions.
  - The fact-check call and action are module-level methods, because they do
    not touch the table.
  - Each call returns the request it would send, or `None` when it raises
    before sending. The service's answer (status code, body text, parsed
    lines) is a parameter.

Consequences of the shared table that the model proves:

- After a toxicity or PII check, every later generic input check still sends
  that task in `DETECT` mode (`Config.DedicatedRecordPersists`).
- A PII check also drops the default `mask` flag and entity list for good
  (`Config.PiiRecord`).
- The override merge of the generic builder applies to every listed task,
  including the three with dedicated builders (actions.py:98-99). It raises
  `KeyError` exactly when an override is given and `factcheck` is listed,
  because no builder ever creates a `factcheck` entry
  (`Config.GenericRunFromWellFormed`).

## Model

| member | source | states |
|---|---|---|
| `Config.DefaultConfig` | nemoguardrails/library/autoguard/actions.py:29-76 | Every entry of the initial table has mode OFF. The PII entry also masks and lists the 21 default entity types. There is no `factcheck` entry. The only entries without a description are `pii_fast` and `intellectual_property`. |
| `Config.GenericRecord` | nemoguardrails/library/autoguard/actions.py:95-99 | A generically activated task gets exactly the keys mode, the override's keys, and `matching_scores` when thresholds are configured. Mode is DETECT unless the override sets it. The override wins over the thresholds. |
| `Config.ToxicityRecord` | nemoguardrails/library/autoguard/actions.py:135-141 | The toxicity record is DETECT plus the override. The thresholds are attached after the merge, so they win over an override `matching_scores`. Without thresholds, that key is there only if the override sets it. |
| `Config.PiiRecord` | nemoguardrails/library/autoguard/actions.py:184-191 | The PII record always carries the caller's entity types and contextual rules, whatever the override says. It keeps `mask` only if the override sets it. Thresholds are attached only when the table is non-empty. |
| `Config.GenericRun` | nemoguardrails/library/autoguard/actions.py:93-99 | The loop as a function of its starting table. Without an override it never raises. A raise names a listed dedicated task that has no entry. The `GenericRun*` lemmas below state what the loop does to every entry. |
| `Config.GenericRunFrame` | nemoguardrails/library/autoguard/actions.py:93-99 | Entries of tasks not listed keep their membership and their record. |
| `Config.GenericRunDedicatedKeys` | nemoguardrails/library/autoguard/actions.py:94-99 | The generic loop never adds or removes the entry of `text_toxicity_extraction`, `pii_fast` or `factcheck`. |
| `Config.GenericRunStops` | nemoguardrails/library/autoguard/actions.py:93-99 | Once a merge has raised, the remaining listed tasks have no effect. The changes already made stay. |
| `Config.GenericRunFailure` | nemoguardrails/library/autoguard/actions.py:98-99 | The loop raises `KeyError` if and only if some listed task is a dedicated task without an entry and an override is given. It names such a task. |
| `Config.GenericRunActivates` | nemoguardrails/library/autoguard/actions.py:93-99 | After a loop that did not raise, every listed task outside the dedicated three holds exactly the generic record. A new task name becomes a new key. |
| `Config.GenericRunMergesDedicated` | nemoguardrails/library/autoguard/actions.py:94-99 | After a loop that did not raise, a listed dedicated task keeps its old record with the override merged in. Listing it twice merges only once in effect. |
| `Config.GenericRunFromWellFormed` | nemoguardrails/library/autoguard/actions.py:91-99 | From any WellFormed table (toxicity and PII entries present, no `factcheck` entry), the loop keeps it WellFormed. It raises exactly when an override is given and `factcheck` is listed. |
| `Config.ActivationPersists` | nemoguardrails/library/autoguard/actions.py:91-95 | A task activated by one generic call is still active, with that call's record, after a later call that does not list it. |
| `Config.DedicatedRecordPersists` | nemoguardrails/library/autoguard/actions.py:133-135 | A record written by the toxicity or PII builder survives every later generic call made without an override, unchanged. |
| `Text.Join` | nemoguardrails/library/autoguard/actions.py:164 | `" ".join`: the empty list gives the empty text and one item gives that item. `Text.Split` and `Text.SplitJoin` are its inverse. |
| `Text.Split` | nemoguardrails/library/autoguard/actions.py:350-351 | Splitting on the newline gives at least one piece and no piece contains a newline. Joining the pieces gives the text back. |
| `Text.SplitJoin` | nemoguardrails/library/autoguard/actions.py:164 | Joining at least one separator-free piece and splitting again gives the pieces back. |
| `Text.DecimalRoundTrip` | nemoguardrails/library/autoguard/actions.py:110 | The rendered status code reads back as the same status code. |
| `Scan.FirstWhere` | nemoguardrails/library/autoguard/actions.py:113-119 | The returned position is the first line satisfying the predicate, or the stream length when no line does. |
| `Scan.Describe` | nemoguardrails/library/autoguard/actions.py:118 | A guarded task's description is its table entry. A task without one raises `KeyError` with that task. |
| `Scan.GenericVerdictOf` | nemoguardrails/library/autoguard/actions.py:113-119 | The generic verdict is (False, None) if and only if no record in the stream is guarded. |
| `Scan.GenericFirstGuarded` | nemoguardrails/library/autoguard/actions.py:113-119 | The first guarded record decides the generic verdict, whatever its task. |
| `Scan.GenericConcat` | nemoguardrails/library/autoguard/actions.py:113-119 | Lines after a guarded record never change the generic verdict. Without one, the verdict comes from what follows. |
| `Scan.GenericSkipsBlank` | nemoguardrails/library/autoguard/actions.py:114-115 | Inserting a blank line anywhere does not change the generic verdict. |
| `Scan.ToxicityOf` | nemoguardrails/library/autoguard/actions.py:160-165 | The toxicity record yields its own guarded flag and "Toxicity in text". It raises `KeyError` when `output_data` is missing. |
| `Scan.ToxicityPhrasesRecoverable` | nemoguardrails/library/autoguard/actions.py:164 | Splitting the reported phrase string on spaces gives back the extracted phrases, when none of them contains a space. |
| `Scan.ToxicityVerdictOf` | nemoguardrails/library/autoguard/actions.py:156-166 | The toxicity verdict is (False, None) if and only if no toxicity record arrives. |
| `Scan.ToxicityFirstReport` | nemoguardrails/library/autoguard/actions.py:156-166 | The first toxicity record decides the verdict. Earlier records of other tasks are ignored even when guarded. |
| `Scan.PiiOf` | nemoguardrails/library/autoguard/actions.py:209-210 | The PII record yields its guarded flag and its response payload verbatim. It raises `KeyError` when `response` is missing. |
| `Scan.PiiVerdictOf` | nemoguardrails/library/autoguard/actions.py:205-211 | The PII verdict is (False, None) if and only if no PII record arrives. |
| `Scan.PiiFirstReport` | nemoguardrails/library/autoguard/actions.py:205-211 | The first PII record decides the verdict. Earlier records of other tasks are ignored even when guarded. |
| `Scan.AfterLabel` | nemoguardrails/library/autoguard/actions.py:243 | The score text is what follows the 17-character label. It is empty when the response is no longer than the label. |
| `Scan.ScoreOf` | nemoguardrails/library/autoguard/actions.py:243 | The score is the float conversion of the text after the label. A failed conversion raises with that text. A non-string response is a `TypeError`. A missing one is a `KeyError`. |
| `Scan.FactcheckScoreOf` | nemoguardrails/library/autoguard/actions.py:240-244 | With no fact-check record and no blank line, the score is 1.0. |
| `Scan.FactcheckFirstStop` | nemoguardrails/library/autoguard/actions.py:240-244 | The first fact-check record gives the score, unless a blank line comes first, which is a JSON decoding error. |
| `Scan.FactcheckBlankFails` | nemoguardrails/library/autoguard/actions.py:240-241 | One leading blank line turns a stream that would score 1.0 into a JSON decoding error. |
| `Scan.ScanGeneric` | nemoguardrails/library/autoguard/actions.py:113-119 | The loop with early return computes the generic verdict. |
| `Scan.ScanToxicity` | nemoguardrails/library/autoguard/actions.py:156-166 | The loop with early return computes the toxicity verdict. |
| `Scan.ScanPii` | nemoguardrails/library/autoguard/actions.py:205-211 | The loop with early return computes the PII verdict. |
| `Scan.ScanFactcheck` | nemoguardrails/library/autoguard/actions.py:240-244 | The loop with early return computes the fact-check score. |
| `Actions.ServiceFailure` | nemoguardrails/library/autoguard/actions.py:109-111 | The non-200 failure is a `ValueError`; its contract is weaker than the message (see the `Actions.ServiceFailure` line under Left out), and `Actions.ServiceFailureDetermines` states what the message carries. |
| `Actions.Answered` | nemoguardrails/library/autoguard/actions.py:108-112 | A status other than 200 raises the service failure before any line is read; status 200 gives what the scan makes of the lines. |
| `Actions.NoEndpoint` | nemoguardrails/library/autoguard/actions.py:255 | `not url`: an endpoint is missing exactly when it is absent or the empty string (also lines 274, 313 and 348). |
| `Actions.ServiceFailureDetermines` | nemoguardrails/library/autoguard/actions.py:108-112 | The service-failure message determines both the status code and the body text it reports. |
| `Actions.NormalizeDocuments` | nemoguardrails/library/autoguard/actions.py:343-359 | A text is split into its lines and is always accepted, and the lines join back to the text. A list is accepted if and only if it is non-empty. Anything else is rejected with the documents message. |
| `Actions.FactcheckInfer` | nemoguardrails/library/autoguard/actions.py:214-244 | A missing key raises before anything is sent. Otherwise the request carries the documents and the fact-check thresholds. A non-200 status raises. Otherwise the result is the fact-check scan. |
| `Actions.FactcheckApi` | nemoguardrails/library/autoguard/actions.py:333-359 | The key, then the endpoint, then the documents are checked, each failing before any request. Then the call runs with the normalized documents. |
| `Actions.AutoGuard.constructor` | nemoguardrails/library/autoguard/actions.py:40-76 | The shared table starts as the default table. |
| `Actions.AutoGuard.ActivateGeneric` | nemoguardrails/library/autoguard/actions.py:91-99 | The loop leaves the shared table, and the name it raised on if any, exactly as `GenericRun` of the old table says. |
| `Actions.AutoGuard.ActivateToxicity` | nemoguardrails/library/autoguard/actions.py:133-141 | Only the toxicity entry of the shared table changes, to the toxicity record. |
| `Actions.AutoGuard.ActivatePii` | nemoguardrails/library/autoguard/actions.py:182-191 | Only the PII entry of the shared table changes, to the PII record. |
| `Actions.AutoGuard.Infer` | nemoguardrails/library/autoguard/actions.py:79-119 | A missing key raises with the table untouched. Otherwise the table is updated by the generic loop. It raises `KeyError('factcheck')` with nothing sent exactly when an override is given and `factcheck` is listed. Otherwise the whole table is sent, and the result is the service failure or the generic verdict. |
| `Actions.AutoGuard.ToxicityInfer` | nemoguardrails/library/autoguard/actions.py:122-166 | A missing key raises with the table untouched. Otherwise the toxicity entry is replaced and the whole table is sent. The result is the service failure or the toxicity verdict. |
| `Actions.AutoGuard.PiiInfer` | nemoguardrails/library/autoguard/actions.py:169-211 | A missing key raises with the table untouched. Otherwise the PII entry is replaced and the whole table is sent. The result is the service failure or the PII verdict. |
| `Actions.AutoGuard.InputApi` | nemoguardrails/library/autoguard/actions.py:247-263 | A missing endpoint, then an empty guardrail list, then a missing key raise before any change or request. Otherwise the generic call runs without an override, so the build loop never raises `KeyError`. The result is the service failure or the generic verdict, and that verdict can still be the description lookup's `KeyError`. |
| `Actions.AutoGuard.ToxicityInputApi` | nemoguardrails/library/autoguard/actions.py:304-317 | A missing toxicity endpoint raises before any change or request. Otherwise the toxicity call runs without an override. |
| `Actions.AutoGuard.PiiApi` | nemoguardrails/library/autoguard/actions.py:266-282 | A missing endpoint raises before any change or request. Otherwise the PII call runs with the configured entity types and rules and no override. |

## Left out

- The HTTP exchange is not modelled: the aiohttp session, the POST, the `x-api-key` header and `await response.text()`. A call returns the request it would send, and the service's status, body text and lines are given as a `Reply`.
- `os.environ.get("AUTOGUARD_API_KEY")` is not modelled; the key is an `Option<string>` parameter.
- `json.loads` and `line.strip()` are not modelled. Lines arrive already parsed as `Blank` or `Rec`. A non-blank line that is not JSON, and a record without `task` or `guarded`, are not modelled. `guarded` is a boolean rather than any JSON value: the generic scan reads it for its truth value, and the toxicity and PII scans return it verbatim (actions.py:162, 210), so a non-boolean flag returned as it is cannot be expressed.
- `float(...)` is not modelled. The conversion is a parameter `parse` that returns `None` where `float` raises.
- Async execution, the `@action()` decorators, the `LLMTaskManager` configuration lookups and logging are not modelled. The actions take the configured endpoint, guardrails, thresholds, entities and rules directly.
- Concurrent calls interleaving on the shared table are not modelled. Calls on `AutoGuard` are sequential.
- `autoguard_output_api` (actions.py:285-301) is not modelled separately. It performs `InputApi`'s steps with the bot message as the prompt, and it reads the input rail's guardrail list.
- `autoguard_toxicity_output_api` (actions.py:320-330) is not modelled. With a toxicity endpoint configured, the call on line 330 raises `TypeError` because `matching_scores` is missing. Without one, the endpoint `ValueError` of line 329 comes first.
- The Python objects stored in the table are not aliased in the model. The caller's entity list and threshold dictionaries are stored by value, so a later change to the caller's objects is not reflected.
- Dictionary key order, and with it the byte layout of the JSON request body, is not modelled.
- A `None` message from the context, and a `relevant_chunks` list whose elements are not strings, are not modelled.
- `Actions.ServiceFailure` states only that the failure is a `ValueError`. Its message text is pinned down by `Actions.ServiceFailureDetermines` rather than by its own contract.

# pyla-logger: the context-carrying logger, in Dafny

This project models the `Logger` class of pyla-logger (`src/logger.py`). The
class is a thin facade over a structured-logging backend. It owns one
mutable mapping of context fields. `add_context` merges new fields into that
mapping. Each of `debug`, `info`, `warning`, `error` and `critical` merges the
context into the call's keyword fields and forwards the event, the positional
arguments and the merged fields to the backend method of the same level.
When a call field and a context field share a name, the context value wins.

Files:

- `merge.dfy`, module `Merge`: Python's `dict.update` as the function
  `Update`, with its characterisation (`Overrides`) and the algebra the
  logger relies on: idempotence, the empty update, and successive updates
  (`UpdateAll`) with last-write-wins and disjoint-union lemmas.
- `logger.dfy`, module `Logging`: the `Logger` class with its `context`
  field and its methods, and a `Backend` class standing for the wrapped
  backend. The backend keeps only a ghost trace `calls` of the invocations it
  received, each a `Call(level, event, args, fields)`.
- `scenarios.dfy`, module `Scenarios`: client methods that replay the cases
  of `pyla_logger/tests/test_logger.py` and a few more scenarios, using the
  contracts of `Logger` and the `Merge` lemmas.

Modelling choices:

- Field names are strings and field values a type parameter `V`, standing for
  Python's `Any`. Positional arguments are a `seq<V>`, kept in order.
- The event is `Option<string>`; `None` is Python's default `event=None`.
- Both uses of `dict.update` in the source are the one function `Update`.
  `add_context` computes `Update(context, newValues)`, so new fields win.
  `_combine_with_context` computes `Update(values, context)`, so the context wins.
- `_combine_with_context` updates the caller's dictionary in place and
  returns `None`. Dafny maps are values, so `CombineWithContext` returns the
  updated mapping instead. Its body applies the update twice, as the source
  does, and its contract shows the result equals one update.
- The source defines no `exception` method, although the test file expects
  one. This model follows the source and leaves it out.

## Model

| member | source | states |
|---|---|---|
| `Merge.Update` | src/logger.py:28 | `dict.update`: the result holds the keys of both mappings; a key of the overriding mapping takes its value; every other key keeps its base value |
| `Merge.UpdateCharacterization` | src/logger.py:50-52 | a mapping is the base overridden by the overrides exactly when it equals `Update(base, overrides)`, so the merged fields are fully determined |
| `Merge.UpdateIdempotent` | src/logger.py:51-52 | applying the context update a second time, as the source does, changes nothing |
| `Merge.UpdateWithEmpty` | src/logger.py:50-52 | with an empty context the merged fields are exactly the caller's fields; adding fields to an empty context yields exactly those fields |
| `Merge.UpdateDisjointCommutes` | src/logger.py:27-28 | two `add_context` calls with disjoint keys give the same context in either order |
| `Merge.UpdateAll` | src/logger.py:27-28 | successive `add_context` calls never remove a key from the context |
| `Merge.UpdateAllKeys` | src/logger.py:27-28 | after successive `add_context` calls the context's keys are the original keys plus every supplied key, and no others |
| `Merge.UpdateAllLastWriteWins` | src/logger.py:27-28 | a key takes the value from the last `add_context` call that supplied it |
| `Merge.UpdateAllKeepsUnsupplied` | src/logger.py:27-28 | a context key that no later `add_context` call names keeps its value |
| `Merge.UpdateAllDisjointIsUnion` | src/logger.py:27-28 | `add_context` calls with pairwise disjoint keys accumulate to the union of all supplied fields |
| `Scenarios.AddContextMany` | src/logger.py:27-28 | successive `add_context` calls on a logger leave its context equal to `UpdateAll` of the old context and the supplied fields, which ties the `UpdateAll` lemmas to the class |
| `Logging.Logger.constructor` | src/logger.py:23-25 | the logger holds the backend it was given, by reference, and starts with an empty context |
| `Logging.Logger.AddContext` | src/logger.py:27-28 | the new context is the old one updated with the new fields; no key is lost; nothing reaches the backend |
| `Logging.Logger.CombineWithContext` | src/logger.py:50-52 | the double in-place update yields the caller's fields overridden by the context; the context is only read |
| `Logging.Logger.Debug` | src/logger.py:30-32 | exactly one call is appended to the backend trace: level debug, the same event, the same positional arguments in order, and the call's fields overridden by the context; the context is unchanged |
| `Logging.Logger.Info` | src/logger.py:34-36 | the same as `Debug`, at level info |
| `Logging.Logger.Warning` | src/logger.py:38-40 | the same as `Debug`, at level warning |
| `Logging.Logger.Error` | src/logger.py:42-44 | the same as `Debug`, at level error |
| `Logging.Logger.Critical` | src/logger.py:46-48 | the same as `Debug`, at level critical |

## Left out

- The `structlog.configure(...)` call (src/logger.py:6-19): it configures a foreign processor pipeline with timestamps, stack rendering and JSON output. It holds no logic of this class.
- The module-level default instance `logger = Logger(structlog.get_logger())` (src/logger.py:55): process wiring around a foreign call.
- What the backend does with a record, including formatting, output and any exception it raises. The wrapper neither catches nor changes such exceptions, and the model keeps only the ordered trace of calls the backend receives.
- An `exception(exc, event, ...)` method that adds `exc_info`: src/logger.py does not define one. Only the test file, which imports a module that is not part of this model, expects it.
- Python default arguments: every parameter is passed explicitly. An omitted event is `None`, and omitted positional or keyword arguments are an empty sequence or an empty map.
- Python's reserved parameter names: `**new_values` and `**kw` are bound after the named parameters, so `add_context(self=...)` raises `TypeError`, and a leveled call's `**kw` can never hold `event` or `self`: a keyword with one of those names binds the named parameter, which raises `TypeError` for `self=`, and for `event=` when the event is also passed by position (`info("m", event=v)`). The model accepts such field names. A context field named `event` is accepted by `add_context` in the source too, but every later leveled call then passes `event` both by position and inside the merged fields, which a backend whose level methods have an `event` parameter (structlog's bound loggers do) rejects with `TypeError`; the model instead records the call with `event` among its fields.
- Mutation of the caller's dictionary by `_combine_with_context`, and its `None` return value: the updated mapping is returned as a value. For the leveled methods this makes no difference, because Python builds a fresh `**kw` dictionary for every call.
- Dictionary insertion order and the dynamic types of field values: fields are an unordered `map`, and values are an opaque type parameter.
- Concurrent use of one logger: the source has no locking, and the model is sequential.

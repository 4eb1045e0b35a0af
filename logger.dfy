/**
 The context-carrying logging facade of src/logger.py. A `Logger` wraps a
 structured-logging backend and owns one mutable mapping of context fields;
 `AddContext` grows that mapping, and each leveled method folds it into the
 call's keyword fields (context values winning on a shared key) before
 forwarding the event, the positional arguments and the merged fields to the
 backend method of the same level.
 */
module Logging {
  import opened Merge

  datatype Option<T> = None | Some(value: T)

  /** The five levels the facade forwards, each to the backend method of the same name. */
  datatype Level = Debug | Info | Warning | Error | Critical

  /** One invocation of a backend logging method: which method was called, the
      event (Python's `None` when omitted), the positional arguments in order,
      and the keyword fields. */
  datatype Call<V> = Call(level: Level, event: Option<string>, args: seq<V>, fields: map<Field, V>)

  /**
   The wrapped structured-logging backend. What it does with a record
   (rendering, output, failures) is outside the model; all that is kept of
   it is the trace of the calls it has received, in order.
   */
  class Backend<V> {
    ghost var calls: seq<Call<V>>

    constructor ()
      ensures calls == []
    {
      calls := [];
    }

    method Debug(event: Option<string>, args: seq<V>, fields: map<Field, V>)
      modifies this
      ensures calls == old(calls) + [Call(Level.Debug, event, args, fields)]
    {
      calls := calls + [Call(Level.Debug, event, args, fields)];
    }

    method Info(event: Option<string>, args: seq<V>, fields: map<Field, V>)
      modifies this
      ensures calls == old(calls) + [Call(Level.Info, event, args, fields)]
    {
      calls := calls + [Call(Level.Info, event, args, fields)];
    }

    method Warning(event: Option<string>, args: seq<V>, fields: map<Field, V>)
      modifies this
      ensures calls == old(calls) + [Call(Level.Warning, event, args, fields)]
    {
      calls := calls + [Call(Level.Warning, event, args, fields)];
    }

    method Error(event: Option<string>, args: seq<V>, fields: map<Field, V>)
      modifies this
      ensures calls == old(calls) + [Call(Level.Error, event, args, fields)]
    {
      calls := calls + [Call(Level.Error, event, args, fields)];
    }

    method Critical(event: Option<string>, args: seq<V>, fields: map<Field, V>)
      modifies this
      ensures calls == old(calls) + [Call(Level.Critical, event, args, fields)]
    {
      calls := calls + [Call(Level.Critical, event, args, fields)];
    }
  }

  class Logger<V> {
    /** The backend, held by reference and never rebound. */
    const backend: Backend<V>
    /** The context fields merged into every emitted record. */
    var context: map<Field, V>

    /** Stores the backend as given and starts with an empty context. */
    constructor (backend: Backend<V>)
      ensures this.backend == backend
      ensures context == map[]
    {
      this.backend := backend;
      context := map[];
    }

    /** Merges `newValues` into the context; a key already present takes the
        new value, every other key keeps its old one, and no key is lost.
        Nothing is sent to the backend. */
    method AddContext(newValues: map<Field, V>)
      modifies this
      ensures context == Update(old(context), newValues)
      ensures old(context).Keys <= context.Keys
      ensures backend.calls == old(backend.calls)
    {
      context := Update(context, newValues);
    }

    /** The caller's per-call fields overridden by the context. The source
        applies the update twice in a row; the result is that of one update,
        and the context itself is left alone. */
    method CombineWithContext(values: map<Field, V>) returns (combined: map<Field, V>)
      ensures combined == Update(values, context)
    {
      combined := Update(values, context);
      combined := Update(combined, context);
      UpdateIdempotent(values, context);
    }

    /** Forwards the event, the positional arguments and `kw` overridden by the
        context to the backend's method of the same level. */
    method Debug(event: Option<string>, args: seq<V>, kw: map<Field, V>)
      modifies backend
      ensures context == old(context)
      ensures backend.calls == old(backend.calls) + [Call(Level.Debug, event, args, Update(kw, context))]
    {
      var fields := CombineWithContext(kw);
      backend.Debug(event, args, fields);
    }

    /** As `Debug`, at level info. */
    method Info(event: Option<string>, args: seq<V>, kw: map<Field, V>)
      modifies backend
      ensures context == old(context)
      ensures backend.calls == old(backend.calls) + [Call(Level.Info, event, args, Update(kw, context))]
    {
      var fields := CombineWithContext(kw);
      backend.Info(event, args, fields);
    }

    /** As `Debug`, at level warning. */
    method Warning(event: Option<string>, args: seq<V>, kw: map<Field, V>)
      modifies backend
      ensures context == old(context)
      ensures backend.calls == old(backend.calls) + [Call(Level.Warning, event, args, Update(kw, context))]
    {
      var fields := CombineWithContext(kw);
      backend.Warning(event, args, fields);
    }

    /** As `Debug`, at level error. */
    method Error(event: Option<string>, args: seq<V>, kw: map<Field, V>)
      modifies backend
      ensures context == old(context)
      ensures backend.calls == old(backend.calls) + [Call(Level.Error, event, args, Update(kw, context))]
    {
      var fields := CombineWithContext(kw);
      backend.Error(event, args, fields);
    }

    /** As `Debug`, at level critical. */
    method Critical(event: Option<string>, args: seq<V>, kw: map<Field, V>)
      modifies backend
      ensures context == old(context)
      ensures backend.calls == old(backend.calls) + [Call(Level.Critical, event, args, Update(kw, context))]
    {
      var fields := CombineWithContext(kw);
      backend.Critical(event, args, fields);
    }
  }
}

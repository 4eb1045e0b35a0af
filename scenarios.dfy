/**
 Client code that replays the cases of pyla_logger/tests/test_logger.py and a
 few more scenarios, using the contracts of `Logging.Logger` and the `Merge`
 lemmas.
 */
module Scenarios {
  import opened Merge
  import opened Logging

  /** test_init: a new logger holds the backend it was given and no context. */
  method Construction() {
    var backend := new Backend<string>();
    var logger := new Logger(backend);
    assert logger.backend == backend;
    assert logger.context == map[];
    assert backend.calls == [];
  }

  /** test_add_context: two calls with disjoint keys accumulate. */
  method AccumulateContext() {
    var backend := new Backend<string>();
    var logger := new Logger(backend);
    logger.AddContext(map["key1" := "value1", "key2" := "value2"]);
    assert logger.context == map["key1" := "value1", "key2" := "value2"];
    logger.AddContext(map["key3" := "value3"]);
    assert logger.context == map["key1" := "value1", "key2" := "value2", "key3" := "value3"];
  }

  /** Successive `add_context` calls leave the context that `UpdateAll`
      describes, so its lemmas (keys, last write wins, disjoint union) hold
      of a logger driven this way. */
  method AddContextMany<V>(logger: Logger<V>, updates: seq<map<Field, V>>)
    modifies logger
    ensures logger.context == UpdateAll(old(logger.context), updates)
    ensures logger.backend.calls == old(logger.backend.calls)
  {
    var i := 0;
    while i < |updates|
      invariant 0 <= i <= |updates|
      invariant logger.context == UpdateAll(old(logger.context), updates[..i])
      invariant logger.backend.calls == old(logger.backend.calls)
    {
      assert updates[..i + 1][..i] == updates[..i];
      logger.AddContext(updates[i]);
      i := i + 1;
    }
    assert updates[..i] == updates;
  }

  /** A later `add_context` of the same key replaces the earlier value. */
  method LastWriteWins() {
    var backend := new Backend<string>();
    var logger := new Logger(backend);
    logger.AddContext(map["k" := "v1"]);
    logger.AddContext(map["k" := "v2"]);
    assert logger.context == map["k" := "v2"];
  }

  /** test_debug to test_critical: the context field joins the call's own field,
      and each level reaches the backend method of the same level. */
  method EveryLevelWithContext() {
    var expected := map["extra_key" := "extra_value", "context_key" := "context_value"];
    var backend := new Backend<string>();
    var logger := new Logger(backend);
    logger.AddContext(map["context_key" := "context_value"]);
    assert Update(map["extra_key" := "extra_value"], logger.context) == expected;
    logger.Debug(Some("debug message"), [], map["extra_key" := "extra_value"]);
    logger.Info(Some("info message"), [], map["extra_key" := "extra_value"]);
    logger.Warning(Some("warning message"), [], map["extra_key" := "extra_value"]);
    logger.Error(Some("error message"), [], map["extra_key" := "extra_value"]);
    logger.Critical(Some("critical message"), [], map["extra_key" := "extra_value"]);
    assert logger.context == map["context_key" := "context_value"];
    assert backend.calls == [
      Call(Level.Debug, Some("debug message"), [], expected),
      Call(Level.Info, Some("info message"), [], expected),
      Call(Level.Warning, Some("warning message"), [], expected),
      Call(Level.Error, Some("error message"), [], expected),
      Call(Level.Critical, Some("critical message"), [], expected)
    ];
  }

  /** test_combine_with_context: the per-call fields gain the context field. */
  method CombineAddsContext() {
    var backend := new Backend<string>();
    var logger := new Logger(backend);
    logger.AddContext(map["context_key" := "context_value"]);
    var values := logger.CombineWithContext(map["extra_key" := "extra_value"]);
    assert values == map["extra_key" := "extra_value", "context_key" := "context_value"];
  }

  /** A call field that shares its name with a context field is overridden by the context. */
  method ContextWinsCollision() {
    var backend := new Backend<string>();
    var logger := new Logger(backend);
    logger.AddContext(map["a" := "ctx"]);
    assert Update(map["a" := "call"], logger.context) == map["a" := "ctx"];
    logger.Info(Some("msg"), [], map["a" := "call"]);
    assert backend.calls == [Call(Level.Info, Some("msg"), [], map["a" := "ctx"])];
  }

  /** test_logging_methods_without_context and test_logging_methods_with_args:
      with no context the backend gets exactly the caller's event, positional
      arguments and fields. */
  method PassThroughWithoutContext() {
    var backend := new Backend<string>();
    var logger := new Logger(backend);
    UpdateWithEmpty<string>(map[]);
    UpdateWithEmpty(map["key" := "value"]);
    logger.Debug(Some("debug message"), [], map[]);
    logger.Info(Some("message"), ["arg1", "arg2"], map["key" := "value"]);
    assert backend.calls == [
      Call(Level.Debug, Some("debug message"), [], map[]),
      Call(Level.Info, Some("message"), ["arg1", "arg2"], map["key" := "value"])
    ];
  }

  /** End to end: a request id added once appears on a later warning. */
  method RequestIdOnWarning() {
    var backend := new Backend<string>();
    var logger := new Logger(backend);
    logger.AddContext(map["request_id" := "r1"]);
    assert Update(map["latency_ms" := "200"], logger.context) == map["latency_ms" := "200", "request_id" := "r1"];
    logger.Warning(Some("slow request"), [], map["latency_ms" := "200"]);
    assert backend.calls == [
      Call(Level.Warning, Some("slow request"), [], map["latency_ms" := "200", "request_id" := "r1"])
    ];
  }
}

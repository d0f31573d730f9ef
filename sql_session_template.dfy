/** SqlSessionTemplate: the thread-shareable session handle. Its three fields are
    final, so the template itself is a value; what happens per call is the
    interceptor, which acquires an underlying session, runs one operation on it,
    commits it when no transaction governs it, and releases it exactly once.

    The library calls the interceptor makes are inputs here: the session that
    SqlSessionUtils.getSqlSession hands out (or the error it throws), the outcome of
    the reflective call, the answer of isSqlSessionTransactional, the outcome of
    commit(true), ExceptionUtil.unwrapThrowable and the translator's
    translateExceptionIfPossible. What the interceptor does to the session is
    recorded as a trace of events. */
module SessionTemplate {
  import opened Common

  /** org.apache.ibatis.session.ExecutorType */
  datatype ExecutorType = Simple | Reuse | Batch

  /** A SqlSessionFactory, reduced to what the template reads from it: the default
      executor type and the data source of its configuration's environment. */
  datatype SessionFactory = SessionFactory(id: nat, defaultExecutorType: ExecutorType, dataSource: nat)

  /** A PersistenceExceptionTranslator. */
  datatype Translator =
    | MyBatisExceptionTranslator(dataSource: nat, exceptionTranslatorLazyInit: bool)
    | CustomTranslator(id: nat)

  /** The template's final fields; the getters return them. */
  datatype Template = Template(
    sqlSessionFactory: SessionFactory,
    executorType: ExecutorType,
    exceptionTranslator: Option<Translator>)

  const FactoryRequired := "Property 'sqlSessionFactory' is required"
  const ExecutorTypeRequired := "Property 'executorType' is required"

  /** The three-argument constructor: factory and executor type must not be null,
      the translator may be. */
  function NewTemplate(
    factory: Option<SessionFactory>,
    executorType: Option<ExecutorType>,
    translator: Option<Translator>): (r: Result<Template, Error>)
    ensures r.Success? <==> factory.Some? && executorType.Some?
    ensures factory.None? ==> r == Failure(IllegalArgument(FactoryRequired))
    ensures factory.Some? && executorType.None? ==> r == Failure(IllegalArgument(ExecutorTypeRequired))
    ensures r.Success? ==>
              && r.value.sqlSessionFactory == factory.value
              && r.value.executorType == executorType.value
              && r.value.exceptionTranslator == translator
  {
    if factory.None? then Failure(IllegalArgument(FactoryRequired))
    else if executorType.None? then Failure(IllegalArgument(ExecutorTypeRequired))
    else Success(Template(factory.value, executorType.value, translator))
  }

  /** The two-argument constructor builds a MyBatisExceptionTranslator over the
      factory's data source (with lazy initialisation) before delegating, so a null
      factory is dereferenced before it can be checked. */
  function NewTemplateWithExecutor(
    factory: Option<SessionFactory>,
    executorType: Option<ExecutorType>): (r: Result<Template, Error>)
    ensures factory.None? ==> r == Failure(NullPointer)
    ensures r.Success? <==> factory.Some? && executorType.Some?
    ensures factory.Some? && executorType.None? ==> r == Failure(IllegalArgument(ExecutorTypeRequired))
    ensures r.Success? ==>
              && r.value.sqlSessionFactory == factory.value
              && r.value.executorType == executorType.value
              && r.value.exceptionTranslator == Some(MyBatisExceptionTranslator(factory.value.dataSource, true))
  {
    if factory.None? then Failure(NullPointer)
    else
      var translator := MyBatisExceptionTranslator(factory.value.dataSource, true);
      NewTemplate(factory, executorType, Some(translator))
  }

  /** The one-argument constructor takes the executor type from the factory's configuration. */
  function NewTemplateWithFactory(factory: Option<SessionFactory>): (r: Result<Template, Error>)
    ensures r.Success? <==> factory.Some?
    ensures factory.None? ==> r == Failure(NullPointer)
    ensures r.Success? ==>
              && r.value.sqlSessionFactory == factory.value
              && r.value.executorType == factory.value.defaultExecutorType
              && r.value.exceptionTranslator == Some(MyBatisExceptionTranslator(factory.value.dataSource, true))
  {
    if factory.None? then Failure(NullPointer)
    else NewTemplateWithExecutor(factory, Some(factory.value.defaultExecutorType))
  }

  /** The lifecycle calls an application may not make on a managed session. */
  datatype ManualCall =
    | Commit
    | CommitForced(force: bool)
    | Rollback
    | RollbackForced(force: bool)
    | Close

  function Verb(call: ManualCall): string {
    match call
    case Commit | CommitForced(_) => "commit"
    case Rollback | RollbackForced(_) => "rollback"
    case Close => "close"
  }

  const NotAllowedOverManagedSession := " is not allowed over a Spring managed SqlSession"

  /** commit(), commit(force), rollback(), rollback(force) and close(): always refused
      with an UnsupportedOperationException naming the call, whatever the template and
      the argument; the template, being immutable, is left as it was. */
  function Refuse(t: Template, call: ManualCall): (r: Outcome<Error>)
    ensures r.Fail? && r.error.UnsupportedOperation?
  {
    Fail(UnsupportedOperation("Manual " + Verb(call) + NotAllowedOverManagedSession))
  }

  /** destroy(): the container's shutdown hook, which does nothing and so never fails. */
  function Destroy(t: Template): (r: Outcome<Error>)
    ensures r.Pass?
  {
    Pass
  }

  /** An underlying, thread-confined SqlSession. */
  datatype Session = Session(id: nat)

  /** What the interceptor does, in order. */
  datatype Event =
    | Invoked(session: Session)
    | Committed(session: Session, force: bool)
    | Released(session: Session)
    /** translateExceptionIfPossible was asked to translate this error */
    | TranslationRequested(error: Error)

  /** The throwable the interceptor's catch block receives, if any: a failure of the
      operation, or of the commit that follows a successful operation outside a transaction. */
  function Caught<V>(operation: Result<V, Error>, transactional: bool, commit: Outcome<Error>): Option<Error> {
    if operation.Failure? then Some(operation.error)
    else if !transactional && commit.Fail? then Some(commit.error)
    else None
  }

  /** Translation applies only with a translator and to a persistence error. */
  predicate Translates(t: Template, unwrapped: Error) {
    t.exceptionTranslator.Some? && unwrapped.PersistenceError?
  }

  /** The error the interceptor throws for an unwrapped error. */
  function Surfaced(t: Template, unwrapped: Error, translate: (Translator, Error) -> Option<Error>): Error {
    if Translates(t, unwrapped) then translate(t.exceptionTranslator.value, unwrapped).GetOr(unwrapped)
    else unwrapped
  }

  /** The events of one interceptor call: the operation, commit(true) after a
      successful operation outside a transaction, the release, and the translation
      request when a caught error is translatable. Nothing happens when acquisition fails. */
  function InvokeTrace<V>(
    t: Template,
    acquired: Result<Session, Error>,
    operation: Result<V, Error>,
    transactional: bool,
    commit: Outcome<Error>,
    unwrap: Error -> Error): seq<Event>
  {
    if acquired.Failure? then []
    else
      var s := acquired.value;
      var committed := if operation.Success? && !transactional then [Committed(s, true)] else [];
      var caught := Caught(operation, transactional, commit);
      if caught.Some? && Translates(t, unwrap(caught.value))
      then [Invoked(s)] + committed + [Released(s), TranslationRequested(unwrap(caught.value))]
      else [Invoked(s)] + committed + [Released(s)]
  }

  /** The interceptor commits exactly when the operation succeeded outside a
      transaction, always with force, and releases the acquired session exactly once. */
  lemma InvokeTraceCounts<V>(
    t: Template,
    acquired: Result<Session, Error>,
    operation: Result<V, Error>,
    transactional: bool,
    commit: Outcome<Error>,
    unwrap: Error -> Error)
    requires acquired.Success?
    ensures var trace := InvokeTrace(t, acquired, operation, transactional, commit, unwrap);
            && Occurrences(trace, Committed(acquired.value, true)) == (if operation.Success? && !transactional then 1 else 0)
            && Occurrences(trace, Released(acquired.value)) == 1
  {
    var trace := InvokeTrace(t, acquired, operation, transactional, commit, unwrap);
    ReleaseCount(acquired.value, trace);
  }

  /** Every event of the trace concerns the acquired session or a translation; the
      operation comes first, no commit follows the release and no release follows
      the translation, which is requested exactly when it applies. */
  lemma InvokeTraceOrder<V>(
    t: Template,
    acquired: Result<Session, Error>,
    operation: Result<V, Error>,
    transactional: bool,
    commit: Outcome<Error>,
    unwrap: Error -> Error)
    ensures var trace := InvokeTrace(t, acquired, operation, transactional, commit, unwrap);
            && (acquired.Failure? <==> trace == [])
            && (forall e :: e in trace && e.Committed? ==> e.force)
            && (forall e :: e in trace && !e.TranslationRequested? ==> acquired.Success? && e.session == acquired.value)
            && (acquired.Success? ==> trace[0] == Invoked(acquired.value))
            && (forall i, j :: 0 <= i < j < |trace| && trace[i].Released? ==> !trace[j].Committed?)
            && (forall i, j :: 0 <= i < j < |trace| && trace[i].TranslationRequested? ==> !trace[j].Released?)
            && ((exists e :: e in trace && e.TranslationRequested?) <==>
                  acquired.Success? && Caught(operation, transactional, commit).Some?
                  && Translates(t, unwrap(Caught(operation, transactional, commit).value)))
  {
    var trace := InvokeTrace(t, acquired, operation, transactional, commit, unwrap);
    if acquired.Success? && trace[|trace| - 1].TranslationRequested? {
      assert trace[|trace| - 1] in trace;
    }
  }

  /** SqlSessionInterceptor.invoke for one operation on the template's proxy. */
  method Invoke<V>(
    t: Template,
    acquired: Result<Session, Error>,
    operation: Result<V, Error>,
    transactional: bool,
    commit: Outcome<Error>,
    unwrap: Error -> Error,
    translate: (Translator, Error) -> Option<Error>)
    returns (r: Result<V, Error>, trace: seq<Event>)
    // acquisition sits outside the try block: its failure propagates untouched
    ensures acquired.Failure? ==> r == Failure(acquired.error)
    // the delegate's result comes back unchanged when nothing was thrown
    ensures acquired.Success? && Caught(operation, transactional, commit).None? ==>
              operation.Success? && r == Success(operation.value)
    // a caught error is unwrapped, and translated only with a translator and a persistence error
    ensures acquired.Success? && Caught(operation, transactional, commit).Some? ==>
              r == Failure(Surfaced(t, unwrap(Caught(operation, transactional, commit).value), translate))
    // what happens to the session, in order
    ensures trace == InvokeTrace(t, acquired, operation, transactional, commit, unwrap)
  {
    if acquired.Failure? {
      return Failure(acquired.error), [];
    }
    var sqlSession: Option<Session> := Some(acquired.value);
    trace := [Invoked(acquired.value)];
    var thrown: Option<Error> := None;
    // try
    if operation.Success? {
      if !transactional {
        trace := trace + [Committed(sqlSession.value, true)];
        if commit.Fail? {
          thrown := Some(commit.error);
        }
      }
      if thrown.None? {
        r := Success(operation.value);
      }
    } else {
      thrown := Some(operation.error);
    }
    // catch
    if thrown.Some? {
      var unwrapped := unwrap(thrown.value);
      if t.exceptionTranslator.Some? && unwrapped.PersistenceError? {
        trace := trace + [Released(sqlSession.value)];
        sqlSession := None;
        trace := trace + [TranslationRequested(unwrapped)];
        var translated := translate(t.exceptionTranslator.value, unwrapped);
        if translated.Some? {
          unwrapped := translated.value;
        }
      }
      r := Failure(unwrapped);
    }
    // finally
    if sqlSession.Some? {
      trace := trace + [Released(sqlSession.value)];
    }
  }

  /** A trace of the interceptor's shape releases its session once and commits it
      at most once. */
  lemma ReleaseCount(s: Session, trace: seq<Event>)
    requires |trace| >= 2 && trace[0] == Invoked(s)
    requires trace[1] == Committed(s, true) ==> |trace| >= 3 && trace[2] == Released(s)
    requires trace[1] != Committed(s, true) ==> trace[1] == Released(s)
    requires forall k :: (if trace[1] == Committed(s, true) then 3 else 2) <= k < |trace| ==>
               trace[k].TranslationRequested?
    ensures Occurrences(trace, Released(s)) == 1
    ensures Occurrences(trace, Committed(s, true)) == (if trace[1] == Committed(s, true) then 1 else 0)
  {
    var n := if trace[1] == Committed(s, true) then 3 else 2;
    var head, tail := trace[..n], trace[n..];
    assert trace == head + tail;
    OccurrencesAppend(head, tail, Released(s));
    OccurrencesAppend(head, tail, Committed(s, true));
    assert forall k :: 0 <= k < |tail| ==> tail[k] == trace[n + k];
    assert Released(s) !in tail;
    assert Committed(s, true) !in tail;
  }
}

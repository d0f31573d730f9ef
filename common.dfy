/** Shared vocabulary: Java's null as Option, thrown exceptions as Result/Outcome,
    and the exception kinds the adapter raises or passes along. */
module Common {

  datatype Option<+T> = None | Some(value: T) {
    function GetOr(default: T): T {
      match this
      case Some(v) => v
      case None => default
    }
  }

  datatype Result<+R, +E> = Success(value: R) | Failure(error: E)

  /** The outcome of a `void` Java method: it returns normally or throws. */
  datatype Outcome<+E> = Pass | Fail(error: E)

  /** The exceptions that appear in the modelled code. */
  datatype Error =
    /** org.apache.ibatis.exceptions.PersistenceException or a subclass */
    | PersistenceError(code: nat)
    /** the unchecked exception a PersistenceExceptionTranslator produces */
    | DataAccessError(code: nat)
    /** any other java.lang.Exception */
    | OtherError(code: nat)
    /** a java.lang.Error (NoClassDefFoundError, OutOfMemoryError, ...): a Throwable that is not an Exception */
    | JavaError(code: nat)
    /** a reflective wrapper around the real cause (InvocationTargetException, UndeclaredThrowableException) */
    | Wrapped(cause: Error)
    /** IllegalArgumentException(message), as thrown by Spring's Assert.notNull */
    | IllegalArgument(message: string)
    /** IllegalArgumentException(cause) */
    | IllegalArgumentCausedBy(cause: Error)
    | UnsupportedOperation(message: string)
    /** MyBatis BindingException: the type is not known to the mapper registry */
    | Binding(message: string)
    | NullPointer

  /** Whether `catch (Exception e)` catches the error: everything but a java.lang.Error. */
  predicate IsException(e: Error) {
    !e.JavaError?
  }

  /** java.lang.Character.isWhitespace: Unicode space, line and paragraph separators
      except the three non-breaking spaces, plus the ASCII controls U+0009-U+000D and U+001C-U+001F. */
  predicate IsWhitespace(c: char) {
    || c == '\U{20}' || c == '\U{1680}'
    || ('\U{2000}' <= c <= '\U{2006}') || ('\U{2008}' <= c <= '\U{200A}')
    || c == '\U{205F}' || c == '\U{3000}'
    || c == '\U{2028}' || c == '\U{2029}'
    || ('\U{9}' <= c <= '\U{D}')
    || ('\U{1C}' <= c <= '\U{1F}')
  }

  /** Spring StringUtils.hasText on a non-null string: some character is not whitespace. */
  predicate HasText(s: string) {
    exists i :: 0 <= i < |s| && !IsWhitespace(s[i])
  }

  /** Spring StringUtils.hasText on a string that may be null. */
  predicate HasTextOpt(s: Option<string>) {
    s.Some? && HasText(s.value)
  }

  /** The number of times `x` occurs in `s`. */
  function Occurrences<T(==)>(s: seq<T>, x: T): (n: nat)
    ensures n <= |s|
    ensures n == 0 <==> x !in s
  {
    if s == [] then 0
    else (if s[0] == x then 1 else 0) + Occurrences(s[1..], x)
  }

  lemma {:induction false} OccurrencesAppend<T>(a: seq<T>, b: seq<T>, x: T)
    ensures Occurrences(a + b, x) == Occurrences(a, x) + Occurrences(b, x)
  {
    if a == [] {
      assert a + b == b;
    } else {
      assert (a + b)[1..] == a[1..] + b;
      OccurrencesAppend(a[1..], b, x);
    }
  }
}

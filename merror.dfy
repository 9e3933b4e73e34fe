/** The project's error helpers (internals/logs/merror): every message carries the
    `ERROR, ` prefix, and wrapping a nil error yields nil. */
module MError {
  import Fmt

  datatype Option<T> = None | Some(value: T)

  /** A Go `(T, error)` pair where exactly one side is meaningful. */
  datatype Result<T> = Ok(value: T) | Fail(err: Error)

  /** A Go `error` value. `Leaf` is an error made from a message (`fmt.Errorf`, an OS
      error); `Wrapped` is `github.com/pkg/errors.Wrap(cause, msg)`, whose message is
      `msg: <cause's message>`. A nil `error` is `None` of an `Option<Error>`. */
  datatype Error = Leaf(text: string) | Wrapped(cause: Error, msg: string)

  /** `err.Error()`. */
  function Message(e: Error): string {
    match e
    case Leaf(t) => t
    case Wrapped(c, m) => m + ": " + Message(c)
  }

  /** `errors.Cause(err)`: the innermost error of a chain of wraps. */
  function Cause(e: Error): (r: Error)
    ensures r.Leaf?
  {
    match e
    case Leaf(_) => e
    case Wrapped(c, _) => Cause(c)
  }

  const ErrFmt := "ERROR, %s"
  const Prefix := "ERROR, "

  /** `merror.Error(msg)`: a new error whose message is the prefix followed by `msg`. */
  function ErrorOf(msg: string): (e: Error)
    ensures e.Leaf? && Message(e) == Prefix + msg
  {
    Leaf(Prefix + msg)
  }

  /** `ErrorOf` is `fmt.Errorf(errFmt, msg)`: formatting `msg` into "ERROR, %s". */
  lemma ErrorOfFormats(msg: string)
    ensures ErrorOf(msg) == Leaf(Fmt.Sprintf(ErrFmt, [msg]))
  {
    Fmt.Sprintf1(ErrFmt, Prefix, "", msg);
  }

  /** `merror.Errorf(format, a...)`: `ErrorOf` applied to the formatted text. */
  function Errorf(format: string, args: seq<string>): (e: Error)
    ensures e == ErrorOf(Fmt.Sprintf(format, args))
    ensures Message(e) == Prefix + Fmt.Sprintf(format, args)
  {
    ErrorOf(Fmt.Sprintf(format, args))
  }

  /** `merror.Wrap(err, msg)`: nil stays nil; otherwise the cause is kept and the
      prefixed message is put in front of it. */
  function Wrap(err: Option<Error>, msg: string): (r: Option<Error>)
    ensures r.None? <==> err.None?
    ensures err.Some? ==> r.value.Wrapped? && r.value.cause == err.value
    ensures err.Some? ==> Message(r.value) == Prefix + msg + ": " + Message(err.value)
    ensures err.Some? ==> Cause(r.value) == Cause(err.value)
  {
    if err.None? then None else Some(Wrapped(err.value, Prefix + msg))
  }

  /** The message `Wrap` puts in front is `msg` formatted into "ERROR, %s". */
  lemma WrapFormats(err: Error, msg: string)
    ensures Wrap(Some(err), msg) == Some(Wrapped(err, Fmt.Sprintf(ErrFmt, [msg])))
  {
    Fmt.Sprintf1(ErrFmt, Prefix, "", msg);
    assert Prefix + msg + "" == Prefix + msg;
  }

  /** `merror.Wrapf(err, format, a...)`: `Wrap` applied to the formatted text. */
  function Wrapf(err: Option<Error>, format: string, args: seq<string>): (r: Option<Error>)
    ensures r == Wrap(err, Fmt.Sprintf(format, args))
    ensures r.None? <==> err.None?
  {
    Wrap(err, Fmt.Sprintf(format, args))
  }

  /** The prefix can be taken off an `ErrorOf` message again, giving back the text. */
  lemma ErrorOfInjective(a: string, b: string)
    ensures ErrorOf(a) == ErrorOf(b) <==> a == b
  {
    if ErrorOf(a) == ErrorOf(b) {
      assert Message(ErrorOf(a))[|Prefix|..] == a;
      assert Message(ErrorOf(b))[|Prefix|..] == b;
    }
  }
}

/**
 * Values shared by every module of the model: optional values, the values a
 * JavaScript `throw` can carry, and the outcome of an operation that may throw.
 */
module Basics {

  /** `T | null | undefined` */
  datatype Option<+T> = None | Some(value: T)

  /**
   * What a `throw` carries. Code in the system only ever inspects it with
   * `error instanceof Error ? error.message : fallback`, so an `Error`
   * instance is its message and everything else is `NonError`.
   */
  datatype Thrown = ErrorObj(message: string) | NonError

  /** `error instanceof Error ? error.message : fallback` */
  function MessageOr(t: Thrown, fallback: string): (m: string)
    ensures t.NonError? ==> m == fallback
    ensures t.ErrorObj? ==> m == t.message
  {
    match t
    case ErrorObj(msg) => msg
    case NonError => fallback
  }

  /** The settled state of a promise: resolved with a value, or rejected. */
  datatype Result<+T> = Ok(value: T) | Threw(thrown: Thrown)

  /** `throw new Error(message)` */
  function Fail<T>(message: string): (r: Result<T>)
    ensures r.Threw? && MessageOr(r.thrown, "") == message
  {
    Threw(ErrorObj(message))
  }

  /**
   * `throw new Error(message)` in place of whatever the call threw: a
   * settled value passes through, every failure becomes the same message.
   */
  function ReplaceError<T>(r: Result<T>, message: string): (q: Result<T>)
    ensures q.Ok? <==> r.Ok?
    ensures r.Ok? ==> q == r
    ensures q.Threw? ==> q.thrown == ErrorObj(message)
  {
    if r.Ok? then r else Fail(message)
  }

  /** `const { error } = await …; if (error) throw error;` for a call that returns no data. */
  function RaiseError(error: Option<Thrown>): (r: Result<()>)
    ensures r.Threw? <==> error.Some?
    ensures r.Threw? ==> r.thrown == error.value
  {
    if error.Some? then Threw(error.value) else Ok(())
  }

  /**
   * A list query's response `{ data, error }`: the rows, possibly `null`,
   * or the error, which wins when present.
   */
  datatype Rows<+T> = Rows(data: Option<seq<T>>) | RowsError(error: Thrown)

  /** `if (error) throw error; return data || [];` */
  function RowsOrEmpty<T>(q: Rows<T>): (r: Result<seq<T>>)
    ensures r.Threw? <==> q.RowsError?
    ensures q.RowsError? ==> r.thrown == q.error
    ensures q.Rows? && q.data.None? ==> r == Ok([])
    ensures q.Rows? && q.data.Some? ==> r == Ok(q.data.value)
  {
    match q
    case RowsError(e) => Threw(e)
    case Rows(data) => Ok(if data.Some? then data.value else [])
  }
}

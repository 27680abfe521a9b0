/**
 * The `load` transition the three detail pages share: the route's id is
 * checked before anything is sent, then the detail call's outcome becomes
 * the page state.
 */
module DetailPage {
  import opened Wrappers

  /** `Number(id)` of the route parameter, reduced to what `Number.isInteger` decides. */
  datatype PageId = IntegerId(n: int) | NotInteger

  datatype DetailState<T> = Loading | Failed(message: string) | Ready(data: T)

  /**
   * What `load` does before its first `await`: stop with an error and send
   * nothing, or enter the loading state and send the detail call for `id`.
   */
  datatype LoadStart<T> = Rejected(state: DetailState<T>) | Issued(id: int, state: DetailState<T>)

  function StartLoad<T>(id: PageId, invalidMessage: string): (r: LoadStart<T>)
    ensures r.Rejected? <==> id.NotInteger?
    ensures r.Rejected? ==> r.state == Failed(invalidMessage)
    ensures r.Issued? ==> r.id == id.n && r.state == Loading
  {
    match id
    case NotInteger => Rejected(Failed(invalidMessage))
    case IntegerId(n) => Issued(n, Loading)
  }

  /**
   * The state after the detail call settles: its data, the thrown error's
   * message, or `fallback` when what was thrown is not an `Error`.
   */
  function FinishLoad<T>(outcome: Result<T, Option<string>>, fallback: string): (r: DetailState<T>)
    ensures r != Loading
    ensures outcome.Success? <==> r.Ready?
    ensures outcome.Success? ==> r.data == outcome.value
    ensures outcome.Failure? && outcome.error.Some? ==> r == Failed(outcome.error.value)
    ensures outcome.Failure? && outcome.error.None? ==> r == Failed(fallback)
  {
    match outcome
    case Success(data) => Ready(data)
    case Failure(message) => Failed(if message.Some? then message.value else fallback)
  }
}

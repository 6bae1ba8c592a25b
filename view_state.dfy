/** The three-way screen state shared by the home, project and tree view models (each declares
    the same sealed class: `Loading`, `Success`, `Error(message)`). */
module ViewState {
  import opened Results

  datatype UiState = Loading | Success | Error(message: string)

  /** The message shown for a failure whose exception carries none. */
  const LoadFailed: string := "加载失败"

  /** `Error(error.message ?: "加载失败")`, the state every failed load ends in. */
  function FailureState(e: Exception): (r: UiState)
    ensures r.Error?
    ensures e.message.Some? ==> r.message == e.message.value
    ensures e.message.None? ==> r.message == LoadFailed
  {
    Error(e.MessageOr(LoadFailed))
  }
}

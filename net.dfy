/**
  The network as the pages see it. A fetch is not performed by the model: its
  outcome is an input to the operation that awaits it.
 */
module Net {

  /** `fetch(url)` followed by `response.text()`: an ok response, a response with a
      non-success status (whose body can still be read), or a thrown error. */
  datatype TextResponse = Ok(text: string) | NotOk(text: string) | Error

  /** `fetch(indexUrl)` followed by `response.json()`: the decoded entry list, a
      non-success status, or a thrown error (network failure or undecodable JSON). */
  datatype IndexResponse<E> = Loaded(entries: seq<E>) | Refused | Unreachable(reason: string)
}

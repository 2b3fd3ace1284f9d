/** The shapes of what an axios call settles with, on both the server (calls
    to the provider) and the client (calls to the server). */
module Axios {
  import opened Wrappers
  import opened Js

  /** A received HTTP response: its status and its parsed body, `data`. */
  datatype HttpResponse = HttpResponse(status: int, data: Value)

  /** A rejected axios call: `response` is set when the server answered
      (with a status axios rejects), `requestSent` when a request went out
      but nothing came back, `message` is the error's own message. */
  datatype AxiosError = AxiosError(response: Option<HttpResponse>, requestSent: bool, message: string) {

    /** `error.response?.data` */
    function ResponseData(): (d: Value)
      ensures response.None? ==> d == Undefined
      ensures response.Some? ==> d == response.value.data
    {
      if response.Some? then response.value.data else Undefined
    }

    /** `error.response?.data?.message` */
    function DataMessage(): (m: Value)
      ensures response.None? ==> m == Undefined
    {
      Get(ResponseData(), "message")
    }
  }

  /** How an axios call settles before interceptors see it. */
  datatype AxiosResult = Received(response: HttpResponse) | Errored(error: AxiosError)
}

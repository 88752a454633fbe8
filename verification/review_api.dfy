/**
 * `sendReviewToAPI`: how the review service's answer to the POST becomes
 * success or an error message. The HTTP exchange is abstracted as an
 * `ApiResponse`.
 */
module ReviewApi {
  import opened Wrappers

  /** The review service's answer. */
  datatype ApiResponse =
    | Accepted                                        // 2xx with a JSON body
    | Rejected(bodyMessage: string, statusLine: string) // non-2xx; `message` of the body, "" when absent
    | ApiNetworkError(message: string)                // `fetch` rejected, or a 2xx body was not JSON

  /** Every error leaving `sendReviewToAPI` is re-thrown with this prefix. */
  const SendFailedPrefix: string := "Failed to send review: "

  /**
   * The outcome of the POST: success on 2xx; otherwise the server's own
   * message when it sent one, else a status-based one, behind the prefix.
   */
  function SendOutcome(response: ApiResponse): (r: Result<(), string>)
    ensures r.Success? <==> response.Accepted?
    ensures r.Failure? ==> SendFailedPrefix <= r.error
    ensures response.Rejected? && response.bodyMessage != "" ==>
      r == Failure(SendFailedPrefix + response.bodyMessage)
    ensures response.Rejected? && response.bodyMessage == "" ==>
      r == Failure(SendFailedPrefix + "API Error: " + response.statusLine)
    ensures response.ApiNetworkError? ==> r == Failure(SendFailedPrefix + response.message)
  {
    match response
    case Accepted => Success(())
    case Rejected(bodyMessage, statusLine) =>
      if bodyMessage == "" then Failure(SendFailedPrefix + "API Error: " + statusLine)
      else Failure(SendFailedPrefix + bodyMessage)
    case ApiNetworkError(message) => Failure(SendFailedPrefix + message)
  }
}

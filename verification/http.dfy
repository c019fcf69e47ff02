/** What a `fetch` call can produce, as the client code sees it. */
module Http {

  /**
   * A response body. `message` and `accessToken` are the JSON fields of those
   * names, "" when absent or falsy; `Malformed` is a body whose `res.json()` throws.
   */
  datatype Body = Json(message: string, accessToken: string) | Malformed

  datatype Response = Response(status: int, body: Body) {
    /** `res.ok`: a status in the range 200-299. */
    predicate Ok() {
      200 <= status <= 299
    }
  }

  /** A settled `fetch`: either a response or a thrown network failure. */
  datatype Exchange = Answered(response: Response) | NetworkError

  predicate IsUnauthorized(e: Exchange) {
    e.Answered? && e.response.status == 401
  }
}

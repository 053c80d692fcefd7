/** The part of `requests` both front ends use: `requests.get` as an oracle. */
module Http {

  /** The reply to `requests.get`: it raised, or a response with a status code. */
  datatype Fetch = Failed(message: string) | Response(status: int, content: string)

  /** The network as `requests.get` sees it: the `n`-th request made, for `link`, gets
      `respond(link, n)`; `requested` records every request. */
  class Web {
    const respond: (string, nat) -> Fetch
    var requested: seq<string>

    constructor (respond: (string, nat) -> Fetch)
      ensures this.respond == respond && requested == []
    {
      this.respond := respond;
      requested := [];
    }

    method Get(link: string) returns (f: Fetch)
      modifies this
      ensures requested == old(requested) + [link]
      ensures f == respond(link, |old(requested)|)
    {
      f := respond(link, |requested|);
      requested := requested + [link];
    }
  }

  /** `response.raise_for_status()` raises for a client or a server error status. */
  predicate ErrorStatus(status: int) {
    400 <= status < 600
  }
}

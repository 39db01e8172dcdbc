/** The HTTP side of the core: the reply to one GET request, the transport
    that issues requests and records them, and URL decomposition. */
module Web {
  import opened Wrappers
  import opened Json

  /** What `requests.get(url)`, `raise_for_status()` and `json()` produce
      together: a decoded body, or a `RequestException` (a transport
      failure, a non-2xx status or an undecodable body). */
  datatype Reply = Response(body: Value) | RequestFailed

  /** The network as seen by the API classes. `server(n, url)` is the reply
      to the n-th request of this transport when it asks for `url`; it
      stands for the live service or for a fake used in tests. `requested`
      is every URL asked for so far, in order, so its length counts fetches. */
  class Transport {
    const server: (nat, string) -> Reply
    var requested: seq<string>

    constructor (server: (nat, string) -> Reply)
      ensures this.server == server && requested == []
    {
      this.server := server;
      requested := [];
    }

    /** One blocking GET request. */
    method Get(url: string) returns (reply: Reply)
      modifies this
      ensures requested == old(requested) + [url]
      ensures reply == server(|old(requested)|, url)
    {
      reply := server(|requested|, url);
      requested := requested + [url];
    }
  }

  /** The part of `url` between `prefix` and `suffix`, when `url` has both. */
  function Between(prefix: string, suffix: string, url: string): Option<string>
  {
    if |prefix| + |suffix| <= |url| && url[..|prefix|] == prefix && url[|url| - |suffix|..] == suffix
    then Some(url[|prefix|..|url| - |suffix|])
    else None
  }

  /** A URL assembled as `prefix + middle + suffix` gives its middle back. */
  lemma BetweenConcat(prefix: string, middle: string, suffix: string)
    ensures Between(prefix, suffix, prefix + middle + suffix) == Some(middle)
  {
  }
}

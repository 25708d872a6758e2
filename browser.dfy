/**
 * The browser environment every screen works against: one tab with its
 * localStorage, its router location and the log of requests sent through
 * the shared HTTP client. What the server answers is not here: each
 * handler receives it as an `Outcome` parameter.
 */
module Browser {
  import opened Wrappers
  import opened Http
  import opened AxiosConfig

  /** The request `apiClient` puts on the wire for a call made while storage is `storage`. */
  function Outgoing(verb: Method, url: string, data: Body, storage: map<string, string>): Request {
    Request(verb, url, data, WithBearer(map[], storage))
  }

  class Tab {
    var storage: map<string, string>
    var location: Location
    var sent: seq<Request>

    constructor (storage: map<string, string>, location: Location)
      ensures this.storage == storage && this.location == location && sent == []
    {
      this.storage, this.location, sent := storage, location, [];
    }

    /** `navigate(path)` or `navigate(path, { state: { email } })`. */
    method Navigate(path: string, email: Option<string>)
      modifies this
      ensures location == Location(path, email)
      ensures storage == old(storage) && sent == old(sent)
    {
      location := Location(path, email);
    }

    /** `localStorage.setItem(key, value)`. */
    method SetItem(key: string, value: string)
      modifies this
      ensures storage == old(storage)[key := value]
      ensures location == old(location) && sent == old(sent)
    {
      storage := storage[key := value];
    }

    /** `localStorage.removeItem(key)`. */
    method RemoveItem(key: string)
      modifies this
      ensures storage == old(storage) - {key}
      ensures key !in storage
      ensures location == old(location) && sent == old(sent)
    {
      storage := storage - {key};
    }

    /**
     * An `apiClient` call: a fresh config passes through the request
     * interceptor and the resulting request is appended to the log.
     */
    method Send(verb: Method, url: string, data: Body)
      modifies this
      ensures sent == old(sent) + [Outgoing(verb, url, data, storage)]
      ensures storage == old(storage) && location == old(location)
    {
      var config := new RequestConfig(verb, url, data, map[]);
      config := OnRequest(config, storage);
      sent := sent + [Request(config.verb, config.url, config.data, config.headers)];
    }
  }
}

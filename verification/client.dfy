/**
 * The REST client of a space. The HTTP calls themselves and the browser are
 * outside the model: every request that would leave the process is recorded in
 * a ghost log instead, and the two flags decide which requests reach it.
 */
module Client {
  import opened Json

  datatype Request =
    | Get(url: string)
    | Post(url: string, body: Value)
    | Delete(url: string)
    | Browse(url: string)   // webbrowser.open

  /** What a client with these flags lets through of one request. */
  function Issued(offline: bool, openBrowsers: bool, r: Request): (sent: seq<Request>)
    ensures offline ==> sent == []
    ensures r.Browse? && !openBrowsers ==> sent == []
    ensures !offline && (openBrowsers || !r.Browse?) ==> sent == [r]
  {
    if offline then []
    else if r.Browse? && !openBrowsers then []
    else [r]
  }

  /** What a client with these flags lets through of several requests, in order. */
  function IssuedAll(offline: bool, openBrowsers: bool, rs: seq<Request>): (sent: seq<Request>)
    ensures offline ==> sent == []
    ensures |sent| <= |rs|
  {
    if |rs| == 0 then []
    else Issued(offline, openBrowsers, rs[0]) + IssuedAll(offline, openBrowsers, rs[1..])
  }

  /** Letting several requests through is letting each part through in turn. */
  lemma {:induction false} IssuedAllAppend(offline: bool, openBrowsers: bool, a: seq<Request>, b: seq<Request>)
    ensures IssuedAll(offline, openBrowsers, a + b) == IssuedAll(offline, openBrowsers, a) + IssuedAll(offline, openBrowsers, b)
  {
    if a == [] {
      assert a + b == b;
    } else {
      assert (a + b)[0] == a[0];
      assert (a + b)[1..] == a[1..] + b;
      IssuedAllAppend(offline, openBrowsers, a[1..], b);
    }
  }

  class RestClient {
    var offline: bool
    var openBrowsers: bool
    /** Every request sent and every page opened, oldest first. */
    ghost var log: seq<Request>

    constructor(offline: bool := true, openBrowsers: bool := true)
      ensures this.offline == offline && this.openBrowsers == openBrowsers
      ensures log == []
    {
      this.offline := offline;
      this.openBrowsers := openBrowsers;
      log := [];
    }

    method Get(url: string)
      modifies this`log
      ensures log == old(log) + Issued(offline, openBrowsers, Request.Get(url))
    {
      if !offline {
        log := log + [Request.Get(url)];
      }
    }

    method Post(url: string, body: Value)
      modifies this`log
      ensures log == old(log) + Issued(offline, openBrowsers, Request.Post(url, body))
    {
      if !offline {
        log := log + [Request.Post(url, body)];
      }
    }

    method Delete(url: string)
      modifies this`log
      ensures log == old(log) + Issued(offline, openBrowsers, Request.Delete(url))
    {
      if !offline {
        log := log + [Request.Delete(url)];
      }
    }

    method OpenBrowser(url: string)
      modifies this`log
      ensures log == old(log) + Issued(offline, openBrowsers, Browse(url))
    {
      if openBrowsers && !offline {
        log := log + [Browse(url)];
      }
    }
  }
}

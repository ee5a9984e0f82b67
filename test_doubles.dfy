/** The deterministic inner transport the retry behaviour is checked against:
    the `status_codes` generator (a scripted list of replies whose last reply repeats
    forever), `MockTransport` (one generator per URL, 200 for any other URL) and the
    patched `time.sleep`, which only records its arguments. */
module TestDoubles {
  import opened Options
  import opened Http

  /** One scripted reply: a status code and the Retry-After value to send, if any. */
  datatype Entry = Entry(status: int, retryAfter: Option<string>)

  /** The k-th reply of a script: the listed replies in order, then the last one. */
  function StickyAt(codes: seq<Entry>, k: nat): Entry
    requires |codes| > 0
  {
    if k < |codes| then codes[k] else codes[|codes| - 1]
  }

  /** The response MockTransport builds from a reply: the header is set only when
      its value is present and non-empty. */
  function ToResponse(e: Entry): (r: Response)
    ensures r.status == e.status
    ensures r.retryAfter.Some? <==> e.retryAfter.Some? && e.retryAfter.value != ""
    ensures r.retryAfter.Some? ==> r.retryAfter == e.retryAfter
  {
    Response(e.status, if e.retryAfter.Some? && e.retryAfter.value != "" then e.retryAfter else None)
  }

  /** What a URL scripted by `codes`, of which `served` replies are used up, answers
      on each of its next calls. */
  function ScriptedFeed(codes: seq<Entry>, served: nat): nat -> Response
    requires |codes| > 0
  {
    (k: nat) => ToResponse(StickyAt(codes, served + k))
  }

  /** What a URL without a script answers on every call. */
  function UnmappedFeed(): nat -> Response {
    (k: nat) => Response(200, None)
  }

  lemma ScriptedFeedAt(codes: seq<Entry>, served: nat, k: nat)
    requires |codes| > 0
    ensures ScriptedFeed(codes, served)(k) == ToResponse(StickyAt(codes, served + k))
  {
  }

  lemma UnmappedFeedAt(k: nat)
    ensures UnmappedFeed()(k) == Response(200, None)
  {
  }

  /** A script replayed in order, whose last reply then repeats for ever. */
  lemma ScriptReplay(codes: seq<Entry>, k: nat)
    requires |codes| > 0
    ensures k < |codes| ==> ScriptedFeed(codes, 0)(k) == ToResponse(codes[k])
    ensures k >= |codes| - 1 ==> ScriptedFeed(codes, 0)(k) == ToResponse(codes[|codes| - 1])
  {
  }

  /** The `status_codes` generator. */
  class StatusCodes {
    const codes: seq<Entry>
    /** How many replies `next` has produced so far. */
    var served: nat

    constructor (codes: seq<Entry>)
      ensures this.codes == codes && served == 0
    {
      this.codes := codes;
      served := 0;
    }

    /** `next(...)`: the listed replies in order, then the last one on every later
        call. From an empty list there is no reply (Python raises IndexError). */
    method Next() returns (e: Entry)
      requires |codes| > 0
      modifies this
      ensures e == StickyAt(codes, old(served))
      ensures served == old(served) + 1
    {
      if served < |codes| {
        e := codes[served];
      } else {
        e := codes[|codes| - 1];
      }
      served := served + 1;
    }
  }

  /** The fake inner transport: a generator per URL. */
  class MockTransport {
    const statusCodeMap: map<Url, StatusCodes>

    /** The transport over a URL-to-generator map; the fixture passes `map[]` for
        a transport without scripts. */
    constructor (statusCodeMap: map<Url, StatusCodes>)
      ensures this.statusCodeMap == statusCodeMap
    {
      this.statusCodeMap := statusCodeMap;
    }

    /** Every script in the map has a reply to give. */
    predicate Valid() {
      forall u :: u in statusCodeMap ==> |statusCodeMap[u].codes| > 0
    }

    /** The generator a request to `url` advances, if any. */
    function Streams(url: Url): set<object> {
      if url in statusCodeMap then {statusCodeMap[url]} else {}
    }

    /** How many replies the URL's generator has produced; 0 for a URL without one. */
    function Served(url: Url): nat
      reads Streams(url)
    {
      if url in statusCodeMap then statusCodeMap[url].served else 0
    }

    /** The reply a request to `url` gets once its generator has produced `served`
        replies: the generator's next reply, or 200 with no header. */
    function Answer(url: Url, served: nat): Response
      requires Valid()
    {
      if url in statusCodeMap then ToResponse(StickyAt(statusCodeMap[url].codes, served))
      else Response(200, None)
    }

    /** What the next calls for `url` answer once `served` replies are used up. */
    ghost function FeedFrom(url: Url, served: nat): nat -> Response
      requires Valid()
    {
      if url in statusCodeMap then ScriptedFeed(statusCodeMap[url].codes, served)
      else UnmappedFeed()
    }

    lemma FeedFromAt(url: Url, served: nat, k: nat)
      requires Valid()
      ensures FeedFrom(url, served)(k) == Answer(url, served + k)
    {
    }

    /** `handle_request`: the next reply of the URL's generator, or 200 with no
        header for a URL that has none. */
    method HandleRequest(request: Request) returns (response: Response)
      requires Valid()
      modifies Streams(request.url)
      ensures response == Answer(request.url, old(Served(request.url)))
      ensures request.url in statusCodeMap ==>
        response == ToResponse(StickyAt(statusCodeMap[request.url].codes, old(statusCodeMap[request.url].served))) &&
        statusCodeMap[request.url].served == old(statusCodeMap[request.url].served) + 1
      ensures request.url !in statusCodeMap ==> response == Response(200, None)
    {
      if request.url in statusCodeMap {
        var entry := statusCodeMap[request.url].Next();
        response := ToResponse(entry);
      } else {
        response := Response(200, None);
      }
    }
  }

  /** The patched `time.sleep`: it records each duration it is called with. */
  class SleepMock {
    /** `call_args_list`: the durations, in call order. */
    var calls: seq<real>

    constructor ()
      ensures calls == []
    {
      calls := [];
    }

    method Sleep(seconds: real)
      modifies this
      ensures calls == old(calls) + [seconds]
    {
      calls := calls + [seconds];
    }
  }
}

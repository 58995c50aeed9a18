/** The remote booking services the travel agent talks to over HTTP. The
    transport itself is not modelled: one shared client object answers each
    request from a script of responses, fixed in advance, and keeps a ghost log
    of every exchange, in order. What each remote host stores is visible only
    through that log. */
module Remote {
  import opened Common

  /** The three remote booking services. */
  datatype Host = HotelHost | FlightHost | TaxiHost

  /** An outbound request: a booking POST carrying the customer id, the id of
      the hotel or flight to book and the booking date, or a DELETE of a
      booking id, where a null id is carried into the URI as it is. */
  datatype Request =
    | Post(host: Host, customerId: int, resourceId: int, bookingDate: string)
    | Delete(host: Host, bookingId: Option<int>)

  /** How a remote service can answer: 201 with a JSON body holding the new
      booking's id, 201 with a body that has no `id` field, any other status,
      or no answer at all (an IOException from the client). */
  datatype Resp = Created(id: int) | CreatedBadBody | OtherStatus(code: int) | TransportError

  datatype Exchange = Exchange(request: Request, response: Resp)

  /** The next scripted answer; once the script is exhausted every request
      fails in transport. */
  function NextResponse(script: seq<Resp>): Resp {
    if script == [] then TransportError else script[0]
  }

  /** The script left after one request has been answered. */
  function RestScript(script: seq<Resp>): seq<Resp> {
    if script == [] then [] else script[1..]
  }

  /** No exchange in `xs` goes to host `h`. */
  predicate NoContact(xs: seq<Exchange>, h: Host) {
    forall i :: 0 <= i < |xs| ==> xs[i].request.host != h
  }

  /** The DELETE requests among the exchanges, in the order they were sent. */
  function Deletes(xs: seq<Exchange>): (ds: seq<Request>)
    ensures |ds| <= |xs|
    ensures forall i :: 0 <= i < |ds| ==> ds[i].Delete?
  {
    if xs == [] then []
    else Deletes(xs[..|xs| - 1]) + (if xs[|xs| - 1].request.Delete? then [xs[|xs| - 1].request] else [])
  }

  /** Deletes distributes over concatenation of exchange logs. */
  lemma {:induction false} DeletesAppend(xs: seq<Exchange>, ys: seq<Exchange>)
    ensures Deletes(xs + ys) == Deletes(xs) + Deletes(ys)
  {
    if ys != [] {
      var init := ys[..|ys| - 1];
      assert (xs + ys)[..|xs + ys| - 1] == xs + init;
      assert (xs + ys)[|xs + ys| - 1] == ys[|ys| - 1];
      DeletesAppend(xs, init);
    } else {
      assert xs + ys == xs;
    }
  }

  /** The HTTP client shared by the travel-agent services. */
  class RemoteHosts {
    /** The answers still to come, in order. */
    var script: seq<Resp>
    /** Every request sent so far, with the answer it got. */
    ghost var log: seq<Exchange>

    constructor (script: seq<Resp>)
      ensures this.script == script && log == []
    {
      this.script := script;
      log := [];
    }

    /** httpClient.execute: send one request and take the next scripted answer. */
    method Execute(req: Request) returns (resp: Resp)
      modifies this
      ensures resp == NextResponse(old(script))
      ensures script == RestScript(old(script))
      ensures log == old(log) + [Exchange(req, resp)]
    {
      resp := NextResponse(script);
      script := RestScript(script);
      log := log + [Exchange(req, resp)];
    }
  }
}

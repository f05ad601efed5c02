/**
 * `ReplicationMiddleware.dispatch`: before the request reaches the routers, the value of the
 * `X-Replicated-From` header decides two request-state fields, `is_replicated` and
 * `source_server`; the request is then passed on once and its response returned as it is.
 */
module Middleware {
  import opened Wrappers

  /**
   * Request headers as the server holds them: name/value pairs in arrival order, names in
   * lower case (HTTP header names are case-insensitive, and the ASGI server lowers them).
   */
  type Headers = seq<(string, string)>

  const ReplicatedFrom := "x-replicated-from"

  /** Position `i` holds the first header called `name`. */
  ghost predicate FirstNamed(headers: Headers, name: string, i: int) {
    0 <= i < |headers| && headers[i].0 == name && forall j :: 0 <= j < i ==> headers[j].0 != name
  }

  /** `headers.get(name)`: the value of the first header with that name. */
  function Header(headers: Headers, name: string): (v: Option<string>)
    ensures v.None? <==> forall i :: 0 <= i < |headers| ==> headers[i].0 != name
    ensures v.Some? ==> exists i :: FirstNamed(headers, name, i) && headers[i].1 == v.value
  {
    if |headers| == 0 then None
    else if headers[0].0 == name then (assert FirstNamed(headers, name, 0); Some(headers[0].1))
    else
      var v := Header(headers[1..], name);
      assert v.Some? ==> exists i :: FirstNamed(headers, name, i) && headers[i].1 == v.value by {
        if v.Some? {
          var i :| FirstNamed(headers[1..], name, i) && headers[1..][i].1 == v.value;
          assert FirstNamed(headers, name, i + 1);
        }
      }
      v
  }

  /** What the middleware leaves in the request state. */
  datatype Context = Context(isReplicated: bool, sourceServer: Option<string>)

  /**
   * The state the dispatch computes: a non-empty header value marks the request as replicated
   * from that server; an absent or empty one marks it as local, with no source.
   */
  function ReplicationContext(headers: Headers): (c: Context)
    ensures c.isReplicated <==> c.sourceServer.Some?
    ensures c.isReplicated <==> Header(headers, ReplicatedFrom).Some? && Header(headers, ReplicatedFrom).value != ""
    ensures c.isReplicated ==> c.sourceServer == Header(headers, ReplicatedFrom)
  {
    match Header(headers, ReplicatedFrom)
    case Some(v) => if v != "" then Context(true, Some(v)) else Context(false, None)
    case None => Context(false, None)
  }

  /** Only the first `X-Replicated-From` header counts: later ones never change the context. */
  lemma FirstHeaderDecides(headers: Headers, more: Headers)
    requires exists i :: 0 <= i < |headers| && headers[i].0 == ReplicatedFrom
    ensures ReplicationContext(headers + more) == ReplicationContext(headers)
  {
    HeaderPrefix(headers, more, ReplicatedFrom);
  }

  /** A header with another name, wherever it sits, never changes the context. */
  lemma OtherHeadersIgnored(front: Headers, name: string, value: string, back: Headers)
    requires name != ReplicatedFrom
    ensures ReplicationContext(front + [(name, value)] + back) == ReplicationContext(front + back)
  {
    HeaderSkips(front, name, value, back, ReplicatedFrom);
  }

  lemma {:induction false} HeaderSkips(front: Headers, name: string, value: string, back: Headers, key: string)
    requires name != key
    ensures Header(front + [(name, value)] + back, key) == Header(front + back, key)
    decreases |front|
  {
    var h := (name, value);
    if |front| == 0 {
      assert front + [h] + back == [h] + back;
      assert ([h] + back)[1..] == back;
      assert front + back == back;
    } else {
      assert (front + [h] + back)[0] == front[0];
      assert (front + [h] + back)[1..] == front[1..] + [h] + back;
      assert (front + back)[0] == front[0];
      assert (front + back)[1..] == front[1..] + back;
      HeaderSkips(front[1..], name, value, back, key);
    }
  }

  lemma {:induction false} HeaderPrefix(headers: Headers, more: Headers, name: string)
    requires exists i :: 0 <= i < |headers| && headers[i].0 == name
    ensures Header(headers + more, name) == Header(headers, name)
  {
    if headers[0].0 != name {
      assert (headers + more)[1..] == headers[1..] + more;
      var i :| 0 <= i < |headers| && headers[i].0 == name;
      assert headers[1..][i - 1].0 == name;
      HeaderPrefix(headers[1..], more, name);
    }
  }

  /** A field of `request.state`: not yet assigned, or assigned a value. */
  datatype Slot<T> = Unassigned | Assigned(value: T)

  /** `request.state`, restricted to the two fields the middleware writes. */
  class RequestState {
    var isReplicated: Slot<bool>
    var sourceServer: Slot<Option<string>>

    constructor ()
      ensures isReplicated == Unassigned && sourceServer == Unassigned
    {
      isReplicated, sourceServer := Unassigned, Unassigned;
    }
  }

  /** A response, opaque to the middleware. */
  datatype Response = Response(status: int, body: seq<char>)

  /** `call_next`: the rest of the application, which records the state it sees and answers. */
  class Downstream {
    /** The request states seen by the application so far, in call order. */
    var seen: seq<(Slot<bool>, Slot<Option<string>>)>
    const response: Response

    constructor (response: Response)
      ensures seen == [] && this.response == response
    {
      seen := [];
      this.response := response;
    }

    method Call(state: RequestState) returns (r: Response)
      modifies this
      ensures seen == old(seen) + [(state.isReplicated, state.sourceServer)]
      ensures r == response
    {
      seen := seen + [(state.isReplicated, state.sourceServer)];
      r := response;
    }
  }

  /**
   * `dispatch`: both state fields are assigned from the header before the application runs,
   * the application runs exactly once, and its response is returned unchanged.
   */
  method Dispatch(headers: Headers, state: RequestState, next: Downstream) returns (r: Response)
    modifies state, next
    ensures var c := ReplicationContext(headers);
      && state.isReplicated == Assigned(c.isReplicated)
      && state.sourceServer == Assigned(c.sourceServer)
      && next.seen == old(next.seen) + [(Assigned(c.isReplicated), Assigned(c.sourceServer))]
    ensures r == next.response
  {
    var replicatedFrom := Header(headers, ReplicatedFrom);
    if replicatedFrom.Some? && replicatedFrom.value != "" {
      state.isReplicated := Assigned(true);
      state.sourceServer := Assigned(Some(replicatedFrom.value));
    } else {
      state.isReplicated := Assigned(false);
      state.sourceServer := Assigned(None);
    }
    r := next.Call(state);
  }
}

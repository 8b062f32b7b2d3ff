/**
 * The session registry as a value: the two callbacks that write it
 * (`onsessioninitialized` stores, `onclose` deletes), the registry a history of
 * such callbacks produces, and an independent account of which sessions are
 * open after that history.
 */
module Sessions {
  import opened Options
  import opened Routing

  /** One registry write, as fired by a transport's callbacks. */
  datatype Event<H> =
      /** `onsessioninitialized(id)` of `transport`: store it under `id`. */
    | Opened(id: string, transport: H)
      /** `onclose` of a transport whose `sessionId` field is `sessionId`. */
    | Closed(sessionId: Option<string>)

  /** Whether `e` deletes key `id`: `onclose` deletes only when `sessionId` is set. */
  predicate Removes<H>(e: Event<H>, id: string) {
    e.Closed? && HasSessionId(e.sessionId) && e.sessionId.value == id
  }

  /**
   * The registry after one callback. Opening stores the transport under its id
   * (overwriting any earlier entry); closing deletes exactly the transport's
   * id when it is set and is a no-op otherwise or when the id is absent; no
   * other key changes. A fresh id grows the registry by one.
   */
  function Apply<H>(transports: map<string, H>, e: Event<H>): (r: map<string, H>)
    ensures e.Opened? ==> r.Keys == transports.Keys + {e.id} && r[e.id] == e.transport
    ensures e.Opened? && e.id !in transports ==> |r| == |transports| + 1
    ensures e.Closed? && HasSessionId(e.sessionId) ==> r.Keys == transports.Keys - {e.sessionId.value}
    ensures e.Closed? && !HasSessionId(e.sessionId) ==> r == transports
    ensures forall k :: k in r && !(e.Opened? && k == e.id) ==> k in transports && r[k] == transports[k]
  {
    match e
    case Opened(id, t) => transports[id := t]
    case Closed(sid) => if HasSessionId(sid) then transports - {sid.value} else transports
  }

  /** A second close of the same transport leaves the registry as the first did. */
  lemma CloseIsIdempotent<H>(transports: map<string, H>, sessionId: Option<string>)
    ensures Apply(Apply(transports, Closed(sessionId)), Closed(sessionId)) == Apply(transports, Closed(sessionId))
  {
  }

  /** The registry that the callbacks of history `h` build, starting from the empty one. */
  function Replay<H>(h: seq<Event<H>>): map<string, H> {
    if h == [] then map[] else Apply(Replay(h[..|h| - 1]), h[|h| - 1])
  }

  /** Event `i` of `h` opened a session that no later close has deleted. */
  ghost predicate StillOpen<H>(h: seq<Event<H>>, i: int) {
    0 <= i < |h| && h[i].Opened? && forall j :: i < j < |h| ==> !Removes(h[j], h[i].id)
  }

  /** The ids of the sessions that are open after `h`: handshaked and not closed since. */
  ghost function OpenSessions<H>(h: seq<Event<H>>): set<string> {
    set i | 0 <= i < |h| && StillOpen(h, i) :: h[i].id
  }

  /** A session is open after `p + [e]` when `e` opens it, or when it was open after `p` and `e` does not delete it. */
  lemma StillOpenStep<H>(p: seq<Event<H>>, e: Event<H>, i: int)
    ensures StillOpen(p + [e], i) <==>
      (i == |p| && e.Opened?) || (0 <= i < |p| && StillOpen(p, i) && !Removes(e, p[i].id))
  {
    var h := p + [e];
    if 0 <= i < |p| && StillOpen(p, i) && !Removes(e, p[i].id) {
      forall j | i < j < |h| ensures !Removes(h[j], h[i].id) {
        if j < |p| { assert h[j] == p[j]; }
      }
    }
    if 0 <= i < |p| && StillOpen(h, i) {
      forall j | i < j < |p| ensures !Removes(p[j], p[i].id) {
        assert h[j] == p[j];
      }
      assert h[|p|] == e;
    }
  }

  /** How one callback changes the set of open sessions. */
  lemma OpenSessionsStep<H>(p: seq<Event<H>>, e: Event<H>)
    ensures OpenSessions(p + [e]) ==
      if e.Opened? then OpenSessions(p) + {e.id}
      else if HasSessionId(e.sessionId) then OpenSessions(p) - {e.sessionId.value}
      else OpenSessions(p)
  {
    var h := p + [e];
    forall k | k in OpenSessions(h)
      ensures k in OpenSessions(p) || (e.Opened? && k == e.id)
      ensures !Removes(e, k)
    {
      var i :| 0 <= i < |h| && StillOpen(h, i) && h[i].id == k;
      StillOpenStep(p, e, i);
      if i < |p| { assert h[i] == p[i]; }
    }
    forall k | k in OpenSessions(p) && !Removes(e, k) ensures k in OpenSessions(h) {
      var i :| 0 <= i < |p| && StillOpen(p, i) && p[i].id == k;
      StillOpenStep(p, e, i);
      assert h[i] == p[i];
    }
    if e.Opened? {
      StillOpenStep(p, e, |p|);
      assert h[|p|] == e;
    }
  }

  /** The registry holds exactly the open sessions. */
  lemma {:induction false} ReplayKeys<H>(h: seq<Event<H>>)
    ensures Replay(h).Keys == OpenSessions(h)
  {
    if h != [] {
      var n := |h| - 1;
      var p := h[..n];
      assert h == p + [h[n]];
      ReplayKeys(p);
      OpenSessionsStep(p, h[n]);
    }
  }

  /**
   * An open session whose id was not opened again later is mapped to the
   * transport that opened it.
   */
  lemma {:induction false} ReplayLatest<H>(h: seq<Event<H>>, i: int)
    requires StillOpen(h, i)
    requires forall j :: i < j < |h| ==> !(h[j].Opened? && h[j].id == h[i].id)
    ensures h[i].id in Replay(h) && Replay(h)[h[i].id] == h[i].transport
  {
    var n := |h| - 1;
    var p := h[..n];
    assert h == p + [h[n]];
    assert Replay(h) == Apply(Replay(p), h[n]);
    if i < n {
      assert StillOpen(p, i);
      ReplayLatest(p, i);
      assert !Removes(h[n], h[i].id);
    } else {
      assert h[n] == Opened(h[i].id, h[i].transport);
    }
  }

  /**
   * Once a transport registered under `id` is closed, and as long as no new
   * handshake reuses `id`, every request bearing `id` is routed exactly as if
   * `id` had never been registered: POST is rejected and GET/DELETE find no
   * session.
   */
  lemma {:induction false} ClosedSessionIsUnknown<H>(h: seq<Event<H>>, k: int, id: string, isInit: bool)
    requires 0 <= k < |h| && Removes(h[k], id)
    requires forall j :: k < j < |h| ==> !(h[j].Opened? && h[j].id == id)
    ensures id !in Replay(h)
    ensures PostRoute(Some(id), Replay(h), isInit) == PostRoute<H>(Some(id), map[], isInit) == Reject
    ensures SessionRoute(Some(id), Replay(h)) == SessionRoute<H>(Some(id), map[]) == None
  {
    ReplayKeys(h);
  }

  /**
   * After a handshake registers `transport` under a non-empty `id`, and until
   * that id is closed or handshaked again, every POST bearing `id` reuses that
   * very transport and GET/DELETE forward to it.
   */
  lemma {:induction false} OpenSessionIsReused<H>(h: seq<Event<H>>, k: int, isInit: bool)
    requires StillOpen(h, k) && h[k].id != ""
    requires forall j :: k < j < |h| ==> !(h[j].Opened? && h[j].id == h[k].id)
    ensures PostRoute(Some(h[k].id), Replay(h), isInit) == Reuse(h[k].id)
    ensures SessionRoute(Some(h[k].id), Replay(h)) == Some(h[k].id)
    ensures Replay(h)[h[k].id] == h[k].transport
  {
    ReplayLatest(h, k);
  }
}

/** What the readiness queries tell the user. */
module Queries {
  import opened SocketTypes
  import opened RecyclableList
  import opened Engine
  import opened EngineInvariant

  predicate SaysInitialising(w: World, id: Uuid) {
    id in w.ids && w.At(w.ids[id]).state.Rank() <= RETRY_CONNECTION.Rank()
  }

  predicate SaysConnected(w: World, id: Uuid) {
    id in w.ids && w.At(w.ids[id]).state == CONNECTED
  }

  predicate SaysListening(w: World, id: Uuid) {
    id in w.ids && w.At(w.ids[id]).state == LISTENING
  }

  /** An id that names a live socket is reported as initialising exactly while the connection of a new
      socket is pending, or when the socket was left behind by a refused option; the pending connection
      of a recycled socket is not reported.  It is reported as connected exactly when a receive is in
      flight and the socket is not draining. */
  lemma {:induction false} QueriesMean(w: World, id: Uuid)
    requires Inv(w) && id in w.ids && w.ids[id] in w.sockets.live
    ensures var r := w.ids[id];
            var t := TallyOf(w.posted, r);
            && (SaysInitialising(w, id) <==>
                  (t.connects == 1 && w.At(r).state != DISCONNECTED) || w.At(r).state == ASSOCIATED)
            && (SaysConnected(w, id) <==> t.recvs == 1 && !Draining(w.At(r).state))
            && (SaysListening(w, id) <==> w.At(r).state == LISTENING)
            && (t.accepts == 1 ==> SaysListening(w, id))
            && (SaysListening(w, id) ==> w.mgr == SERVER_LISTENING && t == NOTHING.(accepts := t.accepts))
            && !(SaysInitialising(w, id) && (SaysConnected(w, id) || SaysListening(w, id)))
  {
    hide TallyOf;
    assert SockOk(w, w.ids[id]);
  }
}

/** What the users' calls and the listen thread's passes do to the flags and counts of
    the lock model, step by step. */
module CallSteps {
  import opened Common
  import opened ListenerFlags
  import opened Protocol

  /** stopListening, from its test to its return: nothing without a listen thread. */
  lemma StopListeningSteps(s: State, u: nat, x: Choice)
    requires u in s.u && s.u[u].UIdle? && !s.quit && x.call == CallStopListening
    ensures UserCan(s, u, x)
    ensures var t := UserStep(s, u, x);
      if s.listenRun then
        && t.u[u] == UStopWake && t.f == s.f.(enabled := false)
        && UserCan(t, u, x) && UserStep(t, u, x).f == s.f.(enabled := false, wakeup := true)
        && UserStep(t, u, x).u[u] == UIdle
      else t.u[u] == UIdle && t.f == s.f
  {
  }

  /** setListener under D: the new listener does not listen, and a change is asked for
      exactly if listening is enabled. */
  lemma SetListenerStep(s: State, u: nat, x: Choice)
    requires u in s.u && s.u[u] == UData(SetListener)
    ensures var t := UserStep(s, u, x);
      && t.f.listening == false && t.f.enabled == s.f.enabled && t.f.available == s.f.available
      && (t.f.changing <==> s.f.changing || s.f.enabled) && t.f.wakeup == s.f.wakeup && t.d.None? && t.u[u] == UIdle
  {
  }

  /** connectTo under D: one more request, and the connect thread is started if it was
      not running. */
  lemma ConnectToStep(s: State, u: nat, x: Choice)
    requires u in s.u && s.u[u] == UData(ConnectTo)
    ensures var t := UserStep(s, u, x);
      && t.queue == s.queue + 1 && t.connectRun && t.k == (if s.connectRun then s.k else KTop)
      && t.d.None? && t.u[u] == UStart && t.f == s.f
  {
  }

  /** sendData under D: one more buffer and the send thread started, or, without the
      peer, on to the callback mutex with D held. */
  lemma SendDataStep(s: State, u: nat, x: Choice)
    requires u in s.u && s.u[u] == UData(SendData)
    ensures var t := UserStep(s, u, x);
      && (x.ok ==> t.outbox == s.outbox + 1 && t.sendRun && t.s == (if s.sendRun then s.s else STop)
                   && t.d.None? && t.u[u] == UIdle)
      && (!x.ok ==> t.outbox == s.outbox && t.sendRun == s.sendRun && t.s == s.s && t.d == s.d && t.u[u] == USendWant)
      && t.f == s.f
  {
  }

  /** Starting the listen thread: tested without a mutex, started with D. */
  lemma StartSteps(s: State, u: nat, x: Choice)
    requires u in s.u
    ensures s.u[u].UStart? ==> (
      && UserStep(s, u, x).listenRun && UserStep(s, u, x).l == s.l
      && UserStep(s, u, x).u[u] == if s.listenRun then UIdle else UStartWant)
    ensures s.u[u].UStarting? ==> UserStep(s, u, x).l == LTop && UserStep(s, u, x).d.None?
  {
  }

  /** The answer of listen decides the flags of an opening; the close clears them. */
  lemma OpenAndCloseSteps(s: State, x: Choice)
    ensures s.l.LOpening? && x.ok ==> ListenStep(s, x).f == s.f.(available := true, listening := true)
    ensures s.l.LOpening? && !x.ok ==> ListenStep(s, x).f == s.f.(listening := false)
    ensures s.l == LOpenFailed(Held) ==> ListenStep(s, x).f == s.f.(available := false, enabled := false)
    ensures s.l.LOpenDone? ==> ListenStep(s, x).f == s.f.(changing := false) && ListenStep(s, x).d.None?
    ensures s.l.LClosing? ==> ListenStep(s, x).f == s.f.(available := false, listening := false)
    ensures s.l.LClear? ==> ListenStep(s, x).f == s.f.(wakeup := false)
  {
  }
}

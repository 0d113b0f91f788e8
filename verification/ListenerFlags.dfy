/** The flags that tell the listen thread what to do with the listener. */
module ListenerFlags {

  datatype Flags = Flags(
    enabled: bool,     // m_listening_enabled
    available: bool,   // m_listener_available
    changing: bool,    // m_changing_listener
    wakeup: bool,      // m_wakeup_listen_thread
    listening: bool)   // m_listener->isListening()

  /** What one undisturbed reconfiguration pass makes of the flags; `ok` is
      what `listen` answers, if it is asked. */
  function Pass(f: Flags, ok: bool): Flags {
    if (f.enabled && !f.available) || f.changing then
      Flags(f.enabled && ok, ok, false, false, ok)
    else if !f.enabled && f.available then
      f.(available := false, listening := false, wakeup := false)
    else
      f.(wakeup := false)
  }

  /** The listener is what the user asked for. */
  predicate Settled(f: Flags) {
    f.enabled == f.available == f.listening && !f.changing
  }

  /** What holds of the flags whenever no request is half-way through. */
  predicate Consistent(f: Flags) {
    && (f.listening ==> f.available)
    && (f.available && !f.listening ==> f.changing || !f.enabled)
  }

  /** How many passes are still needed, at most. */
  function PassesNeeded(f: Flags): nat {
    if Settled(f) then 0 else if f.changing && !f.enabled then 2 else 1
  }

  /** From any consistent flags two passes settle the listener, whatever
      `listen` answers, and more passes change nothing but the wake-up flag. */
  lemma TwoPassesSettle(f: Flags, ok1: bool, ok2: bool, ok3: bool)
    requires Consistent(f)
    ensures Settled(Pass(Pass(f, ok1), ok2))
    ensures Pass(Pass(Pass(f, ok1), ok2), ok3) == Pass(Pass(f, ok1), ok2)
    ensures !Settled(Pass(f, ok1)) <==> (f.changing && !f.enabled && ok1)
  {
  }
}

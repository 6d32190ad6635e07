/** The pause gate around a logged-in session's outbound traffic
    (index.js:375-408): the wrapped `chat` and `_client.write`, and the
    packet counter they feed. */
module Gate {

  /** An outbound send through one of the wrappers. */
  datatype Packet = Chat | Write(name: string)

  /** What a wrapper does with a send. `Aborted` is a chat that passed the
      gate and was counted, but whose wrapper then reads `stealthMode`, a
      name not in scope at index.js:380; the read throws, so the chat is
      never handed to the original `chat`. */
  datatype Outcome = Suppressed | Forwarded | Aborted

  /** Packets a paused session still writes: protocol keep-alives and
      teleport confirmations. */
  predicate IsEssential(name: string) {
    name == "keep_alive" || name == "teleport_confirm"
  }

  /** The wrappers' behaviour. */
  function Send(paused: bool, p: Packet): (o: Outcome)
    ensures p.Chat? ==> o != Forwarded
    ensures p.Write? ==> o != Aborted
  {
    match p
    case Chat => if paused then Suppressed else Aborted
    case Write(name) => if paused && !IsEssential(name) then Suppressed else Forwarded
  }

  /** The wrapper incremented `packetCount`. */
  predicate Counted(o: Outcome) {
    o != Suppressed
  }

  /** Which sends pass the gate, stated without the wrappers: everything
      while running, only essential writes while paused. */
  predicate PassesGate(paused: bool, p: Packet) {
    !paused || (p.Write? && IsEssential(p.name))
  }

  /** A send is counted exactly when it passes the gate; while paused no
      chat is ever counted. */
  lemma CountedIffPasses(paused: bool, p: Packet)
    ensures Counted(Send(paused, p)) <==> PassesGate(paused, p)
    ensures paused && p.Chat? ==> Send(paused, p) == Suppressed
  {
  }
}

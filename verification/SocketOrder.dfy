// When a newer message can overtake an early one on a VWS/1 socket.

module SocketOrder {
  import opened VwsSocket
  import opened SocketOvertaking

  /**
   * From any state a run can reach, some continuation writes a later message before an
   * early one that is waiting, if and only if this condition holds; without it all that
   * wait keep their place before every later message.
   */
  lemma {:induction false} OvertakingExactly(s: State)
    requires Inv(s)
    ensures CanOvertake(s) <==> exists actions :: Overtaken(|s.wire|, Ids(Early(s)), Run(s, actions).wire)
  {
    if CanOvertake(s) {
      var actions := SomeRunOvertakes(s);
    } else {
      CannotIsSafe(s);
      hide Run, Inv;
      forall actions ensures !Overtaken(|s.wire|, Ids(Early(s)), Run(s, actions).wire) {
        SafeRun(|s.wire|, Ids(Early(s)), s, actions);
      }
    }
  }
}

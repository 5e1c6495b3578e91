/** The turns of the write loop are steps of the hub. */
module WriterSteps {
  import opened Protocol
  import opened PeerModel
  import opened HubModel
  import opened Connection

  /** The step a turn of `p`'s write loop takes, given its channels; no step if the case `select` picked
      is not ready, or the loop is over. */
  function StepOf(b: Outbox, p: PeerId, e: Event): Option<Step>
  {
    match b.writer
    case Running =>
      (match e
       case TakeFrame(ok) =>
         if b.queue == [] then None else if ok then Some(WriteStep(p)) else Some(WriteFailStep(p))
       case TakeClose => if b.closing == [] then None else Some(TakeCloseStep(p))
       case Ping(true) => None
       case _ => Some(StopWriterStep(p)))
    case Flushing(_) =>
      if b.queue == [] then Some(FlushEndStep(p))
      else if e == TakeFrame(false) then Some(WriteFailStep(p)) else Some(WriteStep(p))
    case _ => None
  }

  /** A turn of a started write loop is an enabled step of the hub with that very effect, or leaves the
      channels alone. */
  lemma TurnIsStep(cfg: Config, st: State, p: PeerId, e: Event)
    requires WellFormed(st) && p < |st.peers| && Started(st.peers[p]) && !e.Pushed? && !e.Asked?
    ensures var b := st.peers[p].box;
            match StepOf(b, p, e)
            case None => React(cfg, b, e) == b
            case Some(step) => Enabled(st, step) && Next(cfg, st, step) == SetBox(st, p, React(cfg, b, e))
  {
    hide WellFormed;
  }
}

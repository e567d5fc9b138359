/**
 Values shared by every part of the endpoint model.

 The engine and parser crates are not visible, so each of their move-only
 objects (writers, streams, publications, sessions, jobs, roots) is a
 `Resource`: an identity plus the amount of release work it still owes. What an
 engine call answers is always a parameter of the operation that makes the call;
 `LegalRelease` is the only thing the model assumes about such an answer.
 */
module Engine {

  datatype Option<+T> = None | Some(value: T)

  /**
   `Overdrawn` stands for a fuel subtraction below zero: the source would trap
   there, and the model proves that it never happens.
   */
  datatype Error = Busy | InvalidState | InvalidAuthority | EngineFailure | Overdrawn | MetricOverflow

  datatype Outcome<+T> = Ok(value: T) | Err(error: Error)

  /** A move-only engine object: who it is, and how much release work is left. */
  datatype Resource = Resource(id: nat, work: nat)

  /** How often `id` occurs in one resource. */
  function Holds(r: Resource, id: nat): nat {
    if r.id == id then 1 else 0
  }

  function HoldsOption(r: Option<Resource>, id: nat): nat {
    if r.Some? then Holds(r.value, id) else 0
  }

  /** Identity of one source text: revision, tree root and both lengths. */
  datatype Source = Source(revision: nat, root: nat, bytes: nat, utf16: nat)

  /** The host's acknowledgement of one published structure. */
  datatype Ack = Ack(publication: nat, hostRevision: nat, source: Source, profile: nat)

  /**
   What an engine release poll answers: it fails when beginning, fails when
   polling, or spends some fuel.
   */
  datatype ReleaseReply = Failed(atBegin: bool) | Progress(spent: nat)

  /** A release poll stays within its fuel and moves while work is left. */
  predicate LegalRelease(r: Resource, fuel: nat, reply: ReleaseReply) {
    reply.Progress? ==>
      && reply.spent <= r.work
      && reply.spent <= fuel
      && (r.work > 0 && fuel > 0 ==> reply.spent > 0)
  }

  /** Work left after a legal answer; zero means the release has completed. */
  function WorkLeft(r: Resource, reply: ReleaseReply): nat {
    if reply.Progress? && reply.spent <= r.work then r.work - reply.spent else r.work
  }
}

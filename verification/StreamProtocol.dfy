/**
 The credited parser-to-host protocol that the candidate, hot-inline and viewport
 streams share: one phase per stream, advanced by event receipts and host polls.
 */
module StreamProtocol {
  import opened Engine

  const MAX_U32: nat := 0xFFFF_FFFF

  datatype StreamPhase =
    | NeedBegin
    | AwaitBeginReceipt
    | NeedPacket
    | AwaitPacketReceipt(first: nat, count: nat, end: bool)
    | AwaitPacketHost(ticket: nat, next: nat, end: bool)
    | NeedCommit
    | AwaitCommitReceipt
    | AwaitCommitHost(ticket: nat)
    | AwaitRecursiveGreenDelivery
    | AwaitDeliveryReceipt

  datatype Credit =
    | BeginCredit
    | PacketCredit(first: nat, count: nat, end: bool)
    | CommitCredit
    | DeliveryCredit

  datatype HostResult =
    | Rejected
    | PacketCredited(offer: nat, next: nat)
    | Committed(ack: Ack)

  datatype HostPhase = HostPacketCredit | HostCommit

  /** A stream in one of these phases has an event out and may not emit another. */
  predicate EventOutstanding(p: StreamPhase) {
    p.AwaitBeginReceipt? || p.AwaitPacketReceipt? || p.AwaitPacketHost?
    || p.AwaitCommitReceipt? || p.AwaitCommitHost? || p.AwaitDeliveryReceipt?
  }

  /** `accept_credit` on the phase; the delivery receipt is handled by the owner. */
  function AcceptCredit(p: StreamPhase, credit: Credit, event: nat): Outcome<StreamPhase> {
    if p.AwaitBeginReceipt? && credit.BeginCredit? then Ok(NeedPacket)
    else if p.AwaitPacketReceipt? && credit.PacketCredit?
      && p.first == credit.first && p.count == credit.count && p.end == credit.end then
      if p.first + p.count > MAX_U32 then Err(MetricOverflow)
      else Ok(AwaitPacketHost(event, p.first + p.count, p.end))
    else if p.AwaitCommitReceipt? && credit.CommitCredit? then Ok(AwaitCommitHost(event))
    else Err(InvalidState)
  }

  /** The host may speak only to the ticket and offer it was polled for. */
  predicate ExactTicket(p: StreamPhase, ticket: nat, sameOffer: bool, phase: HostPhase) {
    || (p.AwaitPacketHost? && phase.HostPacketCredit? && p.ticket == ticket && sameOffer)
    || (p.AwaitCommitHost? && phase.HostCommit? && p.ticket == ticket && sameOffer)
  }
}

/** The part of a sample the observer reads: header, emitter, payload length. */
module Wire {

  /** A correlation id is only ever compared for equality. */
  type Cid = nat

  datatype EventKind = Request | Next | Complete | Error | RpcError | Cancel {
    predicate IsTerminal() { Complete? || Error? || RpcError? }
  }

  datatype Direction = ToProvider | ToConsumer

  datatype RpcHeader = RpcHeader(cid: Cid, kind: EventKind, serviceId: nat, timestampNs: nat, seqNo: nat)

  datatype Emitter = Emitter(pid: nat, publisherId: nat)
}

/** The entries of the replicated log (log.go). */
module Logs {
  datatype LogType = Command | Noop | AddPeerDeprecated | RemovePeerDeprecated | Barrier | Configuration

  datatype Log = Log(index: nat, term: nat, kind: LogType, data: int)
}

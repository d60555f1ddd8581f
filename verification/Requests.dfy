/** What travels over the control channel. */
module Requests {
  import opened Config

  /** The requests of a client; a configuration and a temperature channel follow the command that announces them. */
  datatype Request = CmdStart | CmdStop | CmdConfig | CmdTemp | CmdBias | Unknown
                   | Data(document: Document) | Channel(c: char)

  datatype Reply = Running | Stopped | ReadyMsg | Configured | Voltage | TempError | UnknownCmd
}

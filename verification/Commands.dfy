/** The commands users send to the client's connection loop (src/ws/client/cmd.rs). */
module Commands {
  import opened Frames
  import opened Scheduler

  datatype ClientCmd = Send(frame: Frame, priority: MessagePriority) | EndpointChanged | Reconnect | WakeUp
}

/** The relay's message envelope, reduced to the fields that routing and accounting look at
    (internal/protocol/message.go, internal/protocol/limits.go). Texts stand for byte strings. */
module Frames {

  const MAX_FRAME_BYTES := 64 * 1024
  const MAX_EXEC_OUTPUT_BYTES := 4 * 1024 * 1024
  const MAX_RELAY_BUFFER_BYTES := 1024 * 1024
  const MAX_RELAY_QUEUE_FRAMES := 256
  const MAX_RELAY_INBOX_FRAMES := 64
  const MAX_WRITE_BYTES := 1024 * 1024
  const MAX_PATH_BYTES := 4096
  const MAX_ENVELOPE_BYTES := 8192
  const MAX_WS_MESSAGE_BYTES := 6 * (MAX_WRITE_BYTES + MAX_PATH_BYTES) + MAX_ENVELOPE_BYTES
  const MAX_RELAY_INBOX_BYTES := MAX_WS_MESSAGE_BYTES + MAX_RELAY_BUFFER_BYTES
  const MAX_RELAY_QUEUE_BYTES := 4 * 1024 * 1024 + MAX_WS_MESSAGE_BYTES
  const MAX_DEVICE_REQUESTS := 16
  const CONTROL_RESERVE_FRAMES := 2 * MAX_DEVICE_REQUESTS
  const CONTROL_RESERVE_BYTES := MAX_ENVELOPE_BYTES * MAX_DEVICE_REQUESTS

  datatype Kind =
    | Stdout | Stderr | Exit | Error | InvokeNack
    | Invoke | HelloOK | SettingsResult | AccessResult | ExecutionLease | Heartbeat

  /** `rest` is the total length of the variable-size fields not listed here. */
  datatype Frame = Frame(kind: Kind, exec: string, op: string, code: string, data: string, truncated: bool, rest: nat)

  function TypeName(kind: Kind): string {
    match kind
    case Stdout => "stdout"
    case Stderr => "stderr"
    case Exit => "exit"
    case Error => "error"
    case InvokeNack => "invoke_nack"
    case Invoke => "invoke"
    case HelloOK => "hello_ok"
    case SettingsResult => "device.settings.result"
    case AccessResult => "access.result"
    case ExecutionLease => "execution.lease"
    case Heartbeat => "heartbeat"
  }

  function RetainedBytes(f: Frame): nat {
    512 + |TypeName(f.kind)| + |f.exec| + |f.op| + |f.code| + |f.data| + f.rest
  }

  predicate IsOutput(f: Frame) {
    f.kind == Stdout || f.kind == Stderr
  }

  predicate IsTerminal(f: Frame) {
    f.kind == Exit || f.kind == Error || f.kind == InvokeNack
  }

  function Nack(exec: string, code: string): Frame {
    Frame(InvokeNack, exec, "", code, "", false, 0)
  }

  function Err(exec: string, code: string): Frame {
    Frame(Error, exec, "", code, "", false, 0)
  }

  function CancelFrame(exec: string): Frame {
    Frame(Invoke, exec, "cancel", "", "", false, 0)
  }
}

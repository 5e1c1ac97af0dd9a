/** Messages, their validation and the errors every channel reports (channel.go and errors.go). */
module ChannelModel {
  import opened Wrappers

  datatype Message = Message(id: string, kind: string, source: string, target: string, payload: string)

  datatype ChannelError =
    | InvalidMessageId | InvalidMessageType | InvalidSource | InvalidTarget
    | ChannelClosed | ChannelEmpty | SizeLimitExceeded | TimedOut | Cancelled

  function Validate(m: Message): Option<ChannelError> {
    if m.id == "" then Some(InvalidMessageId)
    else if m.kind == "" then Some(InvalidMessageType)
    else if m.source == "" then Some(InvalidSource)
    else if m.target == "" then Some(InvalidTarget)
    else None
  }

  /** A message is valid iff none of its four names is empty; the first empty one is reported. */
  lemma ValidateMeans(m: Message)
    ensures Validate(m) == None <==> m.id != "" && m.kind != "" && m.source != "" && m.target != ""
    ensures Validate(m) == Some(InvalidMessageId) <==> |m.id| == 0
    ensures Validate(m) == Some(InvalidMessageType) <==> |m.id| > 0 && |m.kind| == 0
    ensures Validate(m) == Some(InvalidSource) <==> |m.id| > 0 && |m.kind| > 0 && |m.source| == 0
    ensures Validate(m) == Some(InvalidTarget) <==> |m.id| > 0 && |m.kind| > 0 && |m.source| > 0 && |m.target| == 0
  {
  }
}

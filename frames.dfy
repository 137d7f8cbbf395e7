/** The wire frame, its commands and its responses, as datatypes (the JSON
    mapper that turns them into text is not part of this model). */
module Frames {
  import opened Types

  /** Protocol version written into every frame. */
  const Version: Int32 := 1

  /** `JsonCmd`: one command; an absent `timeout` is not written to the wire. */
  datatype JsonCmd = JsonCmd(cmd: string, id: Int32, args: Option<Json>, timeout: Option<Int32>)

  /** `JsonResp`: one response to an earlier command. */
  datatype JsonResp = JsonResp(id: Int32, status: Int32, statusMsg: string, resp: Option<Json>)

  /** `JsonFrame`: one message; `key`, `cmds` and `resp` are omitted when null. */
  datatype JsonFrame = JsonFrame(
    v: Int32,
    src: string,
    dst: string,
    key: Option<string>,
    cmds: Option<seq<JsonCmd>>,
    resp: Option<seq<JsonResp>>)

  /** The `JsonCmd(cmd, id, args, timeout)` constructor: a zero timeout is
      left out of the command. */
  function NewCmd(cmd: string, id: Int32, args: Option<Json>, timeout: Int32): JsonCmd
  {
    JsonCmd(cmd, id, args, if timeout != 0 then Some(timeout) else None)
  }

  /** The deadline a receiver reads from a command: an absent field means 0,
      that is, no deadline. */
  function DeadlineOf(c: JsonCmd): Int32
  {
    if c.timeout.Some? then c.timeout.value else 0
  }

  /** A built command carries its name, id and arguments, and reading its
      deadline back gives the timeout it was built with. The field is present
      exactly when that timeout is non-zero. */
  lemma NewCmdRoundTrip(cmd: string, id: Int32, args: Option<Json>, timeout: Int32)
    ensures NewCmd(cmd, id, args, timeout).cmd == cmd
    ensures NewCmd(cmd, id, args, timeout).id == id
    ensures NewCmd(cmd, id, args, timeout).args == args
    ensures DeadlineOf(NewCmd(cmd, id, args, timeout)) == timeout
    ensures NewCmd(cmd, id, args, timeout).timeout.None? <==> timeout == 0
  {
  }

  /** The legacy `JsonCmd(cmd, id, args)`, which has no timeout field. */
  function LegacyCmd(cmd: string, id: Int32, args: Option<Json>): JsonCmd
  {
    JsonCmd(cmd, id, args, None)
  }

  /** A legacy command carries its name, id and args, never a timeout, so it
      asks for no deadline. */
  lemma LegacyCmdRoundTrip(cmd: string, id: Int32, args: Option<Json>)
    ensures LegacyCmd(cmd, id, args).cmd == cmd
    ensures LegacyCmd(cmd, id, args).id == id
    ensures LegacyCmd(cmd, id, args).args == args
    ensures LegacyCmd(cmd, id, args).timeout.None?
    ensures DeadlineOf(LegacyCmd(cmd, id, args)) == 0
  {
  }

  /** `JsonFrame.createFrameCmd`: a frame from this device to `dst`, signed
      with the device key, holding exactly one command and no responses. */
  function CreateFrameCmd(deviceId: string, devicePsk: string, dst: string, c: JsonCmd): JsonFrame
  {
    JsonFrame(Version, deviceId, dst, Some(devicePsk), Some([c]), None)
  }

  /** A frame this client may send: current version, commands only. */
  predicate IsCommandFrame(f: JsonFrame)
  {
    f.v == Version && f.cmds.Some? && f.resp.None?
  }

  /** The single command a command frame carries, if it carries exactly one. */
  function SingleCmd(f: JsonFrame): Option<JsonCmd>
  {
    if f.cmds.Some? && |f.cmds.value| == 1 then Some(f.cmds.value[0]) else None
  }

  /** A frame built by `createFrameCmd` is a command frame addressed as
      asked, and the command read back from it is the one put in. */
  lemma CreateFrameCmdRoundTrip(deviceId: string, devicePsk: string, dst: string, c: JsonCmd)
    ensures IsCommandFrame(CreateFrameCmd(deviceId, devicePsk, dst, c))
    ensures SingleCmd(CreateFrameCmd(deviceId, devicePsk, dst, c)) == Some(c)
    ensures CreateFrameCmd(deviceId, devicePsk, dst, c).src == deviceId
    ensures CreateFrameCmd(deviceId, devicePsk, dst, c).dst == dst
    ensures CreateFrameCmd(deviceId, devicePsk, dst, c).key == Some(devicePsk)
  {
  }
}

/** The frontend bridge's parsing of a command name into a stream command. */
module Frontend {
  import opened Stream

  /** The four command names; anything else, including lower-case spellings,
      falls back to SUBSCRIBE. */
  function CommandTypeFromString(cmd: string): (c: CommandType)
    ensures !c.Unrecognized?
    ensures c == Pause <==> cmd == "PAUSE"
    ensures c == Resume <==> cmd == "RESUME"
    ensures c == Unsubscribe <==> cmd == "UNSUBSCRIBE"
    ensures c == Subscribe <==> cmd != "PAUSE" && cmd != "RESUME" && cmd != "UNSUBSCRIBE"
  {
    if cmd == "SUBSCRIBE" then Subscribe
    else if cmd == "PAUSE" then Pause
    else if cmd == "RESUME" then Resume
    else if cmd == "UNSUBSCRIBE" then Unsubscribe
    else Subscribe
  }

  /** An unrecognised name acts on the stream as SUBSCRIBE does: it subscribes and
      clears a pause. */
  lemma UnknownCommandResubscribes(f: Flags, cmd: string)
    requires cmd != "SUBSCRIBE" && cmd != "PAUSE" && cmd != "RESUME" && cmd != "UNSUBSCRIBE"
    ensures Apply(f, CommandTypeFromString(cmd)) == Flags(true, false)
    ensures Live(Apply(f, CommandTypeFromString(cmd)))
  {
  }

  /** Lower-case names are not recognised: "pause" subscribes instead of pausing. */
  lemma LowerCaseScenario()
    ensures CommandTypeFromString("pause") == Subscribe
    ensures CommandTypeFromString("unsubscribe") == Subscribe
    ensures CommandTypeFromString("SUBSCRIBE") == Subscribe
  {
  }
}

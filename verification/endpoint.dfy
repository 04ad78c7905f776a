/** The console command handling every endpoint shares: "stop" stops it, "help" lists the
    commands, anything else is reported as unknown before the list. The log lines are returned
    rather than printed. */
module Endpoint {

  /** The verdict of `handleCommand` and the lines it logs. */
  datatype Reply = Reply(stop: bool, log: seq<string>)

  const HELP: seq<string> := ["Available commands:", "  help", "  stop"]

  /** `Endpoint.handleCommand`. */
  function HandleCommand(command: string): (r: Reply)
    ensures r.stop <==> command == "stop"
    ensures r.stop ==> r.log == []
    ensures !r.stop ==> |r.log| >= 3 && r.log[|r.log| - 3..] == HELP
    ensures command == "help" ==> r.log == HELP
    ensures command != "stop" && command != "help" ==> r.log == ["Unknown command!"] + HELP
  {
    if command == "stop" then Reply(true, [])
    else if command == "help" then Reply(false, HELP)
    else Reply(false, ["Unknown command!"] + HELP)
  }

  /** Only the exact, case-sensitive word stops the endpoint: a different case or surrounding
      blanks do not, and neither does an `add` command. */
  lemma OnlyExactStopStops()
    ensures HandleCommand("stop").stop
    ensures !HandleCommand("STOP").stop && !HandleCommand("stop ").stop && !HandleCommand(" stop").stop
    ensures !HandleCommand("help").stop
    ensures !HandleCommand("add 80 localhost:8080").stop
  {
  }
}

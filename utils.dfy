/** guts/utils.py: the wrapper that hands shell commands to oslo's processutils. */
module Utils {
  import opened PyValues

  /** A call handed to `processutils.execute`: the command words and keyword arguments. */
  datatype ProcessCall = ProcessCall(cmd: seq<string>, kwargs: Dict)

  /** `get_root_helper()`, for the configured `rootwrap_config` path. */
  function RootHelper(rootwrapConfig: string): (helper: string)
    ensures |helper| == |"sudo guts-rootwrap "| + |rootwrapConfig|
    ensures helper[..|"sudo guts-rootwrap "|] == "sudo guts-rootwrap "
    ensures helper[|"sudo guts-rootwrap "|..] == rootwrapConfig
  {
    "sudo guts-rootwrap " + rootwrapConfig
  }

  /**
   * `execute(*cmd, **kwargs)`: the command is passed through unchanged; a
   * `run_as_root` call without its own `root_helper` gets the configured one.
   */
  function Execute(cmd: seq<string>, kwargs: Dict, rootwrapConfig: string): (call: ProcessCall)
    ensures call.cmd == cmd
    ensures "root_helper" in call.kwargs <==> "run_as_root" in kwargs || "root_helper" in kwargs
    ensures forall key :: key in kwargs ==> key in call.kwargs && call.kwargs[key] == kwargs[key]
    ensures call.kwargs.Keys <= kwargs.Keys + {"root_helper"}
    ensures "root_helper" !in kwargs && "run_as_root" in kwargs ==>
              call.kwargs["root_helper"] == VStr(RootHelper(rootwrapConfig))
  {
    if "run_as_root" in kwargs && "root_helper" !in kwargs then
      ProcessCall(cmd, kwargs["root_helper" := VStr(RootHelper(rootwrapConfig))])
    else
      ProcessCall(cmd, kwargs)
  }
}

/**
 * Platform decisions of the `checks` object: the column of `top` output that the memory
 * check reads, and the operating-system family reported in every payload.
 */
module Platform {
  import opened Wrappers
  import opened Text

  /** The values `self.os` is ever given. */
  datatype OsFamily = Mac | FreeBsd | Linux {
    /** The string that goes into the payload's `os` field. */
    function Name(): (r: string)
      ensures r == "mac" || r == "freebsd" || r == "linux"
    {
      match this
      case Mac => "mac"
      case FreeBsd => "freebsd"
      case Linux => "linux"
    }
  }

  /**
   * `self.topIndex` as set in the constructor: 6 on Mac OS X 10.6, whose `top` prints one more
   * column, and 5 everywhere else. `macRelease` is the first element of `platform.mac_ver()`,
   * which is consulted only when `sys.platform` is `"darwin"`.
   */
  function TopIndex(sysPlatform: string, macRelease: string): (r: int)
    ensures r == 5 || r == 6
    ensures r == 6 <==> sysPlatform == "darwin" && |macRelease| >= 5 && macRelease[..5] == "10.6."
  {
    if sysPlatform == "darwin" && StartsWith(macRelease, "10.6.") then 6 else 5
  }

  /**
   * The OS family for one cycle. While `self.os` is unset it is derived from `sys.platform`:
   * on `"darwin"` the tuple `platform.mac_ver()` is non-empty, hence truthy, so the result is
   * `Mac`; otherwise `FreeBsd` when the platform names FreeBSD, and `Linux` for the rest.
   * Once set, the cached family is returned whatever the platform says.
   */
  function ResolveOs(current: Option<OsFamily>, sysPlatform: string): (r: OsFamily)
    ensures current.Some? ==> r == current.value
    ensures current.None? ==> (r == Mac <==> sysPlatform == "darwin")
    ensures current.None? ==> (r == FreeBsd <==> sysPlatform != "darwin" && Occurs(sysPlatform, "freebsd"))
    ensures current.None? ==> (r == Linux <==> sysPlatform != "darwin" && !Occurs(sysPlatform, "freebsd"))
  {
    if current.Some? then current.value
    else if sysPlatform == "darwin" then Mac
    else if Find(sysPlatform, "freebsd") != -1 then FreeBsd
    else Linux
  }
}

/**
 * The oldest session helper (utils/auth): a module-level `loggedIn` flag,
 * initially false, copied into each hook instance's local state when the
 * instance is created; `login` and `logout` set both the flag and the
 * calling instance's state.
 */
module AuthFlag {

  /** The module-level variable shared by every hook instance. */
  class ModuleFlag {
    var loggedIn: bool

    constructor ()
      ensures !loggedIn
    {
      loggedIn := false;
    }
  }

  class Hook {
    const flag: ModuleFlag
    var isLoggedIn: bool

    /** A new instance starts from the flag's current value. */
    constructor (flag: ModuleFlag)
      ensures this.flag == flag && isLoggedIn == flag.loggedIn
    {
      this.flag := flag;
      isLoggedIn := flag.loggedIn;
    }

    /** Both the flag and this instance's state become true, whatever they were. */
    method Login()
      modifies this, flag
      ensures isLoggedIn && flag.loggedIn
    {
      flag.loggedIn := true;
      isLoggedIn := true;
    }

    /** Both the flag and this instance's state become false, whatever they were. */
    method Logout()
      modifies this, flag
      ensures !isLoggedIn && !flag.loggedIn
    {
      flag.loggedIn := false;
      isLoggedIn := false;
    }
  }

  /**
   * Two instances over one flag: after the first logs in, the flag and the
   * first instance agree on true while the second, created before, still
   * holds false; a third instance created afterwards starts true.
   */
  method LoginIsNotBroadcast() returns (first: bool, second: bool, flagValue: bool, later: bool)
    ensures first && !second && flagValue && later
  {
    var m := new ModuleFlag();
    var a := new Hook(m);
    var b := new Hook(m);
    a.Login();
    var c := new Hook(m);
    first, second, flagValue, later := a.isLoggedIn, b.isLoggedIn, m.loggedIn, c.isLoggedIn;
  }
}

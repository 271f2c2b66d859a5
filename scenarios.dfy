/**
 Worked examples of the configuration composer on small concrete shapes:
 a server configuration with a required host, a defaulted port and an
 omittable timeout, and a one-option configuration with no defaults.
 */
module Scenarios {
  import opened UserConfig

  /** host: string, port: number, timeout?: number */
  function ServerShape(): ConfigShape
  {
    map["host" := Field(false), "port" := Field(false), "timeout" := Field(true)]
  }

  /** { port: 8080 } */
  function ServerDefaults(): Record
  {
    map["port" := Num(8080)]
  }

  /** The host is required, the port optional and the timeout omittable. */
  lemma ServerKeySets()
    ensures Required(ServerShape(), ServerDefaults().Keys) == {"host"}
    ensures Optional(ServerShape(), ServerDefaults().Keys) == {"port"}
    ensures Omittable(ServerShape()) == {"timeout"}
  {
  }

  /**
   Only the host must be supplied; leaving it out, or adding an option the
   shape does not know, is rejected.
   */
  lemma ServerUserConfigs()
    ensures IsUserConfig(ServerShape(), ServerDefaults().Keys, map["host" := Str("x")])
    ensures !IsUserConfig(ServerShape(), ServerDefaults().Keys, map["port" := Num(9090)])
    ensures !IsUserConfig(ServerShape(), ServerDefaults().Keys, map["host" := Str("x"), "verbose" := Bool(true)])
  {
    ServerKeySets();
    var shape, d := ServerShape(), ServerDefaults().Keys;
    UserConfigIff(shape, d, map["host" := Str("x"), "verbose" := Bool(true)]);
    assert "verbose" !in shape;
  }

  /** Supplying only the host fills the port from the defaults and leaves the timeout absent. */
  lemma ServerHostOnly()
    ensures Flatten(map["host" := Str("x")], ServerDefaults())
         == map["host" := Str("x"), "port" := Num(8080)]
    ensures "timeout" !in Flatten(map["host" := Str("x")], ServerDefaults())
  {
  }

  /** Supplying every option overrides the default port. */
  lemma ServerAllSupplied()
    ensures Flatten(map["host" := Str("x"), "port" := Num(9090), "timeout" := Num(30)], ServerDefaults())
         == map["host" := Str("x"), "port" := Num(9090), "timeout" := Num(30)]
  {
  }

  /** With no defaults, the one option is required and passes through unchanged. */
  lemma NoDefaults()
    ensures Required(map["a" := Field(false)], {}) == {"a"}
    ensures Flatten(map["a" := Num(1)], map[]) == map["a" := Num(1)]
  {
  }
}

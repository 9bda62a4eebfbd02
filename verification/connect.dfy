/**
 * The keyword arguments `connect` hands to the Snowflake driver: the fixed connection fields
 * under the driver's names, plus the recognised optional settings found in the config's extras.
 */
module Connect {
  import opened Outcomes

  /** The connection fields `connect` reads; `extras` is None when the config has none. */
  datatype ConnectionConfig = ConnectionConfig(
    server: string,
    username: string,
    password: string,
    database: string,
    extras: Option<map<string, string>>)

  /** The driver arguments always passed. */
  const FixedKeys: set<string> := {"user", "password", "account", "database"}

  /** The extras `connect` copies; any other extras key is ignored. */
  const RecognizedExtras: set<string> := {"warehouse", "schema", "role"}

  /** `getattr(config, "extras", {}) or {}`. */
  function Extras(config: ConnectionConfig): map<string, string> {
    config.extras.GetOr(map[])
  }

  /**
   * The arguments `connect` builds: `server` becomes `account`, the other fixed fields keep their
   * value, and each recognised extra is copied unchanged when present.
   */
  function ConnectArgsOf(config: ConnectionConfig): (args: map<string, string>)
    ensures args.Keys == FixedKeys + (Extras(config).Keys * RecognizedExtras)
    ensures args["user"] == config.username && args["password"] == config.password
    ensures args["account"] == config.server && args["database"] == config.database
    ensures forall k :: k in RecognizedExtras && k in Extras(config) ==> args[k] == Extras(config)[k]
  {
    var extras := Extras(config);
    map["user" := config.username, "password" := config.password,
        "account" := config.server, "database" := config.database]
      + map k | k in extras.Keys * RecognizedExtras :: extras[k]
  }

  /** `connect` up to the driver call: builds the argument dictionary by conditional insertions. */
  method ConnectArgs(config: ConnectionConfig) returns (args: map<string, string>)
    ensures args == ConnectArgsOf(config)
  {
    args := map["user" := config.username, "password" := config.password,
                "account" := config.server, "database" := config.database];
    var extras := if config.extras.Some? then config.extras.value else map[];
    if "warehouse" in extras {
      args := args["warehouse" := extras["warehouse"]];
    }
    if "schema" in extras {
      args := args["schema" := extras["schema"]];
    }
    if "role" in extras {
      args := args["role" := extras["role"]];
    }
  }

  /**
   * Only the fixed fields and the recognised extras matter: unknown extras are ignored, and a
   * config without extras connects like one with an empty mapping.
   */
  lemma ConnectArgsIgnoreOtherExtras(c1: ConnectionConfig, c2: ConnectionConfig)
    requires c1.server == c2.server && c1.username == c2.username
    requires c1.password == c2.password && c1.database == c2.database
    requires forall k :: k in RecognizedExtras ==>
      (k in Extras(c1) <==> k in Extras(c2)) && (k in Extras(c1) ==> Extras(c1)[k] == Extras(c2)[k])
    ensures ConnectArgsOf(c1) == ConnectArgsOf(c2)
  {
  }
}

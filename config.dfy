/** Start-up configuration of the music subsystem (src/config.ts): the Lavalink
    node list read from the environment and the validated default search
    platform. Reading `process.env` becomes an explicit `Env` argument and a
    thrown `Error` becomes a `Failure` carrying its message. */
module Config {
  import opened Wrappers

  /** The process environment: a variable that is unset is absent from the map. */
  type Env = map<string, string>

  const LAVALINK_ID := "LAVALINK_ID"
  const LAVALINK_HOST := "LAVALINK_HOST"
  const LAVALINK_PORT := "LAVALINK_PORT"
  const LAVALINK_PASSWORD := "LAVALINK_PASSWORD"

  /** The four variables without which no node can be configured. */
  const RequiredKeys: set<string> := {LAVALINK_ID, LAVALINK_HOST, LAVALINK_PORT, LAVALINK_PASSWORD}

  const MissingLavalinkConfig := "Missing required Lavalink configuration environment variables"

  const RETRY_AMOUNT := 20
  const RETRY_DELAY := 30000

  /** A variable counts as set when it is defined and, as a JavaScript string,
      truthy (not the empty string). */
  predicate Configured(env: Env, key: string) {
    key in env && env[key] != ""
  }

  predicate AllConfigured(env: Env) {
    forall key :: key in RequiredKeys ==> Configured(env, key)
  }

  /** `process.env[key]`: `undefined` when the variable is unset. */
  function Lookup(env: Env, key: string): Option<string> {
    if key in env then Some(env[key]) else None
  }

  /** JavaScript falsiness of a `string | undefined`. */
  predicate Falsy(v: Option<string>) {
    v.None? || v.value == ""
  }

  /** `Number(port)`: the coercion is kept as an uninterpreted term over the
      text it is applied to; nothing about the port is checked. */
  datatype PortNumber = Number(text: string)

  datatype LavalinkNode = LavalinkNode(
    id: string,
    host: string,
    port: PortNumber,
    authorization: string,
    secure: bool,
    retryAmount: int,
    retryDelay: int)

  /** The node policy every configured node carries. */
  predicate FixedPolicy(node: LavalinkNode) {
    !node.secure && node.retryAmount == RETRY_AMOUNT && node.retryDelay == RETRY_DELAY
  }

  /** `getLavalinkNodes`: fails with one generic message unless all four
      variables are set; otherwise a single node built from them. */
  function GetLavalinkNodes(env: Env): (r: Result<seq<LavalinkNode>>)
    ensures r.Failure? <==> exists key :: key in RequiredKeys && !Configured(env, key)
    ensures r.Failure? ==> r.message == MissingLavalinkConfig
    ensures r.Success? ==> |r.value| == 1
    ensures r.Success? ==>
      && r.value[0].id == env[LAVALINK_ID]
      && r.value[0].host == env[LAVALINK_HOST]
      && r.value[0].port == Number(env[LAVALINK_PORT])
      && r.value[0].authorization == env[LAVALINK_PASSWORD]
    ensures r.Success? ==> forall node :: node in r.value ==> FixedPolicy(node)
  {
    var id := Lookup(env, LAVALINK_ID);
    var host := Lookup(env, LAVALINK_HOST);
    var port := Lookup(env, LAVALINK_PORT);
    var password := Lookup(env, LAVALINK_PASSWORD);
    if Falsy(id) || Falsy(host) || Falsy(port) || Falsy(password) then
      Failure(MissingLavalinkConfig)
    else
      Success([LavalinkNode(id.value, host.value, Number(port.value), password.value, false, 20, 30000)])
  }

  /** Only the four Lavalink variables influence the node list. */
  lemma NodesDependOnlyOnRequiredKeys(env1: Env, env2: Env)
    requires forall key :: key in RequiredKeys ==> Lookup(env1, key) == Lookup(env2, key)
    ensures GetLavalinkNodes(env1) == GetLavalinkNodes(env2)
  {
    assert LAVALINK_ID in RequiredKeys && LAVALINK_HOST in RequiredKeys;
    assert LAVALINK_PORT in RequiredKeys && LAVALINK_PASSWORD in RequiredKeys;
  }

  /** The platforms `validateSearchPlatform` accepts, in the order its error
      message lists them. */
  const ValidPlatforms: seq<string> := ["ytsearch", "ytmsearch", "scsearch", "spsearch"]

  /** `Array.prototype.join`. */
  function Join(parts: seq<string>, sep: string): string {
    if |parts| == 0 then ""
    else if |parts| == 1 then parts[0]
    else parts[0] + sep + Join(parts[1..], sep)
  }

  /** The valid platforms as the error message lists them. */
  const ValidPlatformsText := "ytsearch, ytmsearch, scsearch, spsearch"

  lemma JoinCons(first: string, rest: seq<string>, sep: string, joined: string)
    requires rest != [] && Join(rest, sep) == joined
    ensures Join([first] + rest, sep) == first + sep + joined
  {
    assert ([first] + rest)[1..] == rest;
  }

  lemma JoinedLastTwo()
    ensures Join(["scsearch", "spsearch"], ", ") == "scsearch, spsearch"
  {
    JoinCons("scsearch", ["spsearch"], ", ", "spsearch");
    assert ["scsearch"] + ["spsearch"] == ["scsearch", "spsearch"];
  }

  lemma JoinedLastThree()
    ensures Join(["ytmsearch", "scsearch", "spsearch"], ", ") == "ytmsearch, scsearch, spsearch"
  {
    JoinedLastTwo();
    JoinCons("ytmsearch", ["scsearch", "spsearch"], ", ", "scsearch, spsearch");
    assert ["ytmsearch"] + ["scsearch", "spsearch"] == ["ytmsearch", "scsearch", "spsearch"];
  }

  lemma ValidPlatformsTextSplit()
    ensures "ytsearch" + ", " + "ytmsearch, scsearch, spsearch" == ValidPlatformsText
  {
  }

  lemma ValidPlatformsJoined()
    ensures Join(ValidPlatforms, ", ") == ValidPlatformsText
  {
    ValidPlatformsTextSplit();
    JoinedLastThree();
    JoinCons("ytsearch", ["ytmsearch", "scsearch", "spsearch"], ", ", "ytmsearch, scsearch, spsearch");
    assert ["ytsearch"] + ["ytmsearch", "scsearch", "spsearch"] == ValidPlatforms;
  }

  /** `validateSearchPlatform`: the platform itself when it is one of the four
      valid ones, otherwise an error naming it and listing the valid set. */
  function ValidateSearchPlatform(platform: string): (r: Result<string>)
    ensures r.Success? <==> platform in {"ytsearch", "ytmsearch", "scsearch", "spsearch"}
    ensures r.Success? ==> r.value == platform
    ensures r.Failure? ==> r.message == "Invalid search platform: " + platform + ". Must be one of: " + ValidPlatformsText
  {
    if platform !in ValidPlatforms then
      var listed := Join(ValidPlatforms, ", ");
      ValidPlatformsJoined();
      Failure("Invalid search platform: " + platform + ". Must be one of: " + listed)
    else
      Success(platform)
  }

  /** `MUSIC.DEFAULT_SOURCE`: validating 'scsearch' never throws. */
  function DefaultSource(): (source: string)
    ensures ValidateSearchPlatform("scsearch") == Success(source)
    ensures source in ValidPlatforms
  {
    ValidateSearchPlatform("scsearch").Extract()
  }

  /** The `MUSIC` block as far as it has behaviour. */
  datatype MusicConfig = MusicConfig(defaultSource: string, lavalinkNodes: seq<LavalinkNode>)

  /** Evaluating the `MUSIC` object literal: `DEFAULT_SOURCE` first, then
      `LAVALINK_NODES`; the first throw aborts start-up. */
  function LoadMusicConfig(env: Env): (r: Result<MusicConfig>)
    ensures r.Success? <==> AllConfigured(env)
    ensures r.Failure? ==> r.message == MissingLavalinkConfig
    ensures r.Success? ==> r.value.defaultSource == "scsearch" && |r.value.lavalinkNodes| == 1
    ensures r.Success? ==> GetLavalinkNodes(env) == Success(r.value.lavalinkNodes)
  {
    var source := DefaultSource();
    var nodes :- GetLavalinkNodes(env);
    Success(MusicConfig(source, nodes))
  }
}

/** The server configuration: a JSON object loaded from text, read key by key
    with a default for keys it does not own. JSON parsing is a parameter. */
module ServerConfig {
  import opened Wrappers

  /** A parsed JSON value; numbers are integers here. */
  datatype Json = JNull | JBool(b: bool) | JNum(n: int) | JStr(s: string) | JArr(items: seq<Json>) | JObj(fields: map<string, Json>)

  /** The error a property read on `undefined` or `null` throws. */
  const TypeError: string := "TypeError"

  /** The empty object `{}`. */
  const Empty: Json := JObj(map[])

  /** JavaScript truthiness of a JSON value. */
  predicate JsTruthy(v: Json)
  {
    match v
    case JNull => false
    case JBool(b) => b
    case JNum(n) => n != 0
    case JStr(s) => s != ""
    case JArr(_) => true
    case JObj(_) => true
  }

  /** `v.hasOwnProperty(key)` for the keys of a JSON object. */
  predicate Owns(v: Json, key: string)
  {
    v.JObj? && key in v.fields
  }

  /** The configuration object of `ServerConfig`. */
  class ServerConfig {
    var config: Json

    constructor ()
      ensures config == Empty
    {
      config := Empty;
    }

    /** `loadConfig`: the parsed text, or `{}` when it does not parse. */
    method LoadConfig(jsonStr: string, parse: string -> Option<Json>)
      modifies this
      ensures parse(jsonStr).Some? ==> config == parse(jsonStr).value
      ensures parse(jsonStr).None? ==> config == Empty
    {
      var parsed := parse(jsonStr);
      if parsed.Some? {
        config := parsed.value;
      } else {
        config := Empty;
      }
    }
  }

  /** `get(key, defaultVal)` on a loaded configuration: the value of an own
      property, else the default (also when the configuration is `null`, whose
      `hasOwnProperty` throws and is caught). */
  function Get(config: Json, key: string, defaultVal: Option<Json>): Option<Json>
  {
    if config.JObj? && key in config.fields then Some(config.fields[key]) else defaultVal
  }

  /** `serverPort()`. */
  function ServerPort(config: Json): Option<Json>
  {
    Get(config, "serverPort", Some(JNum(8081)))
  }

  /** `mongoIP()`. */
  function MongoIP(config: Json): Option<Json>
  {
    Get(config, "mongoIP", Some(JStr("localhost")))
  }

  /** `getLPAapis()`: the LPA entry of a truthy ClientApis that owns one, else `undefined`. */
  function GetLPAapis(config: Json): Option<Json>
  {
    var clientApi := Get(config, "ClientApis", Some(Empty));
    if clientApi.Some? && JsTruthy(clientApi.value) && Owns(clientApi.value, "LPA") then Some(clientApi.value.fields["LPA"])
    else None
  }

  /** `v[key]` on a value that may be `undefined`: throws on `undefined` and
      `null`, reads an object's own key, and is `undefined` otherwise. */
  function Property(v: Option<Json>, key: string): Result<Option<Json>>
  {
    if v.None? || v.value.JNull? then Err(TypeError)
    else if Owns(v.value, key) then Ok(Some(v.value.fields[key]))
    else Ok(None)
  }

  /** `ignorePhoneNumberPrefix()`: the LPA entry's prefix, or "" when it is missing or falsy. */
  function IgnorePhoneNumberPrefix(config: Json): Result<Json>
  {
    var p := Property(GetLPAapis(config), "ignorePhoneNumberPrefix");
    if p.Err? then Err(p.error)
    else if p.value.Some? && JsTruthy(p.value.value) then Ok(p.value.value)
    else Ok(JStr(""))
  }

  /** `collectionNames()`: the configured value when truthy, else `{}`. */
  function CollectionNames(config: Json): (r: Json)
    ensures JsTruthy(r)
  {
    var v := Get(config, "collectionNames", None);
    if v.Some? && JsTruthy(v.value) then v.value else Empty
  }

  // ---------------------------------------------------------------------------
  // Properties
  // ---------------------------------------------------------------------------

  /** A configuration that does not parse is `{}`, and on `{}` every getter
      gives its default: port 8081, "localhost", no LPA entry, `{}` for the
      collection names, and the prefix read throws because there is no LPA entry. */
  lemma EmptyConfigDefaults(key: string, d: Option<Json>)
    ensures Get(Empty, key, d) == d
    ensures ServerPort(Empty) == Some(JNum(8081))
    ensures MongoIP(Empty) == Some(JStr("localhost"))
    ensures GetLPAapis(Empty) == None
    ensures CollectionNames(Empty) == Empty
    ensures IgnorePhoneNumberPrefix(Empty) == Err(TypeError)
  {
  }

  /** A configured value is returned as it is, even a falsy one: `get` tests
      ownership, not truthiness, so a configured port of 0 stays 0, while the
      collection names fall back to `{}` on any falsy value. */
  lemma OwnershipNotTruthiness(config: Json)
    requires Owns(config, "serverPort") && Owns(config, "collectionNames")
    requires !JsTruthy(config.fields["collectionNames"])
    ensures ServerPort(config) == Some(config.fields["serverPort"])
    ensures CollectionNames(config) == Empty
  {
  }

  /** With a truthy ClientApis object owning an LPA entry, the LPA entry is
      returned; otherwise there is none. */
  lemma LPAapisPresence(config: Json)
    ensures GetLPAapis(config).Some?
            <==> Owns(config, "ClientApis") && config.fields["ClientApis"].JObj?
                 && Owns(config.fields["ClientApis"], "LPA")
    ensures GetLPAapis(config).Some? ==> GetLPAapis(config) == Some(config.fields["ClientApis"].fields["LPA"])
  {
  }

  /** The prefix is the LPA object's own truthy value; a missing or falsy one
      gives ""; a missing or `null` LPA entry throws. */
  lemma PrefixDefaults(config: Json)
    ensures GetLPAapis(config).None? ==> IgnorePhoneNumberPrefix(config) == Err(TypeError)
    ensures GetLPAapis(config) == Some(JNull) ==> IgnorePhoneNumberPrefix(config) == Err(TypeError)
    ensures GetLPAapis(config).Some? && !GetLPAapis(config).value.JNull? ==>
              var lpa := GetLPAapis(config).value;
              IgnorePhoneNumberPrefix(config)
              == Ok(if Owns(lpa, "ignorePhoneNumberPrefix") && JsTruthy(lpa.fields["ignorePhoneNumberPrefix"])
                    then lpa.fields["ignorePhoneNumberPrefix"] else JStr(""))
  {
  }
}

/**
 * Resolution of the backend admin configuration [username, password, url]
 * (get_db_configuration in src/broker/broker.py).
 *
 * The process environment is a map from variable name to value; a variable that is
 * missing or holds "" is unset, as Python's truthiness test on os.getenv treats it.
 * The link document in SPACEBEARS_PROPERTIES is taken already parsed: `link` is what
 * json.loads and the ['spacebears'] lookups yield, or None when they raise.
 */
module DbConfiguration {
  import opened Wrappers
  import Decimal

  type Environment = map<string, string>

  const HostVar := "SPACEBEARS_HOST"
  const PropertiesVar := "SPACEBEARS_PROPERTIES"
  const UsernameVar := "DB_ADMIN_USERNAME"
  const PasswordVar := "DB_ADMIN_PASSWORD"
  const UrlVar := "DB_URL"

  /** The override variable of each slot, in slot order: username, password, url. */
  const OverrideVars: seq<string> := [UsernameVar, PasswordVar, UrlVar]

  /** The `spacebears` entry of the link document. */
  datatype LinkProperties = LinkProperties(port: int, username: string, password: string)

  /** The three slots, or the failure raised while reading a malformed link document. */
  datatype Resolution = Resolved(properties: seq<Option<string>>) | MalformedLinkDocument

  predicate IsSet(env: Environment, name: string) {
    name in env && env[name] != ""
  }

  /** The link document is consulted only when both link variables are set. */
  predicate LinkPresent(env: Environment) {
    IsSet(env, HostVar) && IsSet(env, PropertiesVar)
  }

  function LinkUrl(host: string, port: int): string {
    "http://" + host + ":" + Decimal.IntToDecimal(port)
  }

  function Override(env: Environment, name: string, fallback: Option<string>): Option<string> {
    if IsSet(env, name) then Some(env[name]) else fallback
  }

  /** Slot-wise specification: each slot is its override when set, else what the link gives. */
  function Configuration(env: Environment, link: Option<LinkProperties>): Resolution {
    if LinkPresent(env) && link.None? then
      MalformedLinkDocument
    else
      var base: seq<Option<string>> :=
        if LinkPresent(env) then
          [Some(link.value.username), Some(link.value.password), Some(LinkUrl(env[HostVar], link.value.port))]
        else
          [None, None, None];
      Resolved(seq(3, k requires 0 <= k < 3 => Override(env, OverrideVars[k], base[k])))
  }

  /** The list built from the link document, then overwritten slot by slot. */
  method GetDbConfiguration(env: Environment, link: Option<LinkProperties>) returns (r: Resolution)
    ensures r == Configuration(env, link)
  {
    var properties: seq<Option<string>> := [None, None, None];
    if IsSet(env, HostVar) && IsSet(env, PropertiesVar) {
      if link.None? {
        return MalformedLinkDocument;
      }
      var url := "http://" + env[HostVar] + ":" + Decimal.IntToDecimal(link.value.port);
      properties := [Some(link.value.username), Some(link.value.password), Some(url)];
    }
    if IsSet(env, UsernameVar) {
      properties := properties[0 := Some(env[UsernameVar])];
    }
    if IsSet(env, PasswordVar) {
      properties := properties[1 := Some(env[PasswordVar])];
    }
    if IsSet(env, UrlVar) {
      properties := properties[2 := Some(env[UrlVar])];
    }
    r := Resolved(properties);
  }

  /** Resolution fails exactly when the link pair is set and its document is malformed. */
  lemma FailsOnlyOnMalformedLink(env: Environment, link: Option<LinkProperties>)
    ensures Configuration(env, link).MalformedLinkDocument? <==> LinkPresent(env) && link.None?
    ensures Configuration(env, link).Resolved? ==> |Configuration(env, link).properties| == 3
  {
  }

  /** A set override variable decides its slot, whatever the link document holds. */
  lemma OverrideDeterminesSlot(env: Environment, link: Option<LinkProperties>, k: nat)
    requires k < 3 && IsSet(env, OverrideVars[k])
    requires Configuration(env, link).Resolved?
    ensures Configuration(env, link).properties[k] == Some(env[OverrideVars[k]])
  {
  }

  /** Setting or changing the override of slot j leaves every other slot as it was. */
  lemma OverridesAreIndependent(env: Environment, link: Option<LinkProperties>, j: nat, k: nat, v: string)
    requires j < 3 && k < 3 && j != k
    ensures Configuration(env[OverrideVars[j] := v], link).Resolved? == Configuration(env, link).Resolved?
    ensures Configuration(env, link).Resolved? ==>
      Configuration(env[OverrideVars[j] := v], link).properties[k] == Configuration(env, link).properties[k]
  {
  }

  /** With neither the link pair nor any override set, every slot is None. */
  lemma NothingSetGivesNone(env: Environment, link: Option<LinkProperties>)
    requires !LinkPresent(env)
    requires !IsSet(env, UsernameVar) && !IsSet(env, PasswordVar) && !IsSet(env, UrlVar)
    ensures Configuration(env, link) == Resolved([None, None, None])
  {
  }

  /**
   * Without a DB_URL override the url slot is filled exactly when both link variables
   * are set, and then holds the link URL "http://" + host + ":" + str(port).
   */
  lemma UrlFromLinkOnly(env: Environment, link: Option<LinkProperties>)
    requires !IsSet(env, UrlVar)
    requires Configuration(env, link).Resolved?
    ensures Configuration(env, link).properties[2].Some? <==> LinkPresent(env)
    ensures LinkPresent(env) ==>
      Configuration(env, link).properties[2] == Some(LinkUrl(env[HostVar], link.value.port))
  {
  }

  /** The link URL determines the port it was built from. */
  lemma LinkUrlDeterminesPort(host: string, p: int, q: int)
    requires LinkUrl(host, p) == LinkUrl(host, q)
    ensures p == q
  {
    var prefix := "http://" + host + ":";
    assert LinkUrl(host, p)[|prefix|..] == Decimal.IntToDecimal(p);
    assert LinkUrl(host, q)[|prefix|..] == Decimal.IntToDecimal(q);
    Decimal.IntToDecimalInjective(p, q);
  }
}

/** Preparing the JNDI parameters of a JMS connection (externimpl/connection/Init.java):
    the parameter map is rewritten in place for the WSO2 message broker, then every
    Ballerina alias key is moved to the JNDI key it stands for, and the credentials
    are chosen. The JNDI lookup and the connection itself are outside this model. */
module JmsConnections {
  import opened Wrappers
  import opened JavaText
  import opened JmsUtil

  /** The JmsConstants names the connection code uses; their values are defined
      outside this model. */
  datatype ConnectionKeys = ConnectionKeys(
    initialContextFactory: string, providerUrl: string, connectionFactoryName: string, configFilePath: string,
    bmbIcfAlias: string, mbIcfAlias: string, mbIcfName: string, mbCfNamePrefix: string)

  /** A Java `HashMap<String, String>`: a key may be present with a null value. */
  type Params = map<string, Option<string>>

  /** `map.get(key)`: null for a missing key as for a stored null. */
  function Get(m: Params, key: string): (r: Option<string>)
    ensures r.Some? ==> key in m && m[key] == r
    ensures key in m ==> r == m[key]
  {
    if key in m then m[key] else None
  }

  /** The initial context factory names one of the two WSO2 broker aliases, ignoring case. */
  predicate IsMbAlias(keys: ConnectionKeys, icf: Option<string>) {
    EqualsIgnoreCase(keys.bmbIcfAlias, icf) || EqualsIgnoreCase(keys.mbIcfAlias, icf)
  }

  /** The error preProcessIfWso2MB raises when the broker URL is given without a factory name. */
  function FactoryNameMissing(keys: ConnectionKeys): string {
    keys.connectionFactoryName + " property should be set"
  }

  /** The outcome of preProcessIfWso2MB: the parameters as it leaves them (also when it
      throws), and the message it throws, if it does. */
  datatype PreProcessed = PreProcessed(params: Params, error: Option<string>)

  /** preProcessIfWso2MB on a parameter map. Every lookup after the first reads the
      map with the factory replaced by the broker's class name. */
  function PreProcess(m: Params, keys: ConnectionKeys): (r: PreProcessed)
    ensures !IsMbAlias(keys, Get(m, keys.initialContextFactory)) ==> r == PreProcessed(m, None)
    ensures r.error.Some? ==> r.error.value == FactoryNameMissing(keys)
    ensures r.error.Some? <==>
      var m1 := m[keys.initialContextFactory := Some(keys.mbIcfName)];
      IsMbAlias(keys, Get(m, keys.initialContextFactory)) && Get(m1, keys.providerUrl).Some?
      && IsNullOrEmptyAfterTrim(Get(m1, keys.connectionFactoryName))
  {
    if !IsMbAlias(keys, Get(m, keys.initialContextFactory)) then PreProcessed(m, None)
    else
      var m1 := m[keys.initialContextFactory := Some(keys.mbIcfName)];
      var factoryName := Get(m1, keys.connectionFactoryName);
      if Get(m1, keys.providerUrl).Some? then
        if !IsNullOrEmptyAfterTrim(factoryName) then
          PreProcessed(m1[keys.mbCfNamePrefix + factoryName.value := Get(m1, keys.providerUrl)] - {keys.providerUrl}, None)
        else
          PreProcessed(m1, Some(FactoryNameMissing(keys)))
      else if Get(m1, keys.configFilePath).Some? then
        PreProcessed(m1[keys.providerUrl := Get(m1, keys.configFilePath)] - {keys.configFilePath}, None)
      else
        PreProcessed(m1, None)
  }

  /** The four parameter keys are distinct, as the JmsConstants names are. */
  predicate DistinctKeys(keys: ConnectionKeys) {
    && keys.initialContextFactory != keys.providerUrl
    && keys.initialContextFactory != keys.connectionFactoryName
    && keys.initialContextFactory != keys.configFilePath
    && keys.providerUrl != keys.connectionFactoryName
    && keys.providerUrl != keys.configFilePath
    && keys.connectionFactoryName != keys.configFilePath
  }

  /** For a broker alias, the factory becomes the broker's class name whatever branch
      is taken, unless the prefixed factory key happens to be the factory key. */
  lemma {:induction false} PreProcessSetsMbFactory(m: Params, keys: ConnectionKeys)
    requires DistinctKeys(keys)
    requires IsMbAlias(keys, Get(m, keys.initialContextFactory))
    requires Get(m, keys.connectionFactoryName).Some? ==>
      keys.mbCfNamePrefix + Get(m, keys.connectionFactoryName).value != keys.initialContextFactory
    ensures Get(PreProcess(m, keys).params, keys.initialContextFactory) == Some(keys.mbIcfName)
  {
    var m1 := m[keys.initialContextFactory := Some(keys.mbIcfName)];
    assert Get(m1, keys.connectionFactoryName) == Get(m, keys.connectionFactoryName);
  }

  /** With a broker URL and a factory name, the URL is filed under the prefixed factory
      name, the URL key is removed, and every other key keeps its value. */
  lemma {:induction false} PreProcessMovesProviderUrl(m: Params, keys: ConnectionKeys)
    requires DistinctKeys(keys)
    requires IsMbAlias(keys, Get(m, keys.initialContextFactory))
    requires Get(m, keys.providerUrl).Some? && !IsNullOrEmptyAfterTrim(Get(m, keys.connectionFactoryName))
    ensures var r := PreProcess(m, keys);
      var cfKey := keys.mbCfNamePrefix + Get(m, keys.connectionFactoryName).value;
      && r.error.None?
      && keys.providerUrl !in r.params
      && (cfKey != keys.providerUrl ==> Get(r.params, cfKey) == Get(m, keys.providerUrl))
      && (forall k | k in m && k != keys.initialContextFactory && k != keys.providerUrl && k != cfKey ::
            k in r.params && r.params[k] == m[k])
  {
    var m1 := m[keys.initialContextFactory := Some(keys.mbIcfName)];
    assert Get(m1, keys.providerUrl) == Get(m, keys.providerUrl);
    assert Get(m1, keys.connectionFactoryName) == Get(m, keys.connectionFactoryName);
  }

  /** With a broker URL but a blank factory name it fails, naming the missing alias;
      the factory has already been replaced by then. */
  lemma {:induction false} PreProcessNeedsFactoryName(m: Params, keys: ConnectionKeys)
    requires DistinctKeys(keys)
    requires IsMbAlias(keys, Get(m, keys.initialContextFactory))
    requires Get(m, keys.providerUrl).Some? && IsNullOrEmptyAfterTrim(Get(m, keys.connectionFactoryName))
    ensures PreProcess(m, keys) ==
      PreProcessed(m[keys.initialContextFactory := Some(keys.mbIcfName)], Some(FactoryNameMissing(keys)))
  {
    var m1 := m[keys.initialContextFactory := Some(keys.mbIcfName)];
    assert Get(m1, keys.providerUrl) == Get(m, keys.providerUrl);
    assert Get(m1, keys.connectionFactoryName) == Get(m, keys.connectionFactoryName);
  }

  /** Without a broker URL, a configuration file path becomes the provider URL and its
      own key is removed. */
  lemma {:induction false} PreProcessMovesConfigFile(m: Params, keys: ConnectionKeys)
    requires DistinctKeys(keys)
    requires IsMbAlias(keys, Get(m, keys.initialContextFactory))
    requires Get(m, keys.providerUrl).None? && Get(m, keys.configFilePath).Some?
    ensures var r := PreProcess(m, keys);
      && r.error.None?
      && Get(r.params, keys.providerUrl) == Get(m, keys.configFilePath)
      && keys.configFilePath !in r.params
      && (forall k | k in m && k != keys.initialContextFactory && k != keys.providerUrl && k != keys.configFilePath ::
            k in r.params && r.params[k] == m[k])
  {
    var m1 := m[keys.initialContextFactory := Some(keys.mbIcfName)];
    assert Get(m1, keys.providerUrl) == Get(m, keys.providerUrl);
    assert Get(m1, keys.configFilePath) == Get(m, keys.configFilePath);
  }

  /** The alias comparison ignores case: an upper-cased alias is recognised. */
  lemma {:induction false} MbAliasIgnoresCase(keys: ConnectionKeys)
    ensures IsMbAlias(keys, Some(ToUpperAscii(keys.mbIcfAlias)))
    ensures IsMbAlias(keys, Some(ToUpperAscii(keys.bmbIcfAlias)))
  {
    UpperAsciiIdempotent(keys.mbIcfAlias);
    UpperAsciiIdempotent(keys.bmbIcfAlias);
  }

  lemma {:induction false} UpperAsciiIdempotent(s: string)
    ensures ToUpperAscii(ToUpperAscii(s)) == ToUpperAscii(s)
  {
    var u := ToUpperAscii(s);
    assert forall i | 0 <= i < |s| :: ToUpperAscii(u)[i] == UpperAscii(UpperAscii(s[i])) == u[i];
  }

  /** The JNDI keys the alias keys present in `keys` are moved to. */
  ghost function Targets(keys: set<string>, mapping: map<string, string>): set<string> {
    set k | k in keys && k in mapping :: mapping[k]
  }

  /** `after` is what updateMappedParameters leaves of `before`: every mapped key is
      gone and its value sits under the key it maps to, which overrides what was there;
      when several keys map to the same target, one of their values is kept. Unmapped
      keys that are not a target keep their values. */
  ghost predicate MovedFrom(before: Params, after: Params, mapping: map<string, string>) {
    && after.Keys == (before.Keys - mapping.Keys) + Targets(before.Keys, mapping)
    && (forall t | t in after && t !in Targets(before.Keys, mapping) :: after[t] == before[t])
    && (forall t | t in after && t in Targets(before.Keys, mapping) ::
          exists k | k in before && k in mapping && mapping[k] == t :: after[t] == before[k])
  }

  /** When no other present key maps to the same target, a moved value arrives intact
      under its target, and nothing but the mapped keys disappears. */
  lemma {:induction false} MovedValueArrives(before: Params, after: Params, mapping: map<string, string>, k: string)
    requires MovedFrom(before, after, mapping)
    requires k in before && k in mapping
    requires forall k2 | k2 in before && k2 in mapping && mapping[k2] == mapping[k] :: k2 == k
    ensures mapping[k] in after && after[mapping[k]] == before[k]
    ensures forall u | u in before && u !in mapping :: u in after
  {
    assert mapping[k] in Targets(before.Keys, mapping);
  }

  /** When the alias keys present are not themselves mapped to, the result has no alias key left. */
  lemma {:induction false} NoMappedKeyLeft(before: Params, after: Params, mapping: map<string, string>)
    requires MovedFrom(before, after, mapping)
    requires forall k | k in before && k in mapping :: mapping[k] !in mapping
    ensures forall k | k in after :: k !in mapping
  {
  }

  /** Credentials are passed only when both the username and the password are given
      and the username has a visible character. */
  function Credentials(username: Option<string>, password: Option<string>): (r: Option<(string, string)>)
    ensures r.Some? <==> username.Some? && password.Some? && exists i | 0 <= i < |username.value| :: username.value[i] > ' '
    ensures r.Some? ==> r.value == (username.value, password.value)
  {
    var given := username.Some? && password.Some?;
    var user := if given then username else None;
    var pass := if given then password else None;
    if !IsNullOrEmptyAfterTrim(user) && pass.Some? then Some((user.value, pass.value)) else None
  }

  /** The parameter map createConnection builds and rewrites. */
  class ConfigParams {
    var params: Params

    /** The three entries createConnection puts first, each possibly null. */
    constructor(keys: ConnectionKeys, initialContextFactory: Option<string>, providerUrl: Option<string>,
                factoryName: Option<string>)
      ensures params == map[keys.initialContextFactory := initialContextFactory]
        [keys.providerUrl := providerUrl][keys.connectionFactoryName := factoryName]
    {
      params := map[];
      new;
      params := params[keys.initialContextFactory := initialContextFactory];
      params := params[keys.providerUrl := providerUrl];
      params := params[keys.connectionFactoryName := factoryName];
    }

    /** preProcessIfWso2MB: the error it throws is returned. */
    method PreProcessIfWso2MB(keys: ConnectionKeys) returns (error: Option<string>)
      modifies this
      ensures PreProcessed(params, error) == PreProcess(old(params), keys)
    {
      error := None;
      var initialConnectionFactoryName := Get(params, keys.initialContextFactory);
      if EqualsIgnoreCase(keys.bmbIcfAlias, initialConnectionFactoryName)
        || EqualsIgnoreCase(keys.mbIcfAlias, initialConnectionFactoryName)
      {
        params := params[keys.initialContextFactory := Some(keys.mbIcfName)];
        var connectionFactoryName := Get(params, keys.connectionFactoryName);
        if Get(params, keys.providerUrl).Some? {
          if !IsNullOrEmptyAfterTrim(connectionFactoryName) {
            params := params[keys.mbCfNamePrefix + connectionFactoryName.value := Get(params, keys.providerUrl)];
            params := params - {keys.providerUrl};
          } else {
            error := Some(FactoryNameMissing(keys));
          }
        } else if Get(params, keys.configFilePath).Some? {
          params := params[keys.providerUrl := Get(params, keys.configFilePath)];
          params := params - {keys.configFilePath};
        }
      }
    }

    /** updateMappedParameters: the entries are visited in the map's own order, which
        is left open; mapped entries are removed and collected, then put back under
        their targets. */
    method UpdateMappedParameters(mapping: map<string, string>)
      modifies this
      ensures MovedFrom(old(params), params, mapping)
    {
      ghost var before := params;
      ghost var done: set<string> := {};
      var pending := params.Keys;
      var temp: Params := map[];
      while pending != {}
        invariant done + pending == before.Keys && done !! pending
        invariant params.Keys == before.Keys - (done * mapping.Keys)
        invariant forall k | k in params :: params[k] == before[k]
        invariant Collected(before, done, temp, mapping)
        decreases pending
      {
        var k :| k in pending;
        if k in mapping {
          CollectOne(before, done, temp, mapping, k);
          temp := temp[mapping[k] := params[k]];
          params := params - {k};
        } else {
          TargetsSkip(done, mapping, k);
        }
        pending := pending - {k};
        done := done + {k};
      }
      PutAllMoves(before, params, temp, mapping);
      params := params + temp;
    }
  }

  /** What the loop of updateMappedParameters has collected after visiting `done`:
      one entry per target of a visited mapped key, holding the value of such a key. */
  ghost predicate Collected(before: Params, done: set<string>, temp: Params, mapping: map<string, string>) {
    && temp.Keys == Targets(done, mapping)
    && forall t | t in temp :: exists k | k in done && k in before && k in mapping && mapping[k] == t :: temp[t] == before[k]
  }

  lemma {:induction false} CollectOne(before: Params, done: set<string>, temp: Params, mapping: map<string, string>, k: string)
    requires Collected(before, done, temp, mapping)
    requires k in before && k in mapping
    ensures Collected(before, done + {k}, temp[mapping[k] := before[k]], mapping)
  {
    TargetsAdd(done, mapping, k);
    var temp' := temp[mapping[k] := before[k]];
    forall t | t in temp'
      ensures exists k2 | k2 in done + {k} && k2 in before && k2 in mapping && mapping[k2] == t :: temp'[t] == before[k2]
    {
      if t == mapping[k] {
        assert temp'[t] == before[k];
      } else {
        var k2 :| k2 in done && k2 in before && k2 in mapping && mapping[k2] == t && temp[t] == before[k2];
        assert temp'[t] == before[k2];
      }
    }
  }

  /** Putting the collected entries back over the kept ones gives the moved map. */
  lemma {:induction false} PutAllMoves(before: Params, kept: Params, temp: Params, mapping: map<string, string>)
    requires kept.Keys == before.Keys - (before.Keys * mapping.Keys)
    requires forall k | k in kept :: kept[k] == before[k]
    requires Collected(before, before.Keys, temp, mapping)
    ensures MovedFrom(before, kept + temp, mapping)
  {
  }

  lemma TargetsAdd(done: set<string>, mapping: map<string, string>, k: string)
    requires k in mapping
    ensures Targets(done + {k}, mapping) == Targets(done, mapping) + {mapping[k]}
  {
  }

  lemma TargetsSkip(done: set<string>, mapping: map<string, string>, k: string)
    requires k !in mapping
    ensures Targets(done + {k}, mapping) == Targets(done, mapping)
  {
  }
}

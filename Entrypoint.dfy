/**
 * The container entry point: the start URLs built from the environment, and
 * the coordinated restart that clears the crawl's shared Redis state and
 * seeds it with those URLs. Redis is a map from key to list.
 */
module Entrypoint {
  import opened Wrappers
  import opened Seqs
  import Constants

  /** `os.environ`. */
  type Environment = map<string, string>

  /** The KeyError raised for an unset environment variable. */
  datatype EnvError = MissingVariable(name: string)

  /** `os.environ[name]`. */
  function Getenv(env: Environment, name: string): (r: Result<string, EnvError>)
    ensures r.Ok? <==> name in env
    ensures r.Ok? ==> r.value == env[name]
    ensures r.Err? ==> r.error == MissingVariable(name)
  {
    if name in env then Ok(env[name]) else Err(MissingVariable(name))
  }

  /** The prefix of every start URL: the web cache's when `USE_WEBCACHE` is exactly "True". */
  function StartPrefix(useWebcache: string): string {
    if useWebcache == "True" then Constants.WEBCACHE_URL else ""
  }

  /**
   * `get_start_urls`: the listing unfiltered, filtered by language, and
   * filtered by language and sorted by member count, in that order.
   */
  function GetStartUrls(env: Environment): (r: Result<seq<string>, EnvError>)
    ensures "LANGUAGE" !in env ==> r == Err(MissingVariable("LANGUAGE"))
    ensures "LANGUAGE" in env && "USE_WEBCACHE" !in env ==> r == Err(MissingVariable("USE_WEBCACHE"))
    ensures "LANGUAGE" in env && "USE_WEBCACHE" in env ==>
      var servers := StartPrefix(env["USE_WEBCACHE"]) + Constants.DISBOARD_URL + "/servers";
      && r.Ok? && |r.value| == 3
      && r.value[0] == servers
      && r.value[1] == servers + "?fl=" + env["LANGUAGE"]
      && r.value[2] == servers + "?fl=" + env["LANGUAGE"] + "&sort=member_count"
      && forall u :: u in r.value ==> |servers| <= |u| && u[..|servers|] == servers
  {
    match Getenv(env, "LANGUAGE")
    case Err(e) => Err(e)
    case Ok(language) =>
      match Getenv(env, "USE_WEBCACHE")
      case Err(e) => Err(e)
      case Ok(useWebcache) =>
        var prefix := StartPrefix(useWebcache);
        var base := Constants.DISBOARD_URL;
        var byNone := prefix + base + "/servers";
        var byLanguage := prefix + base + "/servers?fl=" + language;
        var byLanguageAndMembers := prefix + base + "/servers?fl=" + language + "&sort=member_count";
        assert byLanguage == byNone + "?fl=" + language;
        assert byLanguageAndMembers == byNone + "?fl=" + language + "&sort=member_count";
        Ok([byNone, byLanguage, byLanguageAndMembers])
  }

  // ---------------------------------------------------------------------
  // Redis

  /** The list stored at `key`; an absent key reads as the empty list. */
  function ListAt(m: map<string, seq<string>>, key: string): seq<string> {
    if key in m then m[key] else []
  }

  /** `LPUSH key value`. */
  function LPushed(m: map<string, seq<string>>, key: string, value: string): map<string, seq<string>> {
    m[key := [value] + ListAt(m, key)]
  }

  /** `LPUSH key v` for each `v` of `values` in turn. */
  function PushAll(m: map<string, seq<string>>, key: string, values: seq<string>): map<string, seq<string>> {
    if values == [] then m else LPushed(PushAll(m, key, values[..|values| - 1]), key, values[|values| - 1])
  }

  /** Pushing one by one onto the head leaves the values in reverse order, ahead of the old list. */
  lemma {:induction false} PushAllEffect(m: map<string, seq<string>>, key: string, values: seq<string>)
    ensures ListAt(PushAll(m, key, values), key) == Reverse(values) + ListAt(m, key)
    ensures PushAll(m, key, values).Keys == if values == [] then m.Keys else m.Keys + {key}
    ensures forall k :: k in m && k != key ==> PushAll(m, key, values)[k] == m[k]
  {
    if values != [] {
      var init := values[..|values| - 1];
      PushAllEffect(m, key, init);
      assert Reverse(values) == [values[|values| - 1]] + Reverse(init);
    }
  }

  /** The shared key-value store of the crawl. */
  class RedisStore {
    var lists: map<string, seq<string>>

    constructor (contents: map<string, seq<string>>)
      ensures lists == contents
    {
      lists := contents;
    }

    /** `DEL key`. */
    method Delete(key: string)
      modifies this
      ensures lists == old(lists) - {key}
    {
      lists := lists - {key};
    }

    /** `LPUSH key value`. */
    method LPush(key: string, value: string)
      modifies this
      ensures lists == LPushed(old(lists), key, value)
    {
      lists := LPushed(lists, key, value);
    }
  }

  function DupefilterKey(name: string): string { name + ":dupefilter" }
  function RequestsKey(name: string): string { name + ":requests" }
  function GuildIdKey(name: string): string { name + ":guild_id" }
  function StartUrlsKey(name: string): string { name + ":start_urls" }

  /** The store after a restart of the spider `name` seeded with `urls`. */
  function Restarted(m: map<string, seq<string>>, name: string, urls: seq<string>): map<string, seq<string>> {
    PushAll(m - {DupefilterKey(name)} - {RequestsKey(name)} - {GuildIdKey(name)}, StartUrlsKey(name), urls)
  }

  lemma SuffixesDiffer(name: string, a: string, b: string)
    requires a != b
    ensures name + a != name + b
  {
    assert (name + a)[|name|..] == a;
    assert (name + b)[|name|..] == b;
  }

  /** The start-URL key is none of the three keys a restart deletes. */
  lemma StartUrlsKeyKept(name: string)
    ensures StartUrlsKey(name) !in {DupefilterKey(name), RequestsKey(name), GuildIdKey(name)}
  {
    SuffixesDiffer(name, ":start_urls", ":dupefilter");
    SuffixesDiffer(name, ":start_urls", ":requests");
    SuffixesDiffer(name, ":start_urls", ":guild_id");
  }

  /**
   * A restart forgets the spider's seen-request fingerprints, its pending
   * requests and its seen guild ids, and puts the start URLs at the head of
   * its start-URL list, the last one first, ahead of what was there.
   */
  lemma RestartClearsAndSeeds(m: map<string, seq<string>>, name: string, urls: seq<string>)
    ensures var r := Restarted(m, name, urls);
      && DupefilterKey(name) !in r && RequestsKey(name) !in r && GuildIdKey(name) !in r
      && ListAt(r, StartUrlsKey(name)) == Reverse(urls) + ListAt(m, StartUrlsKey(name))
  {
    StartUrlsKeyKept(name);
    var deleted := m - {DupefilterKey(name)} - {RequestsKey(name)} - {GuildIdKey(name)};
    PushAllEffect(deleted, StartUrlsKey(name), urls);
    assert ListAt(deleted, StartUrlsKey(name)) == ListAt(m, StartUrlsKey(name));
  }

  /** A restart leaves every key other than those four as it was. */
  lemma RestartKeepsOthers(m: map<string, seq<string>>, name: string, urls: seq<string>, k: string)
    requires k != DupefilterKey(name) && k != RequestsKey(name) && k != GuildIdKey(name) && k != StartUrlsKey(name)
    ensures k in Restarted(m, name, urls) <==> k in m
    ensures k in m ==> Restarted(m, name, urls)[k] == m[k]
  {
    var deleted := m - {DupefilterKey(name)} - {RequestsKey(name)} - {GuildIdKey(name)};
    PushAllEffect(deleted, StartUrlsKey(name), urls);
  }

  /**
   * The restart commands of `restart_or_continue_job`, sent in one Redis
   * pipeline: delete the three keys, then push the start URLs one by one.
   */
  method Restart(store: RedisStore, name: string, urls: seq<string>)
    modifies store
    ensures store.lists == Restarted(old(store.lists), name, urls)
  {
    store.Delete(DupefilterKey(name));
    store.Delete(RequestsKey(name));
    store.Delete(GuildIdKey(name));
    ghost var deleted := store.lists;
    var i := 0;
    while i < |urls|
      invariant 0 <= i <= |urls|
      invariant store.lists == PushAll(deleted, StartUrlsKey(name), urls[..i])
    {
      assert urls[..i + 1][..i] == urls[..i];
      store.LPush(StartUrlsKey(name), urls[i]);
      i := i + 1;
    }
    assert urls[..i] == urls;
  }

  /**
   * `restart_or_continue_job`: nothing happens when `RESTART_JOB` is exactly
   * "False"; any other value restarts the crawl of `SPIDER_NAME`. An unset
   * variable raises KeyError before the store is touched.
   */
  method RestartOrContinueJob(env: Environment, store: RedisStore) returns (r: Result<(), EnvError>)
    modifies store
    ensures "RESTART_JOB" !in env ==> r == Err(MissingVariable("RESTART_JOB"))
    ensures r.Err? || ("RESTART_JOB" in env && env["RESTART_JOB"] == "False") ==> store.lists == old(store.lists)
    ensures "RESTART_JOB" in env && env["RESTART_JOB"] == "False" ==> r.Ok?
    ensures "RESTART_JOB" in env && env["RESTART_JOB"] != "False" ==>
      (r.Ok? <==> "REDIS_URL" in env && "SPIDER_NAME" in env && GetStartUrls(env).Ok?)
    ensures r.Ok? && env["RESTART_JOB"] != "False" ==>
      store.lists == Restarted(old(store.lists), env["SPIDER_NAME"], GetStartUrls(env).value)
  {
    var restart :- Getenv(env, "RESTART_JOB");
    if restart == "False" {
      return Ok(());
    }
    var redisUrl :- Getenv(env, "REDIS_URL");
    var name :- Getenv(env, "SPIDER_NAME");
    var urls :- GetStartUrls(env);
    // redis.Redis.from_url(redis_url) is the connection behind `store`
    Restart(store, name, urls);
    return Ok(());
  }
}

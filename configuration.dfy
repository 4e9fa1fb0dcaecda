/**
  Assembly of the Postgres and Redis configuration records from secrets.
  Each record looks up a fixed list of keys in a fixed group, with no
  default; the first key that does not resolve aborts construction.
 */
module Configuration {
  import opened Outcomes
  import opened CredManager

  const PostgresGroup: string := "postgres"

  /** The Postgres keys, in lookup order. */
  const PostgresKeys: seq<string> := ["db", "host", "port", "user", "password"]

  /** The keys of the Postgres `get_config` dictionary. */
  const PostgresConfigKeys: set<string> := {"database", "host", "port", "username", "password"}

  /** The Redis group for the `dev` deployment tag. */
  const RedisGroup: string := "redis_dev"

  /** The Redis keys, in lookup order. */
  const RedisKeys: seq<string> := ["host", "port", "password"]

  /** The keys of the Redis `get_config` dictionary. */
  const RedisConfigKeys: set<string> := {"host", "port", "password"}

  /** `key` resolves in `group` with no default. */
  predicate Resolves(environ: Environ, files: Files, group: string, key: string)
  {
    GetKey(environ, files, group, key, None).Found?
  }

  /** The first `n` keys of `keys` all resolve in `group`. */
  predicate PrefixResolves(environ: Environ, files: Files, group: string, keys: seq<string>, n: nat)
    requires n <= |keys|
  {
    n == 0 || (PrefixResolves(environ, files, group, keys, n - 1) && Resolves(environ, files, group, keys[n - 1]))
  }

  /** Every key of `keys` resolves in `group`. */
  predicate AllResolve(environ: Environ, files: Files, group: string, keys: seq<string>)
  {
    PrefixResolves(environ, files, group, keys, |keys|)
  }

  /**
    Construction stopped after `n` lookups: the first `n - 1` keys resolved
    and the `n`-th did not.
   */
  predicate StoppedAt(environ: Environ, files: Files, group: string, keys: seq<string>, n: nat)
  {
    && 0 < n <= |keys|
    && PrefixResolves(environ, files, group, keys, n - 1)
    && !Resolves(environ, files, group, keys[n - 1])
  }

  /** A prefix resolves exactly when each of its keys does. */
  lemma {:induction false} PrefixResolvesIff(environ: Environ, files: Files, group: string, keys: seq<string>, n: nat)
    requires n <= |keys|
    ensures PrefixResolves(environ, files, group, keys, n)
            <==> forall j :: 0 <= j < n ==> Resolves(environ, files, group, keys[j])
  {
    if n > 0 {
      PrefixResolvesIff(environ, files, group, keys, n - 1);
      if forall j :: 0 <= j < n ==> Resolves(environ, files, group, keys[j]) {
        assert forall j :: 0 <= j < n - 1 ==> Resolves(environ, files, group, keys[j]);
        assert Resolves(environ, files, group, keys[n - 1]);
      }
    }
  }

  /** One key that does not resolve spoils every prefix that contains it. */
  lemma {:induction false} MissingBreaksPrefix(environ: Environ, files: Files, group: string, keys: seq<string>, i: nat, n: nat)
    requires i < n <= |keys|
    requires !Resolves(environ, files, group, keys[i])
    ensures !PrefixResolves(environ, files, group, keys, n)
  {
    if i < n - 1 {
      MissingBreaksPrefix(environ, files, group, keys, i, n - 1);
    }
  }

  /**
    Stopping after `n` lookups means the `n`-th key is the first one that
    does not resolve; so the stopping point is unique, and no key after it
    is ever looked up.
   */
  lemma StoppedAtFirstMissing(environ: Environ, files: Files, group: string, keys: seq<string>, n: nat)
    ensures StoppedAt(environ, files, group, keys, n)
            <==> && 0 < n <= |keys|
                 && !Resolves(environ, files, group, keys[n - 1])
                 && forall j :: 0 <= j < n - 1 ==> Resolves(environ, files, group, keys[j])
  {
    if 0 < n <= |keys| {
      PrefixResolvesIff(environ, files, group, keys, n - 1);
    }
  }

  /** Two stopping points for the same keys coincide. */
  lemma StoppedAtUnique(environ: Environ, files: Files, group: string, keys: seq<string>, n: nat, m: nat)
    requires StoppedAt(environ, files, group, keys, n)
    requires StoppedAt(environ, files, group, keys, m)
    ensures n == m
  {
    StoppedAtFirstMissing(environ, files, group, keys, n);
    StoppedAtFirstMissing(environ, files, group, keys, m);
  }

  /** `ConfigManager`: fixes the deployment tag and forwards lookups to `get_key`. */
  class ConfigManager {
    var env: string

    constructor ()
      ensures env == "dev"
    {
      env := "dev";
    }

    /**
      `get_secret`: `name` is ignored and no default is passed. It reads no
      field; it is an instance member only because the source calls it as
      `c.get_secret(...)`.
     */
    function GetSecret(environ: Environ, files: Files, config: string, key: string, name: Option<string> := None): (r: KeyResult)
      ensures r == GetKey(environ, files, config, key, None)
    {
      GetKey(environ, files, config, key)
    }
  }

  /**
    A secret fails to resolve exactly when neither the environment nor a file
    gives a non-empty value, whatever `name` is: no default is ever applied.
   */
  lemma GetSecretFailsIff(c: ConfigManager, environ: Environ, files: Files, config: string, key: string, name: Option<string>)
    ensures c.GetSecret(environ, files, config, key, name) == NoKeyFound
            <==> !Truthy(EnvProbe(environ, config, key)) && !Truthy(FolderProbe(files, config, key))
  {
    FoundIff(environ, files, config, key, None);
  }

  /** The Postgres configuration record. */
  class PostgresDatabaseConfiguration {
    var database: string
    var host: string
    var port: string
    var username: string
    var password: string

    /** The object as `__init__` leaves it once every lookup has succeeded. */
    constructor FromSecrets(database: string, host: string, port: string, username: string, password: string)
      ensures this.database == database && this.host == host && this.port == port
      ensures this.username == username && this.password == password
    {
      this.database, this.host, this.port, this.username, this.password := database, host, port, username, password;
    }

    /**
      `PostgresDatabaseConfiguration()`: looks up `db`, `host`, `port`,
      `user`, `password` in group `postgres`, one after another; the first
      that does not resolve raises "No Key Found" and no object results.
      `attempts` counts the lookups made.
     */
    static method Load(environ: Environ, files: Files)
      returns (r: Result<PostgresDatabaseConfiguration>, ghost attempts: nat)
      ensures r.Ok? <==> AllResolve(environ, files, PostgresGroup, PostgresKeys)
      ensures r.Ok? ==> attempts == |PostgresKeys|
      ensures r.Err? ==> r.error == NoKeyFoundMessage && StoppedAt(environ, files, PostgresGroup, PostgresKeys, attempts)
      ensures r.Ok? ==> fresh(r.value)
      ensures r.Ok? ==> && GetKey(environ, files, "postgres", "db", None) == Found(r.value.database)
                        && GetKey(environ, files, "postgres", "host", None) == Found(r.value.host)
                        && GetKey(environ, files, "postgres", "port", None) == Found(r.value.port)
                        && GetKey(environ, files, "postgres", "user", None) == Found(r.value.username)
                        && GetKey(environ, files, "postgres", "password", None) == Found(r.value.password)
    {
      var c := new ConfigManager();

      var s := c.GetSecret(environ, files, "postgres", "db");
      attempts := 1;
      if s.NoKeyFound? {
        MissingBreaksPrefix(environ, files, PostgresGroup, PostgresKeys, 0, |PostgresKeys|);
        return Err(NoKeyFoundMessage), attempts;
      }
      var database := s.value;
      assert PrefixResolves(environ, files, PostgresGroup, PostgresKeys, 1);

      s := c.GetSecret(environ, files, "postgres", "host");
      attempts := 2;
      if s.NoKeyFound? {
        MissingBreaksPrefix(environ, files, PostgresGroup, PostgresKeys, 1, |PostgresKeys|);
        return Err(NoKeyFoundMessage), attempts;
      }
      var host := s.value;
      assert PrefixResolves(environ, files, PostgresGroup, PostgresKeys, 2);

      s := c.GetSecret(environ, files, "postgres", "port");
      attempts := 3;
      if s.NoKeyFound? {
        MissingBreaksPrefix(environ, files, PostgresGroup, PostgresKeys, 2, |PostgresKeys|);
        return Err(NoKeyFoundMessage), attempts;
      }
      var port := s.value;
      assert PrefixResolves(environ, files, PostgresGroup, PostgresKeys, 3);

      s := c.GetSecret(environ, files, "postgres", "user");
      attempts := 4;
      if s.NoKeyFound? {
        MissingBreaksPrefix(environ, files, PostgresGroup, PostgresKeys, 3, |PostgresKeys|);
        return Err(NoKeyFoundMessage), attempts;
      }
      var username := s.value;
      assert PrefixResolves(environ, files, PostgresGroup, PostgresKeys, 4);

      s := c.GetSecret(environ, files, "postgres", "password");
      attempts := 5;
      if s.NoKeyFound? {
        MissingBreaksPrefix(environ, files, PostgresGroup, PostgresKeys, 4, |PostgresKeys|);
        return Err(NoKeyFoundMessage), attempts;
      }
      assert PrefixResolves(environ, files, PostgresGroup, PostgresKeys, 5);

      var self := new PostgresDatabaseConfiguration.FromSecrets(database, host, port, username, s.value);
      r := Ok(self);
    }

    /** `get_config`: `database` and `username` carry the `db` and `user` secrets. */
    function GetConfig(): (m: map<string, string>)
      reads this
      ensures m.Keys == PostgresConfigKeys
      ensures m["database"] == database && m["host"] == host && m["port"] == port
              && m["username"] == username && m["password"] == password
    {
      map["database" := database, "host" := host, "port" := port,
          "username" := username, "password" := password]
    }
  }

  /** The Redis configuration record. */
  class RedisDatabaseConfiguration {
    var host: string
    var port: string
    var password: string

    /** The object as `__init__` leaves it once every lookup has succeeded. */
    constructor FromSecrets(host: string, port: string, password: string)
      ensures this.host == host && this.port == port && this.password == password
    {
      this.host, this.port, this.password := host, port, password;
    }

    /**
      `RedisDatabaseConfiguration()`: looks up `host`, `port`, `password` in
      group `redis_{env}`, which is `redis_dev`, one after another; the first
      that does not resolve raises "No Key Found" and no object results.
     */
    static method Load(environ: Environ, files: Files)
      returns (r: Result<RedisDatabaseConfiguration>, ghost attempts: nat)
      ensures r.Ok? <==> AllResolve(environ, files, RedisGroup, RedisKeys)
      ensures r.Ok? ==> attempts == |RedisKeys|
      ensures r.Err? ==> r.error == NoKeyFoundMessage && StoppedAt(environ, files, RedisGroup, RedisKeys, attempts)
      ensures r.Ok? ==> fresh(r.value)
      ensures r.Ok? ==> && GetKey(environ, files, "redis_dev", "host", None) == Found(r.value.host)
                        && GetKey(environ, files, "redis_dev", "port", None) == Found(r.value.port)
                        && GetKey(environ, files, "redis_dev", "password", None) == Found(r.value.password)
    {
      var c := new ConfigManager();
      var group := "redis_" + c.env;
      assert group == RedisGroup;

      var s := c.GetSecret(environ, files, group, "host");
      attempts := 1;
      if s.NoKeyFound? {
        MissingBreaksPrefix(environ, files, RedisGroup, RedisKeys, 0, |RedisKeys|);
        return Err(NoKeyFoundMessage), attempts;
      }
      var host := s.value;
      assert PrefixResolves(environ, files, RedisGroup, RedisKeys, 1);

      s := c.GetSecret(environ, files, group, "port");
      attempts := 2;
      if s.NoKeyFound? {
        MissingBreaksPrefix(environ, files, RedisGroup, RedisKeys, 1, |RedisKeys|);
        return Err(NoKeyFoundMessage), attempts;
      }
      var port := s.value;
      assert PrefixResolves(environ, files, RedisGroup, RedisKeys, 2);

      s := c.GetSecret(environ, files, group, "password");
      attempts := 3;
      if s.NoKeyFound? {
        MissingBreaksPrefix(environ, files, RedisGroup, RedisKeys, 2, |RedisKeys|);
        return Err(NoKeyFoundMessage), attempts;
      }
      assert PrefixResolves(environ, files, RedisGroup, RedisKeys, 3);

      var self := new RedisDatabaseConfiguration.FromSecrets(host, port, s.value);
      r := Ok(self);
    }

    /** `get_config`: exactly `host`, `port` and `password`. */
    function GetConfig(): (m: map<string, string>)
      reads this
      ensures m.Keys == RedisConfigKeys
      ensures m["host"] == host && m["port"] == port && m["password"] == password
    {
      map["host" := host, "port" := port, "password" := password]
    }
  }
}

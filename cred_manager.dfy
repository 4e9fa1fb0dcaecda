/**
  Secret lookup for a (group, key) pair: three environment-variable
  spellings, then a file under `cred/{group}/{group}_{key}` (relative to the
  working directory, then under `/`), then a truthy caller default.
  The environment and the filesystem are read-only snapshots.
 */
module CredManager {
  import opened Outcomes
  import opened PyText

  /** Environment variables: name to value. */
  type Environ = map<string, string>

  /** Regular files: path to (already decoded) content. */
  type Files = map<string, string>

  /** The outcome of `get_key`: a value, or the exception "No Key Found". */
  datatype KeyResult = Found(value: string) | NoKeyFound

  const NoKeyFoundMessage: string := "No Key Found"

  /** The probe prefixes tried, in order: working directory, then root. */
  const Locations: seq<string> := ["", "/"]

  /** Python truthiness of an optional string: present and non-empty. */
  predicate Truthy(v: Option<string>)
  {
    v.Some? && v.value != ""
  }

  /** `os.environ.get(name)`. */
  function EnvGet(environ: Environ, name: string): Option<string>
  {
    if name in environ then Some(environ[name]) else None
  }

  function ExactName(config: string, key: string): string
  {
    config + "_" + key
  }

  function UpperName(config: string, key: string): string
  {
    Upper(config) + "_" + Upper(key)
  }

  function CapitalizedName(config: string, key: string): string
  {
    Capitalize(config) + "_" + Capitalize(key)
  }

  /** The three spellings, in the order they are tried. */
  function EnvNames(config: string, key: string): seq<string>
  {
    [ExactName(config, key), UpperName(config, key), CapitalizedName(config, key)]
  }

  /**
    Reference search: the value of the first name bound to a non-empty
    value, skipping unset and empty variables.
   */
  function FirstNonEmpty(environ: Environ, names: seq<string>): (r: Option<string>)
    ensures r.Some? ==> r.value != ""
    decreases |names|
  {
    if names == [] then None
    else if Truthy(EnvGet(environ, names[0])) then EnvGet(environ, names[0])
    else FirstNonEmpty(environ, names[1..])
  }

  /** The reference search finds a value exactly when some name is set non-empty, and then the earliest one. */
  lemma {:induction false} FirstNonEmptyIsEarliest(environ: Environ, names: seq<string>)
    ensures var r := FirstNonEmpty(environ, names);
            (r.Some? <==> exists i :: 0 <= i < |names| && Truthy(EnvGet(environ, names[i])))
            && (r.Some? ==> exists i :: (0 <= i < |names| && EnvGet(environ, names[i]) == r
                                         && forall j :: 0 <= j < i ==> !Truthy(EnvGet(environ, names[j]))))
    decreases |names|
  {
    if names != [] && !Truthy(EnvGet(environ, names[0])) {
      FirstNonEmptyIsEarliest(environ, names[1..]);
      assert forall i :: 1 <= i < |names| ==> names[i] == names[1..][i - 1];
      var r := FirstNonEmpty(environ, names);
      if r.Some? {
        var i :| 0 <= i < |names| - 1 && EnvGet(environ, names[1..][i]) == r
                 && forall j :: 0 <= j < i ==> !Truthy(EnvGet(environ, names[1..][j]));
        assert EnvGet(environ, names[i + 1]) == r;
      }
    } else if names != [] {
      assert EnvGet(environ, names[0]) == FirstNonEmpty(environ, names);
    }
  }

  /**
    `_get_key_from_env`: the first two spellings only count when non-empty;
    the third spelling's lookup is returned as it is (possibly empty or unset).
   */
  function EnvProbe(environ: Environ, config: string, key: string): (r: Option<string>)
    ensures r == EnvGet(environ, ExactName(config, key)) || r == EnvGet(environ, UpperName(config, key))
            || r == EnvGet(environ, CapitalizedName(config, key))
    ensures Truthy(EnvGet(environ, ExactName(config, key))) ==> r == EnvGet(environ, ExactName(config, key))
  {
    var t := EnvGet(environ, ExactName(config, key));
    if Truthy(t) then t
    else
      var t1 := EnvGet(environ, UpperName(config, key));
      if Truthy(t1) then t1
      else EnvGet(environ, CapitalizedName(config, key))
  }

  /**
    Whenever the environment probe yields a non-empty value, it is the first
    non-empty one among the three spellings, and it yields one whenever some
    spelling is set non-empty.
   */
  lemma EnvProbeIsFirstNonEmpty(environ: Environ, config: string, key: string)
    ensures var r := EnvProbe(environ, config, key);
            (Truthy(r) <==> FirstNonEmpty(environ, EnvNames(config, key)).Some?)
            && (Truthy(r) ==> r == FirstNonEmpty(environ, EnvNames(config, key)))
  {
    var names := EnvNames(config, key);
    assert names[1..][1..] == [CapitalizedName(config, key)];
    assert FirstNonEmpty(environ, names[1..][1..][1..]) == None;
    if !Truthy(EnvGet(environ, names[0])) && !Truthy(EnvGet(environ, names[1])) {
      assert FirstNonEmpty(environ, names) == FirstNonEmpty(environ, names[1..][1..]);
    }
  }

  /** The file probed under one location prefix. */
  function CredPath(location: string, config: string, key: string): string
  {
    location + "cred/" + config + "/" + config + "_" + key
  }

  /**
    The `for location in locations` search of `_get_key_from_folder`: the
    content of the first existing file, unmodified (even when empty), or
    None when no candidate exists.
   */
  function FolderProbeFrom(files: Files, locations: seq<string>, config: string, key: string): (r: Option<string>)
    ensures r.None? <==> forall i :: 0 <= i < |locations| ==> CredPath(locations[i], config, key) !in files
    ensures r.Some? ==> r.value in files.Values
    decreases |locations|
  {
    if locations == [] then None
    else
      var path := CredPath(locations[0], config, key);
      if path in files then Some(files[path])
      else FolderProbeFrom(files, locations[1..], config, key)
  }

  /**
    The folder search finds something exactly when some candidate exists,
    and then returns the content of the earliest existing candidate.
   */
  lemma {:induction false} FolderProbeIsEarliest(files: Files, locations: seq<string>, config: string, key: string)
    ensures var r := FolderProbeFrom(files, locations, config, key);
            (r.Some? <==> exists i :: 0 <= i < |locations| && CredPath(locations[i], config, key) in files)
            && (r.Some? ==> exists i :: (0 <= i < |locations| && CredPath(locations[i], config, key) in files
                                         && r.value == files[CredPath(locations[i], config, key)]
                                         && forall j :: 0 <= j < i ==> CredPath(locations[j], config, key) !in files))
    decreases |locations|
  {
    if locations != [] && CredPath(locations[0], config, key) !in files {
      FolderProbeIsEarliest(files, locations[1..], config, key);
      assert forall i :: 1 <= i < |locations| ==> locations[i] == locations[1..][i - 1];
      var r := FolderProbeFrom(files, locations, config, key);
      if r.Some? {
        var i :| 0 <= i < |locations| - 1 && CredPath(locations[1..][i], config, key) in files
                 && r.value == files[CredPath(locations[1..][i], config, key)]
                 && forall j :: 0 <= j < i ==> CredPath(locations[1..][j], config, key) !in files;
        assert CredPath(locations[i + 1], config, key) in files;
      }
    }
  }

  /** `_get_key_from_folder`: nothing exactly when neither candidate file exists. */
  function FolderProbe(files: Files, config: string, key: string): (r: Option<string>)
    ensures r.None? <==> CredPath("", config, key) !in files && CredPath("/", config, key) !in files
  {
    FolderProbeFrom(files, Locations, config, key)
  }

  /**
    `_get_key_from_folder` as the source runs it: a loop over the locations
    that returns the first existing file's content, and None after the loop.
    This is the loop rendering only: `GetKey`, a function, uses the
    specification `FolderProbe` it is proved equal to.
   */
  method GetKeyFromFolder(files: Files, config: string, key: string) returns (r: Option<string>)
    ensures r == FolderProbe(files, config, key)
  {
    var locations := Locations;
    var i := 0;
    while i < |locations|
      invariant 0 <= i <= |locations|
      invariant FolderProbeFrom(files, locations[i..], config, key) == FolderProbe(files, config, key)
    {
      var file := CredPath(locations[i], config, key);
      if file in files {
        return Some(files[file]);
      }
      assert locations[i..][1..] == locations[i + 1..];
      i := i + 1;
    }
    return None;
  }

  /**
    `get_key(config, key, default)`: environment, then files, then a truthy
    default; every success is non-empty.
   */
  function GetKey(environ: Environ, files: Files, config: string, key: string, default: Option<string> := None): (r: KeyResult)
    ensures r.Found? ==> r.value != ""
  {
    var env := EnvProbe(environ, config, key);
    if Truthy(env) then Found(env.value)
    else
      var fileData := FolderProbe(files, config, key);
      if Truthy(fileData) then Found(fileData.value)
      else if Truthy(default) then Found(default.value)
      else NoKeyFound
  }

  /** `get_key` succeeds exactly when one of the three sources is truthy. */
  lemma FoundIff(environ: Environ, files: Files, config: string, key: string, default: Option<string>)
    ensures GetKey(environ, files, config, key, default).Found?
            <==> Truthy(EnvProbe(environ, config, key)) || Truthy(FolderProbe(files, config, key)) || Truthy(default)
  {
  }

  /** A non-empty exact-case variable wins, whatever the files and the default hold. */
  lemma ExactEnvWins(environ: Environ, files: Files, config: string, key: string, default: Option<string>)
    requires ExactName(config, key) in environ && environ[ExactName(config, key)] != ""
    ensures GetKey(environ, files, config, key, default) == Found(environ[ExactName(config, key)])
  {
  }

  /** An environment hit is the first non-empty spelling, in the order exact, upper, capitalized. */
  lemma EnvPrecedence(environ: Environ, files: Files, config: string, key: string, default: Option<string>)
    requires FirstNonEmpty(environ, EnvNames(config, key)).Some?
    ensures GetKey(environ, files, config, key, default) == Found(FirstNonEmpty(environ, EnvNames(config, key)).value)
  {
    EnvProbeIsFirstNonEmpty(environ, config, key);
  }

  /** The files and the default are consulted only when no spelling gives a non-empty value. */
  lemma EnvShadowsFilesAndDefault(environ: Environ, files1: Files, files2: Files, config: string, key: string,
                                  default1: Option<string>, default2: Option<string>)
    requires FirstNonEmpty(environ, EnvNames(config, key)).Some?
    ensures GetKey(environ, files1, config, key, default1) == GetKey(environ, files2, config, key, default2)
  {
    EnvProbeIsFirstNonEmpty(environ, config, key);
  }

  /** The folder probe's order: the relative file first (even when empty), then the one under `/`. */
  lemma {:induction false} FolderProbeOrder(files: Files, config: string, key: string)
    ensures var rel, abs := CredPath("", config, key), CredPath("/", config, key);
            FolderProbe(files, config, key) ==
              if rel in files then Some(files[rel])
              else if abs in files then Some(files[abs])
              else None
  {
    var rel, abs := CredPath("", config, key), CredPath("/", config, key);
    assert Locations[1..][1..] == [];
    assert FolderProbeFrom(files, Locations[1..][1..], config, key) == None;
  }

  /** With no environment hit, a non-empty file is returned as it is, whatever the default. */
  lemma FileBeforeDefault(environ: Environ, files: Files, config: string, key: string, default: Option<string>)
    requires !Truthy(EnvProbe(environ, config, key))
    requires Truthy(FolderProbe(files, config, key))
    ensures GetKey(environ, files, config, key, default) == Found(FolderProbe(files, config, key).value)
  {
  }

  /**
    An empty relative file stops the folder probe: the file under `/` is
    never read, and the result falls through to the default.
   */
  lemma EmptyRelativeFileShadowsRoot(environ: Environ, files: Files, config: string, key: string, default: Option<string>)
    requires !Truthy(EnvProbe(environ, config, key))
    requires CredPath("", config, key) in files && files[CredPath("", config, key)] == ""
    ensures GetKey(environ, files, config, key, default) == if Truthy(default) then Found(default.value) else NoKeyFound
  {
    FolderProbeOrder(files, config, key);
  }

  /** The default is the last resort, and only a truthy default is used. */
  lemma DefaultIsLastResort(environ: Environ, files: Files, config: string, key: string, default: Option<string>)
    requires !Truthy(EnvProbe(environ, config, key)) && !Truthy(FolderProbe(files, config, key))
    ensures GetKey(environ, files, config, key, default) == if Truthy(default) then Found(default.value) else NoKeyFound
  {
  }

  /** A default of "" behaves as no default at all. */
  lemma EmptyDefaultIgnored(environ: Environ, files: Files, config: string, key: string)
    ensures GetKey(environ, files, config, key, Some("")) == GetKey(environ, files, config, key, None)
  {
  }

  /**
    `get_key` fails exactly when every spelling is unset or empty, the first
    existing candidate file (if any) is empty, and the default is not truthy.
   */
  lemma {:induction false} FailsIff(environ: Environ, files: Files, config: string, key: string, default: Option<string>)
    ensures var rel, abs := CredPath("", config, key), CredPath("/", config, key);
            GetKey(environ, files, config, key, default) == NoKeyFound
            <==>
            (forall i :: 0 <= i < 3 ==> !Truthy(EnvGet(environ, EnvNames(config, key)[i])))
            && (rel in files ==> files[rel] == "")
            && (rel !in files && abs in files ==> files[abs] == "")
            && !Truthy(default)
  {
    FolderProbeOrder(files, config, key);
    var names := EnvNames(config, key);
    assert names[0] == ExactName(config, key) && names[1] == UpperName(config, key)
           && names[2] == CapitalizedName(config, key);
  }

  /** `postgres_host=db.internal` set and no file: the variable's value is returned. */
  lemma HostFromEnvironment()
    ensures GetKey(map["postgres_host" := "db.internal"], map[], "postgres", "host") == Found("db.internal")
  {
    assert ExactName("postgres", "host") == "postgres_host";
    ExactEnvWins(map["postgres_host" := "db.internal"], map[], "postgres", "host", None);
  }

  /** Nothing set, no file, no default: the lookup fails. */
  lemma PasswordMissing()
    ensures GetKey(map[], map[], "postgres", "password") == NoKeyFound
  {
    FailsIff(map[], map[], "postgres", "password", None);
  }
}

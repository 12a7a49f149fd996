/**
 * The connection profile of ort/data/database.py: a `Database` object whose
 * five fields start out as `None`, are filled from the `database` record of
 * the configuration by `BuildFrom`, and are rendered into the `mysqldump`
 * and `mysql` command lines. The commands are built with `str.format`
 * (module PyFormat), so a field that is still `None` is rendered as "None".
 * No quoting or escaping is applied to any field or path, and the password
 * appears in both commands in plain text.
 */
module OrtDatabase {
  import opened Wrappers
  import opened PyFormat

  /** The exception raised by indexing a configuration record with an absent key. */
  datatype KeyError = KeyError(key: string)

  /** The configuration keys in the order `build_from` reads them. */
  const ConfigKeys: seq<string> :=
    ["database_host", "database_schema", "database_port", "database_user", "database_password"]

  /**
   * `str(v)` for a field: a string prints as itself and Python's `None` as
   * "None", so an unset field cannot be told apart from the string "None".
   */
  function Show(v: Option<string>): (r: string)
    ensures v.Some? ==> r == v.value
    ensures r == "None" <==> v == None || v == Some("None")
  {
    match v
    case None => "None"
    case Some(s) => s
  }

  /** The first of `keys` absent from `config`, if any. */
  function FirstMissing(keys: seq<string>, config: map<string, string>): (r: Option<string>)
    ensures r == None <==> forall i :: 0 <= i < |keys| ==> keys[i] in config
    ensures r.Some? ==> exists i :: 0 <= i < |keys| && keys[i] == r.value && r.value !in config
                                    && forall j :: 0 <= j < i ==> keys[j] in config
  {
    if keys == [] then None
    else if keys[0] !in config then Some(keys[0])
    else
      var r := FirstMissing(keys[1..], config);
      if r.Some? then
        var i :| 0 <= i < |keys| - 1 && keys[1..][i] == r.value && r.value !in config
                 && forall j :: 0 <= j < i ==> keys[1..][j] in config;
        assert keys[i + 1] == r.value;
        r
      else r
  }

  /** `FirstMissing` over the configuration keys, spelled out key by key. */
  lemma FirstMissingConfigKeys(config: map<string, string>)
    ensures FirstMissing(ConfigKeys, config)
         == if "database_host" !in config then Some("database_host")
            else if "database_schema" !in config then Some("database_schema")
            else if "database_port" !in config then Some("database_port")
            else if "database_user" !in config then Some("database_user")
            else if "database_password" !in config then Some("database_password")
            else None
  {
    var k := ConfigKeys;
    var m4 := if "database_password" !in config then Some("database_password") else None;
    assert FirstMissing(k[4..], config) == m4 by {
      assert k[4..][1..] == [];
    }
    var m3 := if "database_user" !in config then Some("database_user") else m4;
    assert FirstMissing(k[3..], config) == m3 by {
      assert k[3..][1..] == k[4..];
    }
    var m2 := if "database_port" !in config then Some("database_port") else m3;
    assert FirstMissing(k[2..], config) == m2 by {
      assert k[2..][1..] == k[3..];
    }
    var m1 := if "database_schema" !in config then Some("database_schema") else m2;
    assert FirstMissing(k[1..], config) == m1 by {
      assert k[1..][1..] == k[2..];
    }
  }

  /** The dump template of `snapshot_command`, written here in two halves to keep the literal short. */
  const SnapshotTemplate: string :=
    "mysqldump --user={} --password={} --port={} --host={}" + " --result-file={} --add-drop-database --databases {}"

  /** The restore template of `restore_command`. */
  const RestoreTemplate: string :=
    "mysql --user={} --password={} --port={} --host={} < {}"

  const SnapshotSegments: seq<string> :=
    ["mysqldump --user=", " --password=", " --port=", " --host=", " --result-file=",
     " --add-drop-database --databases ", ""]

  const RestoreSegments: seq<string> :=
    ["mysql --user=", " --password=", " --port=", " --host=", " < ", ""]

  /** The first half of the dump template, cut at its fields. */
  lemma SnapshotTemplateHead()
    ensures "mysqldump --user={} --password={} --port={} --host={}"
         == "mysqldump --user=" + "{}" + " --password=" + "{}" + " --port=" + "{}" + " --host=" + "{}"
  {
  }

  /** The second half of the dump template, cut at its fields. */
  lemma SnapshotTemplateTail()
    ensures " --result-file={} --add-drop-database --databases {}"
         == " --result-file=" + "{}" + " --add-drop-database --databases " + "{}"
  {
  }

  /** The dump template is six `{}` fields between the literal option texts. */
  lemma SnapshotTemplateText()
    ensures SnapshotTemplate
         == "mysqldump --user=" + "{}" + " --password=" + "{}" + " --port=" + "{}" + " --host=" + "{}"
            + " --result-file=" + "{}" + " --add-drop-database --databases " + "{}" + ""
  {
    SnapshotTemplateHead();
    SnapshotTemplateTail();
  }

  /** Joining the dump segments with `{}` gives the dump template. */
  lemma SnapshotSegmentsJoin()
    ensures Template(SnapshotSegments)
         == "mysqldump --user=" + "{}" + " --password=" + "{}" + " --port=" + "{}" + " --host=" + "{}"
            + " --result-file=" + "{}" + " --add-drop-database --databases " + "{}" + ""
  {
    JoinSix("mysqldump --user=", " --password=", " --port=", " --host=", " --result-file=",
            " --add-drop-database --databases ", "");
  }

  lemma SnapshotSegmentsPlain()
    ensures AllPlain(SnapshotSegments)
  {
  }

  /** The restore template is five `{}` fields between the literal option texts. */
  lemma RestoreTemplateText()
    ensures RestoreTemplate
         == "mysql --user=" + "{}" + " --password=" + "{}" + " --port=" + "{}" + " --host=" + "{}"
            + " < " + "{}" + ""
  {
  }

  /** Joining the restore segments with `{}` gives the restore template. */
  lemma RestoreSegmentsJoin()
    ensures Template(RestoreSegments)
         == "mysql --user=" + "{}" + " --password=" + "{}" + " --port=" + "{}" + " --host=" + "{}"
            + " < " + "{}" + ""
  {
    JoinFive("mysql --user=", " --password=", " --port=", " --host=", " < ", "");
  }

  lemma RestoreSegmentsPlain()
    ensures AllPlain(RestoreSegments)
  {
  }

  /** The dump segments interleaved with six arguments, spelled out. */
  lemma InterleaveSnapshot(user: string, password: string, port: string, host: string, path: string, schema: string)
    ensures Interleave(SnapshotSegments, [user, password, port, host, path, schema])
         == "mysqldump --user=" + user + " --password=" + password + " --port=" + port
            + " --host=" + host + " --result-file=" + path + " --add-drop-database --databases " + schema
  {
    InterleaveSix("mysqldump --user=", " --password=", " --port=", " --host=", " --result-file=",
                  " --add-drop-database --databases ", "", user, password, port, host, path, schema);
  }

  /** The restore segments interleaved with five arguments, spelled out. */
  lemma InterleaveRestore(user: string, password: string, port: string, host: string, path: string)
    ensures Interleave(RestoreSegments, [user, password, port, host, path])
         == "mysql --user=" + user + " --password=" + password + " --port=" + port
            + " --host=" + host + " < " + path
  {
    InterleaveFive("mysql --user=", " --password=", " --port=", " --host=", " < ", "",
                   user, password, port, host, path);
  }

  /** `Template` of six segments, spelled out. */
  lemma JoinFive(s0: string, s1: string, s2: string, s3: string, s4: string, s5: string)
    ensures Template([s0, s1, s2, s3, s4, s5])
         == s0 + "{}" + s1 + "{}" + s2 + "{}" + s3 + "{}" + s4 + "{}" + s5
  {
    var s := [s0, s1, s2, s3, s4, s5];
    var t4 := s4 + "{}" + s5;
    assert Template(s[4..]) == t4 by {
      assert s[4..][1..] == [s5];
    }
    var t3 := s3 + "{}" + t4;
    assert Template(s[3..]) == t3 by {
      assert s[3..][1..] == s[4..];
    }
    var t2 := s2 + "{}" + t3;
    assert Template(s[2..]) == t2 by {
      assert s[2..][1..] == s[3..];
    }
    var t1 := s1 + "{}" + t2;
    assert Template(s[1..]) == t1 by {
      assert s[1..][1..] == s[2..];
    }
  }

  /** `Template` of seven segments, spelled out. */
  lemma JoinSix(s0: string, s1: string, s2: string, s3: string, s4: string, s5: string, s6: string)
    ensures Template([s0, s1, s2, s3, s4, s5, s6])
         == s0 + "{}" + s1 + "{}" + s2 + "{}" + s3 + "{}" + s4 + "{}" + s5 + "{}" + s6
  {
    var s := [s0, s1, s2, s3, s4, s5, s6];
    JoinFive(s1, s2, s3, s4, s5, s6);
    assert s[1..] == [s1, s2, s3, s4, s5, s6];
    var t := s1 + "{}" + s2 + "{}" + s3 + "{}" + s4 + "{}" + s5 + "{}" + s6;
    assert Template(s) == s0 + "{}" + t;
  }

  /** `Interleave` of six segments and five arguments, spelled out. */
  lemma InterleaveFive(s0: string, s1: string, s2: string, s3: string, s4: string, s5: string,
                       a0: string, a1: string, a2: string, a3: string, a4: string)
    ensures Interleave([s0, s1, s2, s3, s4, s5], [a0, a1, a2, a3, a4])
         == s0 + a0 + s1 + a1 + s2 + a2 + s3 + a3 + s4 + a4 + s5
  {
    var s, a := [s0, s1, s2, s3, s4, s5], [a0, a1, a2, a3, a4];
    var i4 := s4 + a4 + s5;
    assert Interleave(s[4..], a[4..]) == i4 by {
      assert s[4..][1..] == [s5];
    }
    var i3 := s3 + a3 + i4;
    assert Interleave(s[3..], a[3..]) == i3 by {
      assert s[3..][1..] == s[4..] && a[3..][1..] == a[4..];
    }
    var i2 := s2 + a2 + i3;
    assert Interleave(s[2..], a[2..]) == i2 by {
      assert s[2..][1..] == s[3..] && a[2..][1..] == a[3..];
    }
    var i1 := s1 + a1 + i2;
    assert Interleave(s[1..], a[1..]) == i1 by {
      assert s[1..][1..] == s[2..] && a[1..][1..] == a[2..];
    }
  }

  /** `Interleave` of seven segments and six arguments, spelled out. */
  lemma InterleaveSix(s0: string, s1: string, s2: string, s3: string, s4: string, s5: string, s6: string,
                      a0: string, a1: string, a2: string, a3: string, a4: string, a5: string)
    ensures Interleave([s0, s1, s2, s3, s4, s5, s6], [a0, a1, a2, a3, a4, a5])
         == s0 + a0 + s1 + a1 + s2 + a2 + s3 + a3 + s4 + a4 + s5 + a5 + s6
  {
    var s, a := [s0, s1, s2, s3, s4, s5, s6], [a0, a1, a2, a3, a4, a5];
    InterleaveFive(s1, s2, s3, s4, s5, s6, a1, a2, a3, a4, a5);
    assert s[1..] == [s1, s2, s3, s4, s5, s6] && a[1..] == [a1, a2, a3, a4, a5];
    var t := s1 + a1 + s2 + a2 + s3 + a3 + s4 + a4 + s5 + a5 + s6;
    assert Interleave(s, a) == s0 + a0 + t;
  }

  /** Formatting the dump template never raises and yields the options in the template's order. */
  lemma FormatSnapshot(user: string, password: string, port: string, host: string, path: string, schema: string)
    ensures Format(SnapshotTemplate, [user, password, port, host, path, schema])
         == Success("mysqldump --user=" + user + " --password=" + password + " --port=" + port
                    + " --host=" + host + " --result-file=" + path
                    + " --add-drop-database --databases " + schema)
  {
    SnapshotTemplateText();
    SnapshotSegmentsJoin();
    SnapshotSegmentsPlain();
    FormatTemplate(SnapshotSegments, [user, password, port, host, path, schema]);
    InterleaveSnapshot(user, password, port, host, path, schema);
  }

  /** Formatting the restore template never raises and yields the options in the template's order. */
  lemma FormatRestore(user: string, password: string, port: string, host: string, path: string)
    ensures Format(RestoreTemplate, [user, password, port, host, path])
         == Success("mysql --user=" + user + " --password=" + password + " --port=" + port
                    + " --host=" + host + " < " + path)
  {
    RestoreTemplateText();
    RestoreSegmentsJoin();
    RestoreSegmentsPlain();
    FormatTemplate(RestoreSegments, [user, password, port, host, path]);
    InterleaveRestore(user, password, port, host, path);
  }

  /** The connection profile: the fields that `__init__` creates and `build_from` fills in. */
  class Database {
    var host: Option<string>
    var schema: Option<string>
    var port: Option<string>
    var username: Option<string>
    var password: Option<string>

    /** `Database()`: every field starts out as `None`. */
    constructor ()
      ensures host == None && schema == None && port == None && username == None && password == None
    {
      host := None;
      schema := None;
      port := None;
      username := None;
      password := None;
    }

    /** Every field holds the value of its configuration key. */
    ghost predicate LoadedFrom(config: map<string, string>)
      reads this
    {
      && "database_host" in config && host == Some(config["database_host"])
      && "database_schema" in config && schema == Some(config["database_schema"])
      && "database_port" in config && port == Some(config["database_port"])
      && "database_user" in config && username == Some(config["database_user"])
      && "database_password" in config && password == Some(config["database_password"])
    }

    /**
     * `Database.build_from(config_json)`: a new object whose fields are read
     * from the configuration one key at a time. Indexing an absent key raises
     * `KeyError` for the first absent key in reading order.
     */
    static method BuildFrom(config: map<string, string>) returns (r: Result<Database, KeyError>)
      ensures r.Failure? <==> FirstMissing(ConfigKeys, config).Some?
      ensures r.Failure? ==> r.error == KeyError(FirstMissing(ConfigKeys, config).value)
      ensures r.Success? ==> fresh(r.value) && r.value.LoadedFrom(config)
    {
      FirstMissingConfigKeys(config);
      var db := new Database();
      if "database_host" !in config {
        return Failure(KeyError("database_host"));
      }
      db.host := Some(config["database_host"]);
      if "database_schema" !in config {
        return Failure(KeyError("database_schema"));
      }
      db.schema := Some(config["database_schema"]);
      if "database_port" !in config {
        return Failure(KeyError("database_port"));
      }
      db.port := Some(config["database_port"]);
      if "database_user" !in config {
        return Failure(KeyError("database_user"));
      }
      db.username := Some(config["database_user"]);
      if "database_password" !in config {
        return Failure(KeyError("database_password"));
      }
      db.password := Some(config["database_password"]);
      return Success(db);
    }

    /** The `--user=... --password=... --port=... --host=...` options that both commands carry. */
    function ConnectionOptions(): string
      reads this
    {
      "--user=" + Show(username) + " --password=" + Show(password)
      + " --port=" + Show(port) + " --host=" + Show(host)
    }

    /** `snapshot_command(path)`: the `mysqldump` command line that dumps the schema to `path`. */
    function SnapshotCommand(path: string): (r: string)
      reads this
      ensures r == "mysqldump --user=" + Show(username) + " --password=" + Show(password)
                   + " --port=" + Show(port) + " --host=" + Show(host) + " --result-file=" + path
                   + " --add-drop-database --databases " + Show(schema)
    {
      FormatSnapshot(Show(username), Show(password), Show(port), Show(host), path, Show(schema));
      Format(SnapshotTemplate, [Show(username), Show(password), Show(port), Show(host), path, Show(schema)]).value
    }

    /** `restore_command(path)`: the `mysql` command line that replays the dump at `path`. */
    function RestoreCommand(path: string): (r: string)
      reads this
      ensures r == "mysql --user=" + Show(username) + " --password=" + Show(password)
                   + " --port=" + Show(port) + " --host=" + Show(host) + " < " + path
    {
      FormatRestore(Show(username), Show(password), Show(port), Show(host), path);
      Format(RestoreTemplate, [Show(username), Show(password), Show(port), Show(host), path]).value
    }
  }
}

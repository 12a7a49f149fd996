/**
 * Facts about the command lines that a `Database` profile builds: their
 * layout, the options they are sure to carry, which fields each depends on,
 * and that the path can be read back from the command.
 */
module OrtDatabaseProperties {
  import opened Wrappers
  import opened OrtDatabase

  /** `s.startswith(prefix)`. */
  predicate StartsWith(s: string, prefix: string) {
    |prefix| <= |s| && s[..|prefix|] == prefix
  }

  /** `s.endswith(suffix)`. */
  predicate EndsWith(s: string, suffix: string) {
    |suffix| <= |s| && s[|s| - |suffix|..] == suffix
  }

  /** `part` occurs in `s` starting at index `k`. */
  predicate OccursAt(s: string, part: string, k: int) {
    0 <= k <= |s| - |part| && s[k..k + |part|] == part
  }

  /** `part in s`, for strings. */
  predicate Contains(s: string, part: string) {
    exists k :: 0 <= k <= |s| - |part| && OccursAt(s, part, k)
  }

  /** Concatenation is associative; called where the solver needs a regrouping named. */
  lemma Assoc(a: string, b: string, c: string)
    ensures a + b + c == a + (b + c)
  {
  }

  /** A string made of three parts starts with the first, contains the second and ends with the third. */
  lemma Pieces(a: string, b: string, c: string)
    ensures StartsWith(a + b + c, a) && Contains(a + b + c, b) && EndsWith(a + b + c, c)
  {
    var s := a + b + c;
    assert s[..|a|] == a;
    assert OccursAt(s, b, |a|);
    assert s[|s| - |c|..] == c;
  }

  /** The dump command regrouped around its connection options. */
  lemma RegroupSnapshot(u: string, pw: string, po: string, h: string, p: string, s: string)
    ensures "mysqldump --user=" + u + " --password=" + pw + " --port=" + po + " --host=" + h
            + " --result-file=" + p + " --add-drop-database --databases " + s
         == "mysqldump " + ("--user=" + u + " --password=" + pw + " --port=" + po + " --host=" + h)
            + " --result-file=" + p + " --add-drop-database --databases " + s
  {
  }

  /** The restore command regrouped around its connection options. */
  lemma RegroupRestore(u: string, pw: string, po: string, h: string, p: string)
    ensures "mysql --user=" + u + " --password=" + pw + " --port=" + po + " --host=" + h + " < " + p
         == "mysql " + ("--user=" + u + " --password=" + pw + " --port=" + po + " --host=" + h) + " < " + p
  {
  }

  /** Splits the leading `--user=` off the program name so that the connection options form one group. */
  lemma RegroupConnection(lead: string, m: string, u: string, pw: string, po: string, h: string)
    requires lead == m + "--user="
    ensures lead + u + " --password=" + pw + " --port=" + po + " --host=" + h
         == m + ("--user=" + u + " --password=" + pw + " --port=" + po + " --host=" + h)
  {
  }

  /** The dump command is the program name, the connection options, then the dump options. */
  lemma SnapshotLayout(db: Database, path: string)
    ensures db.SnapshotCommand(path)
         == "mysqldump " + db.ConnectionOptions() + " --result-file=" + path
            + " --add-drop-database --databases " + Show(db.schema)
  {
    assert "mysqldump --user=" == "mysqldump " + "--user=";
    RegroupSnapshot(Show(db.username), Show(db.password), Show(db.port), Show(db.host), path, Show(db.schema));
  }

  /** The restore command is the program name, the same connection options, then the input redirection. */
  lemma RestoreLayout(db: Database, path: string)
    ensures db.RestoreCommand(path) == "mysql " + db.ConnectionOptions() + " < " + path
  {
    assert "mysql --user=" == "mysql " + "--user=";
    RegroupRestore(Show(db.username), Show(db.password), Show(db.port), Show(db.host), path);
  }

  /**
   * The dump runs `mysqldump`, always drops and recreates the database,
   * writes to `path`, and ends by naming the schema.
   */
  lemma SnapshotOptions(db: Database, path: string)
    ensures StartsWith(db.SnapshotCommand(path), "mysqldump ")
    ensures Contains(db.SnapshotCommand(path), "--add-drop-database")
    ensures Contains(db.SnapshotCommand(path), "--result-file=" + path)
    ensures EndsWith(db.SnapshotCommand(path), " --databases " + Show(db.schema))
  {
    SnapshotLayout(db, path);
    DumpStart(db.ConnectionOptions(), path, Show(db.schema));
    DumpEnd(db.ConnectionOptions(), path, Show(db.schema));
    DumpTarget(db.ConnectionOptions(), path, Show(db.schema));
  }

  /** The dump command, for any connection options, path and schema, starts with the program name. */
  lemma DumpStart(c: string, path: string, sch: string)
    ensures StartsWith("mysqldump " + c + " --result-file=" + path + " --add-drop-database --databases " + sch,
                       "mysqldump ")
  {
  }

  /** The dump command carries `--add-drop-database` and ends by naming the schema. */
  lemma DumpEnd(c: string, path: string, sch: string)
    ensures Contains("mysqldump " + c + " --result-file=" + path + " --add-drop-database --databases " + sch,
                     "--add-drop-database")
    ensures EndsWith("mysqldump " + c + " --result-file=" + path + " --add-drop-database --databases " + sch,
                     " --databases " + sch)
  {
    var x := "mysqldump " + c + " --result-file=" + path;
    assert " --add-drop-database --databases " == " " + "--add-drop-database" + " --databases ";
    Assoc(x, " " + "--add-drop-database", " --databases ");
    Assoc(x, " ", "--add-drop-database");
    Assoc(x + " " + "--add-drop-database", " --databases ", sch);
    Pieces(x + " ", "--add-drop-database", " --databases " + sch);
  }

  /** The dump command carries `--result-file=` followed by the path. */
  lemma DumpTarget(c: string, path: string, sch: string)
    ensures Contains("mysqldump " + c + " --result-file=" + path + " --add-drop-database --databases " + sch,
                     "--result-file=" + path)
  {
    var y, add := "mysqldump " + c + " ", " --add-drop-database --databases ";
    assert " --result-file=" == " " + "--result-file=";
    Assoc("mysqldump " + c, " ", "--result-file=");
    Assoc(y, "--result-file=", path);
    Assoc(y + ("--result-file=" + path), add, sch);
    Pieces(y, "--result-file=" + path, add + sch);
  }

  /** The restore runs `mysql` and ends by redirecting its input from `path`. */
  lemma RestoreOptions(db: Database, path: string)
    ensures StartsWith(db.RestoreCommand(path), "mysql ")
    ensures EndsWith(db.RestoreCommand(path), " < " + path)
  {
    var cmd, m, c := db.RestoreCommand(path), "mysql ", db.ConnectionOptions();
    RestoreLayout(db, path);
    Assoc(m + c, " < ", path);
    Pieces(m, c, " < " + path);
  }

  /** Both commands carry the password verbatim, in plain text. */
  lemma PasswordInPlainText(db: Database, path: string)
    ensures Contains(db.SnapshotCommand(path), "--password=" + Show(db.password))
    ensures Contains(db.RestoreCommand(path), "--password=" + Show(db.password))
  {
    var pre := "--user=" + Show(db.username) + " ";
    var pw := "--password=" + Show(db.password);
    var post := " --port=" + Show(db.port) + " --host=" + Show(db.host);
    assert db.ConnectionOptions() == pre + pw + post by {
      assert " --password=" == " " + "--password=";
      Assoc("--user=" + Show(db.username), " ", "--password=");
      Assoc(pre, "--password=", Show(db.password));
      Assoc(pre + pw, " --port=", Show(db.port));
      Assoc(pre + pw, " --port=" + Show(db.port), " --host=");
      Assoc(pre + pw, " --port=" + Show(db.port) + " --host=", Show(db.host));
    }
    ContainsInConnection(db, path, pre, pw, post);
  }

  /** Whatever occurs in the connection options occurs in both commands. */
  lemma ContainsInConnection(db: Database, path: string, pre: string, part: string, post: string)
    requires db.ConnectionOptions() == pre + part + post
    ensures Contains(db.SnapshotCommand(path), part)
    ensures Contains(db.RestoreCommand(path), part)
  {
    var snapTail := " --result-file=" + path + " --add-drop-database --databases " + Show(db.schema);
    SnapshotLayout(db, path);
    assert db.SnapshotCommand(path) == "mysqldump " + db.ConnectionOptions() + snapTail by {
      Assoc("mysqldump " + db.ConnectionOptions() + " --result-file=", path, " --add-drop-database --databases ");
      Assoc("mysqldump " + db.ConnectionOptions(), " --result-file=", path + " --add-drop-database --databases ");
      Assoc("mysqldump " + db.ConnectionOptions(), " --result-file=" + path + " --add-drop-database --databases ", Show(db.schema));
    }
    InfixOf("mysqldump ", pre, part, post, snapTail);
    RestoreLayout(db, path);
    Assoc("mysql " + db.ConnectionOptions(), " < ", path);
    InfixOf("mysql ", pre, part, post, " < " + path);
  }

  /** A part of the middle piece occurs in the whole. */
  lemma InfixOf(a: string, pre: string, part: string, post: string, b: string)
    ensures Contains(a + (pre + part + post) + b, part)
  {
    var s := a + (pre + part + post) + b;
    assert OccursAt(s, part, |a| + |pre|);
  }

  /** The restore command does not read the schema: profiles that differ only there restore alike. */
  lemma RestoreIgnoresSchema(a: Database, b: Database, path: string)
    requires a.host == b.host && a.port == b.port && a.username == b.username && a.password == b.password
    ensures a.RestoreCommand(path) == b.RestoreCommand(path)
  {
  }

  /** The dump command does read the schema: profiles that differ only in how the schema prints dump differently. */
  lemma SnapshotDependsOnSchema(a: Database, b: Database, path: string)
    requires a.host == b.host && a.port == b.port && a.username == b.username && a.password == b.password
    requires Show(a.schema) != Show(b.schema)
    ensures a.SnapshotCommand(path) != b.SnapshotCommand(path)
  {
    var pre := "mysqldump " + a.ConnectionOptions() + " --result-file=" + path + " --add-drop-database --databases ";
    SnapshotLayout(a, path);
    SnapshotLayout(b, path);
    assert a.SnapshotCommand(path) == pre + Show(a.schema);
    assert b.SnapshotCommand(path) == pre + Show(b.schema);
    assert a.SnapshotCommand(path)[|pre|..] == Show(a.schema);
    assert b.SnapshotCommand(path)[|pre|..] == Show(b.schema);
  }

  /** For one profile, the dump command determines the path it writes to. */
  lemma SnapshotPathDetermined(db: Database, p: string, q: string)
    requires db.SnapshotCommand(p) == db.SnapshotCommand(q)
    ensures p == q
  {
    var pre := "mysqldump " + db.ConnectionOptions() + " --result-file=";
    var add, sch := " --add-drop-database --databases ", Show(db.schema);
    SnapshotLayout(db, p);
    SnapshotLayout(db, q);
    Assoc(pre + p, add, sch);
    Assoc(pre + q, add, sch);
    MiddleDetermined(pre, p, q, add + sch);
  }

  /** Equal strings with the same prefix and suffix have the same middle. */
  lemma MiddleDetermined(pre: string, p: string, q: string, post: string)
    requires pre + p + post == pre + q + post
    ensures p == q
  {
    assert |p| == |q|;
    assert (pre + p + post)[|pre|..|pre| + |p|] == p;
    assert (pre + q + post)[|pre|..|pre| + |q|] == q;
  }

  /** For one profile, the restore command determines the path it reads from. */
  lemma RestorePathDetermined(db: Database, p: string, q: string)
    requires db.RestoreCommand(p) == db.RestoreCommand(q)
    ensures p == q
  {
    var pre := "mysql " + db.ConnectionOptions() + " < ";
    RestoreLayout(db, p);
    RestoreLayout(db, q);
    assert db.RestoreCommand(p) == pre + p;
    assert db.RestoreCommand(q) == pre + q;
    assert (pre + p)[|pre|..] == p;
    assert (pre + q)[|pre|..] == q;
  }

  /** A profile that `BuildFrom` filled in puts each configuration value behind its own option. */
  lemma LoadedCommands(db: Database, config: map<string, string>, path: string)
    requires db.LoadedFrom(config)
    ensures db.SnapshotCommand(path)
         == "mysqldump --user=" + config["database_user"] + " --password=" + config["database_password"]
            + " --port=" + config["database_port"] + " --host=" + config["database_host"]
            + " --result-file=" + path + " --add-drop-database --databases " + config["database_schema"]
    ensures db.RestoreCommand(path)
         == "mysql --user=" + config["database_user"] + " --password=" + config["database_password"]
            + " --port=" + config["database_port"] + " --host=" + config["database_host"] + " < " + path
  {
  }

  /** A bare `Database()` has every field `None`, which `str.format` prints as "None". */
  lemma UnsetCommands(db: Database, path: string)
    requires db.host == None && db.schema == None && db.port == None
    requires db.username == None && db.password == None
    ensures db.SnapshotCommand(path)
         == "mysqldump " + "--user=None --password=None --port=None --host=None" + " --result-file=" + path
            + " --add-drop-database --databases None"
    ensures db.RestoreCommand(path) == "mysql " + "--user=None --password=None --port=None --host=None" + " < " + path
  {
    var conn := "--user=None --password=None --port=None --host=None";
    UnsetConnection(db);
    SnapshotLayout(db, path);
    RestoreLayout(db, path);
    assert " --add-drop-database --databases None" == " --add-drop-database --databases " + "None";
    Assoc("mysqldump " + conn + " --result-file=" + path, " --add-drop-database --databases ", "None");
  }

  /** The connection options of a profile whose fields are `None`. */
  lemma UnsetConnection(db: Database)
    requires db.host == None && db.port == None && db.username == None && db.password == None
    ensures db.ConnectionOptions() == "--user=None --password=None --port=None --host=None"
  {
    assert "--user=None" == "--user=" + "None";
    assert "--user=None --password=" == "--user=None" + " --password=";
    assert "--user=None --password=None" == "--user=None --password=" + "None";
    assert "--user=None --password=None --port=" == "--user=None --password=None" + " --port=";
    assert "--user=None --password=None --port=None" == "--user=None --password=None --port=" + "None";
    assert "--user=None --password=None --port=None --host=" == "--user=None --password=None --port=None" + " --host=";
    assert "--user=None --password=None --port=None --host=None" == "--user=None --password=None --port=None --host=" + "None";
  }

  /**
   * No field or path is quoted, so the restore command alone does not fix
   * the path: a host that itself holds " < " gives the same command line as
   * a plain host with a longer path.
   */
  lemma RestoreCommandAmbiguous(a: Database, b: Database, h: string, x: string, p: string)
    requires a.username == b.username && a.password == b.password && a.port == b.port
    requires a.host == Some(h + " < " + x) && b.host == Some(h)
    ensures a.RestoreCommand(p) == b.RestoreCommand(x + " < " + p)
  {
  }
}

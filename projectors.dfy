/**
 * The three projectors that fold a bucket's credentials secret into the
 * caller's configuration tree, each at its own fixed path, and the proofs
 * that they write exactly those paths and leave everything else alone.
 */
module Projectors {
  import opened Wrappers
  import opened Naming
  import opened HelmValues
  import opened Store

  /** A secret field as a string; a missing field reads as the empty string. */
  function Field(secret: Secret, key: string): string
  {
    if key in secret.data then secret.data[key] else ""
  }

  /** Path of the bucket's per-bucket settings: global.appConfig.<name>. */
  function AppConfigPath(c: Constants, name: string): seq<string>
  {
    [c.valuesKeyGlobal, c.valuesKeyAppConfig, name]
  }

  function BucketPath(c: Constants, name: string): seq<string>
  {
    AppConfigPath(c, name) + ["bucket"]
  }

  function ConnectionKeyPath(c: Constants, name: string): seq<string>
  {
    AppConfigPath(c, name) + ["connection", "key"]
  }

  function ConnectionSecretPath(c: Constants, name: string): seq<string>
  {
    AppConfigPath(c, name) + ["connection", "secret"]
  }

  /** Path of the backup job's object-storage settings: gitlab.task-runner.backups.objectStorage.config. */
  function BackupsConfigPath(c: Constants): seq<string>
  {
    [c.valuesKeyGitlab, "task-runner", "backups", "objectStorage", "config"]
  }

  function BackupsKeyPath(c: Constants): seq<string>
  {
    BackupsConfigPath(c) + ["key"]
  }

  function BackupsSecretPath(c: Constants): seq<string>
  {
    BackupsConfigPath(c) + ["secret"]
  }

  function TmpBucketPath(c: Constants): seq<string>
  {
    [c.valuesKeyGlobal, c.valuesKeyAppConfig, "backups", "tmpBucket"]
  }

  /** global.appConfig.<name> = {bucket: endpoint, connection: {key: connection key, secret: prefix + secret name}}. */
  function ConnectionPatch(c: Constants, secret: Secret, name: string, secretPrefix: string): Tree
  {
    map[c.valuesKeyGlobal := Node(map[c.valuesKeyAppConfig := Node(map[name := Node(map[
      "bucket" := Str(Field(secret, c.endpointKey)),
      "connection" := Node(map[
        "key" := Str(c.connectionKey),
        "secret" := Str(secretPrefix + secret.meta.name)])])])])]
  }

  /** global.appConfig.<name>.bucket = endpoint. */
  function BackupsBucketPatch(c: Constants, secret: Secret, name: string): Tree
  {
    map[c.valuesKeyGlobal := Node(map[c.valuesKeyAppConfig := Node(map[name := Node(map[
      "bucket" := Str(Field(secret, c.endpointKey))])])])]
  }

  /** gitlab.task-runner.backups.objectStorage.config = {key: connection key, secret: prefix + secret name}. */
  function BackupsConfigPatch(c: Constants, secret: Secret, secretPrefix: string): Tree
  {
    map[c.valuesKeyGitlab := Node(map["task-runner" := Node(map["backups" := Node(map[
      "objectStorage" := Node(map["config" := Node(map[
        "key" := Str(c.connectionKey),
        "secret" := Str(secretPrefix + secret.meta.name)])])])])])]
  }

  /** Both parts the backups projector writes. */
  function BackupsPatch(c: Constants, secret: Secret, name: string, secretPrefix: string): Tree
  {
    Merge(BackupsBucketPatch(c, secret, name), BackupsConfigPatch(c, secret, secretPrefix))
  }

  /** global.appConfig.backups.tmpBucket = name; the secret is not read. */
  function BackupsTempPatch(c: Constants, name: string): Tree
  {
    map[c.valuesKeyGlobal := Node(map[c.valuesKeyAppConfig := Node(map[
      "backups" := Node(map["tmpBucket" := Str(name)])])])]
  }

  /** Adds the bucket's connection settings to the caller's values. */
  method BucketConnectionHelmValues(values: Values, c: Constants, secret: Secret, name: string, secretPrefix: string)
    modifies values
    ensures values.tree == Merge(old(values.tree), ConnectionPatch(c, secret, name, secretPrefix))
  {
    values.MergeIn(ConnectionPatch(c, secret, name, secretPrefix));
  }

  /** Adds the bucket's endpoint and the backup job's storage settings to the caller's values. */
  method BucketBackupsHelmValues(values: Values, c: Constants, secret: Secret, name: string, secretPrefix: string)
    modifies values
    ensures values.tree == Merge(old(values.tree), BackupsPatch(c, secret, name, secretPrefix))
  {
    values.MergeIn(BackupsPatch(c, secret, name, secretPrefix));
  }

  /** Adds the temporary backup bucket's name to the caller's values. */
  method BucketBackupsTempHelmValues(values: Values, c: Constants, secret: Secret, name: string, secretPrefix: string)
    modifies values
    ensures values.tree == Merge(old(values.tree), BackupsTempPatch(c, name))
  {
    values.MergeIn(BackupsTempPatch(c, name));
  }

  // ---------------------------------------------------------------------
  // Shapes on the empty tree and the leaves every projection writes
  // ---------------------------------------------------------------------

  /** On empty values the connection projector yields exactly its subtree, with its three leaves. */
  lemma ConnectionOnEmpty(c: Constants, secret: Secret, name: string, secretPrefix: string)
    ensures Merge(map[], ConnectionPatch(c, secret, name, secretPrefix)) == ConnectionPatch(c, secret, name, secretPrefix)
    ensures Merge(map[], ConnectionPatch(c, secret, name, secretPrefix)).Keys == {c.valuesKeyGlobal}
  {
    MergeIntoEmpty(ConnectionPatch(c, secret, name, secretPrefix));
  }

  /** On empty values the backups projector yields exactly the two subtrees side by side. */
  lemma BackupsOnEmpty(c: Constants, secret: Secret, name: string, secretPrefix: string)
    requires c.valuesKeyGitlab != c.valuesKeyGlobal
    ensures Merge(map[], BackupsPatch(c, secret, name, secretPrefix)) ==
            map[c.valuesKeyGitlab := BackupsConfigPatch(c, secret, secretPrefix)[c.valuesKeyGitlab],
                c.valuesKeyGlobal := BackupsBucketPatch(c, secret, name)[c.valuesKeyGlobal]]
  {
    var p := BackupsPatch(c, secret, name, secretPrefix);
    MergeIntoEmpty(p);
    var expected := map[c.valuesKeyGitlab := BackupsConfigPatch(c, secret, secretPrefix)[c.valuesKeyGitlab],
                        c.valuesKeyGlobal := BackupsBucketPatch(c, secret, name)[c.valuesKeyGlobal]];
    assert p.Keys == expected.Keys;
  }

  /** On empty values the temporary-bucket projector yields exactly its subtree. */
  lemma BackupsTempOnEmpty(c: Constants, secret: Secret, name: string, secretPrefix: string)
    ensures Merge(map[], BackupsTempPatch(c, name)) == BackupsTempPatch(c, name)
    ensures Lookup(BackupsTempPatch(c, name), TmpBucketPath(c)) == Some(Str(name))
  {
    MergeIntoEmpty(BackupsTempPatch(c, name));
    var t := BackupsTempPatch(c, name);
    var g := t[c.valuesKeyGlobal].children;
    var a := g[c.valuesKeyAppConfig].children;
    LookupCons(Node(t), c.valuesKeyGlobal, [c.valuesKeyAppConfig, "backups", "tmpBucket"]);
    LookupCons(Node(g), c.valuesKeyAppConfig, ["backups", "tmpBucket"]);
    LookupCons(Node(a), "backups", ["tmpBucket"]);
    LookupCons(a["backups"], "tmpBucket", []);
  }

  /** The connection patch holds the endpoint, the connection key and the prefixed secret name at their paths. */
  lemma ConnectionPatchLeaves(c: Constants, secret: Secret, name: string, secretPrefix: string)
    ensures var p := ConnectionPatch(c, secret, name, secretPrefix);
            && Lookup(p, BucketPath(c, name)) == Some(Str(Field(secret, c.endpointKey)))
            && Lookup(p, ConnectionKeyPath(c, name)) == Some(Str(c.connectionKey))
            && Lookup(p, ConnectionSecretPath(c, name)) == Some(Str(secretPrefix + secret.meta.name))
  {
    var p := ConnectionPatch(c, secret, name, secretPrefix);
    var g := p[c.valuesKeyGlobal].children;
    var a := g[c.valuesKeyAppConfig].children;
    var m := a[name];
    LookupCons(Node(p), c.valuesKeyGlobal, [c.valuesKeyAppConfig, name]);
    LookupCons(Node(g), c.valuesKeyAppConfig, [name]);
    LookupCons(Node(a), name, []);
    LookupCons(m, "connection", ["key"]);
    LookupCons(m.children["connection"], "key", []);
    LookupCons(m, "connection", ["secret"]);
    LookupCons(m.children["connection"], "secret", []);
    LookupCons(m, "bucket", []);
    LookupAppend(Node(p), AppConfigPath(c, name), ["connection", "key"]);
    LookupAppend(Node(p), AppConfigPath(c, name), ["connection", "secret"]);
    LookupAppend(Node(p), AppConfigPath(c, name), ["bucket"]);
  }

  /** Whatever the values held before, the connection projection's leaves are present afterwards. */
  lemma ConnectionWritesLeaves(acc: Tree, c: Constants, secret: Secret, name: string, secretPrefix: string)
    ensures var t := Merge(acc, ConnectionPatch(c, secret, name, secretPrefix));
            && Lookup(t, BucketPath(c, name)) == Some(Str(Field(secret, c.endpointKey)))
            && Lookup(t, ConnectionKeyPath(c, name)) == Some(Str(c.connectionKey))
            && Lookup(t, ConnectionSecretPath(c, name)) == Some(Str(secretPrefix + secret.meta.name))
  {
    var p := ConnectionPatch(c, secret, name, secretPrefix);
    ConnectionPatchLeaves(c, secret, name, secretPrefix);
    MergePlacesLeaves(acc, p, BucketPath(c, name), Field(secret, c.endpointKey));
    MergePlacesLeaves(acc, p, ConnectionKeyPath(c, name), c.connectionKey);
    MergePlacesLeaves(acc, p, ConnectionSecretPath(c, name), secretPrefix + secret.meta.name);
  }

  lemma BackupsBucketLeaf(c: Constants, secret: Secret, name: string)
    ensures Lookup(BackupsBucketPatch(c, secret, name), BucketPath(c, name)) == Some(Str(Field(secret, c.endpointKey)))
  {
    var bp := BackupsBucketPatch(c, secret, name);
    var g := bp[c.valuesKeyGlobal].children;
    var a := g[c.valuesKeyAppConfig].children;
    LookupCons(Node(bp), c.valuesKeyGlobal, [c.valuesKeyAppConfig, name, "bucket"]);
    LookupCons(Node(g), c.valuesKeyAppConfig, [name, "bucket"]);
    LookupCons(Node(a), name, ["bucket"]);
    LookupCons(a[name], "bucket", []);
    assert BucketPath(c, name) == [c.valuesKeyGlobal] + [c.valuesKeyAppConfig, name, "bucket"];
    assert [c.valuesKeyAppConfig, name, "bucket"] == [c.valuesKeyAppConfig] + [name, "bucket"];
    assert [name, "bucket"] == [name] + ["bucket"];
    assert ["bucket"] == ["bucket"] + [];
  }

  lemma BackupsConfigLeaves(c: Constants, secret: Secret, secretPrefix: string)
    ensures var cp := BackupsConfigPatch(c, secret, secretPrefix);
            && Lookup(cp, BackupsKeyPath(c)) == Some(Str(c.connectionKey))
            && Lookup(cp, BackupsSecretPath(c)) == Some(Str(secretPrefix + secret.meta.name))
  {
    var cp := BackupsConfigPatch(c, secret, secretPrefix);
    var l1 := cp[c.valuesKeyGitlab].children;
    var l2 := l1["task-runner"].children;
    var l3 := l2["backups"].children;
    var l4 := l3["objectStorage"].children;
    var cfg := l4["config"];
    LookupCons(Node(cp), c.valuesKeyGitlab, ["task-runner", "backups", "objectStorage", "config"]);
    LookupCons(Node(l1), "task-runner", ["backups", "objectStorage", "config"]);
    LookupCons(Node(l2), "backups", ["objectStorage", "config"]);
    LookupCons(Node(l3), "objectStorage", ["config"]);
    LookupCons(Node(l4), "config", []);
    LookupAppend(Node(cp), BackupsConfigPath(c), ["key"]);
    LookupAppend(Node(cp), BackupsConfigPath(c), ["secret"]);
    LookupCons(cfg, "key", []);
    LookupCons(cfg, "secret", []);
  }

  /** Whatever the values held before, the backups projection's three leaves are present afterwards. */
  lemma BackupsWritesLeaves(acc: Tree, c: Constants, secret: Secret, name: string, secretPrefix: string)
    requires c.valuesKeyGitlab != c.valuesKeyGlobal
    ensures var t := Merge(acc, BackupsPatch(c, secret, name, secretPrefix));
            && Lookup(t, BucketPath(c, name)) == Some(Str(Field(secret, c.endpointKey)))
            && Lookup(t, BackupsKeyPath(c)) == Some(Str(c.connectionKey))
            && Lookup(t, BackupsSecretPath(c)) == Some(Str(secretPrefix + secret.meta.name))
  {
    var bp := BackupsBucketPatch(c, secret, name);
    var cp := BackupsConfigPatch(c, secret, secretPrefix);
    var p := BackupsPatch(c, secret, name, secretPrefix);
    BackupsBucketLeaf(c, secret, name);
    BackupsConfigLeaves(c, secret, secretPrefix);
    // the configuration part has only the gitlab key, so it leaves the bucket leaf alone
    assert Untouched(cp, BucketPath(c, name));
    MergeKeepsUntouched(bp, cp, BucketPath(c, name));
    MergePlacesLeaves(bp, cp, BackupsKeyPath(c), c.connectionKey);
    MergePlacesLeaves(bp, cp, BackupsSecretPath(c), secretPrefix + secret.meta.name);
    MergePlacesLeaves(acc, p, BucketPath(c, name), Field(secret, c.endpointKey));
    MergePlacesLeaves(acc, p, BackupsKeyPath(c), c.connectionKey);
    MergePlacesLeaves(acc, p, BackupsSecretPath(c), secretPrefix + secret.meta.name);
  }

  /** Whatever the values held before, the temporary bucket's name is present afterwards. */
  lemma BackupsTempWritesLeaf(acc: Tree, c: Constants, name: string)
    ensures Lookup(Merge(acc, BackupsTempPatch(c, name)), TmpBucketPath(c)) == Some(Str(name))
  {
    var t := BackupsTempPatch(c, name);
    var g := t[c.valuesKeyGlobal].children;
    var a := g[c.valuesKeyAppConfig].children;
    LookupCons(Node(t), c.valuesKeyGlobal, [c.valuesKeyAppConfig, "backups", "tmpBucket"]);
    LookupCons(Node(g), c.valuesKeyAppConfig, ["backups", "tmpBucket"]);
    LookupCons(Node(a), "backups", ["tmpBucket"]);
    LookupCons(a["backups"], "tmpBucket", []);
    MergePlacesLeaves(acc, t, TmpBucketPath(c), name);
  }

  // ---------------------------------------------------------------------
  // Sibling subtrees survive every projection
  // ---------------------------------------------------------------------

  /** A path that parts from all three connection leaves is left alone by the connection patch. */
  lemma ConnectionUntouched(c: Constants, secret: Secret, name: string, secretPrefix: string, p: seq<string>)
    requires Diverges(p, BucketPath(c, name))
    requires Diverges(p, ConnectionKeyPath(c, name))
    requires Diverges(p, ConnectionSecretPath(c, name))
    ensures Untouched(ConnectionPatch(c, secret, name, secretPrefix), p)
  {
    var t := ConnectionPatch(c, secret, name, secretPrefix);
    var b, k, s := BucketPath(c, name), ConnectionKeyPath(c, name), ConnectionSecretPath(c, name);
    var v1 := t[c.valuesKeyGlobal];
    var v2 := v1.children[c.valuesKeyAppConfig];
    var v3 := v2.children[name];
    var v4 := v3.children["connection"];
    if p[0] == c.valuesKeyGlobal {
      var p1, b1, k1, s1 := p[1..], b[1..], k[1..], s[1..];
      assert b[0] == k[0] == s[0] == c.valuesKeyGlobal;
      assert Diverges(p1, b1) && Diverges(p1, k1) && Diverges(p1, s1);
      assert b1 == [c.valuesKeyAppConfig, name, "bucket"];
      assert k1 == [c.valuesKeyAppConfig, name, "connection", "key"];
      assert s1 == [c.valuesKeyAppConfig, name, "connection", "secret"];
      if p1[0] == c.valuesKeyAppConfig {
        var p2, b2, k2, s2 := p1[1..], b1[1..], k1[1..], s1[1..];
        assert Diverges(p2, b2) && Diverges(p2, k2) && Diverges(p2, s2);
        assert b2 == [name, "bucket"];
        assert k2 == [name, "connection", "key"];
        assert s2 == [name, "connection", "secret"];
        if p2[0] == name {
          var p3, b3, k3, s3 := p2[1..], b2[1..], k2[1..], s2[1..];
          assert Diverges(p3, b3) && Diverges(p3, k3) && Diverges(p3, s3);
          assert b3 == ["bucket"];
          assert k3 == ["connection", "key"];
          assert s3 == ["connection", "secret"];
          assert b3[1..] == [] && b3[0] == "bucket";
          assert !Diverges(p3[1..], b3[1..]);
          assert p3[0] != "bucket";
          assert v3.children.Keys == {"bucket", "connection"};
          if p3[0] == "connection" {
            var p4, k4, s4 := p3[1..], k3[1..], s3[1..];
            assert Diverges(p4, k4) && Diverges(p4, s4);
            assert k4 == ["key"] && s4 == ["secret"];
            assert k4[1..] == [] && s4[1..] == [] && k4[0] == "key" && s4[0] == "secret";
            assert !Diverges(p4[1..], k4[1..]) && !Diverges(p4[1..], s4[1..]);
            assert p4[0] != "key" && p4[0] != "secret";
            assert v4.children.Keys == {"key", "secret"};
            assert UntouchedV(v4, p4);
          }
          assert UntouchedV(v3, p3);
        }
        assert UntouchedV(v2, p2);
      }
      assert UntouchedV(v1, p1);
    }
  }

  /** The connection projector never changes a subtree off its three leaf paths. */
  lemma ConnectionKeepsSiblings(acc: Tree, c: Constants, secret: Secret, name: string, secretPrefix: string, p: seq<string>)
    requires Diverges(p, BucketPath(c, name))
    requires Diverges(p, ConnectionKeyPath(c, name))
    requires Diverges(p, ConnectionSecretPath(c, name))
    ensures Lookup(Merge(acc, ConnectionPatch(c, secret, name, secretPrefix)), p) == Lookup(acc, p)
  {
    ConnectionUntouched(c, secret, name, secretPrefix, p);
    MergeKeepsUntouched(acc, ConnectionPatch(c, secret, name, secretPrefix), p);
  }

  /** A path that parts from the bucket leaf is left alone by the backups' bucket part. */
  lemma BackupsBucketUntouched(c: Constants, secret: Secret, name: string, p: seq<string>)
    requires Diverges(p, BucketPath(c, name))
    ensures Untouched(BackupsBucketPatch(c, secret, name), p)
  {
    var t := BackupsBucketPatch(c, secret, name);
    var b := BucketPath(c, name);
    var v1 := t[c.valuesKeyGlobal];
    var v2 := v1.children[c.valuesKeyAppConfig];
    var v3 := v2.children[name];
    if p[0] == c.valuesKeyGlobal {
      var p1, b1 := p[1..], b[1..];
      DivergesTail(p, b);
      assert b1 == [c.valuesKeyAppConfig, name, "bucket"];
      if p1[0] == c.valuesKeyAppConfig {
        var p2, b2 := p1[1..], b1[1..];
        DivergesTail(p1, b1);
        assert b2 == [name, "bucket"];
        if p2[0] == name {
          var p3, b3 := p2[1..], b2[1..];
          DivergesTail(p2, b2);
          assert b3 == ["bucket"];
          DivergesSingle(p3, "bucket");
          assert UntouchedV(v3, p3);
        }
        assert UntouchedV(v2, p2);
      }
      assert UntouchedV(v1, p1);
    }
  }

  /** A path that parts from both backup-config leaves is left alone by the backups' config part. */
  lemma BackupsConfigUntouched(c: Constants, secret: Secret, secretPrefix: string, p: seq<string>)
    requires Diverges(p, BackupsKeyPath(c))
    requires Diverges(p, BackupsSecretPath(c))
    ensures Untouched(BackupsConfigPatch(c, secret, secretPrefix), p)
  {
    var t := BackupsConfigPatch(c, secret, secretPrefix);
    var k, s := BackupsKeyPath(c), BackupsSecretPath(c);
    var v1 := t[c.valuesKeyGitlab];
    var v2 := v1.children["task-runner"];
    var v3 := v2.children["backups"];
    var v4 := v3.children["objectStorage"];
    var v5 := v4.children["config"];
    if p[0] == c.valuesKeyGitlab {
      var p1, k1, s1 := p[1..], k[1..], s[1..];
      DivergesTail(p, k);
      DivergesTail(p, s);
      assert k1 == ["task-runner", "backups", "objectStorage", "config", "key"];
      assert s1 == ["task-runner", "backups", "objectStorage", "config", "secret"];
      if p1[0] == "task-runner" {
        var p2, k2, s2 := p1[1..], k1[1..], s1[1..];
        DivergesTail(p1, k1);
        DivergesTail(p1, s1);
        assert k2 == ["backups", "objectStorage", "config", "key"];
        assert s2 == ["backups", "objectStorage", "config", "secret"];
        if p2[0] == "backups" {
          var p3, k3, s3 := p2[1..], k2[1..], s2[1..];
          DivergesTail(p2, k2);
          DivergesTail(p2, s2);
          assert k3 == ["objectStorage", "config", "key"];
          assert s3 == ["objectStorage", "config", "secret"];
          if p3[0] == "objectStorage" {
            var p4, k4, s4 := p3[1..], k3[1..], s3[1..];
            DivergesTail(p3, k3);
            DivergesTail(p3, s3);
            assert k4 == ["config", "key"];
            assert s4 == ["config", "secret"];
            if p4[0] == "config" {
              var p5, k5, s5 := p4[1..], k4[1..], s4[1..];
              DivergesTail(p4, k4);
              DivergesTail(p4, s4);
              assert k5 == ["key"] && s5 == ["secret"];
              DivergesSingle(p5, "key");
              DivergesSingle(p5, "secret");
              assert UntouchedV(v5, p5);
            }
            assert UntouchedV(v4, p4);
          }
          assert UntouchedV(v3, p3);
        }
        assert UntouchedV(v2, p2);
      }
      assert UntouchedV(v1, p1);
    }
  }

  /** The backups projector never changes a subtree off its three leaf paths. */
  lemma BackupsKeepsSiblings(acc: Tree, c: Constants, secret: Secret, name: string, secretPrefix: string, p: seq<string>)
    requires Diverges(p, BucketPath(c, name))
    requires Diverges(p, BackupsKeyPath(c))
    requires Diverges(p, BackupsSecretPath(c))
    ensures Lookup(Merge(acc, BackupsPatch(c, secret, name, secretPrefix)), p) == Lookup(acc, p)
  {
    var bp := BackupsBucketPatch(c, secret, name);
    var cp := BackupsConfigPatch(c, secret, secretPrefix);
    BackupsBucketUntouched(c, secret, name, p);
    BackupsConfigUntouched(c, secret, secretPrefix, p);
    UntouchedMergeV(Node(bp), Node(cp), p);
    MergeKeepsUntouched(acc, BackupsPatch(c, secret, name, secretPrefix), p);
  }

  /** The temporary-bucket projector never changes a subtree off the tmpBucket path. */
  lemma BackupsTempKeepsSiblings(acc: Tree, c: Constants, name: string, p: seq<string>)
    requires Diverges(p, TmpBucketPath(c))
    ensures Lookup(Merge(acc, BackupsTempPatch(c, name)), p) == Lookup(acc, p)
  {
    var t := BackupsTempPatch(c, name);
    var b := TmpBucketPath(c);
    var v1 := t[c.valuesKeyGlobal];
    var v2 := v1.children[c.valuesKeyAppConfig];
    var v3 := v2.children["backups"];
    if p[0] == c.valuesKeyGlobal {
      var p1, b1 := p[1..], b[1..];
      DivergesTail(p, b);
      assert b1 == [c.valuesKeyAppConfig, "backups", "tmpBucket"];
      if p1[0] == c.valuesKeyAppConfig {
        var p2, b2 := p1[1..], b1[1..];
        DivergesTail(p1, b1);
        assert b2 == ["backups", "tmpBucket"];
        if p2[0] == "backups" {
          var p3, b3 := p2[1..], b2[1..];
          DivergesTail(p2, b2);
          assert b3 == ["tmpBucket"];
          DivergesSingle(p3, "tmpBucket");
          assert UntouchedV(v3, p3);
        }
        assert UntouchedV(v2, p2);
      }
      assert UntouchedV(v1, p1);
    }
    assert Untouched(t, p);
    MergeKeepsUntouched(acc, t, p);
  }

  // ---------------------------------------------------------------------
  // Projections compose and can be repeated
  // ---------------------------------------------------------------------

  /**
   * The connection projection followed by the backups projection, on any
   * values, holds the leaves of both: the backups projection rewrites the
   * endpoint with the same value and adds its own subtree beside the
   * connection settings without replacing them.
   */
  lemma ConnectionThenBackups(acc: Tree, c: Constants, secret: Secret, name: string, secretPrefix: string)
    requires c.valuesKeyGitlab != c.valuesKeyGlobal
    ensures var t := Merge(Merge(acc, ConnectionPatch(c, secret, name, secretPrefix)), BackupsPatch(c, secret, name, secretPrefix));
            && Lookup(t, BucketPath(c, name)) == Some(Str(Field(secret, c.endpointKey)))
            && Lookup(t, ConnectionKeyPath(c, name)) == Some(Str(c.connectionKey))
            && Lookup(t, ConnectionSecretPath(c, name)) == Some(Str(secretPrefix + secret.meta.name))
            && Lookup(t, BackupsKeyPath(c)) == Some(Str(c.connectionKey))
            && Lookup(t, BackupsSecretPath(c)) == Some(Str(secretPrefix + secret.meta.name))
  {
    var t1 := Merge(acc, ConnectionPatch(c, secret, name, secretPrefix));
    ConnectionWritesLeaves(acc, c, secret, name, secretPrefix);
    BackupsWritesLeaves(t1, c, secret, name, secretPrefix);
    var b, bk, bs := BucketPath(c, name), BackupsKeyPath(c), BackupsSecretPath(c);
    forall q | q == ConnectionKeyPath(c, name) || q == ConnectionSecretPath(c, name)
      ensures Lookup(Merge(t1, BackupsPatch(c, secret, name, secretPrefix)), q) == Lookup(t1, q)
    {
      assert q[..3] == b[..3] && q[3] == "connection" && b[3] == "bucket";
      DivergesAt(q, b, 3);
      assert q[..0] == bk[..0] == bs[..0];
      DivergesAt(q, bk, 0);
      DivergesAt(q, bs, 0);
      BackupsKeepsSiblings(t1, c, secret, name, secretPrefix, q);
    }
  }

  /** Projecting the same secret a second time leaves the values as the first time did. */
  lemma ProjectionsIdempotent(acc: Tree, c: Constants, secret: Secret, name: string, secretPrefix: string)
    ensures var p := ConnectionPatch(c, secret, name, secretPrefix); Merge(Merge(acc, p), p) == Merge(acc, p)
    ensures var p := BackupsPatch(c, secret, name, secretPrefix); Merge(Merge(acc, p), p) == Merge(acc, p)
    ensures var p := BackupsTempPatch(c, name); Merge(Merge(acc, p), p) == Merge(acc, p)
  {
    MergeIdempotent(acc, ConnectionPatch(c, secret, name, secretPrefix));
    MergeIdempotent(acc, BackupsPatch(c, secret, name, secretPrefix));
    MergeIdempotent(acc, BackupsTempPatch(c, name));
  }
}

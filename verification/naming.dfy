/** The names a package context derives from its fields: the package
    identity, the `.apk` file name, the workspace subdirectory holding the
    package's files and the name of the signature entry. */
module Naming {
  import opened Common
  import opened Text
  import opened Paths

  /** `name-version-r<epoch>`. */
  function Identity(name: string, version: string, epoch: nat): string
  {
    name + "-" + version + "-r" + Decimal(epoch)
  }

  /** `<outDir>/<identity>.apk`. */
  function Filename(outDir: string, name: string, version: string, epoch: nat): string
  {
    outDir + "/" + Identity(name, version, epoch) + ".apk"
  }

  /** `<workspaceDir>/melange-out/<name>`, through `filepath.Join`. */
  function WorkspaceSubdir(workspaceDir: string, name: string): string
  {
    Join([workspaceDir, "melange-out", name])
  }

  /** The output directory of one architecture: `filepath.Join(outDir, arch)`. */
  function ArchOutDir(outDir: string, arch: string): string
  {
    Join([outDir, arch])
  }

  /** `.SIGN.RSA.<base of key path>.pub`. */
  function SignatureName(signingKey: string): string
  {
    ".SIGN.RSA." + Base(signingKey) + ".pub"
  }

  datatype IdentityParts = IdentityParts(name: string, version: string, epoch: nat)

  /** Reads an identity back from the right: the epoch after the last "-r",
      the version after the "-" before it, the name is the rest (and may
      itself contain "-"). */
  function ParseIdentity(s: string): (r: Option<IdentityParts>)
    ensures r.Some? ==> '-' !in r.value.version
  {
    match SplitLast(s, '-')
    case None => None
    case Some((head, rev)) =>
      if |rev| == 0 || rev[0] != 'r' then None
      else
        match ParseDecimal(rev[1..])
        case None => None
        case Some(epoch) =>
          match SplitLast(head, '-')
          case None => None
          case Some((name, version)) => Some(IdentityParts(name, version, epoch))
  }

  /** An identity determines name, version and epoch when the version has no
      "-" (the name may have any). */
  lemma IdentityRoundTrip(name: string, version: string, epoch: nat)
    requires '-' !in version
    ensures ParseIdentity(Identity(name, version, epoch)) == Some(IdentityParts(name, version, epoch))
  {
    var d := Decimal(epoch);
    var head := name + "-" + version;
    assert '-' !in "r" + d by {
      assert forall i :: 0 <= i < |d| ==> IsDigit(d[i]);
    }
    assert Identity(name, version, epoch) == head + ['-'] + ("r" + d);
    SplitLastAt(head, '-', "r" + d);
    assert ("r" + d)[1..] == d;
    DecimalRoundTrip(epoch);
    assert head == name + ['-'] + version;
    SplitLastAt(name, '-', version);
  }

  /** Distinct (name, version, epoch) triples with hyphen-free versions get
      distinct identities, hence distinct file names in one directory. */
  lemma IdentityInjective(n1: string, v1: string, e1: nat, n2: string, v2: string, e2: nat)
    requires '-' !in v1 && '-' !in v2
    requires Identity(n1, v1, e1) == Identity(n2, v2, e2)
    ensures n1 == n2 && v1 == v2 && e1 == e2
  {
    IdentityRoundTrip(n1, v1, e1);
    IdentityRoundTrip(n2, v2, e2);
  }

  /** The package file sits directly in the output directory and is named
      after the identity. */
  lemma FilenameBase(outDir: string, name: string, version: string, epoch: nat)
    requires '/' !in name && '/' !in version
    ensures Base(Filename(outDir, name, version, epoch)) == Identity(name, version, epoch) + ".apk"
    ensures '/' !in Identity(name, version, epoch) + ".apk"
  {
    var file := Identity(name, version, epoch) + ".apk";
    var d := Decimal(epoch);
    assert file == name + "-" + version + "-r" + d + ".apk";
    assert '/' !in d by {
      assert forall i :: 0 <= i < |d| ==> IsDigit(d[i]);
    }
    assert Filename(outDir, name, version, epoch) == outDir + "/" + file;
    BaseOfChild(outDir, file);
  }

  /** Packages of different names with one version and epoch get different
      file names. */
  lemma FileNamesDiffer(n1: string, n2: string, version: string, epoch: nat)
    requires n1 != n2
    ensures Identity(n1, version, epoch) + ".apk" != Identity(n2, version, epoch) + ".apk"
  {
    var suffix := "-" + version + "-r" + Decimal(epoch) + ".apk";
    var f1, f2 := Identity(n1, version, epoch) + ".apk", Identity(n2, version, epoch) + ".apk";
    assert f1 == n1 + suffix;
    assert f2 == n2 + suffix;
    if |n1| == |n2| {
      assert n1 == f1[..|n1|] && n2 == f2[..|n2|];
    } else {
      assert |f1| != |f2|;
    }
  }

  /** The package's files live in a directory named after the package,
      inside `melange-out`. */
  lemma WorkspaceSubdirBase(workspaceDir: string, name: string)
    requires name != [] && '/' !in name
    ensures Base(WorkspaceSubdir(workspaceDir, name)) == name
    ensures workspaceDir != [] ==> WorkspaceSubdir(workspaceDir, name) == workspaceDir + "/melange-out/" + name
  {
    var xs := [workspaceDir, "melange-out", name];
    var ys := [workspaceDir, "melange-out"];
    JoinLast(xs);
    assert xs[..2] == ys;
    assert Join(xs) == Join2(Join(ys), name);
    assert ys[..1] == [workspaceDir];
    assert [workspaceDir][..0] == [];
    assert Join([workspaceDir]) == workspaceDir;
    assert Join(ys) == Join2(workspaceDir, "melange-out");
    if workspaceDir != [] {
      var front := workspaceDir + "/" + "melange-out";
      assert Join(xs) == front + "/" + name;
      assert front + "/" + name == workspaceDir + "/melange-out/" + name;
    }
  }

  /** Each architecture gets its own output directory, named after it. */
  lemma ArchOutDirBase(outDir: string, arch: string)
    requires arch != [] && '/' !in arch
    ensures Base(ArchOutDir(outDir, arch)) == arch
    ensures outDir != [] ==> ArchOutDir(outDir, arch) == outDir + "/" + arch
  {
    JoinLast([outDir, arch]);
    assert [outDir, arch][..1] == [outDir];
    assert [outDir][..0] == [];
  }

  /** With both parts non-empty, the output directory is the two joined by
      one "/", whatever either part holds. */
  lemma ArchOutDirPath(outDir: string, arch: string)
    requires outDir != [] && arch != []
    ensures ArchOutDir(outDir, arch) == outDir + "/" + arch
  {
    assert [outDir, arch][..1] == [outDir];
    assert [outDir][..0] == [];
    assert Join([outDir]) == outDir;
  }

  /** The signature entry's name depends only on the key file's name, not on
      the directory holding it. */
  lemma SignatureNameOfKey(dir: string, keyFile: string)
    requires keyFile != [] && '/' !in keyFile
    ensures SignatureName(dir + "/" + keyFile) == ".SIGN.RSA." + keyFile + ".pub"
    ensures SignatureName(keyFile) == ".SIGN.RSA." + keyFile + ".pub"
  {
    BaseOfChild(dir, keyFile);
    assert TrimTrailingSlashes(keyFile) == keyFile;
  }

  /** A key path of slashes only yields a name with a "/" in it. */
  lemma SignatureNameOfRoot(signingKey: string)
    requires signingKey != [] && forall i :: 0 <= i < |signingKey| ==> signingKey[i] == '/'
    ensures SignatureName(signingKey) == ".SIGN.RSA./.pub"
  {
  }
}

/** `EmitPackage` and its callers `Subpackage.Emit` and `Package.Emit`: the
    staged assembly of an APK v2 package. The size walk runs first; the data
    archive is written and hashed with SHA-256; the hash goes into the
    control record; the control archive is written and hashed with SHA-1; that
    digest is signed when a signing key is set; then the parts are copied into
    the `.apk` file as [signature,] control, data. The first error ends the
    assembly. */
module Emit {
  import opened Common
  import opened Text
  import opened Paths
  import opened Naming
  import opened Control
  import opened Services
  import opened SizeWalk
  import opened Combiner

  const DataTempPattern := "melange-data-*.tar.gz"
  const ControlTempPattern := "melange-control-*.tar.gz"
  const SignatureTempPattern := "melange-signature-*.tar.gz"
  const PkgInfoName := ".PKGINFO"

  const OpenTempContext := "unable to open temporary file for writing"
  const TarContextContext := "unable to build tarball context"

  /** The fields of a package context that `EmitPackage` reads and never
      changes. */
  datatype Job = Job(context: BuildContext, origin: PackageConfig, packageName: string, outDir: string)

  function Licenses(cs: seq<Copyright>): (r: seq<string>)
    ensures |r| == |cs|
    ensures forall i :: 0 <= i < |cs| ==> r[i] == cs[i].license
  {
    seq(|cs|, i requires 0 <= i < |cs| => cs[i].license)
  }

  /** The values the control template reads from the package context. */
  function RecordOf(job: Job, size: int64, hash: string): ControlRecord
  {
    ControlRecord(job.packageName, job.origin.version, job.origin.epoch, size,
                  job.origin.description, Licenses(job.origin.copyright),
                  job.origin.runtimeDeps, hash)
  }

  function JobWorkspace(job: Job): string
  {
    WorkspaceSubdir(job.context.workspaceDir, job.packageName)
  }

  function JobFilename(job: Job): string
  {
    Filename(job.outDir, job.packageName, job.origin.version, job.origin.epoch)
  }

  /** The data archive: the workspace subdirectory, checksums on. */
  function DataArchive(job: Job, svc: Services): Result<seq<byte>>
  {
    svc.writeArchive(DataTarOptions(job.context.sourceDateEpoch), Directory(JobWorkspace(job)))
  }

  /** The control archive: `.PKGINFO` holding the rendered record. */
  function ControlArchive(job: Job, size: int64, hash: string, svc: Services): Result<seq<byte>>
  {
    svc.writeArchive(ControlTarOptions(job.context.sourceDateEpoch),
                     MemFile(PkgInfoName, AsBytes(Render(RecordOf(job, size, hash)))))
  }

  /** The signature archive: one entry named after the key, holding `sig`. */
  function SignatureArchive(job: Job, sig: seq<byte>, svc: Services): Result<seq<byte>>
  {
    svc.writeArchive(ControlTarOptions(job.context.sourceDateEpoch),
                     MemFile(SignatureName(job.context.signingKey), sig))
  }

  /** Where the assembly stopped: the step whose error ended it, or `Done`. */
  datatype Stage =
    | OpenDataTemp | DataContext | ScanWorkspace | WriteData | RewindData
    | ControlContext | ControlFs | OpenControlTemp | WriteControl | RewindControl
    | SignDigest | SignatureFs | OpenSignatureTemp | WriteSignature | RewindSignature
    | MakeOutDir | CreateOutFile | CopyParts | Done

  /** The order in which the steps run. */
  function Ordinal(s: Stage): nat
  {
    match s
    case OpenDataTemp => 0      case DataContext => 1       case ScanWorkspace => 2
    case WriteData => 3         case RewindData => 4        case ControlContext => 5
    case ControlFs => 6         case OpenControlTemp => 7   case WriteControl => 8
    case RewindControl => 9     case SignDigest => 10       case SignatureFs => 11
    case OpenSignatureTemp => 12 case WriteSignature => 13  case RewindSignature => 14
    case MakeOutDir => 15       case CreateOutFile => 16    case CopyParts => 17
    case Done => 18
  }

  /** The `.apk` file as left on disk. */
  datatype Written = Written(path: string, contents: seq<byte>)

  /** The outcome of `EmitPackage`: the error returned, the step reached, the
      context's `InstalledSize` and `DataHash` afterwards, and the output
      file if one was created. */
  datatype Emitted = Emitted(
    error: Option<Error>,
    stage: Stage,
    installedSize: int64,
    dataHash: string,
    output: Option<Written>)

  function Stop(stage: Stage, error: Error, size: int64, hash: string): Emitted
  {
    Emitted(Some(error), stage, size, hash, None)
  }

  /** `EmitPackage` from a context whose `InstalledSize` is `size0` and whose
      `DataHash` is `hash0`. */
  function EmitSpec(job: Job, size0: int64, hash0: string, svc: Services): (r: Emitted)
    ensures r.error.None? <==> r.stage == Done
    ensures r.output.Some? <==> r.stage == CopyParts || r.stage == Done
    ensures r.output.Some? ==> r.output.value.path == JobFilename(job)
  {
    var epoch := job.context.sourceDateEpoch;
    var tempErr := svc.createTemp(DataTempPattern);
    if tempErr.Some? then Stop(OpenDataTemp, Wrapped(OpenTempContext, tempErr.value), size0, hash0)
    else
      var ctxErr := svc.newContext(DataTarOptions(epoch));
      if ctxErr.Some? then Stop(DataContext, Wrapped(TarContextContext, ctxErr.value), size0, hash0)
      else
        var scan := ScanFrom(svc.walk(JobWorkspace(job)), size0);
        if scan.error.Some? then
          Stop(ScanWorkspace, Wrapped("unable to preprocess package data", scan.error.value),
               scan.installedSize, hash0)
        else
          DataStage(job, scan.installedSize, hash0, svc)
  }

  /** Writing the data archive and hashing its bytes. */
  function DataStage(job: Job, size: int64, hash0: string, svc: Services): (r: Emitted)
    ensures r.error.None? <==> r.stage == Done
    ensures r.output.Some? <==> r.stage == CopyParts || r.stage == Done
    ensures r.output.Some? ==> r.output.value.path == JobFilename(job)
    ensures r.installedSize == size
  {
    var data := DataArchive(job, svc);
    if data.Err? then Stop(WriteData, Wrapped("unable to write data tarball", data.error), size, hash0)
    else
      ControlStage(job, size, HexEncode(svc.sha256(data.value)), data.value, svc)
  }

  /** From rewinding the data archive up to the control archive's temporary
      file. */
  function ControlStage(job: Job, size: int64, hash: string, data: seq<byte>, svc: Services): (r: Emitted)
    ensures r.error.None? <==> r.stage == Done
    ensures r.output.Some? <==> r.stage == CopyParts || r.stage == Done
    ensures r.output.Some? ==> r.output.value.path == JobFilename(job)
    ensures r.installedSize == size && r.dataHash == hash
  {
    var seekErr := svc.seek(DataTempPattern);
    if seekErr.Some? then Stop(RewindData, Wrapped("unable to rewind data tarball", seekErr.value), size, hash)
    else
      var ctxErr := svc.newContext(ControlTarOptions(job.context.sourceDateEpoch));
      if ctxErr.Some? then Stop(ControlContext, Wrapped(TarContextContext, ctxErr.value), size, hash)
      else
        var fsErr := svc.memWrite(PkgInfoName);
        if fsErr.Some? then Stop(ControlFs, Wrapped("unable to build control FS", fsErr.value), size, hash)
        else
          var tempErr := svc.createTemp(ControlTempPattern);
          if tempErr.Some? then Stop(OpenControlTemp, Wrapped(OpenTempContext, tempErr.value), size, hash)
          else ControlArchiveStage(job, size, hash, data, svc)
  }

  /** Writing and rewinding the control archive, then signing it when a key
      is set. */
  function ControlArchiveStage(job: Job, size: int64, hash: string, data: seq<byte>, svc: Services): (r: Emitted)
    ensures r.error.None? <==> r.stage == Done
    ensures r.output.Some? <==> r.stage == CopyParts || r.stage == Done
    ensures r.output.Some? ==> r.output.value.path == JobFilename(job)
    ensures r.installedSize == size && r.dataHash == hash
  {
    var control := ControlArchive(job, size, hash, svc);
    if control.Err? then
      Stop(WriteControl, Wrapped("unable to write control tarball", control.error), size, hash)
    else
      var rewindErr := svc.seek(ControlTempPattern);
      if rewindErr.Some? then
        Stop(RewindControl, Wrapped("unable to rewind control tarball", rewindErr.value), size, hash)
      else if job.context.signingKey == "" then Finish(job, size, hash, [control.value, data], svc)
      else SignStage(job, size, hash, control.value, data, svc)
  }

  /** Signing the SHA-1 digest of the control archive and writing the
      signature archive. */
  function SignStage(job: Job, size: int64, hash: string, control: seq<byte>, data: seq<byte>, svc: Services): (r: Emitted)
    ensures r.error.None? <==> r.stage == Done
    ensures r.output.Some? <==> r.stage == CopyParts || r.stage == Done
    ensures r.output.Some? ==> r.output.value.path == JobFilename(job)
    ensures r.installedSize == size && r.dataHash == hash
  {
    var key := job.context.signingKey;
    var sig := svc.sign(svc.sha1(control), key, job.context.signingPassphrase);
    if sig.Err? then Stop(SignDigest, Wrapped("unable to generate signature", sig.error), size, hash)
    else
      var fsErr := svc.memWrite(SignatureName(key));
      if fsErr.Some? then Stop(SignatureFs, Wrapped("unable to build signature FS", fsErr.value), size, hash)
      else
        var tempErr := svc.createTemp(SignatureTempPattern);
        if tempErr.Some? then Stop(OpenSignatureTemp, Wrapped(OpenTempContext, tempErr.value), size, hash)
        else
          var signature := SignatureArchive(job, sig.value, svc);
          if signature.Err? then
            Stop(WriteSignature, Wrapped("unable to write signature tarball", signature.error), size, hash)
          else
            var seekErr := svc.seek(SignatureTempPattern);
            if seekErr.Some? then
              Stop(RewindSignature, Wrapped("unable to rewind signature tarball", seekErr.value), size, hash)
            else Finish(job, size, hash, [signature.value] + [control, data], svc)
  }

  /** Creating the output directory and file and copying the parts. */
  function Finish(job: Job, size: int64, hash: string, parts: seq<seq<byte>>, svc: Services): (r: Emitted)
    ensures r.error.None? <==> r.stage == Done
    ensures r.output.Some? <==> r.stage == CopyParts || r.stage == Done
    ensures r.output.Some? ==> r.output.value.path == JobFilename(job)
    ensures r.installedSize == size && r.dataHash == hash
  {
    var dirErr := svc.mkdirAll(job.outDir);
    if dirErr.Some? then Stop(MakeOutDir, Wrapped("unable to create output directory", dirErr.value), size, hash)
    else
      var path := JobFilename(job);
      var createErr := svc.create(path);
      if createErr.Some? then Stop(CreateOutFile, Wrapped("unable to create apk file", createErr.value), size, hash)
      else
        var copied := CombineFrom(parts, svc.copyFault, 0);
        if copied.error.Some? then
          Emitted(Some(Wrapped("unable to write apk file", copied.error.value)), CopyParts, size, hash,
                  Some(Written(path, copied.written)))
        else
          Emitted(None, Done, size, hash, Some(Written(path, copied.written)))
  }

  /** The package context of one package being emitted. */
  class PackageContext {
    const job: Job
    var installedSize: int64
    var dataHash: string

    constructor (job: Job)
      ensures this.job == job && installedSize == 0 && dataHash == ""
    {
      this.job := job;
      installedSize := 0;
      dataHash := "";
    }

    /** The `fs.WalkDir` callback applied to each walk event in turn: it adds
        each entry's size to `installedSize` and returns the first error. */
    method Scan(events: seq<WalkEvent>) returns (err: Option<Error>)
      modifies this`installedSize
      ensures installedSize == ScanFrom(events, old(installedSize)).installedSize
      ensures err == ScanFrom(events, old(installedSize)).error
    {
      var i := 0;
      while i < |events|
        invariant 0 <= i <= |events|
        invariant ScanFrom(events, old(installedSize)) == ScanFrom(events[i..], installedSize)
      {
        assert events[i..][1..] == events[i + 1..];
        match events[i] {
          case WalkFailed(_, e) =>
            return Some(e);
          case Visited(_, info) =>
            if info.Err? {
              return Some(info.error);
            }
            installedSize := AddInt64(installedSize, info.value);
        }
        i := i + 1;
      }
      return None;
    }

    /** `EmitPackage`: the walk, then the staged writing of the archives and
        of the `.apk` file; the first error ends it. */
    method EmitPackage(svc: Services) returns (err: Option<Error>, out: OutputFile?)
      modifies this`installedSize, this`dataHash
      ensures var e := EmitSpec(job, old(installedSize), old(dataHash), svc);
        && err == e.error
        && installedSize == e.installedSize
        && dataHash == e.dataHash
        && (out == null <==> e.output.None?)
        && (out != null ==> fresh(out) && Written(out.path, out.contents) == e.output.value)
    {
      var failure := svc.createTemp(DataTempPattern);
      if failure.Some? {
        return Some(Wrapped(OpenTempContext, failure.value)), null;
      }
      failure := svc.newContext(DataTarOptions(job.context.sourceDateEpoch));
      if failure.Some? {
        return Some(Wrapped(TarContextContext, failure.value)), null;
      }
      var scanErr := Scan(svc.walk(JobWorkspace(job)));
      if scanErr.Some? {
        return Some(Wrapped("unable to preprocess package data", scanErr.value)), null;
      }
      err, out := EmitData(svc);
    }

    /** Writing the data archive and recording its hash in `dataHash`. */
    method EmitData(svc: Services) returns (err: Option<Error>, out: OutputFile?)
      modifies this`dataHash
      ensures var r := DataStage(job, installedSize, old(dataHash), svc);
        && err == r.error
        && dataHash == r.dataHash
        && (out == null <==> r.output.None?)
        && (out != null ==> fresh(out) && Written(out.path, out.contents) == r.output.value)
    {
      var data := DataArchive(job, svc);
      if data.Err? {
        return Some(Wrapped("unable to write data tarball", data.error)), null;
      }
      dataHash := HexEncode(svc.sha256(data.value));
      err, out := EmitControl(data.value, svc);
    }

    /** Rewinding the data archive, then writing and rewinding the control
        archive of the rendered record; signing it when a key is set. */
    method EmitControl(data: seq<byte>, svc: Services) returns (err: Option<Error>, out: OutputFile?)
      ensures var r := ControlStage(job, installedSize, dataHash, data, svc);
        && err == r.error
        && (out == null <==> r.output.None?)
        && (out != null ==> fresh(out) && Written(out.path, out.contents) == r.output.value)
    {
      var failure := svc.seek(DataTempPattern);
      if failure.Some? {
        return Some(Wrapped("unable to rewind data tarball", failure.value)), null;
      }
      failure := svc.newContext(ControlTarOptions(job.context.sourceDateEpoch));
      if failure.Some? {
        return Some(Wrapped(TarContextContext, failure.value)), null;
      }
      failure := svc.memWrite(PkgInfoName);
      if failure.Some? {
        return Some(Wrapped("unable to build control FS", failure.value)), null;
      }
      failure := svc.createTemp(ControlTempPattern);
      if failure.Some? {
        return Some(Wrapped(OpenTempContext, failure.value)), null;
      }
      var control := ControlArchive(job, installedSize, dataHash, svc);
      if control.Err? {
        return Some(Wrapped("unable to write control tarball", control.error)), null;
      }
      failure := svc.seek(ControlTempPattern);
      if failure.Some? {
        return Some(Wrapped("unable to rewind control tarball", failure.value)), null;
      }
      if job.context.signingKey == "" {
        err, out := WriteOutput([control.value, data], svc);
      } else {
        err, out := EmitSignature(control.value, data, svc);
      }
    }

    /** Signing the SHA-1 digest of the control archive, writing the signature
        archive and putting it in front of the other parts. */
    method EmitSignature(control: seq<byte>, data: seq<byte>, svc: Services) returns (err: Option<Error>, out: OutputFile?)
      ensures var r := SignStage(job, installedSize, dataHash, control, data, svc);
        && err == r.error
        && (out == null <==> r.output.None?)
        && (out != null ==> fresh(out) && Written(out.path, out.contents) == r.output.value)
    {
      var key := job.context.signingKey;
      var sig := svc.sign(svc.sha1(control), key, job.context.signingPassphrase);
      if sig.Err? {
        return Some(Wrapped("unable to generate signature", sig.error)), null;
      }
      var failure := svc.memWrite(SignatureName(key));
      if failure.Some? {
        return Some(Wrapped("unable to build signature FS", failure.value)), null;
      }
      failure := svc.createTemp(SignatureTempPattern);
      if failure.Some? {
        return Some(Wrapped(OpenTempContext, failure.value)), null;
      }
      var signature := SignatureArchive(job, sig.value, svc);
      if signature.Err? {
        return Some(Wrapped("unable to write signature tarball", signature.error)), null;
      }
      failure := svc.seek(SignatureTempPattern);
      if failure.Some? {
        return Some(Wrapped("unable to rewind signature tarball", failure.value)), null;
      }
      err, out := WriteOutput([signature.value] + [control, data], svc);
    }

    /** Creating the output directory and the `.apk` file, then `combine`. */
    method WriteOutput(parts: seq<seq<byte>>, svc: Services) returns (err: Option<Error>, out: OutputFile?)
      ensures var r := Finish(job, installedSize, dataHash, parts, svc);
        && err == r.error
        && (out == null <==> r.output.None?)
        && (out != null ==> fresh(out) && Written(out.path, out.contents) == r.output.value)
    {
      var failure := svc.mkdirAll(job.outDir);
      if failure.Some? {
        return Some(Wrapped("unable to create output directory", failure.value)), null;
      }
      var path := JobFilename(job);
      failure := svc.create(path);
      if failure.Some? {
        return Some(Wrapped("unable to create apk file", failure.value)), null;
      }
      out := new OutputFile(path);
      var copyErr := Combine(out, parts, svc.copyFault);
      if copyErr.Some? {
        return Some(Wrapped("unable to write apk file", copyErr.value)), out;
      }
      return None, out;
    }
  }

  /** A walk error ends the assembly right after the walk, before any archive
      is written: the error is the first failing entry's, wrapped; the sizes
      of the entries before it have been added; `DataHash` is untouched and
      no output file is created. */
  lemma ScanFailureAborts(job: Job, size0: int64, hash0: string, svc: Services, k: nat)
    requires svc.createTemp(DataTempPattern).None?
    requires svc.newContext(DataTarOptions(job.context.sourceDateEpoch)).None?
    requires k < |svc.walk(JobWorkspace(job))| && Fails(svc.walk(JobWorkspace(job))[k])
    requires forall i :: 0 <= i < k ==> !Fails(svc.walk(JobWorkspace(job))[i])
    ensures var events := svc.walk(JobWorkspace(job));
      EmitSpec(job, size0, hash0, svc)
      == Stop(ScanWorkspace, Wrapped("unable to preprocess package data", EventError(events[k])),
              Wrap64(size0 + SizeSum(events[..k])), hash0)
  {
    ScanStopsAtFirstError(svc.walk(JobWorkspace(job)), size0, k);
  }

  /** Past the walk, the assembly continues with the data stage from the
      walked size. */
  lemma PastScan(job: Job, size0: int64, hash0: string, svc: Services)
    requires Ordinal(EmitSpec(job, size0, hash0, svc).stage) > Ordinal(ScanWorkspace)
    ensures ScanFrom(svc.walk(JobWorkspace(job)), size0).error.None?
    ensures EmitSpec(job, size0, hash0, svc)
         == DataStage(job, ScanFrom(svc.walk(JobWorkspace(job)), size0).installedSize, hash0, svc)
  {
  }

  /** Past the data archive, the control stage runs with the hex SHA-256 of
      the archive's bytes. */
  lemma PastData(job: Job, size: int64, hash0: string, svc: Services)
    requires Ordinal(DataStage(job, size, hash0, svc).stage) > Ordinal(WriteData)
    ensures DataArchive(job, svc).Ok?
    ensures DataStage(job, size, hash0, svc)
         == ControlStage(job, size, HexEncode(svc.sha256(DataArchive(job, svc).value)),
                         DataArchive(job, svc).value, svc)
  {
  }

  /** Once the output directory is reached, the control archive has been
      written; without a key the parts are control and data, with one the
      signing stage follows. */
  lemma PastControl(job: Job, size: int64, hash: string, data: seq<byte>, svc: Services)
    requires ControlStage(job, size, hash, data, svc).output.Some?
    ensures ControlArchive(job, size, hash, svc).Ok?
    ensures var control := ControlArchive(job, size, hash, svc).value;
      ControlStage(job, size, hash, data, svc)
      == if job.context.signingKey == "" then Finish(job, size, hash, [control, data], svc)
         else SignStage(job, size, hash, control, data, svc)
  {
    // Every early exit of the two stages stops before the output directory.
    if svc.seek(DataTempPattern).Some? {
      assert false;
    } else if svc.newContext(ControlTarOptions(job.context.sourceDateEpoch)).Some? {
      assert false;
    } else if svc.memWrite(PkgInfoName).Some? {
      assert false;
    } else if svc.createTemp(ControlTempPattern).Some? {
      assert false;
    }
    assert ControlStage(job, size, hash, data, svc) == ControlArchiveStage(job, size, hash, data, svc);
  }

  /** Once the output directory is reached, the signature over the control
      archive's SHA-1 digest has been archived and leads the parts. */
  lemma PastSign(job: Job, size: int64, hash: string, control: seq<byte>, data: seq<byte>, svc: Services)
    requires SignStage(job, size, hash, control, data, svc).output.Some?
    ensures var sig := svc.sign(svc.sha1(control), job.context.signingKey, job.context.signingPassphrase);
      && sig.Ok?
      && SignatureArchive(job, sig.value, svc).Ok?
      && SignStage(job, size, hash, control, data, svc)
         == Finish(job, size, hash, [SignatureArchive(job, sig.value, svc).value] + [control, data], svc)
  {
    // Every early exit of the stage stops before the output directory.
    var key := job.context.signingKey;
    var sig := svc.sign(svc.sha1(control), key, job.context.signingPassphrase);
    if sig.Err? {
      assert false;
    } else if svc.memWrite(SignatureName(key)).Some? {
      assert false;
    } else if svc.createTemp(SignatureTempPattern).Some? {
      assert false;
    } else if SignatureArchive(job, sig.value, svc).Err? {
      assert false;
    } else if svc.seek(SignatureTempPattern).Some? {
      assert false;
    }
  }

  /** The copy of the parts: all of them in order when it succeeds, a prefix
      of them and the write error when it fails. */
  lemma FinishOutcome(job: Job, size: int64, hash: string, parts: seq<seq<byte>>, svc: Services)
    ensures var r := Finish(job, size, hash, parts, svc);
      r.error.None? ==> r.output == Some(Written(JobFilename(job), Concat(parts)))
    ensures var r := Finish(job, size, hash, parts, svc);
      r.stage == CopyParts ==>
        && r.error.Some? && r.error.value.Wrapped?
        && r.error.value.context == "unable to write apk file"
        && r.output.value.contents <= Concat(parts)
  {
    CombineSucceeds(parts, svc.copyFault, 0);
    CombineWritesPrefix(parts, svc.copyFault, 0);
    assert parts[0..] == parts;
  }

  lemma ConcatTwo(a: seq<byte>, b: seq<byte>)
    ensures Concat([a, b]) == a + b
  {
    assert [a, b][1..] == [b];
    assert [b][1..] == [];
    assert Concat([b]) == b + Concat([]);
  }

  lemma ConcatThree(a: seq<byte>, b: seq<byte>, c: seq<byte>)
    ensures Concat([a] + [b, c]) == a + b + c
  {
    assert ([a] + [b, c])[1..] == [b, c];
    ConcatTwo(b, c);
  }

  /** Past the data archive, the assembly is the control stage run with the
      walked size and the hex SHA-256 of the data archive. */
  lemma ReachesControl(job: Job, size0: int64, hash0: string, svc: Services)
    requires Ordinal(EmitSpec(job, size0, hash0, svc).stage) > Ordinal(WriteData)
    ensures var e := EmitSpec(job, size0, hash0, svc);
      var data := DataArchive(job, svc);
      && data.Ok?
      && ScanFrom(svc.walk(JobWorkspace(job)), size0).error.None?
      && e.installedSize == ScanFrom(svc.walk(JobWorkspace(job)), size0).installedSize
      && e.dataHash == HexEncode(svc.sha256(data.value))
    ensures var e := EmitSpec(job, size0, hash0, svc);
      e == ControlStage(job, e.installedSize, e.dataHash, DataArchive(job, svc).value, svc)
  {
    var size := ScanFrom(svc.walk(JobWorkspace(job)), size0).installedSize;
    PastScan(job, size0, hash0, svc);
    PastData(job, size, hash0, svc);
  }

  /** Once the walk is over without error, no walked entry failed and
      `InstalledSize` has received the size of every entry the walk visited,
      directories and the root included, with 64-bit wrap-around. */
  lemma WalkedSize(job: Job, size0: int64, hash0: string, svc: Services)
    requires Ordinal(EmitSpec(job, size0, hash0, svc).stage) > Ordinal(ScanWorkspace)
    ensures var events := svc.walk(JobWorkspace(job));
      && (forall i :: 0 <= i < |events| ==> !Fails(events[i]))
      && EmitSpec(job, size0, hash0, svc).installedSize == Wrap64(size0 + SizeSum(events))
  {
    var events := svc.walk(JobWorkspace(job));
    PastScan(job, size0, hash0, svc);
    ScanFailsIff(events, size0);
    ScanSucceeds(events, size0);
  }

  /** Once the data archive is written, `DataHash` is the lowercase hex of the
      SHA-256 digest of exactly the data archive's bytes: 64 characters that
      decode back to the digest. */
  lemma DataHashFlow(job: Job, size0: int64, hash0: string, svc: Services)
    requires Ordinal(EmitSpec(job, size0, hash0, svc).stage) > Ordinal(WriteData)
    ensures var e := EmitSpec(job, size0, hash0, svc);
      var data := DataArchive(job, svc);
      && data.Ok?
      && e.dataHash == HexEncode(svc.sha256(data.value))
      && |e.dataHash| == 64
      && HexDecode(e.dataHash) == Some(svc.sha256(data.value))
  {
    ReachesControl(job, size0, hash0, svc);
    var digest := svc.sha256(DataArchive(job, svc).value);
    assert HexDecode(HexEncode(digest)) == Some(digest) by {
      HexRoundTrip(digest);
    }
  }

  /** Once the output directory is reached, the data and control archives
      are written (the latter with the walked size and the data hash), and
      what remains is copying control and data, behind the signature archive
      when a key is set. */
  lemma ReachesFinish(job: Job, size0: int64, hash0: string, svc: Services)
    requires EmitSpec(job, size0, hash0, svc).output.Some?
    ensures var e := EmitSpec(job, size0, hash0, svc);
      var data := DataArchive(job, svc);
      var control := ControlArchive(job, e.installedSize, e.dataHash, svc);
      var key := job.context.signingKey;
      && data.Ok? && control.Ok?
      && e.dataHash == HexEncode(svc.sha256(data.value))
      && (key == "" ==> e == Finish(job, e.installedSize, e.dataHash, [control.value, data.value], svc))
      && (key != "" ==>
            var sig := svc.sign(svc.sha1(control.value), key, job.context.signingPassphrase);
            && sig.Ok?
            && SignatureArchive(job, sig.value, svc).Ok?
            && e == Finish(job, e.installedSize, e.dataHash,
                           [SignatureArchive(job, sig.value, svc).value] + [control.value, data.value], svc))
  {
    var e := EmitSpec(job, size0, hash0, svc);
    ReachesControl(job, size0, hash0, svc);
    var data := DataArchive(job, svc).value;
    PastControl(job, e.installedSize, e.dataHash, data, svc);
    if job.context.signingKey != "" {
      var control := ControlArchive(job, e.installedSize, e.dataHash, svc).value;
      PastSign(job, e.installedSize, e.dataHash, control, data, svc);
    }
  }

  /** A successful assembly writes the parts whole and in the fixed order:
      control then data without a signing key; signature, control, data with
      one. The control archive holds the record rendered with the data
      archive's hash, and the signature is made over the SHA-1 digest of the
      control archive's bytes. */
  lemma EmittedPackage(job: Job, size0: int64, hash0: string, svc: Services)
    requires EmitSpec(job, size0, hash0, svc).stage == Done
    ensures var e := EmitSpec(job, size0, hash0, svc);
      var data := DataArchive(job, svc);
      var control := ControlArchive(job, e.installedSize, e.dataHash, svc);
      var key := job.context.signingKey;
      && data.Ok? && control.Ok?
      && e.dataHash == HexEncode(svc.sha256(data.value))
      && (key == "" ==> e.output == Some(Written(JobFilename(job), control.value + data.value)))
      && (key != "" ==>
            var sig := svc.sign(svc.sha1(control.value), key, job.context.signingPassphrase);
            && sig.Ok?
            && SignatureArchive(job, sig.value, svc).Ok?
            && e.output == Some(Written(JobFilename(job),
                                        SignatureArchive(job, sig.value, svc).value + control.value + data.value)))
  {
    var e := EmitSpec(job, size0, hash0, svc);
    ReachesFinish(job, size0, hash0, svc);
    var data := DataArchive(job, svc).value;
    var control := ControlArchive(job, e.installedSize, e.dataHash, svc).value;
    var key := job.context.signingKey;
    if key == "" {
      FinishOutcome(job, e.installedSize, e.dataHash, [control, data], svc);
      ConcatTwo(control, data);
    } else {
      var sig := svc.sign(svc.sha1(control), key, job.context.signingPassphrase).value;
      var signature := SignatureArchive(job, sig, svc).value;
      FinishOutcome(job, e.installedSize, e.dataHash, [signature] + [control, data], svc);
      ConcatThree(signature, control, data);
    }
  }

  /** No field of the package breaks a line of the control record. */
  predicate SingleLineJob(job: Job)
  {
    && '\n' !in job.packageName
    && '\n' !in job.origin.version
    && '\n' !in job.origin.description
    && (forall i :: 0 <= i < |job.origin.copyright| ==> '\n' !in job.origin.copyright[i].license)
    && (forall i :: 0 <= i < |job.origin.runtimeDeps| ==> '\n' !in job.origin.runtimeDeps[i])
  }

  lemma RecordSingleLine(job: Job, size: int64, hash: string)
    requires SingleLineJob(job) && '\n' !in hash
    ensures SingleLineFields(RecordOf(job, size, hash))
  {
  }

  /** The `.PKGINFO` of a package context, read line by line: the record's
      lines, with the size on the fifth line after the leading empty one and
      the data hash on the last non-empty line. */
  lemma JobRecordLines(job: Job, size: int64, hash: string)
    requires SingleLineJob(job) && '\n' !in hash
    ensures var lines := Lines(Render(RecordOf(job, size, hash)));
      && lines == [""] + RecordLines(RecordOf(job, size, hash))
      && lines[5] == "size = " + SignedDecimal(size)
      && lines[|lines| - 2] == "datahash = " + hash
  {
    var c := RecordOf(job, size, hash);
    RecordSingleLine(job, size, hash);
    RenderLines(c);
    var rs := RecordLines(c);
    assert ([""] + rs)[5] == rs[4];
    assert ([""] + rs)[|rs| - 1] == rs[|rs| - 2];
  }

  /** The `.PKGINFO` of an assembly that got past the data archive, read line
      by line, is the record's lines in their fixed order; it carries the
      walk's total size and, on its last line, the hex SHA-256 of the data
      archive. */
  lemma EmittedRecord(job: Job, size0: int64, hash0: string, svc: Services)
    requires SingleLineJob(job)
    requires Ordinal(EmitSpec(job, size0, hash0, svc).stage) > Ordinal(WriteData)
    ensures var e := EmitSpec(job, size0, hash0, svc);
      var c := RecordOf(job, e.installedSize, e.dataHash);
      var lines := Lines(Render(c));
      var data := DataArchive(job, svc);
      && data.Ok?
      && lines == [""] + RecordLines(c)
      && e.installedSize == Wrap64(size0 + SizeSum(svc.walk(JobWorkspace(job))))
      && lines[5] == "size = " + SignedDecimal(e.installedSize)
      && lines[|lines| - 2] == "datahash = " + HexEncode(svc.sha256(data.value))
  {
    var e := EmitSpec(job, size0, hash0, svc);
    DataHashFlow(job, size0, hash0, svc);
    WalkedSize(job, size0, hash0, svc);
    HexSingleLine(svc.sha256(DataArchive(job, svc).value));
    JobRecordLines(job, e.installedSize, e.dataHash);
  }

  /** A failed copy leaves the output file holding a prefix of the package's
      parts in their fixed order, and the error says the apk file could not
      be written. */
  lemma CopyFailureLeavesPrefix(job: Job, size0: int64, hash0: string, svc: Services)
    requires EmitSpec(job, size0, hash0, svc).stage == CopyParts
    ensures var e := EmitSpec(job, size0, hash0, svc);
      var data := DataArchive(job, svc);
      var control := ControlArchive(job, e.installedSize, e.dataHash, svc);
      var key := job.context.signingKey;
      && e.error.Some? && e.error.value.Wrapped? && e.error.value.context == "unable to write apk file"
      && e.output.Some? && data.Ok? && control.Ok?
      && (key == "" ==> e.output.value.contents <= control.value + data.value)
      && (key != "" ==>
            var sig := svc.sign(svc.sha1(control.value), key, job.context.signingPassphrase);
            && sig.Ok?
            && SignatureArchive(job, sig.value, svc).Ok?
            && e.output.value.contents <= SignatureArchive(job, sig.value, svc).value + control.value + data.value)
  {
    var e := EmitSpec(job, size0, hash0, svc);
    ReachesFinish(job, size0, hash0, svc);
    var data := DataArchive(job, svc).value;
    var control := ControlArchive(job, e.installedSize, e.dataHash, svc).value;
    var key := job.context.signingKey;
    if key == "" {
      FinishOutcome(job, e.installedSize, e.dataHash, [control, data], svc);
      ConcatTwo(control, data);
    } else {
      var sig := svc.sign(svc.sha1(control), key, job.context.signingPassphrase).value;
      var signature := SignatureArchive(job, sig, svc).value;
      FinishOutcome(job, e.installedSize, e.dataHash, [signature] + [control, data], svc);
      ConcatThree(signature, control, data);
    }
  }

  /** The context `Subpackage.Emit` builds: the subpackage's name, the
      configuration's package as origin, and the architecture's directory
      under the build's output directory. */
  function SubpackageJob(ctx: BuildContext, name: string): Job
  {
    Job(ctx, ctx.configuration, name, ArchOutDir(ctx.outDir, ctx.arch))
  }

  /** A subpackage's record takes its name from the subpackage and every
      other configured field from the configuration's main package. */
  lemma SubpackageRecordFromOrigin(ctx: BuildContext, name: string, size: int64, hash: string)
    ensures var r := RecordOf(SubpackageJob(ctx, name), size, hash);
      && r.packageName == name
      && r.version == ctx.configuration.version
      && r.epoch == ctx.configuration.epoch
      && r.description == ctx.configuration.description
      && r.licenses == Licenses(ctx.configuration.copyright)
      && r.depends == ctx.configuration.runtimeDeps
      && r.installedSize == size && r.dataHash == hash
  {
  }

  /** A subpackage's file path is `<outDir>/<arch>/<name>-<version>-r<epoch>.apk`,
      whatever the name and the version hold. */
  lemma SubpackageFilePath(ctx: BuildContext, name: string)
    requires ctx.outDir != [] && ctx.arch != []
    ensures JobFilename(SubpackageJob(ctx, name))
      == ctx.outDir + "/" + ctx.arch + "/"
         + Identity(name, ctx.configuration.version, ctx.configuration.epoch) + ".apk"
  {
    ArchOutDirPath(ctx.outDir, ctx.arch);
  }

  /** When neither the architecture nor the name nor the version holds a "/",
      the file's directory is named after the architecture and the file after
      the package's identity. */
  lemma SubpackageFileLocation(ctx: BuildContext, name: string)
    requires ctx.arch != [] && '/' !in ctx.arch
    requires '/' !in name && '/' !in ctx.configuration.version
    ensures var job := SubpackageJob(ctx, name);
      var id := Identity(name, ctx.configuration.version, ctx.configuration.epoch);
      && Base(job.outDir) == ctx.arch
      && Base(JobFilename(job)) == id + ".apk"
  {
    ArchOutDirBase(ctx.outDir, ctx.arch);
    FilenameBase(ArchOutDir(ctx.outDir, ctx.arch), name, ctx.configuration.version, ctx.configuration.epoch);
  }

  /** Sibling subpackages of one build get different output paths: the paths
      share their directory and their `-<version>-r<epoch>.apk` suffix, and
      differ in the name between. (Different paths may still name one file,
      as `x` and `./x` do.) */
  lemma DistinctSubpackagesDistinctPaths(ctx: BuildContext, n1: string, n2: string)
    requires n1 != n2
    ensures JobFilename(SubpackageJob(ctx, n1)) != JobFilename(SubpackageJob(ctx, n2))
  {
    var v, ep := ctx.configuration.version, ctx.configuration.epoch;
    var dir := ArchOutDir(ctx.outDir, ctx.arch) + "/";
    var suffix := "-" + v + "-r" + Decimal(ep) + ".apk";
    var f1, f2 := dir + n1 + suffix, dir + n2 + suffix;
    assert f1 == JobFilename(SubpackageJob(ctx, n1));
    assert f2 == JobFilename(SubpackageJob(ctx, n2));
    MiddleDetermined(dir, n1, n2, suffix);
  }

  /** Strings with a common prefix and a common suffix are equal only when
      what lies between is equal. */
  lemma MiddleDetermined(a: string, x: string, y: string, b: string)
    ensures a + x + b == a + y + b ==> x == y
  {
    if a + x + b == a + y + b {
      assert |x| == |y|;
      assert x == (a + x + b)[|a|..|a| + |x|];
      assert y == (a + y + b)[|a|..|a| + |y|];
    }
  }

  /** When no subpackage name and not the version hold a "/", sibling
      subpackages write to different files: both files sit directly in the
      architecture's output directory, under different last path elements. */
  lemma DistinctSubpackagesDistinctFiles(ctx: BuildContext, n1: string, n2: string)
    requires n1 != n2
    requires '/' !in n1 && '/' !in n2 && '/' !in ctx.configuration.version
    ensures var dir := ArchOutDir(ctx.outDir, ctx.arch);
      var f1, f2 := JobFilename(SubpackageJob(ctx, n1)), JobFilename(SubpackageJob(ctx, n2));
      && f1 == dir + "/" + Base(f1)
      && f2 == dir + "/" + Base(f2)
      && '/' !in Base(f1) && '/' !in Base(f2)
      && Base(f1) != Base(f2)
  {
    var v, ep := ctx.configuration.version, ctx.configuration.epoch;
    var dir := ArchOutDir(ctx.outDir, ctx.arch);
    FilenameBase(dir, n1, v, ep);
    FilenameBase(dir, n2, v, ep);
    FileNamesDiffer(n1, n2, v, ep);
  }

  /** `Subpackage.Emit`: a fresh context (size 0, no hash) for the named
      subpackage, then `EmitPackage`. */
  method EmitSubpackage(ctx: BuildContext, name: string, svc: Services) returns (err: Option<Error>, out: OutputFile?)
    ensures var e := EmitSpec(SubpackageJob(ctx, name), 0, "", svc);
      && err == e.error
      && (out == null <==> e.output.None?)
      && (out != null ==> fresh(out) && Written(out.path, out.contents) == e.output.value)
  {
    var pc := new PackageContext(SubpackageJob(ctx, name));
    err, out := pc.EmitPackage(svc);
  }

  /** `Package.Emit`: the main package is emitted as a subpackage bearing its
      name. */
  method EmitMainPackage(pkg: PackageConfig, ctx: BuildContext, svc: Services) returns (err: Option<Error>, out: OutputFile?)
    ensures var e := EmitSpec(SubpackageJob(ctx, pkg.name), 0, "", svc);
      && err == e.error
      && (out == null <==> e.output.None?)
      && (out != null ==> fresh(out) && Written(out.path, out.contents) == e.output.value)
  {
    err, out := EmitSubpackage(ctx, pkg.name, svc);
  }
}

/** What the package assembler consumes from outside: the package
    configuration and build context it reads, and the collaborators it calls
    (tarball writer, filesystem walk, hashes, RSA signer, temporary files and
    the output file system), each given as a function whose outcome the model
    does not interpret. */
module Services {
  import opened Common

  datatype Copyright = Copyright(license: string)

  /** The fields of the configuration's package that the assembler reads. */
  datatype PackageConfig = PackageConfig(
    name: string,
    version: string,
    epoch: nat,
    description: string,
    copyright: seq<Copyright>,
    runtimeDeps: seq<string>)

  /** The fields of the build context that the assembler reads; `arch` is
      the architecture's APK name, `Arch.ToAPK()`. */
  datatype BuildContext = BuildContext(
    configuration: PackageConfig,
    workspaceDir: string,
    outDir: string,
    arch: string,
    signingKey: string,
    signingPassphrase: string,
    sourceDateEpoch: int)

  /** The options of one `tarball.NewContext` call. */
  datatype TarOptions = TarOptions(
    sourceDateEpoch: int,
    uid: int,
    gid: int,
    uname: string,
    gname: string,
    useChecksums: bool,
    skipClose: bool)

  /** Options of the data archive: checksums on, normal end of stream. */
  function DataTarOptions(epoch: int): TarOptions
  {
    TarOptions(epoch, 0, 0, "root", "root", true, false)
  }

  /** Options of the control and signature archives: the stream is left open
      so that another archive can follow it. */
  function ControlTarOptions(epoch: int): TarOptions
  {
    TarOptions(epoch, 0, 0, "root", "root", false, true)
  }

  /** What an archive is written from: a directory on disk, or an in-memory
      file system holding one file. */
  datatype FileSet = Directory(root: string) | MemFile(name: string, content: seq<byte>)

  /** One call of the walk callback: an entry whose `Info()` gives a size or
      fails, or an error the walk reports for a path. */
  datatype WalkEvent =
    | Visited(path: string, info: Result<int64>)
    | WalkFailed(path: string, error: Error)

  /** A copy that fails after `written` bytes of its input reached the file. */
  datatype CopyFault = CopyFault(written: nat, error: Error)

  type Sha256Digest = s: seq<byte> | |s| == 32 witness seq(32, _ => 0 as byte)

  type Sha1Digest = s: seq<byte> | |s| == 20 witness seq(20, _ => 0 as byte)

  /** The collaborators. `createTemp` and `seek` are keyed by the temporary
      file's name pattern, `memWrite` by the name written into an in-memory
      file system, `copyFault` by the position of the part being copied. */
  datatype Services = Services(
    createTemp: string -> Option<Error>,
    newContext: TarOptions -> Option<Error>,
    walk: string -> seq<WalkEvent>,
    writeArchive: (TarOptions, FileSet) -> Result<seq<byte>>,
    sha256: seq<byte> -> Sha256Digest,
    sha1: seq<byte> -> Sha1Digest,
    seek: string -> Option<Error>,
    memWrite: string -> Option<Error>,
    sign: (seq<byte>, string, string) -> Result<seq<byte>>,
    mkdirAll: string -> Option<Error>,
    create: string -> Option<Error>,
    copyFault: nat -> Option<CopyFault>)
}

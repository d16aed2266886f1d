# melange package assembly, modelled in Dafny

This project models how melange assembles an APK v2 package from a built
workspace (`pkg/build/package.go`):

- **Naming.** A package context derives a package identity
  (`name-version-r<epoch>`), the `.apk` file name, its workspace
  subdirectory and the name of its signature entry.
- **The `.PKGINFO` control record.** A fixed template renders it from the
  context.
- **The `EmitPackage` pipeline**, which runs in this order:
  1. It walks the workspace and adds up `InstalledSize`.
  2. It writes the data archive and records the lowercase hex of its SHA-256
     digest as `DataHash`.
  3. It renders the record into the control archive and takes that archive's
     SHA-1 digest.
  4. When a signing key is set, it signs that digest with RSA and archives
     the signature.
  5. It creates the output directory and file, and `combine` copies the
     parts into the file in the order [signature,] control, data.

  Every step can fail. The first failure ends the pipeline with the error
  wrapped in that step's message.
- **The callers.** `Subpackage.Emit` and `Package.Emit` build a fresh
  context and run the pipeline.

Modules, one file each:

| Module | Contents |
|---|---|
| `Common` | bytes, Go's `int64` with wrap-around, `Option`/`Result`, and errors wrapped with `%w` |
| `Text` | `%d` formatting and `hex.EncodeToString`, each with its inverse; `Lines`, which reads the rendered record back line by line |
| `Paths` | `filepath.Base` and `filepath.Join` |
| `Naming` | the derived names |
| `Control` | the rendered record |
| `Services` | the collaborators |
| `SizeWalk` | the walk callback as a fold |
| `Combiner` | `combine` over an `OutputFile` object |
| `Emit` | the pipeline |

### How the pipeline is modelled

**Collaborators.** The pipeline calls the tarball writer, the file-system
walk, the hash functions, the signer, temporary files, in-memory file
systems and the output file system. Each one is a function-typed field of
the `Services` datatype. The model does not interpret these functions. It
proves its properties for every behaviour they may have, error results
included.

**The specification function.** `Emit.EmitSpec` is the pipeline written
as a function. It is split into one function per stage: `DataStage`,
`ControlStage`, `ControlArchiveStage`, `SignStage` and `Finish`.

**The imperative side.** `Emit.PackageContext` is a class that holds the
fields `EmitPackage` updates in place: `installedSize` and `dataHash`. Its
methods are proved to end in the state and outcome that `EmitSpec` gives.
The output file is an `OutputFile` object. `Combiner.Combine` appends the
parts to it in a loop that stops at the first failed copy.

**Behaviour of the code worth knowing.** The model states these points as
the code has them:

- **Directory sizes count.** `InstalledSize` adds the `Info().Size()` of
  every entry the walk visits. That includes the root and every directory,
  not only regular files. `SizeWalk.DirectorySizesCount` shows a workspace
  with one 10-byte file whose root directory reports 4096 bytes: the size is
  4106, not 10. The order of the walk does
  not matter (`SizeWalk.WalkOrderIrrelevant`).
- **No deduplication of licenses.** There is one license line per copyright
  entry, in the configuration's order, even when two entries name the same
  license.
- **No atomic publication.** The `.apk` file is written directly at its
  final path. A failed copy leaves a prefix of the parts there, as
  `Emit.CopyFailureLeavesPrefix` shows.
- **Temporary files stay behind.** They are closed but never removed.
- **Template rendering cannot fail.** The template is fixed and is executed
  into a `bytes.Buffer`, so the error exit at `package.go:178-180` cannot be
  taken. The model has no stage for it.

## Model

| member | source | states |
|---|---|---|
| Common.AddInt64 | pkg/build/package.go:143 | `InstalledSize += size` on Go's int64: the two's-complement wrap of the mathematical sum |
| Text.Decimal | pkg/build/package.go:65 | `%d` of a natural number: at least one character, all decimal digits, no leading zero |
| Text.SignedDecimal | pkg/build/package.go:81 | `%d` of a signed integer: non-empty, starting with "-" exactly when the number is negative |
| Text.DecimalRoundTrip | pkg/build/package.go:65 | the `%d` rendering of the epoch reads back as the same number, so the identity's revision is unambiguous |
| Text.SignedDecimalRoundTrip | pkg/build/package.go:81 | the `%d` rendering of the int64 installed size reads back as the same number and holds no line break |
| Text.HexEncode | pkg/build/package.go:157 | the hex encoding has two characters per byte, all of them lowercase hex digits |
| Text.HexRoundTrip | pkg/build/package.go:157 | hex decoding recovers the bytes from the encoding, so the datahash determines the digest |
| Text.AsBytes | pkg/build/package.go:183 | `controlBuf.Bytes()`: one byte per character of the rendered text, equal to the character for every character below 256; the model takes each character modulo 256 rather than encoding it as UTF-8 (see "## Left out") |
| Paths.Base | pkg/build/package.go:98 | `filepath.Base` is "." for the empty path and "/" for every non-empty path made only of slashes; its result is never empty and contains "/" only when it is "/" |
| Paths.Join | pkg/build/package.go:58 | `filepath.Join` without `Clean`, as used at lines 58 and 73: empty elements are skipped and the others are separated by one "/"; the result is empty exactly when every element is empty |
| Paths.JoinLast | pkg/build/package.go:58 | a joined path ends in its last element when that element is a single name |
| Naming.Identity | pkg/build/package.go:64-66 | the identity `<name>-<version>-r<epoch>`; `IdentityRoundTrip` and `IdentityInjective` state what it determines |
| Naming.Filename | pkg/build/package.go:68-70 | `<outDir>/<identity>.apk`, built with a plain "/" rather than `filepath.Join`; `FilenameBase` states its last element |
| Naming.WorkspaceSubdir | pkg/build/package.go:72-74 | `filepath.Join(workspace, "melange-out", name)`; `WorkspaceSubdirBase` states its shape |
| Naming.ArchOutDir | pkg/build/package.go:58 | `filepath.Join(outDir, arch)`; `ArchOutDirBase` states its shape |
| Naming.SignatureName | pkg/build/package.go:97-99 | `.SIGN.RSA.<filepath.Base of the key>.pub`; `SignatureNameOfKey` and `SignatureNameOfRoot` state its values |
| Naming.IdentityRoundTrip | pkg/build/package.go:64-66 | an identity `name-version-rN` parses back into its name, version and epoch when the version has no "-" |
| Naming.IdentityInjective | pkg/build/package.go:64-66 | different (name, version, epoch) triples with hyphen-free versions give different identities |
| Naming.FilenameBase | pkg/build/package.go:68-70 | the package file's last path element is the identity followed by `.apk` |
| Naming.FileNamesDiffer | pkg/build/package.go:64-70 | packages of different names with the same version and epoch get different file names |
| Naming.WorkspaceSubdirBase | pkg/build/package.go:72-74 | the workspace subdirectory is named after the package; with a non-empty workspace it is `<workspace>/melange-out/<name>` |
| Naming.ArchOutDirBase | pkg/build/package.go:58 | the output directory is named after the architecture; with a non-empty output directory it is `<outDir>/<arch>` |
| Naming.ArchOutDirPath | pkg/build/package.go:58 | with a non-empty output directory and a non-empty architecture, `filepath.Join(outDir, arch)` is the two joined by one "/", whatever either holds |
| Naming.SignatureNameOfKey | pkg/build/package.go:97-99 | the signature entry is `.SIGN.RSA.<key file name>.pub`, whatever directory holds the key |
| Naming.SignatureNameOfRoot | pkg/build/package.go:97-99 | every non-empty key path made only of slashes gives the entry name `.SIGN.RSA./.pub` |
| Control.Render | pkg/build/package.go:76-95 | the text the template produces: each fixed line and each `range` item behind a line break, then a final line break; `RenderLines` states what it reads back as |
| Control.RecordLines | pkg/build/package.go:76-90 | the record's lines in their fixed order: comment, pkgname, pkgver with `-r<epoch>`, `arch = x86_64`, size, pkgdesc, one license line per copyright entry, one depend line per runtime dependency, datahash, then an empty line |
| Control.RenderIsPrefixedLines | pkg/build/package.go:76-90 | the rendered template is exactly those lines, each behind a line break: every `{{-` trims the break before it |
| Control.RenderLines | pkg/build/package.go:76-95 | when no field holds a line break, splitting the rendered text at line breaks gives an empty first line and then exactly the record's lines |
| Services.DataTarOptions | pkg/build/package.go:121-127 | the data archive's tarball options: the source date epoch, uid and gid 0, user and group "root", checksums on, stream closed normally |
| Services.ControlTarOptions | pkg/build/package.go:166-172 | the control and signature archives' tarball options: the same epoch, ids and names, checksums off, and the stream left open so another archive can follow |
| SizeWalk.ScanFrom | pkg/build/package.go:133-147 | the walk callback over the walk's events: add each entry's size, return the first error; `ScanSucceeds`, `ScanStopsAtFirstError` and `ScanFailsIff` state its outcome |
| SizeWalk.ScanSucceeds | pkg/build/package.go:133-147 | a walk without errors adds the size of every visited entry to the start value with int64 wrap-around; the sum is exact when it fits |
| SizeWalk.ScanStopsAtFirstError | pkg/build/package.go:133-147 | the first failing entry ends the walk with its error, after the sizes of the entries before it were added |
| SizeWalk.ScanFailsIff | pkg/build/package.go:133-147 | the walk fails if and only if some entry fails |
| SizeWalk.SizeSumPermutation | pkg/build/package.go:133-147 | the sum of the entries' sizes is the same for every order of the same entries |
| SizeWalk.WalkOrderIrrelevant | pkg/build/package.go:133-147 | two error-free walks over the same entries in different orders both succeed and end with the same installed size |
| SizeWalk.DirectorySizesCount | pkg/build/package.go:133-147 | a root directory of 4096 bytes holding a 10-byte file gives an installed size of 4106: directory entries count |
| Combiner.CombineFrom | pkg/build/package.go:101-109 | what `combine` writes and returns when the copy of input `i` may fail after some bytes; `CombineSucceeds`, `CombineStopsAtFirstFault` and `CombineWritesPrefix` state its outcome |
| Combiner.OutputFile.constructor | pkg/build/package.go:242 | a created file is empty and has the given path |
| Combiner.OutputFile.Write | pkg/build/package.go:103 | a write appends its bytes to the file |
| Combiner.Combine | pkg/build/package.go:101-109 | the loop appends what `CombineFrom` specifies and returns its error |
| Combiner.CombineSucceeds | pkg/build/package.go:101-109 | `combine` succeeds if and only if no copy fails, and then the file gets every input whole and in order |
| Combiner.CombineStopsAtFirstFault | pkg/build/package.go:101-109 | the first failing copy ends `combine` with its error; the earlier inputs are written whole, the failing one in part, later ones not at all |
| Combiner.CombineWritesPrefix | pkg/build/package.go:101-109 | whatever fails, the file holds a prefix of the inputs concatenated in order |
| Emit.Licenses | pkg/build/package.go:83-84 | the `License` of each `Copyright` entry, in order, one per entry, with no deduplication |
| Emit.RecordOf | pkg/build/package.go:78-89 | the values the template reads: the package name from the context's `PackageName`; version, epoch, description, licenses and runtime dependencies from `pc.Origin`, which is the configuration's main package even when a subpackage is emitted; size and data hash from the context |
| Emit.EmitSpec | pkg/build/package.go:112-255 | the pipeline returns no error exactly when it runs to the end; an output file exists exactly when the pipeline got past creating it, and its path is the package's file name |
| Emit.DataArchive | pkg/build/package.go:153 | the data archive is written from the workspace subdirectory with the source date epoch, uid and gid 0, owner names "root" and checksums on |
| Emit.ControlArchive | pkg/build/package.go:195 | the control archive is written, without end-of-stream close, from an in-memory file system holding `.PKGINFO` with the rendered record |
| Emit.SignatureArchive | pkg/build/package.go:226 | the signature archive is written, without end-of-stream close, from an in-memory file system holding the signature under `SignatureName` of the key |
| Emit.DataStage | pkg/build/package.go:150-163 | as `EmitSpec`, from the data archive on; the walked size is kept |
| Emit.ControlStage | pkg/build/package.go:161-191 | as `EmitSpec`, from rewinding the data archive on; size and data hash are kept |
| Emit.ControlArchiveStage | pkg/build/package.go:193-208 | as `EmitSpec`, from writing the control archive on; size and data hash are kept |
| Emit.SignStage | pkg/build/package.go:208-235 | as `EmitSpec`, from signing on; size and data hash are kept |
| Emit.Finish | pkg/build/package.go:237-255 | as `EmitSpec`, from creating the output directory on; size and data hash are kept |
| Emit.PackageContext.constructor | pkg/build/package.go:54-60 | a new context holds its job, a size of 0 and an empty data hash |
| Emit.PackageContext.Scan | pkg/build/package.go:133-147 | the callback loop leaves `installedSize` and returns the error as the walk fold specifies |
| Emit.PackageContext.EmitPackage | pkg/build/package.go:112-255 | the method's error, final `installedSize` and `dataHash`, and output file are those of `EmitSpec` from the context's old fields; the file is freshly created |
| Emit.PackageContext.EmitData | pkg/build/package.go:150-163 | writing the data archive sets `dataHash` and gives the outcome `DataStage` specifies |
| Emit.PackageContext.EmitControl | pkg/build/package.go:161-206 | the steps from rewinding the data archive on give the outcome `ControlStage` specifies |
| Emit.PackageContext.EmitSignature | pkg/build/package.go:208-235 | the signing steps give the outcome `SignStage` specifies |
| Emit.PackageContext.WriteOutput | pkg/build/package.go:237-255 | creating the directory and the file and combining the parts give the outcome `Finish` specifies |
| Emit.ScanFailureAborts | pkg/build/package.go:133-147 | a walk error ends the pipeline at the walk, wrapped as "unable to preprocess package data", before any archive is written; `DataHash` is untouched and no output file exists |
| Emit.PastScan | pkg/build/package.go:145-153 | past the walk, the walk had no error and the pipeline continues with the data stage from the walked size |
| Emit.PastData | pkg/build/package.go:153-163 | past the data archive, it was written and the control stage runs with the hex SHA-256 of its bytes |
| Emit.PastControl | pkg/build/package.go:161-208 | once an output file exists, the control archive was written; the pipeline copies [control, data] without a key, and signs with one |
| Emit.PastSign | pkg/build/package.go:208-235 | once an output file exists after signing, the signature over the control archive's SHA-1 was archived and leads the parts |
| Emit.FinishOutcome | pkg/build/package.go:237-250 | a successful copy gives a file holding all the parts concatenated in order; a failed one gives the "unable to write apk file" error and a prefix of them |
| Emit.ReachesControl | pkg/build/package.go:133-163 | past the data archive, the walk succeeded, `InstalledSize` is the walked size and `DataHash` is the hex SHA-256 of the data archive |
| Emit.WalkedSize | pkg/build/package.go:133-147 | past the walk, no entry failed and `InstalledSize` is the wrapped sum of the start size and every entry's size |
| Emit.DataHashFlow | pkg/build/package.go:151-157 | past the data archive, `DataHash` is the hex of the SHA-256 of exactly its bytes: 64 lowercase characters that decode back to the digest |
| Emit.ReachesFinish | pkg/build/package.go:150-248 | once an output file exists, the data and control archives were written, and the parts are [control, data], or [signature, control, data] when a key is set, with the signature over the control archive's SHA-1 |
| Emit.EmittedPackage | pkg/build/package.go:206-250 | a successful run writes control followed by data without a key, and signature, control and data with one, each part whole; the signature covers the SHA-1 of the control archive |
| Emit.JobRecordLines | pkg/build/package.go:76-95 | a context's record reads back line by line in the fixed order, with the size on line 5 and the data hash on the last non-empty line |
| Emit.EmittedRecord | pkg/build/package.go:143-185 | the record put into the control archive reads back as the fixed lines, carrying the walked total size and the hex SHA-256 of the data archive |
| Emit.CopyFailureLeavesPrefix | pkg/build/package.go:237-250 | a failed copy returns "unable to write apk file" and leaves at the package's path a prefix of [signature,] control, data |
| Emit.SubpackageJob | pkg/build/package.go:54-60 | the context `Subpackage.Emit` builds: the subpackage's name, the configuration's package as origin, `filepath.Join(outDir, arch)` as output directory |
| Emit.SubpackageRecordFromOrigin | pkg/build/package.go:53-60 | a subpackage's `.PKGINFO` carries the subpackage's name but the version, epoch, description, licenses and runtime dependencies of the configuration's main package (line 56 sets `Origin` to it) |
| Emit.SubpackageFilePath | pkg/build/package.go:53-70 | with a non-empty output directory and architecture, a subpackage's file path is `<outDir>/<arch>/<name>-<version>-r<epoch>.apk`, whatever the name and version hold |
| Emit.SubpackageFileLocation | pkg/build/package.go:53-70 | when neither the architecture nor the name nor the version holds a "/", the file's directory is named after the architecture and the file after `<name>-<version>-r<epoch>.apk` |
| Emit.DistinctSubpackagesDistinctPaths | pkg/build/package.go:53-70 | sibling subpackages with different names get different output path strings, whatever the version; this alone does not make the files different, since names such as `x` and `./x` give two paths to one file |
| Emit.DistinctSubpackagesDistinctFiles | pkg/build/package.go:53-70 | when no name and not the version holds a "/", sibling subpackages with different names write to different files: both sit directly in the architecture's output directory, under different last path elements |
| Emit.EmitSubpackage | pkg/build/package.go:53-62 | `Subpackage.Emit` runs the pipeline from a fresh context for the subpackage, with size 0 and no hash |
| Emit.EmitMainPackage | pkg/build/package.go:46-51 | `Package.Emit` runs the pipeline as for a subpackage named after the package |

## Left out

- Logging (`package.go:59`, `113`, `158-159`, `200`, `252`): output only, it changes nothing the pipeline computes.
- `defer ... Close()` of the temporary and output files: the model does not track open handles.
- Removing temporary files: the code never does it, so neither does the model.
- The tar and gzip encodings, SHA-256, SHA-1 and RSA signing: these are collaborators, and the model leaves their results uninterpreted. The only facts used are the digest lengths: 32 and 20 bytes.
- The two `io.MultiWriter` calls: the model takes the bytes hashed to be the bytes written to the temporary file.
- Reading back the temporary files: the bytes `combine` copies are taken to be the bytes the archive writer produced.
- The error exit of `GenerateControlData` (`package.go:178-180`): it cannot happen, because a fixed template is executed into a memory buffer.
- `filepath.Join` cleaning (`filepath.Clean`): the model joins non-empty elements with "/". It does not collapse `..`, `.` or repeated slashes.
- `Arch.ToAPK()` is taken as a given string.
- The walk's order and its contents come from the file system. The model takes them as a sequence of walk events.
- Text.AsBytes: Go's `bytes.Buffer` holds the UTF-8 encoding of the rendered text; the model writes each character as one byte, its code modulo 256. The two agree on ASCII text only; a character at or above 128 is encoded differently.
- `Emit.PackageContext.EmitPackage`: the model splits it into helper methods, one per stage (`EmitData`, `EmitControl`, `EmitSignature`, `WriteOutput`). The code has one function.
- Epoch: the configuration types are not part of this model, so the model takes the epoch as an unbounded natural number. That is Go's `%d` rendering of any unsigned value.
- Concurrency between sibling subpackages: each run is modelled on its own. `Emit.DistinctSubpackagesDistinctFiles` shows that they write to different files when no name and not the version holds a "/". The code does not check this, and names such as `x` and `./x` lead to the same file.

# Bundle-composition configurator of OpaDotNet.Compilation.Abstractions, in Dafny

This project models the configurator of OpaDotNet.Compilation.Abstractions.
The configurator is a fluent builder. It collects compilation parameters, an
optional bundle manifest and an ordered list of source entries. Its terminal
`CompileAsync` then does one of three things:

- it fails when no source was added;
- it passes a single file path or stream, with no manifest set, straight to
  the external Rego compiler;
- otherwise it writes every entry into a fresh bundle writer, in insertion
  order, forces `IsBundle = true`, and hands the packed buffer to the
  compiler.

The project also models the three source-entry classes and the four
`RegoCompilerExtensions` helpers. Each helper presets a chain of builder
calls.

Modules, one per file:

- `Wrappers` (`wrappers.dfy`): `Option`, `Result`, and `Outcome`, which is a
  success or the exception a call throws.
- `Decimal` (`decimal.dfy`): decimal printing of the synthetic-name counter,
  and its inverse.
- `Bundle` (`bundle.dfy`): the bundle writer, modelled by its protocol. It is
  an append-only log of `WriteFile` / `WriteEntry` / `WriteBundle`
  operations, plus the manifest it was created with and a `closed` flag.
  Writing after `Dispose` is excluded by a precondition. It also holds
  streams: a caller's stream is an opaque identity, and a buffer the
  configurator packed is represented by what was written into it.
- `BundleEntries` (`bundle_entries.dfy`): the closed sum of the entry kinds.
  `WriteTo` appends exactly one operation to the writer. Rendering is
  lossless.
- `Compilation` (`compilation.dfy`):
  - the parameters record;
  - the compiler as a recording stub that logs every call and either answers
    with the artifact for that call or faults;
  - `ThrowIfNull`, `ThrowIfNullOrEmpty` and `ToHashSet`, with the
    properties of `ToHashSet` as lemmas.
- `Configuration` (`configuration.dfy`): the configurator's state and calls as
  values. Its invariant `NamedInOrder` says the source-code entries are
  `src0.rego`, `src1.rego`, … in order and the counter is their number.
  - `Step`, `Apply` and `Verdict` give what one builder call does and
    reports.
  - `Run` applies a sequence of calls.
  - `Request` is the one compiler call the terminal compile issues, or the
    exception it raises.
  - `AfterCompile` is the state the compile leaves behind.
  - The properties of the builder are proved here.
- `Configurator` (`configurator.dfy`): the class
  `RegoCompilerConfigurator`.
  - It has the mutable fields of the C# class: options, manifest, entries and
    counter.
  - Every builder method's contract gives its whole new state. It ties that
    state to `Apply(old(State()), call)` and its result to `Verdict`.
  - `CompileAsync` runs the packaging loop as a `while` loop over a
    `BundleWriter`. It is proved against `Request` and `AfterCompile`.
- `Extensions` (`extensions.dfy`): the four compile helpers.
  - Each is a method over the class.
  - A function gives the compiler call it makes, or the exception it throws
    first.
  - A lemma shows that this is what the configuration model predicts for the
    helper's calls.

The repository holds the configurator twice, nearly line for line:
`src/RegoCompilerConfigurator.cs` and `src/RegoConfigurableCompiler.cs`.
Line N of the first corresponds to line N-3 of the second. Both are modelled
by the one class and the one `Configuration` module. The class methods cite
the public file, and the properties in `Configuration` cite the internal
duplicate.

`src/RegoCompilerConfigurator.cs` constructs `StreamBundleSource` at line 111
and type-tests it at line 142, but `src/Internal/StreamBundleSource.cs` declares the class
`StreamBundleEntry`. Both names are the one variant
`BundleEntries.BundleEntry.StreamBundleEntry`.

The helpers instantiate `RegoCompilerWrapper`, whose source is not
available. The configurator class stands for it.

Facts about the code that the model keeps:

- `WithRevision` and `WithAsBundle` do no validation
  (src/RegoCompilerConfigurator.cs:22-47).
- Only the manifest, entrypoints, capabilities and source calls check their
  argument. They reject null, and the string-valued ones also reject ""
  (src/RegoCompilerConfigurator.cs:34, 54, 65, 76, 87, 98, 109, 120).
- There are three entry kinds, one class each under `src/Internal/`. A
  stream entry is always written as a whole bundle
  (src/Internal/StreamBundleSource.cs:7).
- A source-code entry's name is `src<i>.rego`, handed to the writer without
  a leading `/` (src/RegoCompilerConfigurator.cs:122). Any normalisation
  belongs to the writer.

C# `null` arguments are `None`. The `string[]` overload takes an `array?`.
A call that throws leaves the state unchanged, because every check comes
before its assignment.

## Model

| member | source | states |
|---|---|---|
| Configurator.RegoCompilerConfigurator.constructor | src/RegoCompilerConfigurator.cs:9-17 | A new configurator holds the default options, no manifest, no entries and counter 0, and it satisfies the naming invariant. |
| Configurator.RegoCompilerConfigurator.WithRevision | src/RegoCompilerConfigurator.cs:22-26 | It accepts any revision, null included. It sets only `options.revision`, and its effect is `Apply(old, SetRevision)`. |
| Configurator.RegoCompilerConfigurator.WithManifest | src/RegoCompilerConfigurator.cs:32-38 | It throws ArgumentNull exactly for null, and the state is then unchanged. Otherwise it sets only the manifest. |
| Configurator.RegoCompilerConfigurator.WithAsBundle | src/RegoCompilerConfigurator.cs:43-47 | It always succeeds and sets only `options.isBundle`. |
| Configurator.RegoCompilerConfigurator.WithEntrypoints | src/RegoCompilerConfigurator.cs:52-58 | Null throws and changes nothing. Otherwise `options.entrypoints` becomes the set of the given names, replacing any earlier set. |
| Configurator.RegoCompilerConfigurator.WithEntrypointsArray | src/RegoCompilerConfigurator.cs:63-69 | The array overload is the same call as WithEntrypoints on the array's contents. |
| Configurator.RegoCompilerConfigurator.WithCapabilitiesFile | src/RegoCompilerConfigurator.cs:74-80 | Null throws ArgumentNull and "" throws ArgumentEmpty, and neither changes anything. Otherwise it sets only `capabilitiesFilePath`. |
| Configurator.RegoCompilerConfigurator.WithCapabilitiesStream | src/RegoCompilerConfigurator.cs:85-91 | Null throws and changes nothing. Otherwise it sets only `capabilitiesStream`. |
| Configurator.RegoCompilerConfigurator.WithSourcePath | src/RegoCompilerConfigurator.cs:96-102 | Null or "" throws first. Otherwise it appends exactly one file entry with the path verbatim, and the earlier entries and the counter stay as they were. |
| Configurator.RegoCompilerConfigurator.WithSourceStream | src/RegoCompilerConfigurator.cs:107-113 | Null throws first. Otherwise it appends exactly one stream entry holding that very stream. |
| Configurator.RegoCompilerConfigurator.WithSourceCode | src/RegoCompilerConfigurator.cs:118-124 | Null or "" throws first. Otherwise it appends one source entry named `src<counter>.rego` and advances the counter by one, which keeps the naming invariant. |
| Configurator.RegoCompilerConfigurator.CompileAsync | src/RegoCompilerConfigurator.cs:132-159 | With no entries it fails with NoCompilationSources, and the compiler's log is unchanged. Otherwise it makes exactly one compiler call, `Request(old state)`, and returns that call's answer. The new state is `AfterCompile(old state)`. |
| BundleEntries.BundleEntry.WriteTo | src/Internal/SourceBundleEntry.cs:7 | Each entry appends exactly one write to the open writer and changes nothing else. A source entry writes `WriteEntry(source, fileName)`, a file entry `WriteFile(path)` and a stream entry `WriteBundle(stream)`, all with the stored values verbatim. The entry is a value, so repeated calls append identical operations, and a stream entry neither reads nor closes its stream. |
| BundleEntries.BundleEntry.AsWriteOp | src/Internal/StreamBundleSource.cs:3-7 | Each entry kind maps to its own operation kind, in both directions. A stream entry is always a `WriteBundle`, never a `WriteEntry` or `WriteFile`. |
| BundleEntries.FromWriteOp | src/Internal/SourceBundleEntry.cs:3-7 | Reading an operation back gives an entry that renders as exactly that operation. |
| BundleEntries.FromWriteOpOfAsWriteOp | src/Internal/FileBundleEntry.cs:3-7 | Rendering is lossless: the path, stream, source text and file name come back from the operation unchanged. |
| BundleEntries.RenderAll | src/RegoConfigurableCompiler.cs:148-149 | The packaging loop performs one operation per entry, and the k-th operation is the k-th entry's own write. |
| BundleEntries.UnpackRenderAll | src/RegoCompilerConfigurator.cs:151-152 | The entries can be read back from the written operations exactly, in insertion order. |
| Bundle.BundleWriter.constructor | src/RegoCompilerConfigurator.cs:146-147 | A fresh writer is seeded with the manifest, has an empty log, and is open. |
| Bundle.BundleWriter.WriteFile | src/Internal/FileBundleEntry.cs:7 | On an open writer it appends one `WriteFile` to the log. |
| Bundle.BundleWriter.WriteEntry | src/Internal/SourceBundleEntry.cs:7 | On an open writer it appends one `WriteEntry` to the log. |
| Bundle.BundleWriter.WriteBundle | src/Internal/StreamBundleSource.cs:7 | On an open writer it appends one `WriteBundle` to the log. |
| Bundle.BundleWriter.Dispose | src/RegoCompilerConfigurator.cs:149-153 | It closes the writer, after which no write is allowed, and keeps the log. |
| Compilation.RegoCompiler.CompileByPath | src/RegoCompilerConfigurator.cs:140 | It records one path-overload call with exactly these arguments and returns its answer. |
| Compilation.RegoCompiler.CompileByStream | src/RegoCompilerConfigurator.cs:143 | It records one stream-overload call with exactly these arguments and returns its answer. |
| Compilation.ToHashSetAppend | src/RegoCompilerConfigurator.cs:56 | The set of a concatenation is the union of the sets of its parts. |
| Compilation.ToHashSetDuplicate | src/RegoCompilerConfigurator.cs:56 | Adding a name that is already present does not change the set, so duplicates collapse. |
| Compilation.ToHashSetBound | src/RegoCompilerConfigurator.cs:56 | The set never has more members than the list has names. |
| Decimal.NatToString | src/RegoCompilerConfigurator.cs:122 | The interpolated counter is a non-empty string of decimal digits, with one digit exactly below 10 and no leading zero. |
| Decimal.StringToNatOfNatToString | src/RegoCompilerConfigurator.cs:122 | The printed counter reads back as the counter. |
| Decimal.NatToStringInjective | src/RegoCompilerConfigurator.cs:122 | Distinct counter values print differently. |
| Configuration.SourceName | src/RegoConfigurableCompiler.cs:119 | A synthetic name starts with `src`, ends with `.rego`, and between them has at least one character, all of them decimal digits. |
| Configuration.SourceIndexOfSourceName | src/RegoConfigurableCompiler.cs:119 | The counter value can be read back out of `src<i>.rego`. |
| Configuration.SourceNameInjective | src/RegoConfigurableCompiler.cs:115-120 | Distinct counter values give distinct names, so a name is never reused. |
| Configuration.SourceNamesDistinct | src/RegoConfigurableCompiler.cs:115-120 | In any state satisfying the invariant, no two source-code entries share a name. |
| Configuration.Step | src/RegoConfigurableCompiler.cs:19-121 | One builder call succeeds exactly when `Accepts` holds for it, and a failure is ArgumentNull or ArgumentEmpty. A setter keeps the entries, a source call adds exactly one, and only source code advances the counter. |
| Configuration.StepPreservesNaming | src/RegoConfigurableCompiler.cs:93-121 | Every call, accepted or rejected, keeps the naming invariant `NamedInOrder`. Under that invariant the source-code entries are `src0.rego`, `src1.rego`, … in order, and the counter is their number. |
| Configuration.RunNamesSources | src/RegoConfigurableCompiler.cs:115-120 | After any call sequence on a new configurator, the source-code entries are `src0.rego` … `src<n-1>.rego` in call order. Here n is the number of accepted source-code calls: path entries, stream entries and rejected calls consume no numbers. |
| Configuration.RunKeepsEntries | src/RegoConfigurableCompiler.cs:93-121 | No call sequence drops or alters an entry that was already added. |
| Configuration.VerdictIsArgumentCheck | src/RegoConfigurableCompiler.cs:19-121 | In any state, a call throws ArgumentNull exactly when its checked argument is null, and ArgumentEmpty exactly when a string-checked argument is "". The revision and the bundle flag are never checked. |
| Configuration.ChangesOnlyTarget | src/RegoConfigurableCompiler.cs:19-121 | Every call changes at most its own part of the state. A setter changes one option field or the manifest and never the entries. Only source code advances the counter. |
| Configuration.AddAppendsOne | src/RegoConfigurableCompiler.cs:93-121 | An accepted source call appends exactly one entry at the end and keeps the earlier ones as a prefix. |
| Configuration.LastWriteWins | src/RegoConfigurableCompiler.cs:19-88 | For two setters of the same field, the second, when accepted, wins. |
| Configuration.EntrypointsAreASet | src/RegoConfigurableCompiler.cs:49-66 | Name lists with the same members give the same state, whatever their order and duplicates, and the stored value is their set. |
| Configuration.Request | src/RegoConfigurableCompiler.cs:131-155 | The compile fails exactly when there are no entries, and then with NoCompilationSources. The path overload is used only for a pass-through. Whenever the state packages, the stream overload is used with the bundle flag set. |
| Configuration.AfterCompile | src/RegoConfigurableCompiler.cs:152-153 | The compile changes at most the bundle flag, which is set afterwards exactly when it was set before or the state packaged. |
| Configuration.RunCountsEntries | src/RegoConfigurableCompiler.cs:93-121 | After any call sequence, the number of entries grew by exactly the number of accepted source calls: setters and rejected calls add none. |
| Configuration.NoSourcesFails | src/RegoConfigurableCompiler.cs:131-132 | On a configurator built by any call sequence, the compile fails exactly when none of the calls was an accepted source call, and it then changes nothing. |
| Configuration.PassThroughByPath | src/RegoConfigurableCompiler.cs:134-137 | The path overload is chosen exactly when there is no manifest and the only entry is a file. It then gets that path and the options unchanged, and the state stays as it was. |
| Configuration.PassThroughByStream | src/RegoConfigurableCompiler.cs:134-141 | A single stream entry without a manifest is forwarded as that very stream, with the options unchanged, and the state stays as it was. |
| Configuration.PackagingCases | src/RegoConfigurableCompiler.cs:134-141 | Packaging happens exactly when there is a manifest, two or more entries, or a single source-code entry. |
| Configuration.PackagingRequest | src/RegoConfigurableCompiler.cs:143-155 | When packaging, the stream overload gets a buffer seeded with the manifest. The buffer holds every entry's write in insertion order, and the entries can be recovered from it. The parameters are the options with `isBundle` forced to true, and the stored options keep the flag. |
| Configuration.RecompileIsStable | src/RegoConfigurableCompiler.cs:153 | After a compile, a second compile makes the same call with the same stream references, and the forced bundle flag persists. |
| Configuration.TwoSourcesScenario | src/RegoConfigurableCompiler.cs:143-155 | Two source-code calls without a manifest give a bundle with `src0.rego` = "package a" then `src1.rego` = "package b", compiled with the bundle flag. |
| Configuration.SinglePathScenario | src/RegoConfigurableCompiler.cs:134-137 | A single path without a manifest reaches the path overload verbatim, with the default options. |
| Configuration.ManifestScenario | src/RegoConfigurableCompiler.cs:143-155 | A manifest forces packaging even for a single path. |
| Extensions.BundlePathChain | src/RegoCompilerExtensions.cs:31-36 | `WithAsBundle().WithSourcePath(path)` plus the optional entrypoints gives a new configurator with the bundle flag, the one file entry, and the entrypoint set only when the entrypoints were given. |
| Extensions.CompileBundle | src/RegoCompilerExtensions.cs:22-42 | A null or empty path throws before anything is built. An empty capabilities path throws after the builder is set up, before any compiler call. Otherwise exactly one path-overload call is made: the path, the bundle flag, the entrypoints and the capabilities path, the last two only when given. The helper returns that call's answer. |
| Extensions.CompileBundleIsPipeline | src/RegoCompilerExtensions.cs:31-41 | The call CompileBundle makes is what the configuration model computes for its preset calls, by path pass-through. |
| Extensions.FilePathChain | src/RegoCompilerExtensions.cs:60-63 | `WithSourcePath(path)` plus the optional entrypoints gives a new configurator with the default options, the one file entry, and the entrypoint set only when the entrypoints were given. |
| Extensions.CompileFile | src/RegoCompilerExtensions.cs:52-66 | A null or empty path throws first. Otherwise there is one path-overload call with the default bundle flag and the given entrypoints, and the helper returns its answer. |
| Extensions.CompileFileIsPipeline | src/RegoCompilerExtensions.cs:60-65 | The call CompileFile makes is what the configuration model computes for its preset calls. |
| Extensions.StreamChain | src/RegoCompilerExtensions.cs:88-93 | `WithAsBundle().WithSourceStream(stream)` plus the optional entrypoints gives a new configurator with the bundle flag and the one stream entry. |
| Extensions.CompileStream | src/RegoCompilerExtensions.cs:79-99 | A null stream throws first. Otherwise the caller's stream is forwarded unchanged in one stream-overload call, with the bundle flag and the capabilities stream only when given, and the helper returns its answer. |
| Extensions.CompileStreamIsPipeline | src/RegoCompilerExtensions.cs:88-98 | The call CompileStream makes is what the configuration model computes for its preset calls. |
| Extensions.PackPolicy | src/RegoCompilerExtensions.cs:117-125 | The source text is packed as the single entry `policy.rego` of a bundle without a manifest. |
| Extensions.CompileSource | src/RegoCompilerExtensions.cs:109-135 | Null or empty source throws first. Otherwise the packed `policy.rego` buffer goes in one stream-overload call with the bundle flag, and the helper returns its answer. |
| Extensions.CompileSourceIsPipeline | src/RegoCompilerExtensions.cs:127-134 | The call CompileSource makes is what the configuration model computes for its preset calls. |

## Left out

- The writer's internals are left out because they are not in these
  sources: tar framing (POSIX ustar), gzip (RFC 1952), entry-path
  normalisation with a leading `/`, manifest serialisation, and re-streaming
  the entries of a bundle passed to `WriteBundle`. The writer is only an
  operation log.
- Archive I/O failures are left out: unreadable files, and streams that
  cannot be drained while packaging. They occur inside the writer.
- Configuration.RecompileIsStable: stream read positions are not modelled.
  In the program nothing rewinds a caller's stream, so a second compile
  re-reads a stream entry or a pass-through stream that the first compile
  drained, and its buffer or its call can differ. The lemma only says that
  the same call is made with the same stream references.
- Stream bytes, `MemoryStream.Seek`, and the `using` / `await using` disposal
  of the buffer are left out. Streams are identities and a packed buffer is
  its write log, so rewinding changes nothing observable here.
- `async`/`await`, `CancellationToken` and `ConfigureAwait` are left out.
  Every operation is synchronous.
- The compiler's real behaviour and its `Version` call are left out. The
  compiler is a stub that records calls, and a `failing` flag stands for
  any fault it raises. The core passes that fault on unchanged.
- The source of `IRegoCompiler`, `CompilationParameters`, `BundleManifest`,
  `RegoCompilerWrapper` and `RegoCompilationException` is not available.
  Each has a stand-in:
  - `IRegoCompiler` is the recording stub `Compilation.RegoCompiler`.
  - `CompilationParameters` is a record whose default is assumed to be
    `IsBundle = false` with every optional field null.
  - `BundleManifest` is only an identity.
  - `RegoCompilerWrapper` is the configurator class.
  - `RegoCompilationException` is the error `NoCompilationSources`.
- A null member of the entrypoints list is not modelled. In C#,
  `WithEntrypoints(new[] { "a", null })` passes `ThrowIfNull` and stores the
  null in the set. Here a list of names is a `seq<string>`, which has no null
  member.
- Capabilities files and streams are stored and forwarded but never
  interpreted.
- Configurator.RegoCompilerConfigurator.WithSourceCode: the counter is an
  unbounded `nat`. The C# `int` wraps after 2^31 source-code calls, which
  would repeat or negate names; that wrap-around is not modelled.
- The fluent return value (`return this`) is replaced by an `Outcome`
  reporting whether the call threw. The chained calls of the helpers become
  successive statements on the same object.
- `src/IRegoConfigurableCompiler.cs` is left out because it holds signatures
  only. The class mirrors its method set.
- `src/OpaCompatibility.cs` is left out because it is an enum with no
  logic.
- The tests under `tests/` are left out.

/** The compile helpers: each builds a configurator over the given compiler
    with a preset sequence of calls and returns exactly what its CompileAsync
    returns. For each helper a function gives the one compiler call it makes
    (or the exception it raises first), and a lemma shows that this call is
    what the configuration model predicts for the helper's preset calls. */
module Extensions {
  import opened Wrappers
  import opened Bundle
  import opened BundleEntries
  import opened Compilation
  import opened Configuration
  import opened Configurator

  /** The entrypoint set a helper ends up with: only set when non-null. */
  function EntrypointSet(entrypoints: Option<seq<string>>): Option<set<string>>
  {
    if entrypoints.None? then None else Some(ToHashSet(entrypoints.value))
  }

  /** The name CompileSource gives to its single entry. */
  const PolicyFileName := "policy.rego"

  /** The buffer CompileSource packs: one literal entry, no manifest. */
  function PolicyBundle(source: string): Stream
  {
    Packed(None, [WriteEntry(source, PolicyFileName)])
  }

  /** The entrypoints call each helper makes only when entrypoints are given. */
  function EntrypointCalls(entrypoints: Option<seq<string>>): seq<Call>
  {
    if entrypoints.Some? then [SetEntrypoints(entrypoints)] else []
  }

  lemma RunEntrypoints(s: ConfigState, calls: seq<Call>, entrypoints: Option<seq<string>>)
    requires Run(s, calls).options.entrypoints.None?
    ensures var t := Run(s, calls);
      Run(s, calls + EntrypointCalls(entrypoints)) == t.(options := t.options.(entrypoints := EntrypointSet(entrypoints)))
  {
    RunOptional(s, calls, EntrypointCalls(entrypoints));
  }

  /** `WithAsBundle()` then an accepted source call, on a new configurator. */
  lemma RunBundleThenSource(c: Call)
    requires !c.IsSetter() && !c.AddSourceCode? && Accepts(c)
    ensures Run(Initial, [SetAsBundle(true), c])
         == Initial.(options := Defaults.(isBundle := true), entries := Apply(Initial, c).entries)
  {
    RunPair(Initial, SetAsBundle(true), c);
  }

  // ---------------------------------------------------------------------------
  // CompileBundle

  function BundleRequest(bundlePath: Option<string>, entrypoints: Option<seq<string>>,
                         capabilitiesFilePath: Option<string>): Result<CompileCall, Error>
  {
    if ThrowIfNullOrEmpty(bundlePath).Fail? then Failure(ThrowIfNullOrEmpty(bundlePath).error)
    else if capabilitiesFilePath == Some("") then Failure(ArgumentEmpty)
    else Success(ByPath(bundlePath.value,
                        CompilationParameters(true, None, EntrypointSet(entrypoints), capabilitiesFilePath, None)))
  }

  function BundleCalls(bundlePath: Option<string>, entrypoints: Option<seq<string>>,
                       capabilitiesFilePath: Option<string>): seq<Call>
  {
    [SetAsBundle(true), AddSourcePath(bundlePath)] + EntrypointCalls(entrypoints)
    + (if capabilitiesFilePath.Some? then [SetCapabilitiesFile(capabilitiesFilePath)] else [])
  }

  /** The chain CompileBundle starts with: a fresh configurator over
      `compiler` with the bundle flag set, `bundlePath` as its one file entry
      and the entrypoints when given. */
  method BundlePathChain(compiler: RegoCompiler, bundlePath: string, entrypoints: Option<seq<string>>)
    returns (c: RegoCompilerConfigurator)
    requires bundlePath != ""
    ensures fresh(c) && c.compiler == compiler && c.Valid()
    ensures c.State() == ConfigState(Defaults.(isBundle := true, entrypoints := EntrypointSet(entrypoints)),
                                     None, [FileBundleEntry(bundlePath)], 0)
  {
    c := new RegoCompilerConfigurator(compiler);
    assert c.entries == [];
    var o := c.WithAsBundle(true);
    assert c.entries == [];
    o := c.WithSourcePath(Some(bundlePath));
    assert o.Pass?;
    assert c.entries == [FileBundleEntry(bundlePath)] && c.manifest.None?;
    assert c.options == Defaults.(isBundle := true);
    if entrypoints.Some? {
      o := c.WithEntrypoints(entrypoints);
    }
  }

  /** Compiles a bundle directory or archive: a path pass-through with the
      bundle flag set; entrypoints and capabilities only when given. */
  method CompileBundle(compiler: RegoCompiler, bundlePath: Option<string>, entrypoints: Option<seq<string>>,
                       capabilitiesFilePath: Option<string>) returns (r: Result<Artifact, Error>)
    modifies compiler
    ensures var req := BundleRequest(bundlePath, entrypoints, capabilitiesFilePath);
      req.Failure? ==> r == Failure(req.error) && compiler.calls == old(compiler.calls)
    ensures var req := BundleRequest(bundlePath, entrypoints, capabilitiesFilePath);
      req.Success? ==> compiler.calls == old(compiler.calls) + [req.value] && r == compiler.Answer(req.value)
  {
    var check := ThrowIfNullOrEmpty(bundlePath);
    if check.Fail? {
      r := Failure(check.error);
      return;
    }
    var c := BundlePathChain(compiler, bundlePath.value, entrypoints);
    if capabilitiesFilePath.Some? {
      var o := c.WithCapabilitiesFile(capabilitiesFilePath);
      if o.Fail? {
        r := Failure(o.error);
        return;
      }
    }
    assert c.State() == ConfigState(CompilationParameters(true, None, EntrypointSet(entrypoints), capabilitiesFilePath, None),
                                    None, [FileBundleEntry(bundlePath.value)], 0);
    assert Request(c.State()) == BundleRequest(bundlePath, entrypoints, capabilitiesFilePath);
    r := c.CompileAsync();
  }

  /** CompileBundle is the configurator run on its preset calls. */
  lemma CompileBundleIsPipeline(bundlePath: Option<string>, entrypoints: Option<seq<string>>,
                                capabilitiesFilePath: Option<string>)
    requires BundleRequest(bundlePath, entrypoints, capabilitiesFilePath).Success?
    ensures Request(Run(Initial, BundleCalls(bundlePath, entrypoints, capabilitiesFilePath)))
         == BundleRequest(bundlePath, entrypoints, capabilitiesFilePath)
  {
    var prefix := [SetAsBundle(true), AddSourcePath(bundlePath)];
    var caps := if capabilitiesFilePath.Some? then [SetCapabilitiesFile(capabilitiesFilePath)] else [];
    RunBundleThenSource(AddSourcePath(bundlePath));
    var s2 := Run(Initial, prefix);
    assert s2.entries == [FileBundleEntry(bundlePath.value)];
    RunEntrypoints(Initial, prefix, entrypoints);
    var s3 := s2.(options := s2.options.(entrypoints := EntrypointSet(entrypoints)));
    RunOptional(Initial, prefix + EntrypointCalls(entrypoints), caps);
    var s4 := s3.(options := s3.options.(capabilitiesFilePath := capabilitiesFilePath));
    assert Run(Initial, prefix + EntrypointCalls(entrypoints) + caps) == s4;
    assert BundleCalls(bundlePath, entrypoints, capabilitiesFilePath) == prefix + EntrypointCalls(entrypoints) + caps;
    assert PassesThrough(s4) && s4.entries[0].FileBundleEntry?;
  }

  // ---------------------------------------------------------------------------
  // CompileFile

  function FileRequest(sourceFilePath: Option<string>, entrypoints: Option<seq<string>>): Result<CompileCall, Error>
  {
    if ThrowIfNullOrEmpty(sourceFilePath).Fail? then Failure(ThrowIfNullOrEmpty(sourceFilePath).error)
    else Success(ByPath(sourceFilePath.value, Defaults.(entrypoints := EntrypointSet(entrypoints))))
  }

  function FileCalls(sourceFilePath: Option<string>, entrypoints: Option<seq<string>>): seq<Call>
  {
    [AddSourcePath(sourceFilePath)] + EntrypointCalls(entrypoints)
  }

  /** `CompileFile`'s builder chain, up to the compile. */
  method FilePathChain(compiler: RegoCompiler, path: string, entrypoints: Option<seq<string>>)
    returns (c: RegoCompilerConfigurator)
    requires path != ""
    ensures fresh(c) && c.compiler == compiler && c.Valid()
    ensures c.State() == ConfigState(Defaults.(entrypoints := EntrypointSet(entrypoints)), None, [FileBundleEntry(path)], 0)
  {
    c := new RegoCompilerConfigurator(compiler);
    assert c.entries == [];
    var o := c.WithSourcePath(Some(path));
    assert o.Pass? && c.entries == [FileBundleEntry(path)];
    if entrypoints.Some? {
      o := c.WithEntrypoints(entrypoints);
    }
  }

  /** Compiles one policy file: a path pass-through, the bundle flag left at
      its default. */
  method CompileFile(compiler: RegoCompiler, sourceFilePath: Option<string>, entrypoints: Option<seq<string>>)
    returns (r: Result<Artifact, Error>)
    modifies compiler
    ensures var req := FileRequest(sourceFilePath, entrypoints);
      req.Failure? ==> r == Failure(req.error) && compiler.calls == old(compiler.calls)
    ensures var req := FileRequest(sourceFilePath, entrypoints);
      req.Success? ==> compiler.calls == old(compiler.calls) + [req.value] && r == compiler.Answer(req.value)
  {
    var check := ThrowIfNullOrEmpty(sourceFilePath);
    if check.Fail? {
      r := Failure(check.error);
      return;
    }
    var c := FilePathChain(compiler, sourceFilePath.value, entrypoints);
    assert Request(c.State()) == FileRequest(sourceFilePath, entrypoints);
    r := c.CompileAsync();
  }

  lemma CompileFileIsPipeline(sourceFilePath: Option<string>, entrypoints: Option<seq<string>>)
    requires FileRequest(sourceFilePath, entrypoints).Success?
    ensures Request(Run(Initial, FileCalls(sourceFilePath, entrypoints))) == FileRequest(sourceFilePath, entrypoints)
  {
    var prefix := [AddSourcePath(sourceFilePath)];
    RunOptional(Initial, [], prefix);
    assert [] + prefix == prefix;
    var s1 := Run(Initial, prefix);
    assert s1 == Initial.(entries := [FileBundleEntry(sourceFilePath.value)]);
    RunEntrypoints(Initial, prefix, entrypoints);
    var s2 := s1.(options := s1.options.(entrypoints := EntrypointSet(entrypoints)));
    assert PassesThrough(s2) && s2.entries[0].FileBundleEntry?;
  }

  // ---------------------------------------------------------------------------
  // CompileStream

  function StreamRequest(bundle: Option<Stream>, entrypoints: Option<seq<string>>,
                         capabilitiesJson: Option<Stream>): Result<CompileCall, Error>
  {
    if bundle.None? then Failure(ArgumentNull)
    else Success(ByStream(bundle.value,
                          CompilationParameters(true, None, EntrypointSet(entrypoints), None, capabilitiesJson)))
  }

  function StreamCalls(bundle: Option<Stream>, entrypoints: Option<seq<string>>,
                       capabilitiesJson: Option<Stream>): seq<Call>
  {
    [SetAsBundle(true), AddSourceStream(bundle)] + EntrypointCalls(entrypoints)
    + (if capabilitiesJson.Some? then [SetCapabilitiesStream(capabilitiesJson)] else [])
  }

  /** The chain CompileStream and CompileSource share: a fresh configurator
      over `compiler` with the bundle flag set, `bundle` as its one stream
      entry and the entrypoints when given. */
  method StreamChain(compiler: RegoCompiler, bundle: Stream, entrypoints: Option<seq<string>>)
    returns (c: RegoCompilerConfigurator)
    ensures fresh(c) && c.compiler == compiler && c.Valid()
    ensures c.State() == ConfigState(Defaults.(isBundle := true, entrypoints := EntrypointSet(entrypoints)),
                                     None, [StreamBundleEntry(bundle)], 0)
  {
    c := new RegoCompilerConfigurator(compiler);
    assert c.entries == [];
    var o := c.WithAsBundle(true);
    assert c.entries == [];
    o := c.WithSourceStream(Some(bundle));
    assert o.Pass?;
    assert c.entries == [StreamBundleEntry(bundle)] && c.manifest.None?;
    assert c.options == Defaults.(isBundle := true);
    if entrypoints.Some? {
      o := c.WithEntrypoints(entrypoints);
    }
  }

  /** Compiles a bundle stream: the caller's stream is forwarded as it is,
      with the bundle flag set. */
  method CompileStream(compiler: RegoCompiler, bundle: Option<Stream>, entrypoints: Option<seq<string>>,
                       capabilitiesJson: Option<Stream>) returns (r: Result<Artifact, Error>)
    modifies compiler
    ensures var req := StreamRequest(bundle, entrypoints, capabilitiesJson);
      req.Failure? ==> r == Failure(req.error) && compiler.calls == old(compiler.calls)
    ensures var req := StreamRequest(bundle, entrypoints, capabilitiesJson);
      req.Success? ==> compiler.calls == old(compiler.calls) + [req.value] && r == compiler.Answer(req.value)
  {
    var check := ThrowIfNull(bundle);
    if check.Fail? {
      r := Failure(check.error);
      return;
    }
    var c := StreamChain(compiler, bundle.value, entrypoints);
    if capabilitiesJson.Some? {
      var o := c.WithCapabilitiesStream(capabilitiesJson);
    }
    assert c.State() == ConfigState(CompilationParameters(true, None, EntrypointSet(entrypoints), None, capabilitiesJson),
                                    None, [StreamBundleEntry(bundle.value)], 0);
    assert Request(c.State()) == StreamRequest(bundle, entrypoints, capabilitiesJson);
    r := c.CompileAsync();
  }

  lemma CompileStreamIsPipeline(bundle: Option<Stream>, entrypoints: Option<seq<string>>,
                                capabilitiesJson: Option<Stream>)
    requires StreamRequest(bundle, entrypoints, capabilitiesJson).Success?
    ensures Request(Run(Initial, StreamCalls(bundle, entrypoints, capabilitiesJson)))
         == StreamRequest(bundle, entrypoints, capabilitiesJson)
  {
    var prefix := [SetAsBundle(true), AddSourceStream(bundle)];
    var caps := if capabilitiesJson.Some? then [SetCapabilitiesStream(capabilitiesJson)] else [];
    RunBundleThenSource(AddSourceStream(bundle));
    var s2 := Run(Initial, prefix);
    assert s2.entries == [StreamBundleEntry(bundle.value)];
    RunEntrypoints(Initial, prefix, entrypoints);
    var s3 := s2.(options := s2.options.(entrypoints := EntrypointSet(entrypoints)));
    RunOptional(Initial, prefix + EntrypointCalls(entrypoints), caps);
    var s4 := s3.(options := s3.options.(capabilitiesStream := capabilitiesJson));
    assert Run(Initial, prefix + EntrypointCalls(entrypoints) + caps) == s4;
    assert StreamCalls(bundle, entrypoints, capabilitiesJson) == prefix + EntrypointCalls(entrypoints) + caps;
    assert PassesThrough(s4) && s4.entries[0].StreamBundleEntry?;
  }

  // ---------------------------------------------------------------------------
  // CompileSource

  function SourceRequest(source: Option<string>, entrypoints: Option<seq<string>>): Result<CompileCall, Error>
  {
    if ThrowIfNullOrEmpty(source).Fail? then Failure(ThrowIfNullOrEmpty(source).error)
    else Success(ByStream(PolicyBundle(source.value),
                          CompilationParameters(true, None, EntrypointSet(entrypoints), None, None)))
  }

  function SourceCalls(source: string, entrypoints: Option<seq<string>>): seq<Call>
  {
    [SetAsBundle(true), AddSourceStream(Some(PolicyBundle(source)))] + EntrypointCalls(entrypoints)
  }

  /** Writes `source` as the single entry `policy.rego` of a fresh bundle
      without manifest and returns the finished buffer. */
  method PackPolicy(source: string) returns (bundle: Stream)
    ensures bundle == PolicyBundle(source)
  {
    var bw := new BundleWriter(None);
    bw.WriteEntry(source, PolicyFileName);
    bw.Dispose();
    bundle := bw.Buffer();
  }

  /** Compiles policy source text: packs it as the single entry `policy.rego`
      of a fresh bundle and submits that buffer as a bundle stream. */
  method CompileSource(compiler: RegoCompiler, source: Option<string>, entrypoints: Option<seq<string>>)
    returns (r: Result<Artifact, Error>)
    modifies compiler
    ensures var req := SourceRequest(source, entrypoints);
      req.Failure? ==> r == Failure(req.error) && compiler.calls == old(compiler.calls)
    ensures var req := SourceRequest(source, entrypoints);
      req.Success? ==> compiler.calls == old(compiler.calls) + [req.value] && r == compiler.Answer(req.value)
  {
    var check := ThrowIfNullOrEmpty(source);
    if check.Fail? {
      r := Failure(check.error);
      return;
    }
    var bundle := PackPolicy(source.value);
    var c := StreamChain(compiler, bundle, entrypoints);
    assert Request(c.State()) == SourceRequest(source, entrypoints);
    r := c.CompileAsync();
  }

  lemma CompileSourceIsPipeline(source: Option<string>, entrypoints: Option<seq<string>>)
    requires SourceRequest(source, entrypoints).Success?
    ensures Request(Run(Initial, SourceCalls(source.value, entrypoints))) == SourceRequest(source, entrypoints)
  {
    var prefix := [SetAsBundle(true), AddSourceStream(Some(PolicyBundle(source.value)))];
    RunBundleThenSource(AddSourceStream(Some(PolicyBundle(source.value))));
    var s2 := Run(Initial, prefix);
    assert s2.entries == [StreamBundleEntry(PolicyBundle(source.value))];
    RunEntrypoints(Initial, prefix, entrypoints);
    var s3 := s2.(options := s2.options.(entrypoints := EntrypointSet(entrypoints)));
    assert PassesThrough(s3) && s3.entries[0].StreamBundleEntry?;
  }

}

/** The fluent configurator: one mutable object holding the options, the
    optional manifest, the append-only entry list and the synthetic-name
    counter. Every method is proved against the functions of module
    Configuration: it leaves the state `Apply(old(State()), call)` and reports
    `Verdict(old(State()), call)`. */
module Configurator {
  import opened Wrappers
  import opened Bundle
  import opened BundleEntries
  import opened Compilation
  import opened Configuration

  class RegoCompilerConfigurator {
    const compiler: RegoCompiler
    var options: CompilationParameters
    var manifest: Option<BundleManifest>
    var entries: seq<BundleEntry>
    var sourceIndex: nat

    function State(): ConfigState
      reads this
    {
      ConfigState(options, manifest, entries, sourceIndex)
    }

    ghost predicate Valid()
      reads this
    {
      NamedInOrder(entries, sourceIndex)
    }

    constructor (compiler: RegoCompiler)
      ensures this.compiler == compiler
      ensures State() == Initial && Valid()
    {
      this.compiler := compiler;
      options := Defaults;
      manifest := None;
      entries := [];
      sourceIndex := 0;
      new;
      assert SourceNames([]) == [] == NamesBelow(0);
    }

    /** Output bundle revision; any value, null included, is accepted. */
    method WithRevision(revision: Option<string>) returns (r: Outcome<Error>)
      requires Valid()
      modifies this
      ensures Valid() && r == Pass
      ensures State() == old(State()).(options := old(options).(revision := revision))
      ensures State() == Apply(old(State()), SetRevision(revision)) && r == Verdict(old(State()), SetRevision(revision))
    {
      options := options.(revision := revision);
      r := Pass;
    }

    /** The bundle manifest; null is rejected. */
    method WithManifest(manifest: Option<BundleManifest>) returns (r: Outcome<Error>)
      requires Valid()
      modifies this
      ensures Valid()
      ensures r == ThrowIfNull(manifest)
      ensures State() == if r.Pass? then old(State()).(manifest := manifest) else old(State())
      ensures State() == Apply(old(State()), SetManifest(manifest)) && r == Verdict(old(State()), SetManifest(manifest))
    {
      r := ThrowIfNull(manifest);
      if r.Fail? {
        return;
      }
      this.manifest := manifest;
    }

    /** Whether the source is a bundle (the C# default argument is `true`). */
    method WithAsBundle(isBundle: bool) returns (r: Outcome<Error>)
      requires Valid()
      modifies this
      ensures Valid() && r == Pass
      ensures State() == old(State()).(options := old(options).(isBundle := isBundle))
      ensures State() == Apply(old(State()), SetAsBundle(isBundle)) && r == Verdict(old(State()), SetAsBundle(isBundle))
    {
      options := options.(isBundle := isBundle);
      r := Pass;
    }

    /** The entrypoints, from any sequence of names; stored as a set that
        replaces the previous one. */
    method WithEntrypoints(entrypoints: Option<seq<string>>) returns (r: Outcome<Error>)
      requires Valid()
      modifies this
      ensures Valid()
      ensures r == ThrowIfNull(entrypoints)
      ensures State() == if r.Pass? then old(State()).(options := old(options).(entrypoints := Some(ToHashSet(entrypoints.value))))
                         else old(State())
      ensures State() == Apply(old(State()), SetEntrypoints(entrypoints)) && r == Verdict(old(State()), SetEntrypoints(entrypoints))
    {
      r := ThrowIfNull(entrypoints);
      if r.Fail? {
        return;
      }
      options := options.(entrypoints := Some(ToHashSet(entrypoints.value)));
    }

    /** The array overload of WithEntrypoints; it behaves identically. */
    method WithEntrypointsArray(entrypoints: array?<string>) returns (r: Outcome<Error>)
      requires Valid()
      modifies this
      ensures Valid()
      ensures r == if entrypoints == null then Fail(ArgumentNull) else Pass
      ensures State() == if r.Pass? then old(State()).(options := old(options).(entrypoints := Some(ToHashSet(entrypoints[..]))))
                         else old(State())
      ensures var call := SetEntrypoints(if entrypoints == null then None else Some(entrypoints[..]));
              State() == Apply(old(State()), call) && r == Verdict(old(State()), call)
    {
      if entrypoints == null {
        r := Fail(ArgumentNull);
        return;
      }
      r := Pass;
      options := options.(entrypoints := Some(ToHashSet(entrypoints[..])));
    }

    /** The capabilities file path; null and "" are rejected. */
    method WithCapabilitiesFile(path: Option<string>) returns (r: Outcome<Error>)
      requires Valid()
      modifies this
      ensures Valid()
      ensures r == ThrowIfNullOrEmpty(path)
      ensures State() == if r.Pass? then old(State()).(options := old(options).(capabilitiesFilePath := path))
                         else old(State())
      ensures State() == Apply(old(State()), SetCapabilitiesFile(path)) && r == Verdict(old(State()), SetCapabilitiesFile(path))
    {
      r := ThrowIfNullOrEmpty(path);
      if r.Fail? {
        return;
      }
      options := options.(capabilitiesFilePath := path);
    }

    /** The capabilities stream; null is rejected. */
    method WithCapabilitiesStream(stream: Option<Stream>) returns (r: Outcome<Error>)
      requires Valid()
      modifies this
      ensures Valid()
      ensures r == ThrowIfNull(stream)
      ensures State() == if r.Pass? then old(State()).(options := old(options).(capabilitiesStream := stream))
                         else old(State())
      ensures State() == Apply(old(State()), SetCapabilitiesStream(stream)) && r == Verdict(old(State()), SetCapabilitiesStream(stream))
    {
      r := ThrowIfNull(stream);
      if r.Fail? {
        return;
      }
      options := options.(capabilitiesStream := stream);
    }

    /** Appends a file-path entry; null and "" are rejected first. */
    method WithSourcePath(path: Option<string>) returns (r: Outcome<Error>)
      requires Valid()
      modifies this
      ensures Valid()
      ensures r == ThrowIfNullOrEmpty(path)
      ensures State() == if r.Pass? then old(State()).(entries := old(entries) + [FileBundleEntry(path.value)])
                         else old(State())
      ensures State() == Apply(old(State()), AddSourcePath(path)) && r == Verdict(old(State()), AddSourcePath(path))
    {
      ApplySourcePath(State(), path);
      r := ThrowIfNullOrEmpty(path);
      if r.Fail? {
        return;
      }
      ghost var s0 := State();
      entries := entries + [FileBundleEntry(path.value)];
      assert State() == s0.(entries := s0.entries + [FileBundleEntry(path.value)]);
      assert Valid() by {
        SourceNamesAppend(s0.entries, FileBundleEntry(path.value));
      }
    }

    /** Appends a stream entry; null is rejected first. */
    method WithSourceStream(stream: Option<Stream>) returns (r: Outcome<Error>)
      requires Valid()
      modifies this
      ensures Valid()
      ensures r == ThrowIfNull(stream)
      ensures State() == if r.Pass? then old(State()).(entries := old(entries) + [StreamBundleEntry(stream.value)])
                         else old(State())
      ensures State() == Apply(old(State()), AddSourceStream(stream)) && r == Verdict(old(State()), AddSourceStream(stream))
    {
      ApplySourceStream(State(), stream);
      r := ThrowIfNull(stream);
      if r.Fail? {
        return;
      }
      ghost var s0 := State();
      entries := entries + [StreamBundleEntry(stream.value)];
      assert State() == s0.(entries := s0.entries + [StreamBundleEntry(stream.value)]);
      assert Valid() by {
        SourceNamesAppend(s0.entries, StreamBundleEntry(stream.value));
      }
    }

    /** Appends a source-code entry named after the counter, then advances the
        counter; null and "" are rejected first. */
    method WithSourceCode(source: Option<string>) returns (r: Outcome<Error>)
      requires Valid()
      modifies this
      ensures Valid()
      ensures r == ThrowIfNullOrEmpty(source)
      ensures State() == if r.Pass? then old(State()).(entries := old(entries) + [SourceBundleEntry(source.value, SourceName(old(sourceIndex)))],
                                                      sourceIndex := old(sourceIndex) + 1)
                         else old(State())
      ensures State() == Apply(old(State()), AddSourceCode(source)) && r == Verdict(old(State()), AddSourceCode(source))
    {
      ApplySourceCode(State(), source);
      r := ThrowIfNullOrEmpty(source);
      if r.Fail? {
        return;
      }
      ghost var s0 := State();
      entries := entries + [SourceBundleEntry(source.value, SourceName(sourceIndex))];
      sourceIndex := sourceIndex + 1;
      assert State() == s0.(entries := s0.entries + [SourceBundleEntry(source.value, SourceName(s0.sourceIndex))],
                            sourceIndex := s0.sourceIndex + 1);
      assert Valid() by {
        SourceNamesAppend(s0.entries, SourceBundleEntry(source.value, SourceName(s0.sourceIndex)));
        NamesBelowNext(s0.sourceIndex);
      }
    }

    /** Compiles: fails without calling the compiler when there is no source;
        otherwise calls exactly one compile overload, with `Request(old(State()))`,
        and returns its answer. The packaging path writes every entry into a
        fresh writer in insertion order and leaves the bundle flag set. */
    method CompileAsync() returns (r: Result<Artifact, Error>)
      requires Valid()
      modifies this, compiler
      ensures Valid()
      ensures State() == AfterCompile(old(State()))
      ensures Request(old(State())).Failure? ==>
        r == Failure(NoCompilationSources) && compiler.calls == old(compiler.calls)
      ensures Request(old(State())).Success? ==>
        compiler.calls == old(compiler.calls) + [Request(old(State())).value]
        && r == compiler.Answer(Request(old(State())).value)
    {
      ghost var s0 := State();
      if |entries| == 0 {
        r := Failure(NoCompilationSources);
        return;
      }

      if manifest.None? && |entries| == 1 {
        if entries[0].FileBundleEntry? {
          r := compiler.CompileByPath(entries[0].path, options);
          return;
        }
        if entries[0].StreamBundleEntry? {
          r := compiler.CompileByStream(entries[0].stream, options);
          return;
        }
      }

      var bundle := new BundleWriter(manifest);
      var i := 0;
      while i < |entries|
        modifies bundle
        invariant 0 <= i <= |entries|
        invariant !bundle.closed && bundle.manifest == manifest
        invariant bundle.log == RenderAll(entries[..i])
      {
        assert entries[..i + 1][..i] == entries[..i];
        entries[i].WriteTo(bundle);
        i := i + 1;
      }
      assert entries[..i] == entries;
      bundle.Dispose();
      assert Packages(s0);
      assert Request(s0) == Success(ByStream(Packed(s0.manifest, RenderAll(s0.entries)), s0.options.(isBundle := true)));

      var _ := WithAsBundle(true);
      r := compiler.CompileByStream(bundle.Buffer(), options);
    }
  }
}

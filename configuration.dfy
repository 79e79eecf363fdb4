/** The configurator's state and operations as values: what each builder call
    does to the state, and which compiler request the terminal compile issues.
    The class in module Configurator is proved against these functions, and
    the properties of the builder are proved here about them. */
module Configuration {
  import opened Wrappers
  import opened Decimal
  import opened Bundle
  import opened BundleEntries
  import opened Compilation

  /** Options, manifest, the ordered entries, and the synthetic-name counter. */
  datatype ConfigState = ConfigState(
    options: CompilationParameters,
    manifest: Option<BundleManifest>,
    entries: seq<BundleEntry>,
    sourceIndex: nat)

  /** A freshly constructed configurator. */
  const Initial := ConfigState(Defaults, None, [], 0)

  /** One builder call with its (possibly null) argument. */
  datatype Call =
    | SetRevision(revision: Option<string>)
    | SetManifest(manifest: Option<BundleManifest>)
    | SetAsBundle(isBundle: bool)
    | SetEntrypoints(entrypoints: Option<seq<string>>)
    | SetCapabilitiesFile(capabilitiesPath: Option<string>)
    | SetCapabilitiesStream(capabilities: Option<Stream>)
    | AddSourcePath(path: Option<string>)
    | AddSourceStream(stream: Option<Stream>)
    | AddSourceCode(source: Option<string>)
  {
    predicate IsSetter() {
      !AddSourcePath? && !AddSourceStream? && !AddSourceCode?
    }
  }

  // ---------------------------------------------------------------------------
  // Synthetic names of source-code entries

  /** The name the `index`-th source-code entry receives: `src<index>.rego`. */
  function SourceName(index: nat): (name: string)
    ensures |name| > 8 && name[..3] == "src" && name[|name| - 5..] == ".rego"
    ensures AllDigits(name[3..|name| - 5])
  {
    "src" + NatToString(index) + ".rego"
  }

  /** Reads the counter value back out of a synthetic name. */
  function SourceIndexOf(name: string): Option<nat>
  {
    if |name| > 8 && name[..3] == "src" && name[|name| - 5..] == ".rego" && AllDigits(name[3..|name| - 5])
    then Some(StringToNat(name[3..|name| - 5]))
    else None
  }

  lemma SourceIndexOfSourceName(index: nat)
    ensures SourceIndexOf(SourceName(index)) == Some(index)
  {
    var name := SourceName(index);
    assert name[3..|name| - 5] == NatToString(index);
    StringToNatOfNatToString(index);
  }

  /** Distinct counter values give distinct names. */
  lemma SourceNameInjective(i: nat, j: nat)
    ensures SourceName(i) == SourceName(j) ==> i == j
  {
    SourceIndexOfSourceName(i);
    SourceIndexOfSourceName(j);
  }

  /** The names of the source-code entries among `entries`, in order. */
  function SourceNames(entries: seq<BundleEntry>): seq<string>
  {
    if entries == [] then []
    else
      var last := entries[|entries| - 1];
      SourceNames(entries[..|entries| - 1]) + (if last.SourceBundleEntry? then [last.fileName] else [])
  }

  /** `src0.rego`, `src1.rego`, ..., up to but excluding `src<n>.rego`. */
  function NamesBelow(n: nat): seq<string>
  {
    seq(n, i requires 0 <= i => SourceName(i))
  }

  /** The configurator's invariant: the source-code entries are named
      `src0.rego`, `src1.rego`, ... in insertion order, without gaps, and the
      counter is their number. */
  predicate NamedInOrder(entries: seq<BundleEntry>, sourceIndex: nat) {
    SourceNames(entries) == NamesBelow(sourceIndex)
  }

  lemma SourceNamesAppend(entries: seq<BundleEntry>, e: BundleEntry)
    ensures SourceNames(entries + [e]) == SourceNames(entries) + (if e.SourceBundleEntry? then [e.fileName] else [])
  {
    assert (entries + [e])[..|entries|] == entries;
  }

  lemma NamesBelowNext(n: nat)
    ensures NamesBelow(n + 1) == NamesBelow(n) + [SourceName(n)]
  {
  }

  /** No two source-code entries of a configurator share a name. */
  lemma SourceNamesDistinct(s: ConfigState, i: nat, j: nat)
    requires NamedInOrder(s.entries, s.sourceIndex) && i < j < |SourceNames(s.entries)|
    ensures SourceNames(s.entries)[i] != SourceNames(s.entries)[j]
  {
    SourceNameInjective(i, j);
  }

  // ---------------------------------------------------------------------------
  // Builder calls

  /** The effect of one builder call: each argument is checked before anything
      changes, and a rejected call reports the exception instead of a state. */
  function Step(s: ConfigState, c: Call): (r: Result<ConfigState, Error>)
    ensures r.Success? <==> Accepts(c)
    ensures r.Failure? ==> r.error == ArgumentNull || r.error == ArgumentEmpty
    ensures r.Success? && c.IsSetter() ==> r.value.entries == s.entries
    ensures r.Success? && !c.IsSetter() ==> |r.value.entries| == |s.entries| + 1
    ensures r.Success? ==> r.value.sourceIndex == s.sourceIndex + (if c.AddSourceCode? then 1 else 0)
  {
    match c
    case SetRevision(revision) =>
      Success(s.(options := s.options.(revision := revision)))
    case SetManifest(manifest) =>
      if manifest.None? then Failure(ArgumentNull) else Success(s.(manifest := manifest))
    case SetAsBundle(isBundle) =>
      Success(s.(options := s.options.(isBundle := isBundle)))
    case SetEntrypoints(entrypoints) =>
      if entrypoints.None? then Failure(ArgumentNull)
      else Success(s.(options := s.options.(entrypoints := Some(ToHashSet(entrypoints.value)))))
    case SetCapabilitiesFile(path) =>
      if ThrowIfNullOrEmpty(path).Fail? then Failure(ThrowIfNullOrEmpty(path).error)
      else Success(s.(options := s.options.(capabilitiesFilePath := path)))
    case SetCapabilitiesStream(stream) =>
      if stream.None? then Failure(ArgumentNull)
      else Success(s.(options := s.options.(capabilitiesStream := stream)))
    case AddSourcePath(path) =>
      if ThrowIfNullOrEmpty(path).Fail? then Failure(ThrowIfNullOrEmpty(path).error)
      else Success(s.(entries := s.entries + [FileBundleEntry(path.value)]))
    case AddSourceStream(stream) =>
      if stream.None? then Failure(ArgumentNull)
      else Success(s.(entries := s.entries + [StreamBundleEntry(stream.value)]))
    case AddSourceCode(source) =>
      if ThrowIfNullOrEmpty(source).Fail? then Failure(ThrowIfNullOrEmpty(source).error)
      else Success(s.(entries := s.entries + [SourceBundleEntry(source.value, SourceName(s.sourceIndex))],
                      sourceIndex := s.sourceIndex + 1))
  }

  /** What a call reports to its caller: success, or the exception thrown. */
  function Verdict(s: ConfigState, c: Call): Outcome<Error>
  {
    match Step(s, c)
    case Success(_) => Pass
    case Failure(e) => Fail(e)
  }

  /** The state after a call; a rejected call leaves the state as it was. */
  function Apply(s: ConfigState, c: Call): ConfigState
  {
    match Step(s, c)
    case Success(t) => t
    case Failure(_) => s
  }

  /** The state after a sequence of calls on one configurator. */
  function Run(s: ConfigState, calls: seq<Call>): ConfigState
  {
    if calls == [] then s else Apply(Run(s, calls[..|calls| - 1]), calls[|calls| - 1])
  }

  /** Two calls in a row. */
  lemma RunPair(s: ConfigState, c1: Call, c2: Call)
    ensures Run(s, [c1, c2]) == Apply(Apply(s, c1), c2)
  {
    assert [c1, c2] == [c1] + [c2];
    RunOptional(s, [c1], [c2]);
    assert [] + [c1] == [c1];
    RunOptional(s, [], [c1]);
  }

  /** A call made only when its argument is given: `extra` is that call or
      nothing. */
  lemma RunOptional(s: ConfigState, calls: seq<Call>, extra: seq<Call>)
    requires |extra| <= 1
    ensures Run(s, calls + extra) == if extra == [] then Run(s, calls) else Apply(Run(s, calls), extra[0])
  {
    if extra == [] {
      assert calls + extra == calls;
    } else {
      assert (calls + extra)[..|calls|] == calls;
    }
  }

  /** Which arguments each call accepts, independently of the state: only null
      (and, for strings, empty) arguments are rejected, and the revision and
      the bundle flag are not validated at all. */
  predicate Accepts(c: Call) {
    match c
    case SetRevision(_) => true
    case SetAsBundle(_) => true
    case SetManifest(m) => m.Some?
    case SetEntrypoints(e) => e.Some?
    case SetCapabilitiesStream(st) => st.Some?
    case AddSourceStream(st) => st.Some?
    case SetCapabilitiesFile(p) => p.Some? && p.value != ""
    case AddSourcePath(p) => p.Some? && p.value != ""
    case AddSourceCode(src) => src.Some? && src.value != ""
  }

  /** The checked argument of a call is null. */
  predicate NullArgument(c: Call) {
    match c
    case SetRevision(_) => false
    case SetAsBundle(_) => false
    case SetManifest(m) => m.None?
    case SetEntrypoints(e) => e.None?
    case SetCapabilitiesStream(st) => st.None?
    case AddSourceStream(st) => st.None?
    case SetCapabilitiesFile(p) => p.None?
    case AddSourcePath(p) => p.None?
    case AddSourceCode(src) => src.None?
  }

  /** The checked argument of a call is the empty string. */
  predicate EmptyArgument(c: Call) {
    match c
    case SetCapabilitiesFile(p) => p == Some("")
    case AddSourcePath(p) => p == Some("")
    case AddSourceCode(src) => src == Some("")
    case _ => false
  }

  /** Which exception a rejected call throws: `ArgumentNullException` for a
      null argument, `ArgumentException` for an empty string, in any state. */
  lemma VerdictIsArgumentCheck(s: ConfigState, c: Call)
    ensures Verdict(s, c) == Fail(ArgumentNull) <==> NullArgument(c)
    ensures Verdict(s, c) == Fail(ArgumentEmpty) <==> EmptyArgument(c)
  {
  }

  /** The parts of a state. */
  datatype Field =
    | IsBundleField | RevisionField | EntrypointsField | CapabilitiesFileField
    | CapabilitiesStreamField | ManifestField | EntriesField | SourceIndexField

  /** The parts in which two states differ. */
  function Changed(s: ConfigState, t: ConfigState): set<Field>
  {
    (if s.options.isBundle != t.options.isBundle then {IsBundleField} else {})
    + (if s.options.revision != t.options.revision then {RevisionField} else {})
    + (if s.options.entrypoints != t.options.entrypoints then {EntrypointsField} else {})
    + (if s.options.capabilitiesFilePath != t.options.capabilitiesFilePath then {CapabilitiesFileField} else {})
    + (if s.options.capabilitiesStream != t.options.capabilitiesStream then {CapabilitiesStreamField} else {})
    + (if s.manifest != t.manifest then {ManifestField} else {})
    + (if s.entries != t.entries then {EntriesField} else {})
    + (if s.sourceIndex != t.sourceIndex then {SourceIndexField} else {})
  }

  /** The parts a call is allowed to change. */
  function Target(c: Call): set<Field>
  {
    match c
    case SetRevision(_) => {RevisionField}
    case SetManifest(_) => {ManifestField}
    case SetAsBundle(_) => {IsBundleField}
    case SetEntrypoints(_) => {EntrypointsField}
    case SetCapabilitiesFile(_) => {CapabilitiesFileField}
    case SetCapabilitiesStream(_) => {CapabilitiesStreamField}
    case AddSourcePath(_) => {EntriesField}
    case AddSourceStream(_) => {EntriesField}
    case AddSourceCode(_) => {EntriesField, SourceIndexField}
  }

  /** Every call changes at most its own part: a setter one option field or the
      manifest and never the entries; only source code advances the counter. */
  lemma ChangesOnlyTarget(s: ConfigState, c: Call)
    ensures Changed(s, Apply(s, c)) <= Target(c)
  {
  }

  /** A source call that is accepted appends exactly one entry at the end. */
  lemma AddAppendsOne(s: ConfigState, c: Call)
    requires !c.IsSetter() && Accepts(c)
    ensures |Apply(s, c).entries| == |s.entries| + 1
    ensures Apply(s, c).entries[..|s.entries|] == s.entries
  {
  }

  /** For two setters of the same field, the later one wins. */
  lemma LastWriteWins(s: ConfigState, c1: Call, c2: Call)
    requires c1.IsSetter() && Target(c1) == Target(c2) && Accepts(c2)
    ensures Apply(Apply(s, c1), c2) == Apply(s, c2)
  {
  }

  /** Entrypoints have set semantics: the stored value is the set of the given
      names, so duplicates and order do not matter. */
  lemma EntrypointsAreASet(s: ConfigState, xs: seq<string>, ys: seq<string>)
    requires forall x :: x in xs <==> x in ys
    ensures Apply(s, SetEntrypoints(Some(xs))) == Apply(s, SetEntrypoints(Some(ys)))
    ensures Apply(s, SetEntrypoints(Some(xs))).options.entrypoints == Some(set x | x in ys)
  {
    assert ToHashSet(xs) == ToHashSet(ys);
  }

  /** The three calls that add an entry, spelled out: what they report, and
      the state they leave. */
  lemma ApplySourcePath(s: ConfigState, path: Option<string>)
    ensures Verdict(s, AddSourcePath(path)) == ThrowIfNullOrEmpty(path)
    ensures Apply(s, AddSourcePath(path))
         == if ThrowIfNullOrEmpty(path).Pass? then s.(entries := s.entries + [FileBundleEntry(path.value)]) else s
  {
  }

  lemma ApplySourceStream(s: ConfigState, stream: Option<Stream>)
    ensures Verdict(s, AddSourceStream(stream)) == ThrowIfNull(stream)
    ensures Apply(s, AddSourceStream(stream))
         == if stream.Some? then s.(entries := s.entries + [StreamBundleEntry(stream.value)]) else s
  {
  }

  lemma ApplySourceCode(s: ConfigState, source: Option<string>)
    ensures Verdict(s, AddSourceCode(source)) == ThrowIfNullOrEmpty(source)
    ensures Apply(s, AddSourceCode(source))
         == if ThrowIfNullOrEmpty(source).Pass?
            then s.(entries := s.entries + [SourceBundleEntry(source.value, SourceName(s.sourceIndex))],
                    sourceIndex := s.sourceIndex + 1)
            else s
  {
  }

  /** Every call keeps the naming invariant. */
  lemma StepPreservesNaming(s: ConfigState, c: Call)
    requires NamedInOrder(s.entries, s.sourceIndex)
    ensures NamedInOrder(Apply(s, c).entries, Apply(s, c).sourceIndex)
  {
    var t := Apply(s, c);
    if !Accepts(c) || c.IsSetter() {
      assert t.entries == s.entries && t.sourceIndex == s.sourceIndex;
    } else {
      match c
      case AddSourcePath(path) =>
        assert t.entries == s.entries + [FileBundleEntry(path.value)] && t.sourceIndex == s.sourceIndex;
        SourceNamesAppend(s.entries, FileBundleEntry(path.value));
      case AddSourceStream(stream) =>
        assert t.entries == s.entries + [StreamBundleEntry(stream.value)] && t.sourceIndex == s.sourceIndex;
        SourceNamesAppend(s.entries, StreamBundleEntry(stream.value));
      case AddSourceCode(source) =>
        var e := SourceBundleEntry(source.value, SourceName(s.sourceIndex));
        assert t.entries == s.entries + [e] && t.sourceIndex == s.sourceIndex + 1;
        SourceNamesAppend(s.entries, e);
        NamesBelowNext(s.sourceIndex);
    }
  }

  /** The number of accepted source-code calls among `calls`. */
  function CountSourceCode(calls: seq<Call>): nat
  {
    if calls == [] then 0
    else
      var last := calls[|calls| - 1];
      CountSourceCode(calls[..|calls| - 1]) + (if last.AddSourceCode? && Accepts(last) then 1 else 0)
  }

  /** After any sequence of calls on a new configurator, the source-code entries
      are named `src0.rego`, ..., `src<n-1>.rego` in call order, where n is the
      number of accepted source-code calls: path and stream entries and
      rejected calls consume no numbers. */
  lemma {:induction false} RunNamesSources(calls: seq<Call>)
    ensures NamedInOrder(Run(Initial, calls).entries, Run(Initial, calls).sourceIndex)
    ensures Run(Initial, calls).sourceIndex == CountSourceCode(calls)
    ensures SourceNames(Run(Initial, calls).entries) == NamesBelow(CountSourceCode(calls))
  {
    if calls == [] {
      assert SourceNames([]) == [] == NamesBelow(0);
    } else {
      var init := calls[..|calls| - 1];
      RunNamesSources(init);
      StepPreservesNaming(Run(Initial, init), calls[|calls| - 1]);
    }
  }

  /** Builder calls never drop or alter an entry already added. */
  lemma {:induction false} RunKeepsEntries(s: ConfigState, calls: seq<Call>)
    ensures |s.entries| <= |Run(s, calls).entries|
    ensures Run(s, calls).entries[..|s.entries|] == s.entries
  {
    if calls != [] {
      var init := calls[..|calls| - 1];
      RunKeepsEntries(s, init);
      var mid := Run(s, init);
      assert mid.entries[..|s.entries|] == s.entries;
      var t := Apply(mid, calls[|calls| - 1]);
      assert t.entries[..|mid.entries|] == mid.entries;
    }
  }

  // ---------------------------------------------------------------------------
  // Compiling

  /** The single-source pass-through: no manifest, exactly one entry, and that
      entry a file path or a stream. */
  predicate PassesThrough(s: ConfigState) {
    s.manifest.None? && |s.entries| == 1 && !s.entries[0].SourceBundleEntry?
  }

  /** Everything else with at least one entry is packaged into a bundle. */
  predicate Packages(s: ConfigState) {
    |s.entries| > 0 && !PassesThrough(s)
  }

  /** The one compiler call the terminal compile issues, or the exception it
      raises before calling anything. */
  function Request(s: ConfigState): (r: Result<CompileCall, Error>)
    ensures r.Failure? <==> |s.entries| == 0
    ensures r.Failure? ==> r.error == NoCompilationSources
    ensures r.Success? && r.value.ByPath? ==> PassesThrough(s)
    ensures Packages(s) ==> r.Success? && r.value.ByStream? && r.value.parameters.isBundle
  {
    if |s.entries| == 0 then Failure(NoCompilationSources)
    else if PassesThrough(s) then
      if s.entries[0].FileBundleEntry? then Success(ByPath(s.entries[0].path, s.options))
      else Success(ByStream(s.entries[0].stream, s.options))
    else
      Success(ByStream(Packed(s.manifest, RenderAll(s.entries)), s.options.(isBundle := true)))
  }

  /** The configurator's state after the terminal compile: packaging leaves the
      bundle flag set for good. */
  function AfterCompile(s: ConfigState): (t: ConfigState)
    ensures Changed(s, t) <= {IsBundleField}
    ensures t.options.isBundle == (s.options.isBundle || Packages(s))
  {
    if Packages(s) then s.(options := s.options.(isBundle := true)) else s
  }

  /** Compiling fails exactly when no source was added. */
  /** The number of accepted source calls among `calls`, of any kind. */
  function CountSources(calls: seq<Call>): nat
  {
    if calls == [] then 0
    else
      var last := calls[|calls| - 1];
      CountSources(calls[..|calls| - 1]) + (if !last.IsSetter() && Accepts(last) then 1 else 0)
  }

  /** Every accepted source call adds one entry, and nothing else adds one. */
  lemma {:induction false} RunCountsEntries(s: ConfigState, calls: seq<Call>)
    ensures |Run(s, calls).entries| == |s.entries| + CountSources(calls)
  {
    if calls != [] {
      RunCountsEntries(s, calls[..|calls| - 1]);
    }
  }

  /** On a configurator built by any sequence of calls, the compile fails
      exactly when none of them was an accepted source call, and it then
      leaves the configurator as it was. */
  lemma NoSourcesFails(calls: seq<Call>)
    ensures Request(Run(Initial, calls)).Failure? <==> CountSources(calls) == 0
    ensures CountSources(calls) == 0 ==> AfterCompile(Run(Initial, calls)) == Run(Initial, calls)
  {
    RunCountsEntries(Initial, calls);
  }

  /** The path overload is called exactly when no manifest is set and the only
      entry is a file, and then with that path and the options as they stand. */
  lemma PassThroughByPath(s: ConfigState)
    ensures (Request(s).Success? && Request(s).value.ByPath?)
        <==> s.manifest.None? && |s.entries| == 1 && s.entries[0].FileBundleEntry?
    ensures Request(s).Success? && Request(s).value.ByPath? ==>
      Request(s).value == ByPath(s.entries[0].path, s.options) && AfterCompile(s) == s
  {
  }

  /** A single stream entry without a manifest is forwarded unchanged, with the
      options unmodified. */
  lemma PassThroughByStream(s: ConfigState)
    requires PassesThrough(s) && s.entries[0].StreamBundleEntry?
    ensures Request(s) == Success(ByStream(s.entries[0].stream, s.options))
    ensures AfterCompile(s) == s
  {
  }

  /** Packaging happens exactly when there is a manifest, two or more entries,
      or a single source-code entry. */
  lemma PackagingCases(s: ConfigState)
    ensures Packages(s) <==>
      |s.entries| > 0 && (s.manifest.Some? || |s.entries| >= 2 || s.entries[0].SourceBundleEntry?)
  {
  }

  /** Packaging hands the stream overload a buffer seeded with the manifest
      that holds one write per entry, in insertion order, and forces the
      bundle flag, in the request and in the configurator's options. */
  lemma PackagingRequest(s: ConfigState)
    requires Packages(s)
    ensures Request(s).Success? && Request(s).value.ByStream?
    ensures Request(s).value.stream == Packed(s.manifest, RenderAll(s.entries))
    ensures Unpack(Request(s).value.stream.ops) == s.entries
    ensures Request(s).value.parameters == s.options.(isBundle := true)
    ensures AfterCompile(s).options.isBundle
  {
    assert !PassesThrough(s);
    assert Request(s) == Success(ByStream(Packed(s.manifest, RenderAll(s.entries)), s.options.(isBundle := true)));
    UnpackRenderAll(s.entries);
  }

  /** Compiling again after a compile issues the same request and changes
      nothing further: the forced bundle flag persists. */
  lemma RecompileIsStable(s: ConfigState)
    requires NamedInOrder(s.entries, s.sourceIndex)
    ensures NamedInOrder(AfterCompile(s).entries, AfterCompile(s).sourceIndex)
    ensures Request(AfterCompile(s)) == Request(s)
    ensures AfterCompile(AfterCompile(s)) == AfterCompile(s)
  {
  }

  // ---------------------------------------------------------------------------
  // Scenarios

  /** Two source-code entries and no manifest: a bundle with `src0.rego` and
      `src1.rego`, in that order, compiled as a bundle. */
  lemma TwoSourcesScenario()
    ensures Request(Run(Initial, [AddSourceCode(Some("package a")), AddSourceCode(Some("package b"))]))
         == Success(ByStream(Packed(None, [WriteEntry("package a", "src0.rego"), WriteEntry("package b", "src1.rego")]),
                             Defaults.(isBundle := true)))
  {
    var a, b := SourceBundleEntry("package a", "src0.rego"), SourceBundleEntry("package b", "src1.rego");
    var s := Run(Initial, [AddSourceCode(Some("package a")), AddSourceCode(Some("package b"))]);
    TwoSourcesRun();
    PackagingRequest(s);
    assert a.AsWriteOp() == WriteEntry("package a", "src0.rego") && b.AsWriteOp() == WriteEntry("package b", "src1.rego");
    assert RenderAll([a, b]) == [a.AsWriteOp(), b.AsWriteOp()];
  }

  /** The state the two source-code calls leave behind. */
  lemma TwoSourcesRun()
    ensures Run(Initial, [AddSourceCode(Some("package a")), AddSourceCode(Some("package b"))])
         == Initial.(entries := [SourceBundleEntry("package a", "src0.rego"), SourceBundleEntry("package b", "src1.rego")],
                     sourceIndex := 2)
  {
    var c1, c2 := AddSourceCode(Some("package a")), AddSourceCode(Some("package b"));
    RunPair(Initial, c1, c2);
    FirstSourceNames();
    ApplySourceCode(Initial, Some("package a"));
    ApplySourceCode(Apply(Initial, c1), Some("package b"));
  }

  /** The first two synthetic names. */
  lemma FirstSourceNames()
    ensures SourceName(0) == "src0.rego" && SourceName(1) == "src1.rego"
  {
  }

  /** A single path and no manifest: the path overload gets the path verbatim. */
  lemma SinglePathScenario()
    ensures Request(Run(Initial, [AddSourcePath(Some("p.rego"))])) == Success(ByPath("p.rego", Defaults))
  {
    var calls := [AddSourcePath(Some("p.rego"))];
    assert calls[..0] == [];
  }

  /** A manifest forces packaging even for a single path. */
  lemma ManifestScenario(m: BundleManifest)
    ensures Request(Run(Initial, [SetManifest(Some(m)), AddSourcePath(Some("p.rego"))]))
         == Success(ByStream(Packed(Some(m), [WriteFile("p.rego")]), Defaults.(isBundle := true)))
  {
    var calls := [SetManifest(Some(m)), AddSourcePath(Some("p.rego"))];
    assert calls[..1] == [SetManifest(Some(m))];
    assert calls[..1][..0] == [];
    assert Run(Initial, []) == Initial;
    var s1 := Run(Initial, calls[..1]);
    assert s1 == Apply(Initial, SetManifest(Some(m)));
    assert s1 == Initial.(manifest := Some(m));
    var s := Run(Initial, calls);
    assert s == Apply(s1, AddSourcePath(Some("p.rego")));
    assert s.entries == [FileBundleEntry("p.rego")];
    assert s.entries[..0] == [];
    assert RenderAll(s.entries) == [WriteFile("p.rego")];
  }
}

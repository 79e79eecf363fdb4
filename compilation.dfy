/** What the configurator hands to the external policy compiler: the compilation
    parameters, the two compile overloads as a recorded call, and the argument
    checks the builder performs before it changes anything. */
module Compilation {
  import opened Wrappers
  import opened Bundle

  /** The exceptions the core raises or propagates: ArgumentNullException,
      ArgumentException (empty string), RegoCompilationException (no sources),
      and any fault of the external compiler. */
  datatype Error = ArgumentNull | ArgumentEmpty | NoCompilationSources | CompilerFault

  /** The parameters threaded through to the compiler, updated copy-on-write. */
  datatype CompilationParameters = CompilationParameters(
    isBundle: bool,
    revision: Option<string>,
    entrypoints: Option<set<string>>,
    capabilitiesFilePath: Option<string>,
    capabilitiesStream: Option<Stream>)

  /** `new CompilationParameters()`: not a bundle, every reference null. */
  const Defaults := CompilationParameters(false, None, None, None, None)

  /** One invocation of a compile overload of the external compiler. */
  datatype CompileCall =
    | ByPath(path: string, parameters: CompilationParameters)
    | ByStream(stream: Stream, parameters: CompilationParameters)

  /** The compiled artifact stream; opaque, so it is identified with the request
      it answers. */
  datatype Artifact = Artifact(request: CompileCall)

  /** The external compiler as a recording stub: every call is logged, and the
      answer is either the artifact for that call or, for a faulty compiler,
      a fault that the core passes on unchanged. */
  class RegoCompiler {
    var calls: seq<CompileCall>
    const failing: bool

    constructor (failing: bool)
      ensures calls == [] && this.failing == failing
    {
      calls := [];
      this.failing := failing;
    }

    function Answer(call: CompileCall): (r: Result<Artifact, Error>)
    {
      if failing then Failure(CompilerFault) else Success(Artifact(call))
    }

    /** `Compile(string path, CompilationParameters, CancellationToken)`. */
    method CompileByPath(path: string, parameters: CompilationParameters) returns (r: Result<Artifact, Error>)
      modifies this
      ensures calls == old(calls) + [ByPath(path, parameters)]
      ensures r == Answer(ByPath(path, parameters))
    {
      calls := calls + [ByPath(path, parameters)];
      r := Answer(ByPath(path, parameters));
    }

    /** `Compile(Stream stream, CompilationParameters, CancellationToken)`. */
    method CompileByStream(stream: Stream, parameters: CompilationParameters) returns (r: Result<Artifact, Error>)
      modifies this
      ensures calls == old(calls) + [ByStream(stream, parameters)]
      ensures r == Answer(ByStream(stream, parameters))
    {
      calls := calls + [ByStream(stream, parameters)];
      r := Answer(ByStream(stream, parameters));
    }
  }

  /** `ArgumentNullException.ThrowIfNull`. */
  function ThrowIfNull<T>(x: Option<T>): Outcome<Error>
  {
    if x.None? then Fail(ArgumentNull) else Pass
  }

  /** `ArgumentException.ThrowIfNullOrEmpty`: null and "" are told apart. */
  function ThrowIfNullOrEmpty(s: Option<string>): Outcome<Error>
  {
    if s.None? then Fail(ArgumentNull) else if s.value == "" then Fail(ArgumentEmpty) else Pass
  }

  /** `ToHashSet`: duplicates collapse, order is forgotten. */
  function ToHashSet(xs: seq<string>): set<string>
  {
    set x | x in xs
  }

  /** Adding a name that is already present changes nothing. */
  lemma ToHashSetDuplicate(xs: seq<string>, x: string)
    requires x in xs
    ensures ToHashSet(xs + [x]) == ToHashSet(xs)
  {
  }

  /** Concatenating lists unites their sets. */
  lemma ToHashSetAppend(xs: seq<string>, ys: seq<string>)
    ensures ToHashSet(xs + ys) == ToHashSet(xs) + ToHashSet(ys)
  {
  }

  /** The set never holds more names than the list it came from. */
  lemma {:induction false} ToHashSetBound(xs: seq<string>)
    ensures |ToHashSet(xs)| <= |xs|
  {
    if xs != [] {
      var init := xs[..|xs| - 1];
      assert xs == init + [xs[|xs| - 1]];
      ToHashSetAppend(init, [xs[|xs| - 1]]);
      assert ToHashSet([xs[|xs| - 1]]) == {xs[|xs| - 1]};
      ToHashSetBound(init);
    }
  }
}

/** The three kinds of source entry a configurator collects. Each renders itself
    into a BundleWriter as exactly one write operation. The accessors `Path`,
    `Stream` and `Source` of the C# classes are the destructors `path`, `stream`
    and `source`. */
module BundleEntries {
  import opened Bundle

  datatype BundleEntry =
    | FileBundleEntry(path: string)
    | StreamBundleEntry(stream: Stream)
    | SourceBundleEntry(source: string, fileName: string)
  {
    /** The single writer operation this entry performs; a stream entry is
        always written as a whole bundle. */
    function AsWriteOp(): (op: WriteOp)
      ensures FileBundleEntry? <==> op.WriteFile?
      ensures StreamBundleEntry? <==> op.WriteBundle?
      ensures SourceBundleEntry? <==> op.WriteEntry?
    {
      match this
      case FileBundleEntry(p) => WriteFile(p)
      case StreamBundleEntry(s) => WriteBundle(s)
      case SourceBundleEntry(src, name) => WriteEntry(src, name)
    }

    /** Renders the entry into `bundle`: one operation appended, nothing else
        touched (the entry neither reads nor disposes a stream it holds). */
    method WriteTo(bundle: BundleWriter)
      requires !bundle.closed
      modifies bundle
      ensures !bundle.closed && bundle.log == old(bundle.log) + [AsWriteOp()]
    {
      match this
      case FileBundleEntry(p) => bundle.WriteFile(p);
      case StreamBundleEntry(s) => bundle.WriteBundle(s);
      case SourceBundleEntry(src, name) => bundle.WriteEntry(src, name);
    }
  }

  /** Reading one operation back as the entry that produced it. */
  function FromWriteOp(op: WriteOp): (e: BundleEntry)
    ensures e.AsWriteOp() == op
  {
    match op
    case WriteFile(p) => FileBundleEntry(p)
    case WriteBundle(s) => StreamBundleEntry(s)
    case WriteEntry(src, name) => SourceBundleEntry(src, name)
  }

  /** Rendering loses nothing: the entry can be read back from its operation. */
  lemma FromWriteOpOfAsWriteOp(e: BundleEntry)
    ensures FromWriteOp(e.AsWriteOp()) == e
  {
  }

  /** The operations that rendering `entries` one after another performs. */
  function RenderAll(entries: seq<BundleEntry>): (ops: seq<WriteOp>)
    ensures |ops| == |entries|
    ensures forall k :: 0 <= k < |entries| ==> ops[k] == entries[k].AsWriteOp()
  {
    if entries == [] then []
    else RenderAll(entries[..|entries| - 1]) + [entries[|entries| - 1].AsWriteOp()]
  }

  /** Reading a sequence of operations back as entries. */
  function Unpack(ops: seq<WriteOp>): seq<BundleEntry>
  {
    if ops == [] then [] else Unpack(ops[..|ops| - 1]) + [FromWriteOp(ops[|ops| - 1])]
  }

  /** Unpacking what was rendered gives back exactly the entries, in order. */
  lemma {:induction false} UnpackRenderAll(entries: seq<BundleEntry>)
    ensures Unpack(RenderAll(entries)) == entries
  {
    if entries != [] {
      var init := entries[..|entries| - 1];
      var ops := RenderAll(entries);
      assert ops[..|ops| - 1] == RenderAll(init);
      UnpackRenderAll(init);
    }
  }
}

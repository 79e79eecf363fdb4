/** The archive writer the entries render themselves into. Only its protocol is
    modelled: an append-only log of write operations, the manifest it was created
    with, and whether it has been finalised. The tar and gzip framing, path
    normalisation and manifest serialisation are not part of this model. */
module Bundle {
  import opened Wrappers

  /** Bundle-level metadata. The packaging layer stores and forwards a manifest
      without looking inside, so only its identity is kept. */
  datatype BundleManifest = BundleManifest(id: nat)

  /** A byte stream. A caller's stream is an opaque identity; a buffer the core
      packed itself is represented by what was written into it. */
  datatype Stream =
    | External(id: nat)
    | Packed(manifest: Option<BundleManifest>, ops: seq<WriteOp>)

  /** One call on the writer. */
  datatype WriteOp =
    | WriteFile(path: string)
    | WriteEntry(content: string, name: string)
    | WriteBundle(bundle: Stream)

  class BundleWriter {
    const manifest: Option<BundleManifest>
    var log: seq<WriteOp>
    var closed: bool

    /** A writer over a fresh in-memory buffer, optionally seeded with a manifest. */
    constructor (manifest: Option<BundleManifest>)
      ensures this.manifest == manifest && log == [] && !closed
    {
      this.manifest := manifest;
      log := [];
      closed := false;
    }

    /** Appends the file found at `path`. */
    method WriteFile(path: string)
      requires !closed
      modifies this
      ensures !closed && log == old(log) + [WriteOp.WriteFile(path)]
    {
      log := log + [WriteOp.WriteFile(path)];
    }

    /** Appends literal `content` under the entry name `name`. */
    method WriteEntry(content: string, name: string)
      requires !closed
      modifies this
      ensures !closed && log == old(log) + [WriteOp.WriteEntry(content, name)]
    {
      log := log + [WriteOp.WriteEntry(content, name)];
    }

    /** Splices in every entry of an already-built bundle. */
    method WriteBundle(bundle: Stream)
      requires !closed
      modifies this
      ensures !closed && log == old(log) + [WriteOp.WriteBundle(bundle)]
    {
      log := log + [WriteOp.WriteBundle(bundle)];
    }

    /** Finalises the archive; nothing may be written afterwards. */
    method Dispose()
      modifies this
      ensures closed && log == old(log)
    {
      closed := true;
    }

    /** The finished buffer: the manifest together with every write, in order. */
    function Buffer(): Stream
      reads this
      requires closed
    {
      Packed(manifest, log)
    }
  }
}

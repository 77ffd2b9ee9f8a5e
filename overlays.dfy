/**
 * The overlay entity. Its class lives in layman/overlays/overlay.py, which is
 * not part of this model: what the catalog and the API read from it is the
 * record below, and the renderings and classifications it computes are a
 * pluggable `Views` value.
 */
module Overlays {

  /** One sync endpoint: `type` (svn, rsync, git, ...) and the URI `src`. */
  datatype Source = Source(kind: string, src: string)

  datatype OverlayRecord = OverlayRecord(
    name: string,
    description: string,
    homepage: string,
    ownerName: string,
    ownerEmail: string,
    priority: int,
    quality: string,
    status: string,
    sources: seq<Source>)

  /**
   * An overlay as constructed from an XML element or a dict: the constructor
   * rejects an entry without a source, so `sources[0]`, the primary source,
   * always exists. Later sources are fallbacks.
   */
  type Overlay = o: OverlayRecord | |o.sources| > 0
    witness OverlayRecord("", "", "", "", "", 0, "", "", [Source("", "")])

  /** `source_uris()`: the URIs of all sources, in declared order. */
  function SourceUris(o: Overlay): seq<string>
  {
    seq(|o.sources|, i requires 0 <= i < |o.sources| => o.sources[i].src)
  }

  /** The set of all source URIs, `set(e.src for e in o.sources)`. */
  function SourceSet(o: Overlay): set<string>
  {
    set s | s in o.sources :: s.src
  }

  /**
   * What overlay.py computes from an overlay and this core only passes on:
   * `get_infostr()`, `short_list(width)`, `__str__()`, `is_official()` and
   * `is_supported()`.
   */
  datatype Views = Views(
    infoStr: Overlay -> string,
    shortList: (Overlay, int) -> string,
    str: Overlay -> string,
    isOfficial: Overlay -> bool,
    isSupported: Overlay -> bool)
}

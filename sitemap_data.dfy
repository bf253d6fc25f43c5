/**
 * The records that flow through the sitemap pipeline: the URL objects a
 * producer resolves, the path data it emits for one candidate, and the link
 * records (one per language variant) that the batch buffers and the sitemap
 * writer serialises.
 */
module SitemapData {
  import opened Wrappers
  import opened Php

  /** Per-bundle or per-entity sitemap settings such as index, priority, changefreq, include_images. */
  type Settings = map<string, Value>

  /** The value stored under a key, or NULL when the key is missing (PHP `$settings[$key]`). */
  function Setting(s: Settings, key: string): Value {
    if key in s then s[key] else Null
  }

  /**
   * A Drupal Url object as far as the producers look into it: whether it is
   * routed, its internal path, an opaque target that the URL and access
   * collaborators interpret, and the 'absolute' option.
   */
  datatype UrlObject = UrlObject(routed: bool, internalPath: string, target: string, absolute: bool)

  /** A configured language: its langcode and whether it is the site default. */
  datatype Language = Language(id: string, isDefault: bool)

  /** Alternate URLs of one path, keyed by langcode, in insertion order. */
  type AltMap = OrderedMap<string, string>

  /** The 'url' entry of path data: a Url object, or an already rendered URL string. */
  datatype UrlField = UrlObj(obj: UrlObject) | UrlString(s: string)

  /** meta.entity_info: originating entity type, id and (for the entity producer) bundle. */
  datatype EntityInfo = EntityInfo(entityType: string, id: nat, bundle: Option<string>)

  /** 'meta': data for hooks, never serialised. */
  datatype Meta = Meta(path: string, entityInfo: Option<EntityInfo>)

  /**
   * The array a producer's processDataSet returns for one candidate. NULL
   * priority/changefreq mean "not set"; `langcode` and `alternates` are only
   * ever present in arbitrary links supplied by other modules.
   */
  datatype PathData = PathData(
    url: UrlField,
    lastmod: Option<string>,
    priority: Value,
    changefreq: Value,
    images: seq<string>,
    context: string,
    meta: Option<Meta>,
    langcode: Option<string>,
    alternates: Option<AltMap>)

  /** One buffered batch result: a language variant (or a raw arbitrary link) ready for the writer. */
  datatype Link = Link(
    loc: string,
    langcode: Option<string>,
    alternates: Option<AltMap>,
    lastmod: Option<string>,
    priority: Value,
    changefreq: Value,
    images: seq<string>,
    context: string,
    meta: Option<Meta>)
}

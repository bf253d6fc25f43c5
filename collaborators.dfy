/**
 * The collaborators the URL producers consult and that sit outside the
 * sitemap pipeline: the entity store, the menu tree, the plugin registry,
 * the language manager, URL rendering, access checks, image lookup and the
 * settings lookups. Each is an uninterpreted value or function of `Env`.
 */
module Collaborators {
  import opened Wrappers
  import opened Php
  import opened SitemapData

  /** A stored entity, as loaded from its storage. */
  datatype Entity = Entity(
    id: nat,
    entityType: string,
    bundle: string,
    status: int,
    url: UrlObject,
    lastmod: Option<string>)   // date_iso8601 of getChangedTime(), if the entity has one

  /** The entity type's key names; an empty name means the type has no such key. */
  datatype EntityKeys = EntityKeys(id: string, bundle: string, status: string)

  /** A menu link plugin instance: enabled flag, Url object, metadata entity_id, menu name. */
  datatype MenuLink = MenuLink(enabled: bool, url: UrlObject, entityId: Option<nat>, menuName: string)

  /** A menu tree element with its link and its child elements. */
  datatype MenuTreeItem = MenuTreeItem(link: MenuLink, subtree: seq<MenuTreeItem>)

  /** A URL generator plugin definition; "" stands for no overrides_entity_type setting. */
  datatype PluginDef = PluginDef(id: string, enabled: bool, overridesEntityType: string)

  /** What getEntityFromUrlObject resolves a Url to. */
  datatype UrlEntity =
    | NoEntity
    | UrlEntity(isContentEntity: bool, entityType: string, id: nat, translationLanguages: seq<Language>,
                lastmod: Option<string>)   // date_iso8601 of getChangedTime(), if the entity has one

  /** The environment a URL generator runs in. */
  datatype Env = Env(
    languages: seq<Language>,                           // LanguageManager::getLanguages()
    defaultLanguage: string,                            // the default langcode
    globalBaseUrl: string,                              // $GLOBALS['base_url']
    sitemapContexts: seq<string>,                       // Simplesitemap::getSitemapContexts()
    anonAccess: UrlObject -> bool,                      // $url_object->access($anonUser)
    translationAccess: (UrlObject, string) -> bool,     // getTranslation($langcode)->access('view', $anonUser)
    render: (UrlObject, string) -> string,              // toString() with the 'language' option set
    entityFromUrl: UrlObject -> UrlEntity,              // EntityHelper::getEntityFromUrlObject
    imageUrls: (string, nat) -> seq<string>,            // EntityHelper::getEntityImageUrls
    bundleSettingsOf: string -> OrderedMap<string, OrderedMap<string, Settings>>,  // getBundleSettings($context)
    bundleSettings: (string, string, string) -> Option<Settings>,  // getBundleSettings($context, $type, $bundle)
    instanceSettings: (string, string, nat) -> Option<Settings>,   // getEntityInstanceSettings($context, $type, $id)
    supportedTypes: OrderedMap<string, EntityKeys>,     // EntityHelper::getSupportedEntityTypes() with their keys
    pluginDefinitions: seq<PluginDef>,                  // UrlGeneratorManager::getDefinitions()
    storage: string -> seq<Entity>,                     // all entities of a type, in storage order
    menuTree: string -> seq<MenuTreeItem>,              // the loaded, index-sorted menu tree
    arbitraryLinks: seq<PathData>)                      // links collected by hook_simple_sitemap_arbitrary_links_alter
}

/**
 * The menu link producer (src/Plugin/simple_sitemap/UrlGenerator/
 * EntityMenuLinkContentUrlGenerator.php): one data set per indexed menu,
 * the links of that menu's tree, and the path data of one link.
 */
module MenuUrlGenerator {
  import opened Wrappers
  import opened Php
  import opened SitemapData
  import opened Collaborators
  import opened BatchContext
  import opened UrlGeneratorBase

  /** The entity type whose bundles are the menus. */
  const MENU_LINK_CONTENT := "menu_link_content"

  // ---------------------------------------------------------------------
  // getDataSets

  /** The names of the menus whose 'index' setting is truthy, in settings order. */
  function IndexedMenus(menus: OrderedMap<string, Settings>): seq<string> {
    if menus == [] then []
    else
      var (name, settings) := menus[|menus| - 1];
      IndexedMenus(menus[..|menus| - 1]) + (if Truthy(Setting(settings, "index")) then [name] else [])
  }

  /** getDataSets(): the indexed menus among the menu_link_content bundle settings of the context. */
  function DataSets(env: Env, context: string): seq<string> {
    IndexedMenus(Lookup(env.bundleSettingsOf(context), MENU_LINK_CONTENT).GetOr([]))
  }

  method GetDataSets(env: Env, context: string) returns (names: seq<string>)
    ensures names == DataSets(env, context)
  {
    names := [];
    var menus := Lookup(env.bundleSettingsOf(context), MENU_LINK_CONTENT);
    if menus.Some? && menus.value != [] {
      var ms := menus.value;
      for i := 0 to |ms|
        invariant names == IndexedMenus(ms[..i])
      {
        assert ms[..i + 1][..i] == ms[..i];
        var (name, settings) := ms[i];
        if Truthy(Setting(settings, "index")) {
          names := names + [name];
        }
      }
      assert ms[..|ms|] == ms;
    }
  }

  /** A name is returned exactly when some menu of that name has a truthy index setting. */
  lemma {:induction false} IndexedMenusMembers(menus: OrderedMap<string, Settings>)
    ensures forall name :: name in IndexedMenus(menus) <==>
      exists i :: 0 <= i < |menus| && menus[i].0 == name && Truthy(Setting(menus[i].1, "index"))
    ensures |IndexedMenus(menus)| <= |menus|
  {
    if menus != [] {
      var init := menus[..|menus| - 1];
      IndexedMenusMembers(init);
      forall i | 0 <= i < |init| ensures init[i] == menus[i] {
      }
    }
  }

  // ---------------------------------------------------------------------
  // processDataSet

  /** `empty($meta_data['entity_id'])`: no entity id, or id 0. */
  predicate NoEntityId(link: MenuLink) {
    link.entityId.None? || link.entityId.value == 0
  }

  /**
   * The settings a link is judged by: the menu's bundle settings for a link
   * without an entity id, else the menu_link_content entity's instance
   * settings.
   */
  function LinkSettings(env: Env, context: string, link: MenuLink): Option<Settings> {
    if NoEntityId(link) then env.bundleSettings(context, MENU_LINK_CONTENT, link.menuName)
    else env.instanceSettings(context, MENU_LINK_CONTENT, link.entityId.value)
  }

  /** The path data of a link that passed the checks; the entity behind the URL contributes what it has. */
  function LinkPathData(env: Env, s: BatchSettings, context: string, link: MenuLink, settings: Settings): PathData {
    var url := link.url.(absolute := true);
    var entity := env.entityFromUrl(url);
    PathData(
      UrlObj(url),
      if entity.UrlEntity? then entity.lastmod else None,
      Setting(settings, "priority"),
      if !Empty(Setting(settings, "changefreq")) then Setting(settings, "changefreq") else Null,
      if !Empty(Setting(settings, "include_images")) && entity.UrlEntity? then ImagesOf(env, s, entity.entityType, entity.id) else [],
      context,
      Some(Meta(link.url.internalPath, if entity.UrlEntity? then Some(EntityInfo(entity.entityType, entity.id, None)) else None)),
      None,
      None)
  }

  /**
   * processDataSet(): a disabled link and a link whose URL is not routed are
   * skipped; a link with an entity id is skipped when its instance settings
   * are missing or have an empty index; a link without one is taken on
   * its menu's settings, whatever they say about indexing; then the
   * duplicate checks run on the internal path.
   */
  function ProcessSpec(b: BatchState, env: Env, s: BatchSettings, context: string, link: MenuLink): (BatchState, Option<PathData>) {
    var settings := LinkSettings(env, context, link);
    if !link.enabled || !link.url.routed then (b, None)
    else if !NoEntityId(link) && (settings.None? || Empty(Setting(settings.value, "index"))) then (b, None)
    else
      var (b', duplicate) := DedupSpec(b, s, context, link.url.internalPath);
      if duplicate then (b', None) else (b', Some(LinkPathData(env, s, context, link, settings.GetOr(map[]))))
  }

  method ProcessDataSet(batch: Batch, env: Env, s: BatchSettings, context: string, link: MenuLink) returns (r: Option<PathData>)
    modifies batch
    ensures (batch.State(), r) == ProcessSpec(old(batch.State()), env, s, context, link)
  {
    if !link.enabled {
      return None;
    }
    var url := link.url;
    if !url.routed {
      return None;
    }
    var settings: Option<Settings>;
    if NoEntityId(link) {
      settings := env.bundleSettings(context, MENU_LINK_CONTENT, link.menuName);
    } else {
      settings := env.instanceSettings(context, MENU_LINK_CONTENT, link.entityId.value);
      if settings.None? || Empty(Setting(settings.value, "index")) {
        return None;
      }
    }
    var path := url.internalPath;
    var duplicate := Dedup(batch, s, context, path);
    if duplicate {
      return None;
    }
    url := url.(absolute := true);
    var entity := env.entityFromUrl(url);
    var st := settings.GetOr(map[]);
    var images: seq<string> := [];
    if !Empty(Setting(st, "include_images")) && entity.UrlEntity? {
      images := GetImages(env, s, entity.entityType, entity.id);
      assert images == ImagesOf(env, s, entity.entityType, entity.id);
    }
    var meta := Meta(path, None);
    if entity.UrlEntity? {
      meta := meta.(entityInfo := Some(EntityInfo(entity.entityType, entity.id, None)));
    }
    var changefreq := Setting(st, "changefreq");
    r := Some(PathData(
      UrlObj(url),
      if entity.UrlEntity? then entity.lastmod else None,
      Setting(st, "priority"),
      if !Empty(changefreq) then changefreq else Null,
      images,
      context,
      Some(meta),
      None,
      None));
  }

  /**
   * A link yields path data exactly when it is enabled, routed, indexed by
   * its entity's instance settings if it has an entity id, and not a
   * duplicate; the menu's own index setting is never consulted. The checks
   * before the duplicate checks leave the batch as it was. The path data
   * points at the link's URL made absolute, records the path, and records an
   * entity (without bundle) and its change time exactly when the URL
   * resolves to one. It carries the priority of the settings the link was
   * judged by (NULL when unset or when the menu has no settings), their
   * changefreq when it is not empty (else NULL), the entity's images when
   * include_images is set and there is an entity (else none), and no
   * langcode or alternate map.
   */
  lemma ProcessMeaning(b: BatchState, env: Env, s: BatchSettings, context: string, link: MenuLink)
    ensures var (b', r) := ProcessSpec(b, env, s, context, link);
      var settings := LinkSettings(env, context, link);
      var passes := link.enabled && link.url.routed
        && (NoEntityId(link) || (settings.Some? && !Empty(Setting(settings.value, "index"))));
      var entity := env.entityFromUrl(link.url.(absolute := true));
      && (r.Some? <==> passes && !DedupSpec(b, s, context, link.url.internalPath).1)
      && (!passes ==> b' == b)
      && (passes ==> b' == DedupSpec(b, s, context, link.url.internalPath).0)
      && (r.Some? ==>
            && r.value.url == UrlObj(link.url.(absolute := true)) && r.value.context == context
            && r.value.meta.Some? && r.value.meta.value.path == link.url.internalPath
            && (r.value.meta.value.entityInfo.Some? <==> entity.UrlEntity?)
            && (entity.UrlEntity? ==> r.value.meta.value.entityInfo == Some(EntityInfo(entity.entityType, entity.id, None)))
            && (entity.UrlEntity? ==> r.value.lastmod == entity.lastmod)
            && (entity.NoEntity? ==> r.value.lastmod == None)
            && r.value.priority == Setting(settings.GetOr(map[]), "priority")
            && r.value.changefreq == (if Empty(Setting(settings.GetOr(map[]), "changefreq")) then Null else Setting(settings.GetOr(map[]), "changefreq"))
            && r.value.images == (if !Empty(Setting(settings.GetOr(map[]), "include_images")) && entity.UrlEntity?
                                  then ImagesOf(env, s, entity.entityType, entity.id) else [])
            && r.value.langcode.None? && r.value.alternates.None?)
  {
  }

  /** With a duplicate check on, the same link is skipped the second time it is processed. */
  lemma ProcessTwice(b: BatchState, env: Env, s: BatchSettings, context: string, link: MenuLink)
    requires s.removeDuplicates || s.removeDuplicatesByContext
    ensures var (b', r) := ProcessSpec(b, env, s, context, link);
      r.Some? ==> ProcessSpec(b', env, s, context, link).1.None?
  {
    DedupSecondTime(b, s, context, link.url.internalPath);
  }

  // ---------------------------------------------------------------------
  // getBatchIterationElements: the links of a menu tree

  /** A link occurs somewhere in the tree, at any depth. */
  predicate InTree(link: MenuLink, tree: seq<MenuTreeItem>)
    decreases tree
  {
    exists i :: 0 <= i < |tree| && (tree[i].link == link || InTree(link, tree[i].subtree))
  }

  /** The loop over the loaded tree as it stands: the links of the top-level items only. */
  function TopLevelLinks(tree: seq<MenuTreeItem>): (links: seq<MenuLink>)
    ensures |links| == |tree|
  {
    seq(|tree|, i requires 0 <= i < |tree| => tree[i].link)
  }

  /** The tree flattened: every item's link followed by its subtree's links, in menu order. */
  function FlattenedLinks(tree: seq<MenuTreeItem>): seq<MenuLink>
    decreases tree
  {
    if tree == [] then [] else [tree[0].link] + FlattenedLinks(tree[0].subtree) + FlattenedLinks(tree[1..])
  }

  /**
   * The loop as written drops nested links: in a menu whose one top-level
   * item has a child, the child's link is in the tree but not among the
   * elements.
   */
  lemma TopLevelLinksDropChildren(url: UrlObject)
    ensures var parent := MenuLink(true, url, None, "main");
      var child := MenuLink(true, url, None, "footer");
      var tree := [MenuTreeItem(parent, [MenuTreeItem(child, [])])];
      InTree(child, tree) && child !in TopLevelLinks(tree)
  {
    var parent := MenuLink(true, url, None, "main");
    var child := MenuLink(true, url, None, "footer");
    var tree := [MenuTreeItem(parent, [MenuTreeItem(child, [])])];
    assert tree[0].subtree[0].link == child;
    assert InTree(child, tree[0].subtree);
    assert TopLevelLinks(tree) == [parent];
  }

  /** The flattened tree holds exactly the links of the tree, at every depth. */
  lemma {:induction false} FlattenedLinksMembers(tree: seq<MenuTreeItem>, link: MenuLink)
    ensures link in FlattenedLinks(tree) <==> InTree(link, tree)
    decreases tree
  {
    if tree != [] {
      FlattenedLinksMembers(tree[0].subtree, link);
      FlattenedLinksMembers(tree[1..], link);
      if InTree(link, tree) {
        var i :| 0 <= i < |tree| && (tree[i].link == link || InTree(link, tree[i].subtree));
        if i > 0 {
          assert tree[1..][i - 1] == tree[i];
        }
      }
      if InTree(link, tree[1..]) {
        var i :| 0 <= i < |tree[1..]| && (tree[1..][i].link == link || InTree(link, tree[1..][i].subtree));
        assert tree[i + 1] == tree[1..][i];
      }
    }
  }

  /** The loop over the loaded tree as written: one element per top-level item, in tree order. */
  method CollectTopLevelLinks(tree: seq<MenuTreeItem>) returns (elements: seq<MenuLink>)
    ensures elements == TopLevelLinks(tree)
  {
    elements := [];
    for i := 0 to |tree|
      invariant elements == TopLevelLinks(tree[..i])
    {
      assert TopLevelLinks(tree[..i + 1]) == TopLevelLinks(tree[..i]) + [tree[i].link];
      elements := elements + [tree[i].link];
    }
    assert tree[..|tree|] == tree;
  }

  /** The loop as written lists a link exactly when it is the link of a top-level item, and each is in the tree. */
  lemma TopLevelLinksMembers(tree: seq<MenuTreeItem>, link: MenuLink)
    ensures link in TopLevelLinks(tree) <==> exists i :: 0 <= i < |tree| && tree[i].link == link
    ensures link in TopLevelLinks(tree) ==> InTree(link, tree)
  {
    if link in TopLevelLinks(tree) {
      var i :| 0 <= i < |tree| && TopLevelLinks(tree)[i] == link;
      assert tree[i].link == link;
    }
    if exists i :: 0 <= i < |tree| && tree[i].link == link {
      var i :| 0 <= i < |tree| && tree[i].link == link;
      assert TopLevelLinks(tree)[i] == link;
    }
  }

  /** On a menu without nested items the loop as written and the flattening agree. */
  lemma {:induction false} TopLevelLinksFlatTree(tree: seq<MenuTreeItem>)
    requires forall i :: 0 <= i < |tree| ==> tree[i].subtree == []
    ensures TopLevelLinks(tree) == FlattenedLinks(tree)
    decreases tree
  {
    if tree != [] {
      TopLevelLinksFlatTree(tree[1..]);
      assert FlattenedLinks(tree[0].subtree) == [];
      assert TopLevelLinks(tree) == [tree[0].link] + TopLevelLinks(tree[1..]);
    }
  }

  /** Every top-level link is among the flattened links: the flattening only adds to what the loop as written takes. */
  lemma TopLevelLinksFlattened(tree: seq<MenuTreeItem>, i: nat)
    requires i < |tree|
    ensures TopLevelLinks(tree)[i] in FlattenedLinks(tree)
  {
    FlattenedLinksMembers(tree, tree[i].link);
  }

  /**
   * getBatchIterationElements(), corrected: the links of the loaded,
   * index-sorted menu tree at every depth, renumbered from 0, then the base
   * class's windowing. The loop as written takes TopLevelLinks instead.
   */
  method BatchIterationElements(batch: Batch, env: Env, s: BatchSettings, menuName: string) returns (elements: seq<MenuLink>)
    modifies batch
    ensures batch.State() == PrepareSpec(old(batch.State()), env, s, |FlattenedLinks(env.menuTree(menuName))|)
    ensures elements == IterationWindow(batch.State(), s, FlattenedLinks(env.menuTree(menuName)))
  {
    var links := FlattenedLinks(env.menuTree(menuName));
    elements := UrlGeneratorBase.BatchIterationElements(batch, env, s, links);
  }
}

/**
 * The module's settings store (src/Simplesitemap.php): which entity types
 * are enabled, the sitemap settings of each bundle and their per-entity
 * overrides, the custom links, the general settings, and the lookup of a
 * stored sitemap chunk. The configuration object is the class's state; each
 * setter copies a part of it, changes the copy, and saves it back.
 */
module Simplesitemap {
  import opened Wrappers
  import opened Php
  import opened SitemapData
  import Form

  /** The keys of $allowed_link_settings. */
  datatype LinkType = EntityLinks | CustomLinks

  /** Simplesitemap::$allowed_link_settings: the settings each kind of link may carry. */
  function AllowedLinkSettings(t: LinkType): seq<string> {
    match t
    case EntityLinks => ["index", "priority"]
    case CustomLinks => ["priority"]
  }

  /** A bundle's settings, and the per-entity overrides kept under its 'entities' key. */
  datatype BundleEntry = BundleEntry(settings: Settings, entities: map<nat, Settings>)

  /** The configuration keys entity_types, custom and settings. */
  datatype Config = Config(entityTypes: map<string, map<string, BundleEntry>>, custom: seq<Settings>, settings: Settings)

  /** A row of the simple_sitemap table. */
  datatype Chunk = Chunk(sitemapString: string, created: int)

  /** What getSitemap() returns: the index over the chunks, one chunk's XML, or FALSE. */
  datatype Sitemap = SitemapIndex(chunks: map<int, Chunk>) | SitemapChunk(xml: string) | NoSitemap

  // ---------------------------------------------------------------------
  // addLinkSettings

  function CopySetting(t: LinkType, target: Settings, key: string, setting: Value): Settings {
    if key in AllowedLinkSettings(t) then target[key := setting] else target
  }

  /**
   * addLinkSettings(): every given setting whose key is allowed for the link
   * type is written into the target, in the given order. The priority test
   * sits in a switch, where `continue` only leaves the switch, so it lets
   * every priority through.
   */
  function LinkSettings(t: LinkType, settings: OrderedMap<string, Value>, target: Settings): Settings
    decreases |settings|
  {
    if settings == [] then target
    else LinkSettings(t, settings[1..], CopySetting(t, target, settings[0].0, settings[0].1))
  }

  method AddLinkSettings(t: LinkType, settings: OrderedMap<string, Value>, target: Settings) returns (target': Settings)
    ensures target' == LinkSettings(t, settings, target)
  {
    target' := target;
    for i := 0 to |settings|
      invariant LinkSettings(t, settings[i..], target') == LinkSettings(t, settings, target)
    {
      assert settings[i..][1..] == settings[i + 1..];
      var (key, setting) := settings[i];
      if key in AllowedLinkSettings(t) {
        // The outcome of the priority test is not used: `continue` ends the switch only.
        var validPriority := key == "priority" && Form.IsValidPriority(setting);
        target' := target'[key := setting];
      }
    }
    assert settings[|settings|..] == [];
  }

  /**
   * After addLinkSettings() a key is set exactly when it was set before or
   * is an allowed key among the given settings; an allowed given key holds
   * the given value, and every other key keeps its old value.
   */
  lemma {:induction false} LinkSettingsMeaning(t: LinkType, settings: OrderedMap<string, Value>, target: Settings, k: string)
    requires UniqueKeys(settings)
    ensures var r := LinkSettings(t, settings, target);
      var given := k in AllowedLinkSettings(t) && Lookup(settings, k).Some?;
      && (k in r <==> k in target || given)
      && (given ==> r[k] == Lookup(settings, k).value)
      && (!given && k in target ==> r[k] == target[k])
    decreases |settings|
  {
    if settings != [] {
      UniqueKeysTail(settings);
      LinkSettingsMeaning(t, settings[1..], CopySetting(t, target, settings[0].0, settings[0].1), k);
    }
  }

  /** A key the link type does not allow is never written, whatever the settings. */
  lemma {:induction false} LinkSettingsKeeps(t: LinkType, settings: OrderedMap<string, Value>, target: Settings, k: string)
    requires k !in AllowedLinkSettings(t)
    ensures var r := LinkSettings(t, settings, target);
      (k in r <==> k in target) && (k in target ==> r[k] == target[k])
    decreases |settings|
  {
    if settings != [] {
      LinkSettingsKeeps(t, settings[1..], CopySetting(t, target, settings[0].0, settings[0].1), k);
    }
  }

  /**
   * The priority test filters nothing: a priority that is not valid, such as
   * "abc", is stored all the same. Custom links are written as entity links,
   * and an entity link takes an index where a custom link would not.
   */
  lemma PriorityNotFiltered(target: Settings, index: Value)
    ensures !Form.IsValidPriority(Str("abc"))
    ensures LinkSettings(EntityLinks, [("priority", Str("abc"))], target) == target["priority" := Str("abc")]
    ensures LinkSettings(CustomLinks, [("priority", Str("abc"))], target) == target["priority" := Str("abc")]
    ensures LinkSettings(EntityLinks, [("index", index)], target) == target["index" := index]
    ensures LinkSettings(CustomLinks, [("index", index)], target) == target
  {
    Form.InvalidPriorityExamples();
    assert [("priority", Str("abc"))][1..] == [];
    assert [("index", index)][1..] == [];
  }

  // ---------------------------------------------------------------------
  // Entity types

  /** entityTypeIsEnabled(): the type has an entry. */
  predicate EntityTypeIsEnabled(c: Config, entityTypeId: string) {
    entityTypeId in c.entityTypes
  }

  /** enableEntityType(): a missing or empty entry becomes an empty entry. */
  function EnableSpec(c: Config, entityTypeId: string): Config {
    if entityTypeId !in c.entityTypes || c.entityTypes[entityTypeId] == map[]
    then c.(entityTypes := c.entityTypes[entityTypeId := map[]])
    else c
  }

  /** disableEntityType(): the type's entry goes, with all its bundle settings and overrides. */
  function DisableSpec(c: Config, entityTypeId: string): Config {
    if entityTypeId in c.entityTypes then c.(entityTypes := c.entityTypes - {entityTypeId}) else c
  }

  /**
   * Enabling leaves the type enabled with its settings as they were (an
   * enabled type is not touched at all), adds an empty entry for a new
   * type, and changes nothing else; doing it twice is doing it once.
   */
  lemma EnableMeaning(c: Config, entityTypeId: string)
    ensures var r := EnableSpec(c, entityTypeId);
      && EntityTypeIsEnabled(r, entityTypeId)
      && (EntityTypeIsEnabled(c, entityTypeId) ==> r == c)
      && (!EntityTypeIsEnabled(c, entityTypeId) ==> r.entityTypes[entityTypeId] == map[])
      && (forall t :: t != entityTypeId ==> (t in r.entityTypes <==> t in c.entityTypes))
      && (forall t :: t != entityTypeId && t in c.entityTypes ==> r.entityTypes[t] == c.entityTypes[t])
      && r.custom == c.custom && r.settings == c.settings
      && EnableSpec(r, entityTypeId) == r
  {
    if entityTypeId in c.entityTypes && c.entityTypes[entityTypeId] == map[] {
      assert c.entityTypes[entityTypeId := map[]] == c.entityTypes;
    }
  }

  /**
   * Disabling removes the type, so none of its bundles has settings and no
   * entity has an override any more; it is a no-op for a type that is not
   * enabled, and other types keep their entries.
   */
  lemma DisableMeaning(c: Config, entityTypeId: string)
    ensures var r := DisableSpec(c, entityTypeId);
      && !EntityTypeIsEnabled(r, entityTypeId)
      && (forall b :: GetBundleSettings(r, entityTypeId, Some(b)).None?)
      && (forall id: nat, b :: GetEntityInstanceSettings(r, entityTypeId, id, b).None?)
      && (!EntityTypeIsEnabled(c, entityTypeId) ==> r == c)
      && (forall t :: t != entityTypeId ==> (t in r.entityTypes <==> t in c.entityTypes))
      && (forall t :: t != entityTypeId && t in c.entityTypes ==> r.entityTypes[t] == c.entityTypes[t])
      && r.custom == c.custom && r.settings == c.settings
  {
  }

  /** Disabling a type that was just enabled from scratch gives back the configuration it started from. */
  lemma DisableUndoesEnable(c: Config, entityTypeId: string)
    requires !EntityTypeIsEnabled(c, entityTypeId)
    ensures DisableSpec(EnableSpec(c, entityTypeId), entityTypeId) == c
  {
    assert c.entityTypes[entityTypeId := map[]] - {entityTypeId} == c.entityTypes;
  }

  // ---------------------------------------------------------------------
  // Bundle and instance settings

  /** getBundleSettings(): the bundle's settings without its overrides, or FALSE; a NULL bundle name means the type itself. */
  function GetBundleSettings(c: Config, entityTypeId: string, bundleName: Option<string>): Option<Settings> {
    var bundle := bundleName.GetOr(entityTypeId);
    if entityTypeId in c.entityTypes && bundle in c.entityTypes[entityTypeId]
    then Some(c.entityTypes[entityTypeId][bundle].settings)
    else None
  }

  /** bundleIsIndexed(): the bundle has settings with a non-empty index. */
  predicate BundleIsIndexed(c: Config, entityTypeId: string, bundleName: Option<string>) {
    var settings := GetBundleSettings(c, entityTypeId, bundleName);
    settings.Some? && !Empty(Setting(settings.value, "index"))
  }

  /** getEntityInstanceSettings(): the entity's override if it has one, else its bundle's settings. */
  function GetEntityInstanceSettings(c: Config, entityTypeId: string, id: nat, bundleName: string): Option<Settings> {
    if entityTypeId in c.entityTypes && bundleName in c.entityTypes[entityTypeId]
       && id in c.entityTypes[entityTypeId][bundleName].entities
    then Some(c.entityTypes[entityTypeId][bundleName].entities[id])
    else GetBundleSettings(c, entityTypeId, Some(bundleName))
  }

  /**
   * setBundleSettings(): the given settings are merged into the bundle's.
   * Writing through the reference creates the type's entry even when
   * nothing is copied; a bundle that had no settings and receives none
   * stays without.
   */
  function SetBundleSettingsSpec(c: Config, entityTypeId: string, bundleName: Option<string>,
                                 settings: OrderedMap<string, Value>): Config {
    var bundle := bundleName.GetOr(entityTypeId);
    var bundles := if entityTypeId in c.entityTypes then c.entityTypes[entityTypeId] else map[];
    var bundles' :=
      if bundle in bundles then bundles[bundle := bundles[bundle].(settings := LinkSettings(EntityLinks, settings, bundles[bundle].settings))]
      else if LinkSettings(EntityLinks, settings, map[]) == map[] then bundles
      else bundles[bundle := BundleEntry(LinkSettings(EntityLinks, settings, map[]), map[])];
    c.(entityTypes := c.entityTypes[entityTypeId := bundles'])
  }

  /**
   * After setBundleSettings() the type is enabled, the bundle's settings are
   * the old ones (or none) merged with the given ones, its overrides are
   * kept, and no other bundle's or type's settings change.
   */
  lemma SetBundleSettingsMeaning(c: Config, entityTypeId: string, bundleName: Option<string>, settings: OrderedMap<string, Value>)
    ensures var r := SetBundleSettingsSpec(c, entityTypeId, bundleName, settings);
      var before := GetBundleSettings(c, entityTypeId, bundleName);
      var merged := LinkSettings(EntityLinks, settings, before.GetOr(map[]));
      && EntityTypeIsEnabled(r, entityTypeId)
      && GetBundleSettings(r, entityTypeId, bundleName) == (if before.None? && merged == map[] then None else Some(merged))
      && (forall t, b :: (t, b) != (entityTypeId, bundleName.GetOr(entityTypeId)) ==>
            GetBundleSettings(r, t, Some(b)) == GetBundleSettings(c, t, Some(b)))
      && (forall id: nat, b :: b != bundleName.GetOr(entityTypeId) ==>
            GetEntityInstanceSettings(r, entityTypeId, id, b) == GetEntityInstanceSettings(c, entityTypeId, id, b))
      && (before.Some? ==> r.entityTypes[entityTypeId][bundleName.GetOr(entityTypeId)].entities
                           == c.entityTypes[entityTypeId][bundleName.GetOr(entityTypeId)].entities)
      && r.custom == c.custom && r.settings == c.settings
  {
  }

  /**
   * Setting a bundle's index and priority and reading them back gives the
   * values set, and the bundle counts as indexed exactly when the index is
   * not empty.
   */
  lemma SetThenGetBundleSettings(c: Config, entityTypeId: string, bundleName: Option<string>, index: Value, priority: Value)
    ensures var r := SetBundleSettingsSpec(c, entityTypeId, bundleName, [("index", index), ("priority", priority)]);
      var got := GetBundleSettings(r, entityTypeId, bundleName);
      && got.Some? && "index" in got.value && "priority" in got.value
      && got.value["index"] == index && got.value["priority"] == priority
      && (BundleIsIndexed(r, entityTypeId, bundleName) <==> !Empty(index))
  {
    var settings := [("index", index), ("priority", priority)];
    var before := GetBundleSettings(c, entityTypeId, bundleName);
    assert UniqueKeys(settings);
    assert Lookup(settings, "index") == Some(index);
    assert Lookup(settings, "priority") == Some(priority) by {
      assert settings[1..] == [("priority", priority)];
    }
    LinkSettingsMeaning(EntityLinks, settings, before.GetOr(map[]), "index");
    LinkSettingsMeaning(EntityLinks, settings, before.GetOr(map[]), "priority");
    SetBundleSettingsMeaning(c, entityTypeId, bundleName, settings);
  }

  /** The loop of setEntityInstanceSettings(): some given setting differs loosely from the bundle's value (NULL when unset). */
  predicate Overrides(settings: OrderedMap<string, Value>, bundleSettings: Settings) {
    exists i :: 0 <= i < |settings| && !LooseEq(settings[i].1, Setting(bundleSettings, settings[i].0))
  }

  /**
   * setEntityInstanceSettings() for an entity of the given bundle: without
   * bundle settings nothing happens; when some setting differs from the
   * bundle's, the settings are merged into the entity's override; otherwise
   * the override is removed.
   */
  function SetInstanceSettingsSpec(c: Config, entityTypeId: string, id: nat, bundleName: string,
                                   settings: OrderedMap<string, Value>): Config {
    if entityTypeId !in c.entityTypes || bundleName !in c.entityTypes[entityTypeId] then c
    else
      var entry := c.entityTypes[entityTypeId][bundleName];
      var merged := LinkSettings(EntityLinks, settings, if id in entry.entities then entry.entities[id] else map[]);
      var entities' :=
        if !Overrides(settings, entry.settings) then entry.entities - {id}
        else if id !in entry.entities && merged == map[] then entry.entities
        else entry.entities[id := merged];
      c.(entityTypes := c.entityTypes[entityTypeId := c.entityTypes[entityTypeId][bundleName := entry.(entities := entities')]])
  }

  /**
   * Without bundle settings the configuration is unchanged. With them, an
   * entity whose settings all equal the bundle's (loosely) ends up reading
   * the bundle's settings; one whose settings differ reads the merged
   * override (or the bundle's settings when no allowed key was given to a
   * new override). The bundle's own settings and the other entities'
   * overrides never change.
   */
  lemma SetInstanceSettingsMeaning(c: Config, entityTypeId: string, id: nat, bundleName: string, settings: OrderedMap<string, Value>)
    ensures var r := SetInstanceSettingsSpec(c, entityTypeId, id, bundleName, settings);
      var bundle := GetBundleSettings(c, entityTypeId, Some(bundleName));
      && (bundle.None? ==> r == c)
      && (bundle.Some? && !Overrides(settings, bundle.value) ==>
            GetEntityInstanceSettings(r, entityTypeId, id, bundleName) == bundle)
      && (bundle.Some? && Overrides(settings, bundle.value) ==>
            var existing := c.entityTypes[entityTypeId][bundleName].entities;
            var merged := LinkSettings(EntityLinks, settings, if id in existing then existing[id] else map[]);
            GetEntityInstanceSettings(r, entityTypeId, id, bundleName) == if id !in existing && merged == map[] then bundle else Some(merged))
      && (forall b :: GetBundleSettings(r, entityTypeId, Some(b)) == GetBundleSettings(c, entityTypeId, Some(b)))
      && (forall other: nat :: other != id ==>
            GetEntityInstanceSettings(r, entityTypeId, other, bundleName) == GetEntityInstanceSettings(c, entityTypeId, other, bundleName))
      && r.custom == c.custom && r.settings == c.settings
  {
  }

  /**
   * The comparison is PHP's loose `!=`: a priority "0.50" for a bundle whose
   * priority is "0.5", and an index TRUE for a bundle whose index is 1,
   * count as no difference, so an existing override is removed.
   */
  lemma LooseComparisonRemovesOverride(c: Config, entityTypeId: string, id: nat, bundleName: string, previous: Settings)
    requires entityTypeId in c.entityTypes && bundleName in c.entityTypes[entityTypeId]
    requires c.entityTypes[entityTypeId][bundleName].settings == map["index" := Int(1), "priority" := Str("0.5")]
    requires c.entityTypes[entityTypeId][bundleName].entities == map[id := previous]
    ensures var r := SetInstanceSettingsSpec(c, entityTypeId, id, bundleName, [("index", Bool(true)), ("priority", Str("0.50"))]);
      r.entityTypes[entityTypeId][bundleName].entities == map[]
      && GetEntityInstanceSettings(r, entityTypeId, id, bundleName) == Some(map["index" := Int(1), "priority" := Str("0.5")])
  {
    LooselyEqualSettings("0", "5");
    assert "0" + "." + "5" + "0" == "0.50" && "0" + "." + "5" == "0.5";
    assert map[id := previous] - {id} == map[];
  }

  /**
   * An index TRUE and a priority with a trailing zero ("0.50") do not differ
   * loosely from an index 1 and the priority without it ("0.5").
   */
  lemma LooselyEqualSettings(ip: string, fp: string)
    requires AllDigits(ip) && AllDigits(fp) && |ip| > 0
    ensures !Overrides([("index", Bool(true)), ("priority", Str(ip + "." + fp + "0"))], map["index" := Int(1), "priority" := Str(ip + "." + fp)])
  {
    var settings := [("index", Bool(true)), ("priority", Str(ip + "." + fp + "0"))];
    var bundle := map["index" := Int(1), "priority" := Str(ip + "." + fp)];
    TrailingZeroLooselyEqual(ip, fp);
    assert LooseEq(settings[0].1, Setting(bundle, settings[0].0));
    assert LooseEq(settings[1].1, Setting(bundle, settings[1].0));
  }

  // ---------------------------------------------------------------------
  // Custom links

  /** A custom link's 'path' equals the path under PHP's loose `==`. */
  predicate Matches(link: Settings, path: string) {
    LooseEq(Setting(link, "path"), Str(path))
  }

  /** The test getCustomLink(), addCustomLink() and removeCustomLink() apply to each link. */
  function HasPath(path: string): Settings -> bool {
    link => Matches(link, path)
  }

  /** The key of the first custom link with the path. */
  function FindLink(links: seq<Settings>, path: string): Option<nat> {
    FindFirst(links, HasPath(path))
  }

  /** FindLink() finds the first link with the path, or tells that none has it. */
  lemma FindLinkMeaning(links: seq<Settings>, path: string)
    ensures var r := FindLink(links, path);
      && (r.Some? ==> r.value < |links| && Matches(links[r.value], path))
      && (r.Some? ==> forall j :: 0 <= j < r.value ==> !Matches(links[j], path))
      && (r.None? ==> forall j :: 0 <= j < |links| ==> !Matches(links[j], path))
  {
    forall j | 0 <= j < |links| ensures HasPath(path)(links[j]) == Matches(links[j], path) {
    }
  }

  /** getCustomLink(): the first custom link with the path, or FALSE. */
  function GetCustomLink(c: Config, path: string): Option<Settings> {
    match FindLink(c.custom, path)
    case None => None
    case Some(k) => Some(c.custom[k])
  }

  /** addCustomLink()'s checks: the path validator accepts the path and it starts with '/'. */
  predicate AcceptsPath(path: string, pathValid: bool) {
    pathValid && |path| > 0 && path[0] == '/'
  }

  /** The link addCustomLink() writes: the existing link (or a new one) with the path set and the settings merged. */
  function NewCustomLink(c: Config, path: string, settings: OrderedMap<string, Value>): Settings {
    var key := FindLink(c.custom, path);
    var base := if key.Some? then c.custom[key.value] else map[];
    LinkSettings(EntityLinks, settings, base["path" := Str(path)])
  }

  /**
   * addCustomLink(): a rejected path changes nothing and gives FALSE; an
   * accepted one updates the first link with that path in place, or is
   * appended at the next key. `pathValid` is the path validator's verdict.
   */
  function AddCustomLinkSpec(c: Config, path: string, settings: OrderedMap<string, Value>, pathValid: bool): (Config, bool) {
    if !AcceptsPath(path, pathValid) then (c, false)
    else
      var key := FindLink(c.custom, path);
      var link := NewCustomLink(c, path, settings);
      (c.(custom := if key.Some? then c.custom[key.value := link] else c.custom + [link]), true)
  }

  /** No two custom links have the path. */
  predicate AtMostOnce(links: seq<Settings>, path: string) {
    forall i, j :: 0 <= i < j < |links| ==> !(Matches(links[i], path) && Matches(links[j], path))
  }

  lemma LooseEqStrRefl(s: string)
    ensures LooseEq(Str(s), Str(s))
  {
  }

  /**
   * An accepted link is found again by getCustomLink() with its path and the
   * merged settings; the list grows by one exactly when the path was new;
   * every other link is left as it was; and a path that occurred at most
   * once occurs exactly once afterwards.
   */
  lemma AddCustomLinkMeaning(c: Config, path: string, settings: OrderedMap<string, Value>, pathValid: bool)
    ensures var (r, accepted) := AddCustomLinkSpec(c, path, settings, pathValid);
      var key := FindLink(c.custom, path);
      && (accepted <==> AcceptsPath(path, pathValid))
      && (!accepted ==> r == c)
      && (accepted ==>
            && GetCustomLink(r, path) == Some(NewCustomLink(c, path, settings))
            && Setting(NewCustomLink(c, path, settings), "path") == Str(path)
            && |r.custom| == |c.custom| + (if key.Some? then 0 else 1)
            && (forall j :: 0 <= j < |c.custom| && key != Some(j) ==> r.custom[j] == c.custom[j])
            && (AtMostOnce(c.custom, path) ==> AtMostOnce(r.custom, path))
            && r.entityTypes == c.entityTypes && r.settings == c.settings)
  {
    if AcceptsPath(path, pathValid) {
      NewCustomLinkMatches(c, path, settings);
      AddCustomLinkFound(c, path, settings);
      if AtMostOnce(c.custom, path) {
        AddCustomLinkOnce(c, path, settings);
      }
    }
  }

  /** The written link carries the path. */
  lemma NewCustomLinkMatches(c: Config, path: string, settings: OrderedMap<string, Value>)
    ensures Setting(NewCustomLink(c, path, settings), "path") == Str(path)
    ensures Matches(NewCustomLink(c, path, settings), path)
  {
    var key := FindLink(c.custom, path);
    var base := if key.Some? then c.custom[key.value] else map[];
    LinkSettingsKeeps(EntityLinks, settings, base["path" := Str(path)], "path");
    LooseEqStrRefl(path);
  }

  /** An accepted link sits at the key of the first link with the path, or at the end, and is the first with the path. */
  lemma AddCustomLinkFound(c: Config, path: string, settings: OrderedMap<string, Value>)
    requires AcceptsPath(path, true)
    ensures var r := AddCustomLinkSpec(c, path, settings, true).0;
      var key := FindLink(c.custom, path);
      var k := if key.Some? then key.value else |c.custom|;
      FindLink(r.custom, path) == Some(k) && k < |r.custom| && r.custom[k] == NewCustomLink(c, path, settings)
  {
    var r := AddCustomLinkSpec(c, path, settings, true).0;
    var key := FindLink(c.custom, path);
    var k := if key.Some? then key.value else |c.custom|;
    NewCustomLinkMatches(c, path, settings);
    assert forall j :: 0 <= j < k ==> r.custom[j] == c.custom[j];
    FindFirstUnique(r.custom, HasPath(path), Some(k));
  }

  /** A path that occurred at most once occurs at most once after it is added. */
  lemma AddCustomLinkOnce(c: Config, path: string, settings: OrderedMap<string, Value>)
    requires AcceptsPath(path, true) && AtMostOnce(c.custom, path)
    ensures AtMostOnce(AddCustomLinkSpec(c, path, settings, true).0.custom, path)
  {
    var r := AddCustomLinkSpec(c, path, settings, true).0;
    var key := FindLink(c.custom, path);
    var k := if key.Some? then key.value else |c.custom|;
    FindLinkMeaning(c.custom, path);
    forall j | 0 <= j < |r.custom| && j != k ensures !Matches(r.custom[j], path) {
      assert r.custom[j] == c.custom[j];
      if key.Some? && k < j {
        assert !(Matches(c.custom[k], path) && Matches(c.custom[j], path));
      }
    }
  }

  /** The corrected removeCustomLink(): every link with the path is dropped, the rest keep their order. */
  function Without(links: seq<Settings>, path: string): seq<Settings> {
    Filter(links, HasPath(path))
  }

  function RemoveCustomLinkSpec(c: Config, path: string): Config {
    c.(custom := Without(c.custom, path))
  }

  /**
   * After removing a path no link has it and getCustomLink() gives FALSE;
   * the configuration is unchanged when no link had it.
   */
  lemma RemoveCustomLinkMeaning(c: Config, path: string)
    ensures var r := RemoveCustomLinkSpec(c, path);
      && GetCustomLink(r, path).None?
      && (forall l :: l in r.custom <==> l in c.custom && !Matches(l, path))
      && (FindLink(c.custom, path).None? ==> r == c)
      && r.entityTypes == c.entityTypes && r.settings == c.settings
  {
    var r := RemoveCustomLinkSpec(c, path);
    FilterMembers(c.custom, HasPath(path));
    forall l ensures l in r.custom <==> l in c.custom && !Matches(l, path) {
      assert HasPath(path)(l) == Matches(l, path);
    }
    if FindLink(c.custom, path).None? {
      FilterNone(c.custom, HasPath(path));
    }
  }

  /** Removing a path that was just added as a new link gives back the configuration it started from. */
  lemma RemoveUndoesAdd(c: Config, path: string, settings: OrderedMap<string, Value>)
    requires AcceptsPath(path, true) && FindLink(c.custom, path).None?
    ensures RemoveCustomLinkSpec(AddCustomLinkSpec(c, path, settings, true).0, path) == c
  {
    var link := NewCustomLink(c, path, settings);
    NewCustomLinkMatches(c, path, settings);
    FilterAppend(c.custom, [link], HasPath(path));
    FilterNone(c.custom, HasPath(path));
    assert Filter([link], HasPath(path)) == [] by {
      assert [link][1..] == [];
    }
  }

  /**
   * removeCustomLink() as written: the loop runs over the original keys, but
   * each match is unset by its original key in the array already
   * renumbered by the previous removals.
   */
  function RemoveAsWritten(links: seq<Settings>, path: string): seq<Settings> {
    UnsetLoop(links, HasPath(path), 0, links)
  }

  /** A link with path "/b" does not have the path "/a". */
  lemma DifferentPaths()
    ensures Matches(map["path" := Str("/a")], "/a")
    ensures !Matches(map["path" := Str("/b")], "/a")
  {
    assert "/b"[1] != "/a"[1];
    NonNumericStart("/a");
  }

  /**
   * With two links of the same path the loop as written removes the first,
   * then removes the link after the second instead of the second: of
   * ['/a', '/a', '/b'] it keeps the second '/a' and loses '/b'.
   */
  lemma RemoveAsWrittenLosesLink()
    ensures var a := map["path" := Str("/a")];
      var b := map["path" := Str("/b")];
      && RemoveAsWritten([a, a, b], "/a") == [a]
      && Without([a, a, b], "/a") == [b]
  {
    var a := map["path" := Str("/a")];
    var b := map["path" := Str("/b")];
    DifferentPaths();
    var drop := HasPath("/a");
    assert drop(a) && !drop(b);
    var links := [a, a, b];
    assert UnsetReindexed(links, 0) == [a, b];
    assert UnsetReindexed([a, b], 1) == [a];
    assert UnsetLoop(links, drop, 2, [a]) == [a];
    assert UnsetLoop(links, drop, 1, [a, b]) == [a];
    assert links[1..] == [a, b] && [a, b][1..] == [b] && [b][1..] == [];
    assert Filter([b], drop) == [b];
    assert Filter([a, b], drop) == [b];
  }

  /** When the path occurs at most once, the loop as written and the corrected removal agree. */
  lemma RemoveAsWrittenAgrees(links: seq<Settings>, path: string)
    requires AtMostOnce(links, path)
    ensures RemoveAsWritten(links, path) == Without(links, path)
  {
    var drop := HasPath(path);
    match FindLink(links, path)
    case None =>
      UnsetLoopSkip(links, drop, 0, |links|, links);
      FilterNone(links, drop);
    case Some(m) =>
      FindLinkMeaning(links, path);
      forall j | 0 <= j < |links| && j != m ensures !drop(links[j]) {
        assert drop(links[j]) == Matches(links[j], path);
        if j > m {
          assert !(Matches(links[m], path) && Matches(links[j], path));
        }
      }
      UnsetLoopOne(links, drop, m);
      FilterOne(links, drop, m);
  }

  // ---------------------------------------------------------------------
  // Searching a list and dropping entries from it

  /** The index of the first entry `hit` holds for, if any. */
  function FindFirst<T>(xs: seq<T>, hit: T -> bool): (r: Option<nat>)
    ensures r.Some? ==> r.value < |xs| && hit(xs[r.value])
    ensures r.Some? ==> forall j :: 0 <= j < r.value ==> !hit(xs[j])
    ensures r.None? ==> forall j :: 0 <= j < |xs| ==> !hit(xs[j])
  {
    if xs == [] then None
    else if hit(xs[0]) then Some(0)
    else match FindFirst(xs[1..], hit)
      case None => None
      case Some(k) => Some(k + 1)
  }

  /** A search that stops at the first hit, or finds none, finds what FindFirst() finds. */
  lemma FindFirstUnique<T>(xs: seq<T>, hit: T -> bool, key: Option<nat>)
    requires key.Some? ==> key.value < |xs| && hit(xs[key.value])
    requires key.Some? ==> forall j :: 0 <= j < key.value ==> !hit(xs[j])
    requires key.None? ==> forall j :: 0 <= j < |xs| ==> !hit(xs[j])
    ensures key == FindFirst(xs, hit)
  {
    var f := FindFirst(xs, hit);
    if key.Some? && f.Some? {
      if key.value < f.value {
      } else if f.value < key.value {
      }
    }
  }

  /** A loop over the keys that breaks at the first hit. */
  method SearchFirst<T>(xs: seq<T>, hit: T -> bool) returns (key: Option<nat>)
    ensures key == FindFirst(xs, hit)
  {
    key := None;
    var i := 0;
    while i < |xs|
      invariant 0 <= i <= |xs|
      invariant forall j :: 0 <= j < i ==> !hit(xs[j])
    {
      if hit(xs[i]) {
        key := Some(i);
        break;
      }
      i := i + 1;
    }
    FindFirstUnique(xs, hit, key);
  }

  /** A loop that keeps the entries `drop` does not hold for, and tells whether it held for any. */
  method KeepOthers<T>(xs: seq<T>, drop: T -> bool) returns (kept: seq<T>, found: bool)
    ensures kept == Filter(xs, drop)
    ensures found <==> FindFirst(xs, drop).Some?
  {
    kept := [];
    found := false;
    for i := 0 to |xs|
      invariant kept == Filter(xs[..i], drop)
      invariant !found <==> forall j :: 0 <= j < i ==> !drop(xs[j])
    {
      FilterSnoc(xs, drop, i);
      if drop(xs[i]) {
        found := true;
      } else {
        kept := kept + [xs[i]];
      }
    }
    assert xs[..|xs|] == xs;
  }

  /** The entries `drop` does not hold for, in their order. */
  function Filter<T>(xs: seq<T>, drop: T -> bool): (r: seq<T>)
    ensures |r| <= |xs|
  {
    if xs == [] then [] else (if drop(xs[0]) then [] else [xs[0]]) + Filter(xs[1..], drop)
  }

  lemma {:induction false} FilterAppend<T>(a: seq<T>, b: seq<T>, drop: T -> bool)
    ensures Filter(a + b, drop) == Filter(a, drop) + Filter(b, drop)
  {
    if a == [] {
      assert a + b == b;
    } else {
      assert (a + b)[0] == a[0];
      assert (a + b)[1..] == a[1..] + b;
      FilterAppend(a[1..], b, drop);
    }
  }

  /** A list with nothing to drop is left as it is. */
  lemma {:induction false} FilterNone<T>(xs: seq<T>, drop: T -> bool)
    requires forall j :: 0 <= j < |xs| ==> !drop(xs[j])
    ensures Filter(xs, drop) == xs
  {
    if xs != [] {
      FilterNone(xs[1..], drop);
    }
  }

  /** The entries kept are exactly the entries `drop` does not hold for. */
  lemma {:induction false} FilterMembers<T>(xs: seq<T>, drop: T -> bool)
    ensures forall x :: x in Filter(xs, drop) <==> x in xs && !drop(x)
  {
    if xs != [] {
      FilterMembers(xs[1..], drop);
      assert xs == [xs[0]] + xs[1..];
    }
  }

  /** One more entry: it is kept unless dropped. */
  lemma FilterSnoc<T>(xs: seq<T>, drop: T -> bool, i: nat)
    requires i < |xs|
    ensures Filter(xs[..i + 1], drop) == Filter(xs[..i], drop) + (if drop(xs[i]) then [] else [xs[i]])
  {
    FilterAppend(xs[..i], [xs[i]], drop);
    assert xs[..i + 1] == xs[..i] + [xs[i]];
    assert [xs[i]][1..] == [];
  }

  /** unset() followed by array_values(): the entry at key k goes and the rest close up; a missing key changes nothing. */
  function UnsetReindexed<T>(xs: seq<T>, k: nat): seq<T> {
    if k < |xs| then xs[..k] + xs[k + 1..] else xs
  }

  /** With a single entry to drop, at key m, filtering drops m and nothing else. */
  lemma {:induction false} FilterOne<T>(xs: seq<T>, drop: T -> bool, m: nat)
    requires m < |xs| && drop(xs[m])
    requires forall j :: 0 <= j < |xs| && j != m ==> !drop(xs[j])
    ensures Filter(xs, drop) == UnsetReindexed(xs, m)
  {
    var tail := xs[1..];
    if m == 0 {
      forall j | 0 <= j < |tail| ensures !drop(tail[j]) {
        assert tail[j] == xs[j + 1];
      }
      FilterNone(tail, drop);
      assert xs[..0] + xs[1..] == tail;
    } else {
      forall j | 0 <= j < |tail| && j != m - 1 ensures !drop(tail[j]) {
        assert tail[j] == xs[j + 1];
      }
      FilterOne(tail, drop, m - 1);
      assert Filter(xs, drop) == [xs[0]] + Filter(tail, drop);
      assert [xs[0]] + (tail[..m - 1] + tail[m..]) == xs[..m] + xs[m + 1..];
    }
  }

  /** A loop over the original keys that unsets each dropped key in the array renumbered so far. */
  function UnsetLoop<T>(orig: seq<T>, drop: T -> bool, i: nat, current: seq<T>): seq<T>
    requires i <= |orig|
    decreases |orig| - i
  {
    if i == |orig| then current
    else UnsetLoop(orig, drop, i + 1, if drop(orig[i]) then UnsetReindexed(current, i) else current)
  }

  /** Keys with nothing to drop leave the loop's array as it is. */
  lemma {:induction false} UnsetLoopSkip<T>(orig: seq<T>, drop: T -> bool, i: nat, m: nat, current: seq<T>)
    requires i <= m <= |orig|
    requires forall j :: i <= j < m ==> !drop(orig[j])
    ensures UnsetLoop(orig, drop, i, current) == UnsetLoop(orig, drop, m, current)
    decreases m - i
  {
    if i < m {
      UnsetLoopSkip(orig, drop, i + 1, m, current);
    }
  }

  /** With a single entry to drop, at key m, the loop unsets m and nothing else. */
  lemma UnsetLoopOne<T>(xs: seq<T>, drop: T -> bool, m: nat)
    requires m < |xs| && drop(xs[m])
    requires forall j :: 0 <= j < |xs| && j != m ==> !drop(xs[j])
    ensures UnsetLoop(xs, drop, 0, xs) == UnsetReindexed(xs, m)
  {
    UnsetLoopSkip(xs, drop, 0, m, xs);
    UnsetLoopSkip(xs, drop, m + 1, |xs|, UnsetReindexed(xs, m));
  }

  // ---------------------------------------------------------------------
  // Settings and stored sitemaps

  /** getSetting(): the stored value, or FALSE when it is missing or NULL. */
  function GetSetting(c: Config, name: string): Value {
    if name in c.settings && c.settings[name] != Null then c.settings[name] else Bool(false)
  }

  function SaveSettingSpec(c: Config, name: string, setting: Value): Config {
    c.(settings := c.settings[name := setting])
  }

  /** A saved setting is read back (FALSE for NULL); no other setting and nothing else changes. */
  lemma SaveSettingMeaning(c: Config, name: string, setting: Value)
    ensures var r := SaveSettingSpec(c, name, setting);
      && GetSetting(r, name) == (if setting == Null then Bool(false) else setting)
      && (forall n :: n != name ==> GetSetting(r, n) == GetSetting(c, n) && Setting(r.settings, n) == Setting(c.settings, n))
      && r.entityTypes == c.entityTypes && r.custom == c.custom
  {
  }

  /**
   * getSitemap() on the rows of the simple_sitemap table keyed by id: a
   * known id gives that chunk; otherwise the index when there are several
   * chunks, else chunk 1, else FALSE.
   */
  function GetSitemap(chunks: map<int, Chunk>, chunkId: Option<int>): Sitemap {
    if chunkId.None? || chunkId.value !in chunks then
      if |chunks| > 1 then SitemapIndex(chunks)
      else if 1 in chunks then SitemapChunk(chunks[1].sitemapString)
      else NoSitemap
    else SitemapChunk(chunks[chunkId.value].sitemapString)
  }

  /**
   * An unknown id is answered as if no id were given; the index is returned
   * only when several chunks exist and no known chunk was asked for; FALSE
   * only when no chunk was asked for that exists and there is at most one
   * chunk, which is not chunk 1.
   */
  lemma GetSitemapMeaning(chunks: map<int, Chunk>, chunkId: Option<int>)
    ensures chunkId.Some? && chunkId.value in chunks ==> GetSitemap(chunks, chunkId) == SitemapChunk(chunks[chunkId.value].sitemapString)
    ensures chunkId.Some? && chunkId.value !in chunks ==> GetSitemap(chunks, chunkId) == GetSitemap(chunks, None)
    ensures GetSitemap(chunks, chunkId).SitemapIndex? <==> (chunkId.None? || chunkId.value !in chunks) && |chunks| > 1
    ensures GetSitemap(chunks, chunkId).NoSitemap? <==> (chunkId.None? || chunkId.value !in chunks) && |chunks| <= 1 && 1 !in chunks
  {
  }

  /** A table with a single chunk under an id other than 1 yields FALSE when no id is given. */
  lemma GetSitemapSingleChunkNotOne(chunk: Chunk)
    ensures GetSitemap(map[2 := chunk], None) == NoSitemap
  {
    assert 1 !in map[2 := chunk];
  }

  // ---------------------------------------------------------------------
  // The store

  class Store {
    var entityTypes: map<string, map<string, BundleEntry>>
    var custom: seq<Settings>
    var settings: Settings

    function State(): Config
      reads this
    {
      Config(entityTypes, custom, settings)
    }

    constructor (config: Config)
      ensures State() == config
    {
      entityTypes := config.entityTypes;
      custom := config.custom;
      settings := config.settings;
    }

    method EnableEntityType(entityTypeId: string)
      modifies this
      ensures State() == EnableSpec(old(State()), entityTypeId)
    {
      if entityTypeId !in entityTypes || entityTypes[entityTypeId] == map[] {
        entityTypes := entityTypes[entityTypeId := map[]];
      }
    }

    method DisableEntityType(entityTypeId: string)
      modifies this
      ensures State() == DisableSpec(old(State()), entityTypeId)
    {
      if entityTypeId in entityTypes {
        entityTypes := entityTypes - {entityTypeId};
      }
    }

    method SetBundleSettings(entityTypeId: string, bundleName: Option<string>, newSettings: OrderedMap<string, Value>)
      modifies this
      ensures State() == SetBundleSettingsSpec(old(State()), entityTypeId, bundleName, newSettings)
    {
      var bundle := bundleName.GetOr(entityTypeId);
      var bundles := if entityTypeId in entityTypes then entityTypes[entityTypeId] else map[];
      if bundle in bundles {
        var merged := AddLinkSettings(EntityLinks, newSettings, bundles[bundle].settings);
        bundles := bundles[bundle := bundles[bundle].(settings := merged)];
      } else {
        var merged := AddLinkSettings(EntityLinks, newSettings, map[]);
        if merged != map[] {
          bundles := bundles[bundle := BundleEntry(merged, map[])];
        }
      }
      entityTypes := entityTypes[entityTypeId := bundles];
    }

    /** `bundleName` is the bundle the loaded entity reports (its menu, for a menu link). */
    method SetEntityInstanceSettings(entityTypeId: string, id: nat, bundleName: string, newSettings: OrderedMap<string, Value>)
      modifies this
      ensures State() == SetInstanceSettingsSpec(old(State()), entityTypeId, id, bundleName, newSettings)
    {
      if entityTypeId in entityTypes && bundleName in entityTypes[entityTypeId] {
        var entry := entityTypes[entityTypeId][bundleName];
        var override := false;
        var i := 0;
        while i < |newSettings|
          invariant 0 <= i <= |newSettings|
          invariant forall j :: 0 <= j < i ==> LooseEq(newSettings[j].1, Setting(entry.settings, newSettings[j].0))
        {
          var (key, setting) := newSettings[i];
          if !LooseEq(setting, Setting(entry.settings, key)) {
            override := true;
            break;
          }
          i := i + 1;
        }
        assert override == Overrides(newSettings, entry.settings);
        var entities := entry.entities;
        if override {
          var existing := if id in entities then entities[id] else map[];
          var merged := AddLinkSettings(EntityLinks, newSettings, existing);
          if id in entities || merged != map[] {
            entities := entities[id := merged];
          }
        } else {
          entities := entities - {id};
        }
        entityTypes := entityTypes[entityTypeId := entityTypes[entityTypeId][bundleName := entry.(entities := entities)]];
      }
    }

    method AddCustomLink(path: string, newSettings: OrderedMap<string, Value>, pathValid: bool) returns (accepted: bool)
      modifies this
      ensures (State(), accepted) == AddCustomLinkSpec(old(State()), path, newSettings, pathValid)
    {
      if !pathValid {
        return false;
      }
      if |path| == 0 || path[0] != '/' {
        return false;
      }
      var links := custom;
      var key := SearchFirst(links, HasPath(path));
      var link := if key.Some? then links[key.value] else map[];
      link := link["path" := Str(path)];
      link := AddLinkSettings(EntityLinks, newSettings, link);
      if key.Some? {
        links := links[key.value := link];
      } else {
        links := links + [link];
      }
      custom := links;
      accepted := true;
    }

    /** removeCustomLink() with the loop corrected to drop every link with the path. */
    method RemoveCustomLink(path: string)
      modifies this
      ensures State() == RemoveCustomLinkSpec(old(State()), path)
    {
      var kept, found := KeepOthers(custom, HasPath(path));
      if found {
        custom := kept;
      } else {
        FilterNone(custom, HasPath(path));
      }
    }

    method RemoveCustomLinks()
      modifies this
      ensures State() == old(State()).(custom := [])
    {
      custom := [];
    }

    method SaveSetting(name: string, setting: Value)
      modifies this
      ensures State() == SaveSettingSpec(old(State()), name, setting)
    {
      settings := settings[name := setting];
    }
  }
}

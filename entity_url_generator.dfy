/**
 * The entity producer (src/Plugin/simple_sitemap/UrlGenerator/
 * EntityUrlGenerator.php): one data set per indexed bundle of a supported
 * entity type that no other producer takes over, the entity query behind a
 * data set, and the path data of one entity.
 */
module EntityUrlGenerator {
  import opened Wrappers
  import opened Php
  import opened SitemapData
  import opened Collaborators
  import opened BatchContext
  import opened UrlGeneratorBase

  /** One indexed bundle: its settings, its name, its entity type and that type's key names. */
  datatype EntityDataSet = EntityDataSet(bundleSettings: Settings, bundleName: string, entityTypeName: string, keys: EntityKeys)

  // ---------------------------------------------------------------------
  // getDataSets

  /** An enabled producer plugin names the entity type in its overrides_entity_type setting. */
  predicate Overrides(p: PluginDef, entityType: string) {
    p.enabled && !StrEmpty(p.overridesEntityType) && p.overridesEntityType == entityType
  }

  predicate Overridden(plugins: seq<PluginDef>, entityType: string) {
    exists i :: 0 <= i < |plugins| && Overrides(plugins[i], entityType)
  }

  /** The data sets of one entity type's bundles: those whose 'index' setting is truthy, in bundle order. */
  function BundleDataSets(entityType: string, keys: EntityKeys, bundles: OrderedMap<string, Settings>): seq<EntityDataSet> {
    if bundles == [] then []
    else
      var (name, settings) := bundles[|bundles| - 1];
      BundleDataSets(entityType, keys, bundles[..|bundles| - 1])
        + (if Truthy(Setting(settings, "index")) then [EntityDataSet(settings, name, entityType, keys)] else [])
  }

  /** An entity type takes part when it is supported and no enabled plugin overrides it. */
  predicate TypeTakesPart(env: Env, entityType: string) {
    Lookup(env.supportedTypes, entityType).Some? && !Overridden(env.pluginDefinitions, entityType)
  }

  /** The loop of getDataSets() over the entity types of the bundle settings. */
  function TypeDataSets(env: Env, types: OrderedMap<string, OrderedMap<string, Settings>>): seq<EntityDataSet> {
    if types == [] then []
    else
      var (entityType, bundles) := types[|types| - 1];
      TypeDataSets(env, types[..|types| - 1])
        + (if TypeTakesPart(env, entityType)
           then BundleDataSets(entityType, Lookup(env.supportedTypes, entityType).value, bundles)
           else [])
  }

  /** getDataSets(): the data sets of a sitemap context. */
  function DataSets(env: Env, context: string): seq<EntityDataSet> {
    TypeDataSets(env, env.bundleSettingsOf(context))
  }

  /** The data set that bundle j of entity type i of the bundle settings yields. */
  function DataSetAt(env: Env, types: OrderedMap<string, OrderedMap<string, Settings>>, i: nat, j: nat): EntityDataSet
    requires i < |types| && j < |types[i].1| && TypeTakesPart(env, types[i].0)
  {
    EntityDataSet(types[i].1[j].1, types[i].1[j].0, types[i].0, Lookup(env.supportedTypes, types[i].0).value)
  }

  /** Bundle j of entity type i is indexed and its type takes part. */
  predicate Indexed(env: Env, types: OrderedMap<string, OrderedMap<string, Settings>>, i: nat, j: nat) {
    i < |types| && j < |types[i].1| && TypeTakesPart(env, types[i].0) && Truthy(Setting(types[i].1[j].1, "index"))
  }

  /** The override check: the first enabled plugin naming the type ends it. */
  method IsOverridden(plugins: seq<PluginDef>, entityType: string) returns (overridden: bool)
    ensures overridden == Overridden(plugins, entityType)
  {
    overridden := false;
    var i := 0;
    while i < |plugins| && !overridden
      invariant 0 <= i <= |plugins|
      invariant overridden ==> Overridden(plugins, entityType)
      invariant !overridden ==> forall k :: 0 <= k < i ==> !Overrides(plugins[k], entityType)
    {
      if plugins[i].enabled && !StrEmpty(plugins[i].overridesEntityType) && plugins[i].overridesEntityType == entityType {
        overridden := true;
      }
      i := i + 1;
    }
  }

  /** getDataSets(), loop by loop. */
  method GetDataSets(env: Env, context: string) returns (dataSets: seq<EntityDataSet>)
    ensures dataSets == DataSets(env, context)
  {
    var types := env.bundleSettingsOf(context);
    dataSets := [];
    for i := 0 to |types|
      invariant dataSets == TypeDataSets(env, types[..i])
    {
      assert types[..i + 1][..i] == types[..i];
      var (entityType, bundles) := types[i];
      var keys := Lookup(env.supportedTypes, entityType);
      if keys.Some? {
        var overridden := IsOverridden(env.pluginDefinitions, entityType);
        if !overridden {
          ghost var before := dataSets;
          for j := 0 to |bundles|
            invariant dataSets == before + BundleDataSets(entityType, keys.value, bundles[..j])
          {
            assert bundles[..j + 1][..j] == bundles[..j];
            var (name, settings) := bundles[j];
            if Truthy(Setting(settings, "index")) {
              dataSets := dataSets + [EntityDataSet(settings, name, entityType, keys.value)];
            }
          }
          assert bundles[..|bundles|] == bundles;
        }
      }
    }
    assert types[..|types|] == types;
  }

  /** Every data set of one type's bundles comes from an indexed bundle, and every indexed bundle gives one. */
  lemma {:induction false} BundleDataSetsMembers(entityType: string, keys: EntityKeys, bundles: OrderedMap<string, Settings>)
    ensures forall d :: d in BundleDataSets(entityType, keys, bundles) <==>
      exists j :: 0 <= j < |bundles| && Truthy(Setting(bundles[j].1, "index"))
        && d == EntityDataSet(bundles[j].1, bundles[j].0, entityType, keys)
  {
    if bundles != [] {
      var init := bundles[..|bundles| - 1];
      BundleDataSetsMembers(entityType, keys, init);
      forall j | 0 <= j < |init| ensures init[j] == bundles[j] {
      }
    }
  }

  /**
   * getDataSets() yields exactly the data sets of the indexed bundles of the
   * entity types that are supported and not overridden, each carrying its
   * bundle settings, its bundle name, its type and the type's keys.
   */
  lemma {:induction false} DataSetsMembers(env: Env, types: OrderedMap<string, OrderedMap<string, Settings>>)
    ensures forall d :: d in TypeDataSets(env, types) <==>
      exists i: nat, j: nat :: Indexed(env, types, i, j) && d == DataSetAt(env, types, i, j)
  {
    if types != [] {
      var n := |types|;
      var init := types[..n - 1];
      DataSetsMembers(env, init);
      var (entityType, bundles) := types[n - 1];
      if TypeTakesPart(env, entityType) {
        BundleDataSetsMembers(entityType, Lookup(env.supportedTypes, entityType).value, bundles);
      }
      forall d | d in TypeDataSets(env, types) ensures exists i: nat, j: nat :: Indexed(env, types, i, j) && d == DataSetAt(env, types, i, j) {
        if d in TypeDataSets(env, init) {
          var i: nat, j: nat :| Indexed(env, init, i, j) && d == DataSetAt(env, init, i, j);
          assert init[i] == types[i];
          assert Indexed(env, types, i, j);
        } else {
          var j :| 0 <= j < |bundles| && Truthy(Setting(bundles[j].1, "index"))
            && d == EntityDataSet(bundles[j].1, bundles[j].0, entityType, Lookup(env.supportedTypes, entityType).value);
          assert Indexed(env, types, n - 1, j);
        }
      }
      forall i: nat, j: nat | Indexed(env, types, i, j) ensures DataSetAt(env, types, i, j) in TypeDataSets(env, types) {
        if i < n - 1 {
          assert init[i] == types[i];
          assert Indexed(env, init, i, j);
          assert DataSetAt(env, init, i, j) == DataSetAt(env, types, i, j);
        } else {
          assert DataSetAt(env, types, i, j) == EntityDataSet(bundles[j].1, bundles[j].0, entityType, Lookup(env.supportedTypes, entityType).value);
        }
      }
    }
  }

  // ---------------------------------------------------------------------
  // processDataSet

  /** The path data of an entity that passed the checks. */
  function EntityPathData(env: Env, s: BatchSettings, context: string, e: Entity, settings: Settings): PathData {
    PathData(
      UrlObj(e.url.(absolute := true)),
      e.lastmod,
      Setting(settings, "priority"),   // isset() is FALSE for NULL, so an unset priority stays NULL
      if !Empty(Setting(settings, "changefreq")) then Setting(settings, "changefreq") else Null,
      if !Empty(Setting(settings, "include_images")) then ImagesOf(env, s, e.entityType, e.id) else [],
      context,
      Some(Meta(e.url.internalPath, Some(EntityInfo(e.entityType, e.id, Some(e.bundle))))),
      None,
      None)
  }

  /**
   * processDataSet(): an entity without an index setting in its instance
   * settings, or with an empty one, is skipped; so is one whose URL is not
   * routed; then the duplicate checks run on its internal path.
   */
  function ProcessSpec(b: BatchState, env: Env, s: BatchSettings, context: string, e: Entity): (BatchState, Option<PathData>) {
    var settings := env.instanceSettings(context, e.entityType, e.id);
    if settings.None? || Empty(Setting(settings.value, "index")) then (b, None)
    else if !e.url.routed then (b, None)
    else
      var (b', duplicate) := DedupSpec(b, s, context, e.url.internalPath);
      if duplicate then (b', None) else (b', Some(EntityPathData(env, s, context, e, settings.value)))
  }

  method ProcessDataSet(batch: Batch, env: Env, s: BatchSettings, context: string, e: Entity) returns (r: Option<PathData>)
    modifies batch
    ensures (batch.State(), r) == ProcessSpec(old(batch.State()), env, s, context, e)
  {
    var settings := env.instanceSettings(context, e.entityType, e.id);
    if settings.None? || Empty(Setting(settings.value, "index")) {
      return None;
    }
    var url := e.url;
    if !url.routed {
      return None;
    }
    var path := url.internalPath;
    var duplicate := Dedup(batch, s, context, path);
    if duplicate {
      return None;
    }
    url := url.(absolute := true);
    var images: seq<string> := [];
    if !Empty(Setting(settings.value, "include_images")) {
      images := GetImages(env, s, e.entityType, e.id);
      assert images == ImagesOf(env, s, e.entityType, e.id);
    }
    var changefreq := Setting(settings.value, "changefreq");
    r := Some(PathData(
      UrlObj(url),
      e.lastmod,
      Setting(settings.value, "priority"),
      if !Empty(changefreq) then changefreq else Null,
      images,
      context,
      Some(Meta(path, Some(EntityInfo(e.entityType, e.id, Some(e.bundle))))),
      None,
      None));
  }

  /**
   * An entity yields path data exactly when it is indexed, routed and not a
   * duplicate. The first two checks leave the batch as it was. The path
   * data points at the entity's URL made absolute, is dated by the entity's
   * change time, belongs to the context and records the path and the entity.
   * It carries the stored priority (NULL when unset), the stored changefreq
   * when it is not empty (else NULL), the entity's images when
   * include_images is set (else none), and no langcode or alternate map.
   */
  lemma ProcessMeaning(b: BatchState, env: Env, s: BatchSettings, context: string, e: Entity)
    ensures var (b', r) := ProcessSpec(b, env, s, context, e);
      var settings := env.instanceSettings(context, e.entityType, e.id);
      var indexed := settings.Some? && !Empty(Setting(settings.value, "index"));
      var path := e.url.internalPath;
      && (r.Some? <==> indexed && e.url.routed && !DedupSpec(b, s, context, path).1)
      && (!(indexed && e.url.routed) ==> b' == b)
      && (indexed && e.url.routed ==> b' == DedupSpec(b, s, context, path).0)
      && (r.Some? ==>
            && r.value.url == UrlObj(e.url.(absolute := true)) && r.value.url.obj.absolute
            && r.value.context == context && r.value.lastmod == e.lastmod
            && r.value.meta == Some(Meta(path, Some(EntityInfo(e.entityType, e.id, Some(e.bundle)))))
            && r.value.priority == Setting(settings.value, "priority")
            && r.value.changefreq == (if Empty(Setting(settings.value, "changefreq")) then Null else Setting(settings.value, "changefreq"))
            && r.value.images == (if Empty(Setting(settings.value, "include_images")) then [] else ImagesOf(env, s, e.entityType, e.id))
            && r.value.langcode.None? && r.value.alternates.None?)
  {
  }

  /** With a duplicate check on, the same entity is skipped the second time it is processed. */
  lemma ProcessTwice(b: BatchState, env: Env, s: BatchSettings, context: string, e: Entity)
    requires s.removeDuplicates || s.removeDuplicatesByContext
    ensures var (b', r) := ProcessSpec(b, env, s, context, e);
      r.Some? ==> ProcessSpec(b', env, s, context, e).1.None?
  {
    DedupSecondTime(b, s, context, e.url.internalPath);
  }

  // ---------------------------------------------------------------------
  // getBatchIterationElements: the entity query

  /** The query's conditions: the bundle key equals the bundle and the status key is 1, where the type has those keys. */
  predicate Matches(ds: EntityDataSet, e: Entity) {
    (StrEmpty(ds.keys.bundle) || e.bundle == ds.bundleName) && (StrEmpty(ds.keys.status) || e.status == 1)
  }

  function Filtered(ds: EntityDataSet, es: seq<Entity>): seq<Entity> {
    if es == [] then []
    else Filtered(ds, es[..|es| - 1]) + (if Matches(ds, es[|es| - 1]) then [es[|es| - 1]] else [])
  }

  /** Inserts an entity before the first one with a larger id. */
  function InsertById(e: Entity, sorted: seq<Entity>): (r: seq<Entity>)
    ensures multiset(r) == multiset(sorted) + multiset{e}
  {
    if sorted == [] || e.id <= sorted[0].id then [e] + sorted
    else
      assert sorted == [sorted[0]] + sorted[1..];
      [sorted[0]] + InsertById(e, sorted[1..])
  }

  /** `->sort(id key, 'ASC')`: the entities by ascending id. */
  function SortById(es: seq<Entity>): seq<Entity> {
    if es == [] then [] else InsertById(es[0], SortById(es[1..]))
  }

  predicate SortedById(es: seq<Entity>) {
    forall i, j :: 0 <= i < j < |es| ==> es[i].id <= es[j].id
  }

  /** The entities the query returns, before any range is applied. */
  function QueryResult(env: Env, ds: EntityDataSet): seq<Entity> {
    var matching := Filtered(ds, env.storage(ds.entityTypeName));
    if !StrEmpty(ds.keys.id) then SortById(matching) else matching
  }

  lemma {:induction false} InsertSorted(e: Entity, sorted: seq<Entity>)
    requires SortedById(sorted)
    ensures SortedById(InsertById(e, sorted))
  {
    if sorted != [] && e.id > sorted[0].id {
      InsertSorted(e, sorted[1..]);
      var r := InsertById(e, sorted[1..]);
      assert multiset(r) == multiset(sorted[1..]) + multiset{e};
      forall k | 0 <= k < |r| ensures sorted[0].id <= r[k].id {
        assert r[k] in multiset(r);
        if r[k] != e {
          assert r[k] in multiset(sorted[1..]);
          var m :| 0 <= m < |sorted[1..]| && sorted[1..][m] == r[k];
          assert sorted[m + 1] == r[k];
        }
      }
    }
  }

  /** Sorting orders by id and neither drops nor adds an entity. */
  lemma {:induction false} SortByIdSorts(es: seq<Entity>)
    ensures SortedById(SortById(es))
    ensures multiset(SortById(es)) == multiset(es)
  {
    if es != [] {
      SortByIdSorts(es[1..]);
      InsertSorted(es[0], SortById(es[1..]));
      assert es == [es[0]] + es[1..];
    }
  }

  lemma {:induction false} FilteredMembers(ds: EntityDataSet, es: seq<Entity>)
    ensures forall e :: e in Filtered(ds, es) <==> e in es && Matches(ds, e)
  {
    if es != [] {
      FilteredMembers(ds, es[..|es| - 1]);
      assert es == es[..|es| - 1] + [es[|es| - 1]];
    }
  }

  /**
   * The query returns exactly the stored entities of the data set's type
   * that match the bundle and status conditions, by ascending id when the
   * type has an id key.
   */
  lemma QueryMeaning(env: Env, ds: EntityDataSet)
    ensures forall e :: e in QueryResult(env, ds) <==> e in env.storage(ds.entityTypeName) && Matches(ds, e)
    ensures !StrEmpty(ds.keys.id) ==> SortedById(QueryResult(env, ds))
  {
    var matching := Filtered(ds, env.storage(ds.entityTypeName));
    FilteredMembers(ds, env.storage(ds.entityTypeName));
    SortByIdSorts(matching);
    forall e ensures e in SortById(matching) <==> e in matching {
      assert e in SortById(matching) <==> e in multiset(SortById(matching));
    }
  }

  /**
   * getBatchIterationElements(): initialises the batch with the number of
   * matching entities when needed and then takes, in batch mode, the range
   * from the progress counter on. loadMultiple keys the entities by id.
   */
  method BatchIterationElements(batch: Batch, env: Env, s: BatchSettings, ds: EntityDataSet) returns (elements: seq<Entity>)
    modifies batch
    ensures batch.State() == PrepareSpec(old(batch.State()), env, s, |QueryResult(env, ds)|)
    ensures elements == IterationWindow(batch.State(), s, QueryResult(env, ds))
  {
    var all := QueryResult(env, ds);
    if batch.sandbox.None? {
      batch.InitializeBatch(env.sitemapContexts, IsBatch(s), |all|);
    }
    if IsBatch(s) {
      elements := Window(all, batch.State().sandbox.value.progress, s.batchProcessLimit);
    } else {
      elements := all;
    }
  }
}

/**
 * The sitemap settings that the module adds to entity forms (src/Form.php):
 * priority validation and the priority select options, the check whether
 * submitted sitemap values differ from the form's defaults, the decision
 * whether an entity form is altered at all, and the default values shown.
 * Priorities are carried as the numeric strings the forms submit.
 */
module Form {
  import opened Wrappers
  import opened Php
  import opened SitemapData

  /** Form::PRIORITY_DEFAULT, the float 0.5. */
  const PRIORITY_DEFAULT: Value := Str("0.5")
  const PRIORITY_HIGHEST: nat := 10
  const PRIORITY_DIVIDER: nat := 10

  const ALLOWED_FORM_OPERATIONS: seq<string> := ["default", "edit", "add"]
  const VALUES_TO_CHECK: seq<string> := ["simple_sitemap_index_content", "simple_sitemap_priority", "simple_sitemap_regenerate_now"]

  // ---------------------------------------------------------------------
  // Priorities

  /** isValidPriority(): a number between 0 and 1, both included. */
  predicate IsValidPriority(priority: Value) {
    IsNumeric(priority) && 0.0 <= NumberOf(priority) <= 1.0
  }

  /** The boundary cases -0.1, 1.1 and "abc" are rejected, as are NULL and booleans. */
  lemma InvalidPriorityExamples()
    ensures !IsValidPriority(Str("-0.1")) && !IsValidPriority(Str("1.1")) && !IsValidPriority(Str("abc"))
    ensures !IsValidPriority(Null) && !IsValidPriority(Bool(true))
  {
    ParseDigitDotDigit('0', '1');
    assert "-0.1"[1..] == ['0', '.', '1'];
    assert TrimLeadingWhitespace("-0.1") == "-0.1";
    ParseDigitDotDigit('1', '1');
    assert "1.1" == ['1', '.', '1'];
    NonNumericStart("abc");
  }

  /** The boundary cases 0 and 1 and the default 0.5 are accepted. */
  lemma ValidPriorityExamples()
    ensures IsValidPriority(Int(0)) && IsValidPriority(PRIORITY_DEFAULT) && IsValidPriority(Int(1))
  {
    ParseDigitDotDigit('0', '5');
    assert "0.5" == ['0', '.', '5'];
  }

  /** formatPriority() on tenths: k/10 with one digit after the point. */
  function FormatPriority(k: nat): (r: string)
    requires k <= PRIORITY_HIGHEST
    ensures |r| == 3 && r[1] == '.' && IsDigit(r[0]) && IsDigit(r[2])
  {
    var whole := if k == PRIORITY_HIGHEST then '1' else '0';
    var tenth := if k == PRIORITY_HIGHEST then '0' else DigitChar(k);
    [whole, '.', tenth]
  }

  /** The shown tenth reads back as k/10. */
  lemma FormatPriorityValue(k: nat)
    requires k <= PRIORITY_HIGHEST
    ensures ParseDecimal(FormatPriority(k)) == Some(k as real / PRIORITY_DIVIDER as real)
  {
    var r := FormatPriority(k);
    ParseDigitDotDigit(r[0], r[2]);
    assert r == [r[0], '.', r[2]];
  }

  /** Two tenths are shown alike only if they are the same. */
  lemma FormatPriorityInjective(i: nat, j: nat)
    requires i <= PRIORITY_HIGHEST && j <= PRIORITY_HIGHEST && i != j
    ensures FormatPriority(i) != FormatPriority(j)
  {
    FormatPriorityValue(i);
    FormatPriorityValue(j);
    assert ParseDecimal(FormatPriority(i)) != ParseDecimal(FormatPriority(j));
  }

  /** Every tenth from 0 to 1 is shown as a valid priority. */
  lemma FormattedPriorityIsValid(k: nat)
    requires k <= PRIORITY_HIGHEST
    ensures IsValidPriority(Str(FormatPriority(k)))
    ensures NumberOf(Str(FormatPriority(k))) == k as real / 10.0
  {
    FormatPriorityValue(k);
  }

  /** getPrioritySelectValues(): one option per tenth from 0.0 to 1.0, keyed by its own label. */
  method GetPrioritySelectValues() returns (options: OrderedMap<string, string>)
    ensures |options| == PRIORITY_HIGHEST + 1
    ensures forall k :: 0 <= k <= PRIORITY_HIGHEST ==> options[k] == (FormatPriority(k), FormatPriority(k))
  {
    options := [];
    for v := 0 to PRIORITY_HIGHEST + 1
      invariant |options| == v
      invariant forall k :: 0 <= k < v ==> options[k] == (FormatPriority(k), FormatPriority(k))
    {
      var value := FormatPriority(v);
      assert value !in Keys(options) by {
        forall k | 0 <= k < v ensures Keys(options)[k] != value {
          FormatPriorityInjective(k, v);
        }
      }
      PutAbsent(options, value, value);
      options := Put(options, value, value);
    }
  }

  /** The options run from 0.0 to 1.0 in strictly increasing order. */
  lemma PriorityOptionsIncrease(i: nat, j: nat)
    requires i < j <= PRIORITY_HIGHEST
    ensures NumberOf(Str(FormatPriority(i))) < NumberOf(Str(FormatPriority(j)))
    ensures FormatPriority(0) == "0.0" && FormatPriority(PRIORITY_HIGHEST) == "1.0"
  {
    FormatPriorityValue(i);
    FormatPriorityValue(j);
    assert FormatPriority(0) == ['0', '.', DigitChar(0)];
  }

  // ---------------------------------------------------------------------
  // valuesChanged

  /** One checked field is submitted (set and not NULL) and differs loosely from the form's default. */
  predicate FieldChanged(defaults: Settings, values: Settings, field: string) {
    Setting(values, field) != Null && !LooseEq(Setting(values, field), Setting(defaults, field))
  }

  /** valuesChanged(): whether any of the three sitemap fields was changed by the user. */
  method ValuesChanged(defaults: Settings, values: Settings) returns (changed: bool)
    ensures changed <==> exists i :: 0 <= i < |VALUES_TO_CHECK| && FieldChanged(defaults, values, VALUES_TO_CHECK[i])
  {
    var i := 0;
    while i < |VALUES_TO_CHECK|
      invariant 0 <= i <= |VALUES_TO_CHECK|
      invariant forall j :: 0 <= j < i ==> !FieldChanged(defaults, values, VALUES_TO_CHECK[j])
    {
      var field := VALUES_TO_CHECK[i];
      if Setting(values, field) != Null && !LooseEq(Setting(values, field), Setting(defaults, field)) {
        return true;
      }
      i := i + 1;
    }
    return false;
  }

  /** A submission that leaves out all three fields never counts as a change. */
  lemma ValuesChangedNeedsSubmission(defaults: Settings, values: Settings)
    requires forall i :: 0 <= i < |VALUES_TO_CHECK| ==> VALUES_TO_CHECK[i] !in values
    ensures !exists i :: 0 <= i < |VALUES_TO_CHECK| && FieldChanged(defaults, values, VALUES_TO_CHECK[i])
  {
  }

  // ---------------------------------------------------------------------
  // Which entity form is altered

  datatype Category = BundleCategory | InstanceCategory

  /**
   * The entity a form edits, as far as the sitemap looks at it: its type,
   * its id, its bundle, its menu (menu links only), and for a bundle
   * entity the entity type it is a bundle of.
   */
  datatype FormEntity = FormEntity(entityTypeId: string, id: Value, bundle: string, menuName: string, bundleOf: string)

  /** The form object: whether it has getEntity(), its operation, and its entity. */
  datatype FormObject = FormObject(hasGetEntity: bool, operation: string, entity: FormEntity)

  datatype FormState = FormState(formObject: Option<FormObject>)

  /** An entity type the sitemap can index, with its bundle entity type (none for a type without bundles). */
  datatype SitemapEntityType = SitemapEntityType(id: string, bundleEntityType: Option<string>)

  /** What the form records about its entity: the category, entity type, bundle and instance id (NULL when unset). */
  datatype EntityData = EntityData(category: Option<Category>, entityTypeId: Option<string>, bundleName: Option<string>, instanceId: Option<Value>)

  const NO_ENTITY_DATA := EntityData(None, None, None, None)

  /** getFormEntity(): the entity of a form object that has one, for the default, edit and add operations only. */
  function FormEntityOf(formState: FormState): (r: Option<FormEntity>)
    ensures r.Some? <==> formState.formObject.Some? && formState.formObject.value.hasGetEntity
                          && formState.formObject.value.operation in ALLOWED_FORM_OPERATIONS
  {
    match formState.formObject
    case None => None
    case Some(obj) => if obj.hasGetEntity && obj.operation in ALLOWED_FORM_OPERATIONS then Some(obj.entity) else None
  }

  /** Simplesitemap::getEntityInstanceBundleName(): a menu link's bundle is its menu. */
  function InstanceBundleName(e: FormEntity): string {
    if e.entityTypeId == "menu_link_content" then e.menuName else e.bundle
  }

  /** Simplesitemap::getBundleEntityTypeId(): menus are the bundles of menu links. */
  function BundleEntityTypeId(e: FormEntity): string {
    if e.entityTypeId == "menu" then "menu_link_content" else e.bundleOf
  }

  predicate IsSitemapType(types: seq<SitemapEntityType>, typeId: string) {
    exists i :: 0 <= i < |types| && types[i].id == typeId
  }

  predicate IsBundleEntityType(types: seq<SitemapEntityType>, typeId: string) {
    exists i :: 0 <= i < |types| && types[i].bundleEntityType == Some(typeId)
  }

  /** The category of a form entity: an instance of a sitemap type, a bundle of one, a menu, or nothing. */
  function CategoryOf(e: FormEntity, types: seq<SitemapEntityType>): Option<Category> {
    if IsSitemapType(types, e.entityTypeId) then Some(InstanceCategory)
    else if IsBundleEntityType(types, e.entityTypeId) then Some(BundleCategory)
    else if e.entityTypeId == "menu" then Some(BundleCategory)
    else None
  }

  /** getEntityDataFromFormEntity(): what the form records for its entity. */
  function EntityDataOf(formState: FormState, types: seq<SitemapEntityType>): EntityData {
    match FormEntityOf(formState)
    case None => NO_ENTITY_DATA
    case Some(e) =>
      match CategoryOf(e, types)
      case None => NO_ENTITY_DATA
      case Some(BundleCategory) => EntityData(Some(BundleCategory), Some(BundleEntityTypeId(e)), Some(ToPhpString(e.id)), None)
      case Some(InstanceCategory) =>
        EntityData(Some(InstanceCategory), Some(e.entityTypeId), Some(InstanceBundleName(e)), if !Empty(e.id) then Some(e.id) else None)
  }

  /**
   * getEntityData(): an entity form with data is altered unless the entity
   * type is not enabled, or the form edits an instance of a bundle that
   * is not indexed.
   */
  predicate AltersWith(data: EntityData, typeEnabled: string -> bool, bundleIndexed: (string, string) -> bool) {
    && data.category.Some?
    && typeEnabled(data.entityTypeId.GetOr(""))
    && (data.category == Some(InstanceCategory) ==> bundleIndexed(data.entityTypeId.GetOr(""), data.bundleName.GetOr("")))
  }

  /** The constructor's decision: permission first, then the form entity, then getEntityData(). */
  predicate AltersForm(hasPermission: bool, formState: Option<FormState>, types: seq<SitemapEntityType>,
                       typeEnabled: string -> bool, bundleIndexed: (string, string) -> bool) {
    hasPermission && formState.Some? && AltersWith(EntityDataOf(formState.value, types), typeEnabled, bundleIndexed)
  }

  /**
   * A form is altered exactly when the user may administer the sitemap, the
   * form has an entity of some category, its entity type is enabled and,
   * for an instance, its bundle is indexed; the category is 'instance' for
   * an entity of a sitemap type, else 'bundle' for a bundle entity of one
   * or for a menu.
   */
  lemma AltersFormMeaning(hasPermission: bool, formState: Option<FormState>, types: seq<SitemapEntityType>,
                          typeEnabled: string -> bool, bundleIndexed: (string, string) -> bool)
    ensures var data := if formState.Some? then EntityDataOf(formState.value, types) else NO_ENTITY_DATA;
      && (AltersForm(hasPermission, formState, types, typeEnabled, bundleIndexed) <==>
            && hasPermission && formState.Some? && FormEntityOf(formState.value).Some?
            && CategoryOf(FormEntityOf(formState.value).value, types).Some?
            && typeEnabled(data.entityTypeId.value)
            && (data.category == Some(InstanceCategory) ==> bundleIndexed(data.entityTypeId.value, data.bundleName.value)))
      && (formState.Some? && FormEntityOf(formState.value).Some? ==>
            var e := FormEntityOf(formState.value).value;
            && (data.category == Some(InstanceCategory) <==> IsSitemapType(types, e.entityTypeId))
            && (data.category == Some(BundleCategory) <==>
                  !IsSitemapType(types, e.entityTypeId) && (IsBundleEntityType(types, e.entityTypeId) || e.entityTypeId == "menu"))
            && (data.category == Some(BundleCategory) && e.entityTypeId == "menu" ==> data.entityTypeId == Some("menu_link_content"))
            && (data.category == Some(InstanceCategory) ==>
                  data.entityTypeId == Some(e.entityTypeId) && (data.instanceId.None? <==> Empty(e.id))))
  {
  }

  /** The fields the constructor sets; without the permission it sets nothing but the decision. */
  class EntityForm {
    var alteringForm: bool
    var entityCategory: Option<Category>
    var entityTypeId: Option<string>
    var bundleName: Option<string>
    var instanceId: Option<Value>

    function Data(): EntityData
      reads this
    {
      EntityData(entityCategory, entityTypeId, bundleName, instanceId)
    }

    constructor (hasPermission: bool, formState: Option<FormState>, types: seq<SitemapEntityType>,
                 typeEnabled: string -> bool, bundleIndexed: (string, string) -> bool)
      ensures alteringForm == AltersForm(hasPermission, formState, types, typeEnabled, bundleIndexed)
      ensures Data() == if hasPermission && formState.Some? then EntityDataOf(formState.value, types) else NO_ENTITY_DATA
    {
      entityCategory := None;
      entityTypeId := None;
      bundleName := None;
      instanceId := None;
      alteringForm := hasPermission;
      new;
      if hasPermission && formState.Some? {
        var entity := FormEntityOf(formState.value);
        if entity.Some? {
          var e := entity.value;
          var category := CategoryOf(e, types);
          match category {
            case None =>
            case Some(BundleCategory) =>
              entityCategory := category;
              entityTypeId := Some(BundleEntityTypeId(e));
              bundleName := Some(ToPhpString(e.id));
            case Some(InstanceCategory) =>
              entityCategory := category;
              entityTypeId := Some(e.entityTypeId);
              bundleName := Some(InstanceBundleName(e));
              instanceId := if !Empty(e.id) then Some(e.id) else None;
          }
        }
      }
      if !hasPermission {
      } else if entityCategory.None? {
        alteringForm := false;
      } else if !typeEnabled(entityTypeId.GetOr("")) {
        alteringForm := false;
      } else if entityCategory == Some(InstanceCategory) && !bundleIndexed(entityTypeId.GetOr(""), bundleName.GetOr("")) {
        alteringForm := false;
      }
    }

    /**
     * displayEntitySitemapSettings(): the index radios (on a single form) and
     * the priority select, with their default values, under the type's
     * prefix on a multiple form. `bundleSettings` and `instanceSettings` are
     * what the settings store returns for this form's bundle and instance.
     */
    method DisplayEntitySitemapSettings(fragment: OrderedMap<string, Value>, multiple: bool,
                                        bundleSettings: Option<Settings>, instanceSettings: Option<Settings>)
      returns (fragment': OrderedMap<string, Value>)
      ensures fragment' == Displayed(fragment, Data(), multiple, bundleSettings, instanceSettings)
    {
      var prefix := if multiple then entityTypeId.GetOr("") + "_" else "";
      var settings := bundleSettings;
      if entityCategory == Some(InstanceCategory) && instanceId.Some? {
        settings := instanceSettings;
      }
      var index := DefaultIndex(settings);
      var priority := DefaultPriority(settings);
      fragment' := fragment;
      if !multiple {
        fragment' := Put(fragment', prefix + "simple_sitemap_index_content", index);
      }
      fragment' := Put(fragment', prefix + "simple_sitemap_priority", priority);
    }
  }

  /** The settings a form shows: an instance form with an id shows the instance's, every other form the bundle's. */
  function ShownSettings(data: EntityData, bundleSettings: Option<Settings>, instanceSettings: Option<Settings>): Option<Settings> {
    if data.category == Some(InstanceCategory) && data.instanceId.Some? then instanceSettings else bundleSettings
  }

  /** The index default: the stored index, or 0 when none is set. */
  function DefaultIndex(settings: Option<Settings>): (v: Value)
    ensures v != Null
  {
    if settings.Some? && Setting(settings.value, "index") != Null then settings.value["index"] else Int(0)
  }

  /** The priority default: the stored priority, or PRIORITY_DEFAULT when none is set. */
  function DefaultPriority(settings: Option<Settings>): (v: Value)
    ensures v != Null
  {
    if settings.Some? && Setting(settings.value, "priority") != Null then settings.value["priority"] else PRIORITY_DEFAULT
  }

  function Displayed(fragment: OrderedMap<string, Value>, data: EntityData, multiple: bool,
                     bundleSettings: Option<Settings>, instanceSettings: Option<Settings>): OrderedMap<string, Value> {
    var prefix := if multiple then data.entityTypeId.GetOr("") + "_" else "";
    var settings := ShownSettings(data, bundleSettings, instanceSettings);
    var f := if multiple then fragment else Put(fragment, prefix + "simple_sitemap_index_content", DefaultIndex(settings));
    Put(f, prefix + "simple_sitemap_priority", DefaultPriority(settings))
  }

  /** A key of the displayed fragment holds the priority default, the index default, or what it held before. */
  lemma DisplayedLookup(fragment: OrderedMap<string, Value>, data: EntityData, multiple: bool,
                        bundleSettings: Option<Settings>, instanceSettings: Option<Settings>, k: string)
    ensures var prefix := if multiple then data.entityTypeId.GetOr("") + "_" else "";
      var settings := ShownSettings(data, bundleSettings, instanceSettings);
      Lookup(Displayed(fragment, data, multiple, bundleSettings, instanceSettings), k)
        == if k == prefix + "simple_sitemap_priority" then Some(DefaultPriority(settings))
           else if !multiple && k == "simple_sitemap_index_content" then Some(DefaultIndex(settings))
           else Lookup(fragment, k)
  {
    var prefix := if multiple then data.entityTypeId.GetOr("") + "_" else "";
    var settings := ShownSettings(data, bundleSettings, instanceSettings);
    var f := if multiple then fragment else Put(fragment, prefix + "simple_sitemap_index_content", DefaultIndex(settings));
    if !multiple {
      LookupPut(fragment, prefix + "simple_sitemap_index_content", DefaultIndex(settings), k);
      assert prefix + "simple_sitemap_index_content" == "simple_sitemap_index_content";
    }
    LookupPut(f, prefix + "simple_sitemap_priority", DefaultPriority(settings), k);
  }

  /** With nothing stored, a form shows index 0 and priority 0.5; a stored value is shown as it is. */
  lemma DefaultsWhenUnset(settings: Option<Settings>)
    ensures (settings.None? ==> DefaultIndex(settings) == Int(0) && DefaultPriority(settings) == PRIORITY_DEFAULT)
    ensures settings.Some? && Setting(settings.value, "index") != Null ==> DefaultIndex(settings) == settings.value["index"]
    ensures settings.Some? && Setting(settings.value, "priority") != Null ==> DefaultPriority(settings) == settings.value["priority"]
  {
  }
}

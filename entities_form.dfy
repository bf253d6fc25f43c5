/**
 * The entity types form (src/Form/SimplesitemapEntitiesForm.php): the list
 * of entity types it shows, sorted by label, and the submission that
 * enables or disables each type according to its `<type>_enabled` field.
 * Which types are sitemap types, their labels, and which are atomic (have
 * no bundles) come from the entity type manager and are parameters here.
 */
module EntitiesForm {
  import opened Wrappers
  import opened Php
  import opened SitemapData
  import opened Simplesitemap

  const ENABLED_SUFFIX := "_enabled"
  const PRIORITY_SUFFIX := "_simple_sitemap_priority"
  const REGENERATE_NOW := "simple_sitemap_regenerate_now"

  // ---------------------------------------------------------------------
  // submitForm

  /** `substr($field_name, -strlen('_enabled')) == '_enabled'`: shorter names are compared whole and never match. */
  predicate IsEnabledField(name: string) {
    |name| >= |ENABLED_SUFFIX| && name[|name| - |ENABLED_SUFFIX|..] == ENABLED_SUFFIX
  }

  /** `substr($field_name, 0, -8)`: the entity type id in front of the suffix. */
  function TypeOfField(name: string): string
    requires IsEnabledField(name)
  {
    name[..|name| - 8]
  }

  /** A field name is its type id followed by the suffix, and every type id has its field. */
  lemma EnabledFieldNames(name: string, t: string)
    ensures IsEnabledField(name) ==> TypeOfField(name) + ENABLED_SUFFIX == name
    ensures IsEnabledField(t + ENABLED_SUFFIX) && TypeOfField(t + ENABLED_SUFFIX) == t
  {
    if IsEnabledField(name) {
      assert name == name[..|name| - 8] + name[|name| - 8..];
    }
    var f := t + ENABLED_SUFFIX;
    assert f[|f| - 8..] == ENABLED_SUFFIX && f[..|f| - 8] == t;
  }

  /** The bundle settings stored for an enabled atomic type. */
  function AtomicBundleSettings(values: OrderedMap<string, Value>, t: string): OrderedMap<string, Value> {
    [("index", Bool(true)), ("priority", Lookup(values, t + PRIORITY_SUFFIX).GetOr(Null))]
  }

  /**
   * One submitted field: an `_enabled` field with a truthy value enables its
   * type and, for an atomic type, sets the type's own bundle to be indexed
   * with the submitted priority; with a falsy value it disables the type.
   */
  function SubmitField(c: Config, values: OrderedMap<string, Value>, isAtomic: string -> bool, name: string, value: Value): Config {
    if !IsEnabledField(name) then c
    else
      var t := TypeOfField(name);
      if Truthy(value) then
        if isAtomic(t) then SetBundleSettingsSpec(EnableSpec(c, t), t, Some(t), AtomicBundleSettings(values, t))
        else EnableSpec(c, t)
      else DisableSpec(c, t)
  }

  /** The submitted fields, in order. */
  function SubmitFields(c: Config, values: OrderedMap<string, Value>, isAtomic: string -> bool, fields: OrderedMap<string, Value>): Config
    decreases |fields|
  {
    if fields == [] then c
    else SubmitFields(SubmitField(c, values, isAtomic, fields[0].0, fields[0].1), values, isAtomic, fields[1..])
  }

  /**
   * submitForm(): every submitted field in turn, then the answer to whether
   * the sitemap is to be regenerated, which is asked only after all of them.
   */
  method SubmitForm(store: Store, values: OrderedMap<string, Value>, isAtomic: string -> bool) returns (regenerate: bool)
    modifies store
    ensures store.State() == SubmitFields(old(store.State()), values, isAtomic, values)
    ensures regenerate <==> Truthy(Lookup(values, REGENERATE_NOW).GetOr(Null))
  {
    for i := 0 to |values|
      invariant SubmitFields(store.State(), values, isAtomic, values[i..]) == SubmitFields(old(store.State()), values, isAtomic, values)
    {
      assert values[i..][1..] == values[i + 1..];
      var (name, value) := values[i];
      if IsEnabledField(name) {
        var t := name[..|name| - 8];
        if Truthy(value) {
          store.EnableEntityType(t);
          if isAtomic(t) {
            store.SetBundleSettings(t, Some(t), [("index", Bool(true)), ("priority", Lookup(values, t + PRIORITY_SUFFIX).GetOr(Null))]);
          }
        } else {
          store.DisableEntityType(t);
        }
      }
    }
    assert values[|values|..] == [];
    regenerate := Truthy(Lookup(values, REGENERATE_NOW).GetOr(Null));
  }

  /** A field leaves every type but its own enabled or not as it was. */
  lemma SubmitFieldOtherTypes(c: Config, values: OrderedMap<string, Value>, isAtomic: string -> bool, name: string, value: Value, t: string)
    requires name != t + ENABLED_SUFFIX
    ensures EntityTypeIsEnabled(SubmitField(c, values, isAtomic, name, value), t) <==> EntityTypeIsEnabled(c, t)
  {
    EnabledFieldNames(name, t);
  }

  /** A type's own field leaves it enabled exactly when the value is truthy. */
  lemma SubmitFieldOwnType(c: Config, values: OrderedMap<string, Value>, isAtomic: string -> bool, value: Value, t: string)
    ensures EntityTypeIsEnabled(SubmitField(c, values, isAtomic, t + ENABLED_SUFFIX, value), t) <==> Truthy(value)
  {
    EnabledFieldNames(t + ENABLED_SUFFIX, t);
  }

  /**
   * After the fields are submitted a type is enabled exactly when its
   * `_enabled` field is truthy; a type without such a field keeps its state.
   */
  lemma {:induction false} SubmitFieldsEnabled(c: Config, values: OrderedMap<string, Value>, isAtomic: string -> bool,
                                               fields: OrderedMap<string, Value>, t: string)
    requires UniqueKeys(fields)
    ensures var r := SubmitFields(c, values, isAtomic, fields);
      match Lookup(fields, t + ENABLED_SUFFIX)
      case Some(v) => EntityTypeIsEnabled(r, t) <==> Truthy(v)
      case None => EntityTypeIsEnabled(r, t) <==> EntityTypeIsEnabled(c, t)
    decreases |fields|
  {
    if fields != [] {
      var (name, value) := fields[0];
      var c' := SubmitField(c, values, isAtomic, name, value);
      UniqueKeysTail(fields);
      SubmitFieldsEnabled(c', values, isAtomic, fields[1..], t);
      if name == t + ENABLED_SUFFIX {
        SubmitFieldOwnType(c, values, isAtomic, value, t);
      } else {
        SubmitFieldOtherTypes(c, values, isAtomic, name, value, t);
      }
    }
  }

  /** Fields whose names do not end in `_enabled` change nothing. */
  lemma {:induction false} SubmitFieldsIgnoresOthers(c: Config, values: OrderedMap<string, Value>, isAtomic: string -> bool,
                                                     fields: OrderedMap<string, Value>)
    requires forall i :: 0 <= i < |fields| ==> !IsEnabledField(fields[i].0)
    ensures SubmitFields(c, values, isAtomic, fields) == c
    decreases |fields|
  {
    if fields != [] {
      SubmitFieldsIgnoresOthers(c, values, isAtomic, fields[1..]);
    }
  }

  /**
   * A truthy field of an atomic type leaves the type's own bundle indexed,
   * with index TRUE and the priority submitted under `<type>_simple_sitemap_priority`
   * (NULL when none was).
   */
  lemma SubmitFieldAtomic(c: Config, values: OrderedMap<string, Value>, isAtomic: string -> bool, value: Value, t: string)
    requires Truthy(value) && isAtomic(t)
    ensures var r := SubmitField(c, values, isAtomic, t + ENABLED_SUFFIX, value);
      var got := GetBundleSettings(r, t, Some(t));
      && EntityTypeIsEnabled(r, t)
      && got.Some? && "index" in got.value && "priority" in got.value
      && got.value["index"] == Bool(true)
      && got.value["priority"] == Lookup(values, t + PRIORITY_SUFFIX).GetOr(Null)
      && BundleIsIndexed(r, t, Some(t))
  {
    EnabledFieldNames(t + ENABLED_SUFFIX, t);
    SetThenGetBundleSettings(EnableSpec(c, t), t, Some(t), Bool(true), Lookup(values, t + PRIORITY_SUFFIX).GetOr(Null));
  }

  // ---------------------------------------------------------------------
  // buildForm

  /** `$entity_type->getLabel() ?: $entity_type_id`: a label that is falsy ("" or "0") gives way to the id. */
  function LabelOf(id: string, typeLabel: string): (r: string)
    ensures Truthy(Str(typeLabel)) ==> r == typeLabel
    ensures typeLabel == "" || typeLabel == "0" ==> r == id
  {
    if Truthy(Str(typeLabel)) then typeLabel else id
  }

  /** The label map: each type id with its label or, failing one, its id. */
  function Labelled(types: OrderedMap<string, string>): (r: OrderedMap<string, string>)
    ensures |r| == |types|
    ensures forall i :: 0 <= i < |types| ==> r[i] == (types[i].0, LabelOf(types[i].0, types[i].1))
  {
    if types == [] then []
    else Labelled(types[..|types| - 1]) + [(types[|types| - 1].0, LabelOf(types[|types| - 1].0, types[|types| - 1].1))]
  }

  /** Strings by their characters, as strcmp() orders labels that are not numbers. */
  predicate LabelLe(a: string, b: string)
    decreases |a|
  {
    a == [] || (b != [] && (a[0] < b[0] || (a[0] == b[0] && LabelLe(a[1..], b[1..]))))
  }

  /** Any two labels are ordered one way or the other. */
  lemma {:induction false} LabelLeTotal(a: string, b: string)
    ensures LabelLe(a, b) || LabelLe(b, a)
    decreases |a|
  {
    if a != [] && b != [] && a[0] == b[0] {
      LabelLeTotal(a[1..], b[1..]);
    }
  }

  /** Each label is at most the next one. */
  predicate SortedByLabel(entries: OrderedMap<string, string>) {
    forall i :: 0 < i < |entries| ==> LabelLe(entries[i - 1].1, entries[i].1)
  }

  function InsertByLabel(e: (string, string), sorted: OrderedMap<string, string>): (r: OrderedMap<string, string>)
    ensures multiset(r) == multiset(sorted) + multiset{e}
    ensures |r| == |sorted| + 1
  {
    if sorted == [] || LabelLe(e.1, sorted[0].1) then [e] + sorted
    else
      assert sorted == [sorted[0]] + sorted[1..];
      [sorted[0]] + InsertByLabel(e, sorted[1..])
  }

  /** asort(): the entries ordered by label, keys kept with their labels. */
  function SortByLabel(entries: OrderedMap<string, string>): OrderedMap<string, string> {
    if entries == [] then [] else InsertByLabel(entries[0], SortByLabel(entries[1..]))
  }

  /** Inserting into a sorted list keeps it sorted; the head is the smaller of the new entry and the old head. */
  lemma {:induction false} InsertByLabelSorted(e: (string, string), sorted: OrderedMap<string, string>)
    requires SortedByLabel(sorted)
    ensures SortedByLabel(InsertByLabel(e, sorted))
    ensures InsertByLabel(e, sorted)[0] == e || (sorted != [] && InsertByLabel(e, sorted)[0] == sorted[0])
  {
    if sorted != [] && !LabelLe(e.1, sorted[0].1) {
      var tail := sorted[1..];
      assert SortedByLabel(tail) by {
        forall i | 0 < i < |tail| ensures LabelLe(tail[i - 1].1, tail[i].1) {
          assert tail[i - 1] == sorted[i] && tail[i] == sorted[i + 1];
        }
      }
      InsertByLabelSorted(e, tail);
      LabelLeTotal(e.1, sorted[0].1);
      var r := InsertByLabel(e, tail);
      assert LabelLe(sorted[0].1, r[0].1);
      assert InsertByLabel(e, sorted) == [sorted[0]] + r;
    }
  }

  /** Sorting orders by label and neither drops nor adds an entry. */
  lemma {:induction false} SortByLabelSorts(entries: OrderedMap<string, string>)
    ensures SortedByLabel(SortByLabel(entries))
    ensures multiset(SortByLabel(entries)) == multiset(entries)
  {
    if entries != [] {
      SortByLabelSorts(entries[1..]);
      InsertByLabelSorted(entries[0], SortByLabel(entries[1..]));
      assert entries == [entries[0]] + entries[1..];
    }
  }

  /** `str_replace('_', '-', $entity_type_id)`: the id the client-side script uses. */
  function ClientId(id: string): (r: string)
    ensures |r| == |id|
    ensures forall i :: 0 <= i < |r| ==> r[i] != '_'
    ensures forall i :: 0 <= i < |r| ==> r[i] == (if id[i] == '_' then '-' else id[i])
  {
    StrReplaceCharAt(id);
    StrReplace(id, "_", "-")
  }

  lemma StrReplaceCharAt(id: string)
    ensures var r := StrReplace(id, "_", "-");
      |r| == |id| && forall i :: 0 <= i < |r| ==> r[i] == (if id[i] == '_' then '-' else id[i])
    decreases |id|
  {
    StrReplaceChar(id, '_', '-');
    var r := StrReplace(id, "_", "-");
    forall i | 0 <= i < |r| && id[i] == '_' ensures r[i] == '-' {
      UnderscoreBecomesDash(id, i);
    }
  }

  lemma {:induction false} UnderscoreBecomesDash(id: string, i: nat)
    requires i < |id| && id[i] == '_'
    ensures i < |StrReplace(id, "_", "-")| && StrReplace(id, "_", "-")[i] == '-'
    decreases |id|
  {
    StrReplaceChar(id, '_', '-');
    assert id[..1] == [id[0]];
    if i > 0 {
      UnderscoreBecomesDash(id[1..], i - 1);
    }
  }

  /** One row of the form: a type, its label, whether its details are open, whether it is atomic. */
  datatype TypeRow = TypeRow(id: string, typeLabel: string, open: bool, atomic: bool)

  /** The rows for the sorted entries: a type's details are open when it is enabled. */
  function Rows(c: Config, isAtomic: string -> bool, sorted: OrderedMap<string, string>): (r: seq<TypeRow>)
    ensures |r| == |sorted|
    ensures forall i :: 0 <= i < |sorted| ==>
      r[i] == TypeRow(sorted[i].0, sorted[i].1, EntityTypeIsEnabled(c, sorted[i].0), isAtomic(sorted[i].0))
  {
    if sorted == [] then []
    else
      var (id, typeLabel) := sorted[|sorted| - 1];
      Rows(c, isAtomic, sorted[..|sorted| - 1]) + [TypeRow(id, typeLabel, EntityTypeIsEnabled(c, id), isAtomic(id))]
  }

  /** The client ids of all rows, in row order. */
  function ClientIds(rows: seq<TypeRow>): (r: seq<string>)
    ensures |r| == |rows| && forall i :: 0 <= i < |rows| ==> r[i] == ClientId(rows[i].id)
  {
    if rows == [] then [] else ClientIds(rows[..|rows| - 1]) + [ClientId(rows[|rows| - 1].id)]
  }

  /** The client ids of the atomic rows, in row order. */
  function AtomicClientIds(rows: seq<TypeRow>): seq<string> {
    if rows == [] then []
    else AtomicClientIds(rows[..|rows| - 1]) + (if rows[|rows| - 1].atomic then [ClientId(rows[|rows| - 1].id)] else [])
  }

  /** An id is listed as atomic exactly when it is the client id of an atomic row. */
  lemma {:induction false} AtomicClientIdsMembers(rows: seq<TypeRow>)
    ensures forall x :: x in AtomicClientIds(rows) <==> exists i :: 0 <= i < |rows| && rows[i].atomic && ClientId(rows[i].id) == x
    ensures |AtomicClientIds(rows)| <= |rows|
  {
    if rows != [] {
      var init := rows[..|rows| - 1];
      AtomicClientIdsMembers(init);
      forall i | 0 <= i < |init| ensures init[i] == rows[i] {
      }
    }
  }

  /**
   * buildForm(): the label map is filled and sorted by label; then each type
   * gets a row, and its client id goes on the list of all types and, for an
   * atomic type, on the list of atomic types.
   */
  method BuildForm(c: Config, types: OrderedMap<string, string>, isAtomic: string -> bool)
    returns (rows: seq<TypeRow>, allEntities: seq<string>, atomicEntities: seq<string>)
    ensures rows == Rows(c, isAtomic, SortByLabel(Labelled(types)))
    ensures allEntities == ClientIds(rows)
    ensures atomicEntities == AtomicClientIds(rows)
  {
    var labels := LabelMap(types);
    var sorted := SortByLabel(labels);
    rows, allEntities, atomicEntities := RowsFor(c, isAtomic, sorted);
  }

  /** The first loop of buildForm(): the label map. */
  method LabelMap(types: OrderedMap<string, string>) returns (labels: OrderedMap<string, string>)
    ensures labels == Labelled(types)
  {
    labels := [];
    for i := 0 to |types|
      invariant labels == Labelled(types[..i])
    {
      assert types[..i + 1][..i] == types[..i];
      var (id, typeLabel) := types[i];
      labels := labels + [(id, LabelOf(id, typeLabel))];
    }
    assert types[..|types|] == types;
  }

  /** The second loop of buildForm(): a row and client ids for each type in label order. */
  method RowsFor(c: Config, isAtomic: string -> bool, sorted: OrderedMap<string, string>)
    returns (rows: seq<TypeRow>, allEntities: seq<string>, atomicEntities: seq<string>)
    ensures rows == Rows(c, isAtomic, sorted)
    ensures allEntities == ClientIds(rows)
    ensures atomicEntities == AtomicClientIds(rows)
  {
    rows, allEntities, atomicEntities := [], [], [];
    for i := 0 to |sorted|
      invariant rows == Rows(c, isAtomic, sorted[..i])
      invariant allEntities == ClientIds(rows)
      invariant atomicEntities == AtomicClientIds(rows)
    {
      var (id, typeLabel) := sorted[i];
      var row := TypeRow(id, typeLabel, EntityTypeIsEnabled(c, id), isAtomic(id));
      RowsStep(c, isAtomic, sorted, i, rows, row);
      rows := rows + [row];
      allEntities := allEntities + [ClientId(id)];
      if isAtomic(id) {
        atomicEntities := atomicEntities + [ClientId(id)];
      }
    }
    assert sorted[..|sorted|] == sorted;
  }

  /** One more row: the row lists grow by that row's entries. */
  lemma RowsStep(c: Config, isAtomic: string -> bool, sorted: OrderedMap<string, string>, i: nat, rows: seq<TypeRow>, row: TypeRow)
    requires i < |sorted| && row == TypeRow(sorted[i].0, sorted[i].1, EntityTypeIsEnabled(c, sorted[i].0), isAtomic(sorted[i].0))
    ensures Rows(c, isAtomic, sorted[..i + 1]) == Rows(c, isAtomic, sorted[..i]) + [row]
    ensures ClientIds(rows + [row]) == ClientIds(rows) + [ClientId(row.id)]
    ensures AtomicClientIds(rows + [row]) == AtomicClientIds(rows) + (if row.atomic then [ClientId(row.id)] else [])
  {
    assert sorted[..i + 1][..i] == sorted[..i];
    assert (rows + [row])[..|rows|] == rows;
  }

  /**
   * The rows are ordered by label and hold each submitted type exactly as
   * often as it was given, labelled by its label or its id; a row is open
   * exactly when its type is enabled.
   */
  lemma RowsMeaning(c: Config, types: OrderedMap<string, string>, isAtomic: string -> bool)
    ensures var sorted := SortByLabel(Labelled(types));
      var rows := Rows(c, isAtomic, sorted);
      && SortedByLabel(sorted)
      && multiset(sorted) == multiset(Labelled(types))
      && (forall i :: 0 <= i < |rows| ==> rows[i].open == EntityTypeIsEnabled(c, rows[i].id))
      && (forall i :: 0 <= i < |rows| ==> (rows[i].id, rows[i].typeLabel) in Labelled(types))
  {
    var sorted := SortByLabel(Labelled(types));
    SortByLabelSorts(Labelled(types));
    forall i | 0 <= i < |sorted| ensures sorted[i] in Labelled(types) {
      assert sorted[i] in multiset(sorted);
    }
  }
}

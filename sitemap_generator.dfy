/**
 * The sitemap writer of src/SitemapGenerator.php: serialises a chunk of links
 * into a `urlset` document (Sitemap protocol 0.9 with the Google image
 * extension 1.1 and `xhtml:link` hreflang alternates), stores it as a numbered
 * delta row of the `simple_sitemap` table, and composes the `sitemapindex`
 * document over the deltas of a context. Documents are element trees.
 */
module SitemapGenerator {
  import opened Wrappers
  import opened Php
  import opened SitemapData

  const XMLNS := "http://www.sitemaps.org/schemas/sitemap/0.9"
  const XMLNS_XHTML := "http://www.w3.org/1999/xhtml"
  const XMLNS_IMAGE := "http://www.google.com/schemas/sitemap-image/1.1"
  const FIRST_CHUNK_INDEX := 1

  /** An XML element tree. */
  datatype Node = Element(name: string, attrs: OrderedMap<string, string>, children: seq<Node>) | Text(text: string)

  /** The process-wide attribute list of `urlset` as first loaded. */
  const InitialAttributes: OrderedMap<string, string> :=
    [("xmlns", XMLNS), ("xmlns:xhtml", XMLNS_XHTML), ("xmlns:image", XMLNS_IMAGE)]

  /** `urlset` attributes once 'xmlns:xhtml' has been unset. */
  const NonHreflangAttributes: OrderedMap<string, string> :=
    [("xmlns", XMLNS), ("xmlns:image", XMLNS_IMAGE)]

  const IndexAttributes: OrderedMap<string, string> := [("xmlns", XMLNS)]

  /** One row of the `simple_sitemap` table of a context. */
  datatype Row = Row(delta: int, doc: Node, created: int)

  /** The `simple_sitemap` table: the rows of each context, in insertion order. */
  type Table = map<string, seq<Row>>

  /** The generator's settings; "" stands for a missing base_url. */
  datatype GeneratorSettings = GeneratorSettings(excludedLanguages: set<string>, baseUrl: string)

  /** The whole mutable state of the generator service. */
  datatype GenState = GenState(
    settings: GeneratorSettings,
    hreflangCache: Option<bool>,
    attributes: OrderedMap<string, string>,
    table: Table)

  // ---------------------------------------------------------------------
  // Document shape

  function Leaf(name: string, text: string): Node {
    Element(name, [], [Text(text)])
  }

  function AltLinkNode(langcode: string, url: string): Node {
    Element("xhtml:link", [("rel", "alternate"), ("hreflang", langcode), ("href", url)], [])
  }

  function ImageNode(path: string): Node {
    Element("image:image", [], [Leaf("image:loc", path)])
  }

  function AltLinkNodes(alts: AltMap): (r: seq<Node>)
    ensures |r| == |alts|
    ensures forall i :: 0 <= i < |alts| ==> r[i] == AltLinkNode(alts[i].0, alts[i].1)
  {
    seq(|alts|, i requires 0 <= i < |alts| => AltLinkNode(alts[i].0, alts[i].1))
  }

  function ImageNodes(images: seq<string>): (r: seq<Node>)
    ensures |r| == |images|
    ensures forall i :: 0 <= i < |images| ==> r[i] == ImageNode(images[i])
  {
    seq(|images|, i requires 0 <= i < |images| => ImageNode(images[i]))
  }

  // The optional children of a `url` element, each written only when its value is set.
  function AltPart(link: Link, hreflang: bool): seq<Node> {
    if link.alternates.Some? && hreflang then AltLinkNodes(link.alternates.value) else []
  }
  function LastmodPart(link: Link): seq<Node> {
    if link.lastmod.Some? then [Leaf("lastmod", link.lastmod.value)] else []
  }
  function ChangefreqPart(link: Link): seq<Node> {
    if link.changefreq != Null then [Leaf("changefreq", ToPhpString(link.changefreq))] else []
  }
  function PriorityPart(link: Link): seq<Node> {
    if link.priority != Null then [Leaf("priority", ToPhpString(link.priority))] else []
  }
  function ImagePart(link: Link): seq<Node> {
    if |link.images| > 0 then ImageNodes(link.images) else []
  }

  /** The `url` element of one link. */
  function UrlEntry(link: Link, hreflang: bool): Node {
    Element("url", [],
      [Leaf("loc", link.loc)] + AltPart(link, hreflang) + LastmodPart(link)
      + ChangefreqPart(link) + PriorityPart(link) + ImagePart(link))
  }

  /** The `urlset` document of a chunk of links. */
  function DeltaDocument(links: seq<Link>, hreflang: bool, attrs: OrderedMap<string, string>): Node {
    Element("urlset", attrs, UrlEntries(links, hreflang))
  }

  /** The `url` elements of the links, in link order. */
  function UrlEntries(links: seq<Link>, hreflang: bool): (r: seq<Node>)
    ensures |r| == |links|
  {
    if links == [] then [] else UrlEntries(links[..|links| - 1], hreflang) + [UrlEntry(links[|links| - 1], hreflang)]
  }

  lemma {:induction false} UrlEntriesAt(links: seq<Link>, hreflang: bool, i: nat)
    requires i < |links|
    ensures UrlEntries(links, hreflang)[i] == UrlEntry(links[i], hreflang)
  {
    if i < |links| - 1 {
      UrlEntriesAt(links[..|links| - 1], hreflang, i);
    }
  }

  /** The `sitemap` element of one delta in the index. */
  function SitemapEntry(loc: string, lastmod: string): Node {
    Element("sitemap", [], [Leaf("loc", loc), Leaf("lastmod", lastmod)])
  }

  /** The position of a `url` child kind in the fixed child order. */
  function ChildRank(n: Node): nat {
    if !n.Element? then 6
    else if n.name == "loc" then 0
    else if n.name == "xhtml:link" then 1
    else if n.name == "lastmod" then 2
    else if n.name == "changefreq" then 3
    else if n.name == "priority" then 4
    else if n.name == "image:image" then 5
    else 6
  }

  /** The number of children named `name`. */
  function CountNamed(ns: seq<Node>, name: string): nat {
    if ns == [] then 0
    else (if ns[0].Element? && ns[0].name == name then 1 else 0) + CountNamed(ns[1..], name)
  }

  lemma {:induction false} CountNamedAppend(a: seq<Node>, b: seq<Node>, name: string)
    ensures CountNamed(a + b, name) == CountNamed(a, name) + CountNamed(b, name)
  {
    if a == [] {
      assert a + b == b;
    } else {
      assert (a + b)[0] == a[0];
      assert (a + b)[1..] == a[1..] + b;
      CountNamedAppend(a[1..], b, name);
    }
  }

  lemma {:induction false} CountNamedUniform(ns: seq<Node>, name: string, other: string)
    requires forall i :: 0 <= i < |ns| ==> ns[i].Element? && ns[i].name == other
    ensures CountNamed(ns, name) == if name == other then |ns| else 0
  {
    if ns != [] {
      assert forall i :: 0 <= i < |ns[1..]| ==> ns[1..][i] == ns[i + 1];
      CountNamedUniform(ns[1..], name, other);
    }
  }

  /** The children of a `url` element: loc, then the optional parts in their fixed order. */
  lemma UrlEntryChildren(link: Link, hreflang: bool)
    ensures UrlEntry(link, hreflang).children
      == [Leaf("loc", link.loc)] + AltPart(link, hreflang) + LastmodPart(link)
         + ChangefreqPart(link) + PriorityPart(link) + ImagePart(link)
  {
  }

  /** The count of a name over a `url` element's children is the sum over its parts. */
  lemma {:induction false} UrlEntryCountSplit(link: Link, hreflang: bool, name: string)
    ensures CountNamed(UrlEntry(link, hreflang).children, name)
      == CountNamed([Leaf("loc", link.loc)], name) + CountNamed(AltPart(link, hreflang), name)
       + CountNamed(LastmodPart(link), name) + CountNamed(ChangefreqPart(link), name)
       + CountNamed(PriorityPart(link), name) + CountNamed(ImagePart(link), name)
  {
    var loc := [Leaf("loc", link.loc)];
    var a, l, c, p, m := AltPart(link, hreflang), LastmodPart(link), ChangefreqPart(link), PriorityPart(link), ImagePart(link);
    UrlEntryChildren(link, hreflang);
    CountNamedAppend(loc + a + l + c + p, m, name);
    CountNamedAppend(loc + a + l + c, p, name);
    CountNamedAppend(loc + a + l, c, name);
    CountNamedAppend(loc + a, l, name);
    CountNamedAppend(loc, a, name);
  }

  /** Each optional part holds children of one name only. */
  lemma UrlEntryPartCounts(link: Link, hreflang: bool, name: string)
    ensures CountNamed([Leaf("loc", link.loc)], name) == (if name == "loc" then 1 else 0)
    ensures CountNamed(AltPart(link, hreflang), name) == (if name == "xhtml:link" then |AltPart(link, hreflang)| else 0)
    ensures CountNamed(LastmodPart(link), name) == (if name == "lastmod" then |LastmodPart(link)| else 0)
    ensures CountNamed(ChangefreqPart(link), name) == (if name == "changefreq" then |ChangefreqPart(link)| else 0)
    ensures CountNamed(PriorityPart(link), name) == (if name == "priority" then |PriorityPart(link)| else 0)
    ensures CountNamed(ImagePart(link), name) == (if name == "image:image" then |ImagePart(link)| else 0)
  {
    CountNamedUniform([Leaf("loc", link.loc)], name, "loc");
    CountNamedUniform(AltPart(link, hreflang), name, "xhtml:link");
    CountNamedUniform(LastmodPart(link), name, "lastmod");
    CountNamedUniform(ChangefreqPart(link), name, "changefreq");
    CountNamedUniform(PriorityPart(link), name, "priority");
    CountNamedUniform(ImagePart(link), name, "image:image");
  }

  /**
   * The children of a `url` element come in the fixed order loc, xhtml:link,
   * lastmod, changefreq, priority, image:image, and `loc` (the link's URL) is first.
   */
  lemma UrlEntryOrder(link: Link, hreflang: bool)
    ensures var ch := UrlEntry(link, hreflang).children;
      && |ch| >= 1 && ch[0] == Leaf("loc", link.loc)
      && forall i, j :: 0 <= i < j < |ch| ==> ChildRank(ch[i]) <= ChildRank(ch[j])
  {
    var ch := UrlEntry(link, hreflang).children;
    UrlEntryChildren(link, hreflang);
    var na, nl, nc, np := |AltPart(link, hreflang)|, |LastmodPart(link)|, |ChangefreqPart(link)|, |PriorityPart(link)|;
    forall k | 0 <= k < |ch| ensures ChildRank(ch[k]) == PartRank(k, na, nl, nc, np) {
      UrlEntryRankAt(link, hreflang, k);
    }
  }

  /** The child at position k has the rank of the part that position falls in. */
  lemma UrlEntryRankAt(link: Link, hreflang: bool, k: nat)
    requires k < |UrlEntry(link, hreflang).children|
    ensures ChildRank(UrlEntry(link, hreflang).children[k])
      == PartRank(k, |AltPart(link, hreflang)|, |LastmodPart(link)|, |ChangefreqPart(link)|, |PriorityPart(link)|)
  {
    var a, l, c, p, m := AltPart(link, hreflang), LastmodPart(link), ChangefreqPart(link), PriorityPart(link), ImagePart(link);
    var ch := UrlEntry(link, hreflang).children;
    UrlEntryChildren(link, hreflang);
    if k == 0 {
    } else if k < 1 + |a| {
      assert ch[k] == a[k - 1];
    } else if k < 1 + |a| + |l| {
      assert ch[k] == l[k - 1 - |a|];
    } else if k < 1 + |a| + |l| + |c| {
      assert ch[k] == c[k - 1 - |a| - |l|];
    } else if k < 1 + |a| + |l| + |c| + |p| {
      assert ch[k] == p[k - 1 - |a| - |l| - |c|];
    } else {
      assert ch[k] == m[k - 1 - |a| - |l| - |c| - |p|];
    }
  }

  /**
   * The `url` element of a link has one loc; one xhtml:link per alternate
   * exactly when the link has alternates and the sitemap is hreflang; a
   * lastmod, changefreq and priority each exactly when set; one image per
   * image path.
   */
  lemma UrlEntryCounts(link: Link, hreflang: bool)
    ensures var ch := UrlEntry(link, hreflang).children;
      && CountNamed(ch, "loc") == 1
      && CountNamed(ch, "xhtml:link") == (if link.alternates.Some? && hreflang then |link.alternates.value| else 0)
      && CountNamed(ch, "lastmod") == (if link.lastmod.Some? then 1 else 0)
      && CountNamed(ch, "changefreq") == (if link.changefreq != Null then 1 else 0)
      && CountNamed(ch, "priority") == (if link.priority != Null then 1 else 0)
      && CountNamed(ch, "image:image") == |link.images|
  {
    UrlEntryCountSplit(link, hreflang, "loc");
    UrlEntryPartCounts(link, hreflang, "loc");
    UrlEntryCountSplit(link, hreflang, "xhtml:link");
    UrlEntryPartCounts(link, hreflang, "xhtml:link");
    UrlEntryCountSplit(link, hreflang, "lastmod");
    UrlEntryPartCounts(link, hreflang, "lastmod");
    UrlEntryCountSplit(link, hreflang, "changefreq");
    UrlEntryPartCounts(link, hreflang, "changefreq");
    UrlEntryCountSplit(link, hreflang, "priority");
    UrlEntryPartCounts(link, hreflang, "priority");
    UrlEntryCountSplit(link, hreflang, "image:image");
    UrlEntryPartCounts(link, hreflang, "image:image");
  }

  /** The rank of position k in a child list made of a loc, then parts of the given sizes. */
  function PartRank(k: nat, na: nat, nl: nat, nc: nat, np: nat): nat {
    if k == 0 then 0
    else if k < 1 + na then 1
    else if k < 1 + na + nl then 2
    else if k < 1 + na + nl + nc then 3
    else if k < 1 + na + nl + nc + np then 4
    else 5
  }

  /** The `urlset` document holds one `url` per link, in input order, each located at the link's URL. */
  lemma DeltaDocumentShape(links: seq<Link>, hreflang: bool, attrs: OrderedMap<string, string>)
    ensures var d := DeltaDocument(links, hreflang, attrs);
      && d.name == "urlset" && d.attrs == attrs && |d.children| == |links|
      && forall i :: 0 <= i < |links| ==>
           d.children[i].Element? && d.children[i].name == "url"
           && |d.children[i].children| >= 1
           && d.children[i].children[0] == Leaf("loc", links[i].loc)
  {
    forall i | 0 <= i < |links|
      ensures DeltaDocument(links, hreflang, attrs).children[i] == UrlEntry(links[i], hreflang)
      ensures UrlEntry(links[i], hreflang).children[0] == Leaf("loc", links[i].loc)
    {
      UrlEntriesAt(links, hreflang, i);
      UrlEntryOrder(links[i], hreflang);
    }
  }

  // ---------------------------------------------------------------------
  // Hreflang, attributes and delta numbering

  /** The number of configured languages left after removing the excluded langcodes. */
  function KeptLanguageCount(languages: seq<string>, excluded: set<string>): nat {
    |KeptLanguages(languages, excluded)|
  }

  /** The configured langcodes that are not excluded. */
  function KeptLanguages(languages: seq<string>, excluded: set<string>): (r: set<string>)
    ensures forall l :: l in r <==> l in languages && l !in excluded
  {
    if languages == [] then {}
    else
      var last := languages[|languages| - 1];
      KeptLanguages(languages[..|languages| - 1], excluded) + (if last in excluded then {} else {last})
  }

  /** isHreflangSitemap(): the cached answer, or more than one kept language. */
  function Hreflang(st: GenState, languages: seq<string>): bool {
    if st.hreflangCache.Some? then st.hreflangCache.value
    else KeptLanguageCount(languages, st.settings.excludedLanguages) > 1
  }

  /** Removes every pair with key k (PHP unset). */
  function RemoveKey(m: OrderedMap<string, string>, k: string): (r: OrderedMap<string, string>)
    ensures forall i :: 0 <= i < |r| ==> r[i].0 != k
  {
    if m == [] then [] else if m[0].0 == k then RemoveKey(m[1..], k) else [m[0]] + RemoveKey(m[1..], k)
  }

  /** Unsetting a key twice is unsetting it once. */
  lemma {:induction false} RemoveKeyIdempotent(m: OrderedMap<string, string>, k: string)
    ensures RemoveKey(RemoveKey(m, k), k) == RemoveKey(m, k)
  {
    if m != [] {
      RemoveKeyIdempotent(m[1..], k);
      if m[0].0 != k {
        assert RemoveKey(m, k)[1..] == RemoveKey(m[1..], k);
      }
    }
  }

  /** The state after writing one delta document: hreflang cached, xmlns:xhtml unset unless hreflang. */
  function AfterDelta(st: GenState, languages: seq<string>): GenState {
    var h := Hreflang(st, languages);
    st.(hreflangCache := Some(h),
        attributes := if h then st.attributes else RemoveKey(st.attributes, "xmlns:xhtml"))
  }

  /** generateSitemapDelta(): the document written in state st. */
  function DeltaOf(st: GenState, languages: seq<string>, links: seq<Link>): Node {
    DeltaDocument(links, Hreflang(st, languages), AfterDelta(st, languages).attributes)
  }

  /** The rows stored for a context (none when the context has no rows). */
  function RowsOf(t: Table, context: string): seq<Row> {
    if context in t then t[context] else []
  }

  /** SELECT MAX(delta) of some rows: None (SQL NULL) when there are none. */
  function MaxDelta(rows: seq<Row>): Option<int> {
    if rows == [] then None
    else
      match MaxDelta(rows[1..])
      case None => Some(rows[0].delta)
      case Some(m) => Some(if rows[0].delta > m then rows[0].delta else m)
  }

  /** MAX(delta) + 1, where NULL + 1 is 1. */
  function NextDelta(rows: seq<Row>): int {
    match MaxDelta(rows)
    case None => 1
    case Some(m) => m + 1
  }

  /** generateSitemap(): numbers, writes and stores one delta. */
  function GenerateSitemapSpec(st: GenState, languages: seq<string>, context: string, links: seq<Link>,
                               remove: bool, now: int): GenState
  {
    var delta := if remove then FIRST_CHUNK_INDEX else NextDelta(RowsOf(st.table, context));
    var row := Row(delta, DeltaOf(st, languages, links), now);
    var kept := if remove then [] else RowsOf(st.table, context);
    AfterDelta(st, languages).(table := st.table[context := kept + [row]])
  }

  /** The deltas of a context are 1, 2, ..., n in order. */
  predicate Consecutive(rows: seq<Row>) {
    forall i :: 0 <= i < |rows| ==> rows[i].delta == i + 1
  }

  lemma {:induction false} MaxDeltaBound(rows: seq<Row>, b: int)
    requires rows != []
    requires forall i :: 0 <= i < |rows| ==> rows[i].delta <= b
    ensures MaxDelta(rows).Some? && MaxDelta(rows).value <= b
  {
    if |rows| > 1 {
      MaxDeltaBound(rows[1..], b);
    }
  }

  lemma {:induction false} MaxDeltaAttained(rows: seq<Row>)
    requires rows != []
    ensures MaxDelta(rows).Some? && exists i :: 0 <= i < |rows| && rows[i].delta == MaxDelta(rows).value
    ensures forall i :: 0 <= i < |rows| ==> rows[i].delta <= MaxDelta(rows).value
  {
    if |rows| > 1 {
      MaxDeltaAttained(rows[1..]);
      var i :| 0 <= i < |rows[1..]| && rows[1..][i].delta == MaxDelta(rows[1..]).value;
      assert rows[i + 1].delta == MaxDelta(rows[1..]).value;
    }
  }

  /** Appending a row raises MAX(delta) to the row's delta when that is larger. */
  lemma {:induction false} MaxDeltaSnoc(rows: seq<Row>, r: Row)
    ensures MaxDelta(rows + [r]) == match MaxDelta(rows)
      case None => Some(r.delta)
      case Some(m) => Some(if r.delta > m then r.delta else m)
  {
    if rows == [] {
      assert [r][1..] == [];
    } else {
      assert (rows + [r])[1..] == rows[1..] + [r];
      MaxDeltaSnoc(rows[1..], r);
    }
  }

  /** On consecutively numbered rows the next delta is one past the last. */
  lemma ConsecutiveNext(rows: seq<Row>)
    requires Consecutive(rows)
    ensures NextDelta(rows) == |rows| + 1
  {
    if rows != [] {
      MaxDeltaBound(rows, |rows|);
      MaxDeltaAttained(rows);
      assert rows[|rows| - 1].delta == |rows|;
    }
  }

  /**
   * generateSitemap numbering: with remove, the context's rows are replaced by
   * the single delta 1; otherwise the new delta is MAX+1 (1 for a context
   * without rows) and is appended; other contexts' rows never change;
   * consecutive numbering of the context is preserved.
   */
  lemma GenerateSitemapRows(st: GenState, languages: seq<string>, context: string, links: seq<Link>,
                            remove: bool, now: int)
    ensures var st' := GenerateSitemapSpec(st, languages, context, links, remove, now);
      && (forall c :: c != context ==> RowsOf(st'.table, c) == RowsOf(st.table, c))
      && (remove ==> RowsOf(st'.table, context) == [Row(1, DeltaOf(st, languages, links), now)])
      && (!remove ==> RowsOf(st'.table, context)
                        == RowsOf(st.table, context) + [Row(NextDelta(RowsOf(st.table, context)), DeltaOf(st, languages, links), now)])
      && (!remove && RowsOf(st.table, context) == [] ==> RowsOf(st'.table, context)[0].delta == 1)
      && (Consecutive(RowsOf(st.table, context)) || remove ==> Consecutive(RowsOf(st'.table, context)))
  {
    if !remove && Consecutive(RowsOf(st.table, context)) {
      ConsecutiveNext(RowsOf(st.table, context));
    }
  }

  /**
   * The hreflang answer is computed once: after any delta the cache holds it,
   * and later settings changes do not alter what later deltas use.
   */
  lemma HreflangIsCached(st: GenState, languages: seq<string>, s: GeneratorSettings)
    ensures var st' := AfterDelta(st, languages);
      Hreflang(st'.(settings := s), languages) == Hreflang(st, languages)
  {
  }

  /** The attribute lists that the process can reach. */
  predicate ReachableAttributes(attrs: OrderedMap<string, string>) {
    attrs == InitialAttributes || attrs == NonHreflangAttributes
  }

  /**
   * The `urlset` root always carries xmlns and xmlns:image; it carries
   * xmlns:xhtml only while no non-hreflang document has been written in the
   * process, and once unset it stays unset for every later document.
   */
  lemma AttributesEvolve(st: GenState, languages: seq<string>)
    requires ReachableAttributes(st.attributes)
    ensures var st' := AfterDelta(st, languages);
      && ReachableAttributes(st'.attributes)
      && Lookup(st'.attributes, "xmlns") == Some(XMLNS)
      && Lookup(st'.attributes, "xmlns:image") == Some(XMLNS_IMAGE)
      && (!Hreflang(st, languages) ==> Lookup(st'.attributes, "xmlns:xhtml") == None)
      && (st.attributes == NonHreflangAttributes ==> st'.attributes == NonHreflangAttributes)
  {
    var img: OrderedMap<string, string> := [("xmlns:image", XMLNS_IMAGE)];
    assert RemoveKey([], "xmlns:xhtml") == [];
    assert RemoveKey(img, "xmlns:xhtml") == img by {
      assert img[1..] == [];
    }
    assert RemoveKey(NonHreflangAttributes[1..], "xmlns:xhtml") == img by {
      assert NonHreflangAttributes[1..] == img;
    }
    assert RemoveKey(NonHreflangAttributes, "xmlns:xhtml") == NonHreflangAttributes;
    assert RemoveKey(InitialAttributes[1..], "xmlns:xhtml") == img by {
      assert InitialAttributes[1..][1..] == img;
    }
    assert RemoveKey(InitialAttributes, "xmlns:xhtml") == NonHreflangAttributes;
    assert Lookup(img, "xmlns:xhtml") == None by {
      assert img[1..] == [];
    }
    assert Lookup(NonHreflangAttributes, "xmlns:xhtml") == None by {
      assert NonHreflangAttributes[1..] == img;
    }
    assert Lookup(NonHreflangAttributes, "xmlns:image") == Some(XMLNS_IMAGE) by {
      assert NonHreflangAttributes[1..] == img;
    }
    assert Lookup(InitialAttributes, "xmlns:image") == Some(XMLNS_IMAGE) by {
      assert InitialAttributes[1..][1..] == img;
    }
  }

  // ---------------------------------------------------------------------
  // Several deltas in a row

  /**
   * generateSitemap called once per chunk, in order; only the first call may
   * pass remove (as processSegment does, whose delta count is non-zero after
   * its first flush).
   */
  function GenerateAll(st: GenState, languages: seq<string>, context: string, chunks: seq<seq<Link>>,
                       remove: bool, now: int): GenState
  {
    if chunks == [] then st
    else
      var last := |chunks| - 1;
      GenerateSitemapSpec(GenerateAll(st, languages, context, chunks[..last], remove, now),
                          languages, context, chunks[last], remove && last == 0, now)
  }

  /** One more chunk written after the others: only a first chunk can replace the context's rows. */
  lemma GenerateAllExtend(st: GenState, languages: seq<string>, context: string, chunks: seq<seq<Link>>,
                          c: seq<Link>, remove: bool, now: int)
    ensures GenerateAll(st, languages, context, chunks + [c], remove, now)
      == GenerateSitemapSpec(GenerateAll(st, languages, context, chunks, remove, now),
                             languages, context, c, remove && chunks == [], now)
  {
    assert (chunks + [c])[..|chunks|] == chunks;
  }

  /** The rows of consecutive chunks, numbered from d0. */
  function DeltaRows(d0: int, chunks: seq<seq<Link>>, hreflang: bool, attrs: OrderedMap<string, string>, now: int): (r: seq<Row>)
    ensures |r| == |chunks|
  {
    seq(|chunks|, i requires 0 <= i < |chunks| => Row(d0 + i, DeltaDocument(chunks[i], hreflang, attrs), now))
  }

  /** The rows of chunks c0..ck are the rows of c0..c(k-1) and then the row of ck. */
  lemma DeltaRowsSnoc(d0: int, chunks: seq<seq<Link>>, hreflang: bool, attrs: OrderedMap<string, string>, now: int)
    requires chunks != []
    ensures var n := |chunks|;
      DeltaRows(d0, chunks, hreflang, attrs, now)
        == DeltaRows(d0, chunks[..n - 1], hreflang, attrs, now) + [Row(d0 + (n - 1), DeltaDocument(chunks[n - 1], hreflang, attrs), now)]
  {
    var n := |chunks|;
    var a := DeltaRows(d0, chunks, hreflang, attrs, now);
    var b := DeltaRows(d0, chunks[..n - 1], hreflang, attrs, now) + [Row(d0 + (n - 1), DeltaDocument(chunks[n - 1], hreflang, attrs), now)];
    forall i | 0 <= i < n ensures a[i] == b[i] {
      if i < n - 1 {
        assert chunks[..n - 1][i] == chunks[i];
      }
    }
  }

  /** A row numbered MAX+1 raises the next delta by one. */
  lemma NextDeltaSnoc(rows: seq<Row>, doc: Node, now: int)
    ensures NextDelta(rows + [Row(NextDelta(rows), doc, now)]) == NextDelta(rows) + 1
  {
    MaxDeltaSnoc(rows, Row(NextDelta(rows), doc, now));
  }

  /** Rows numbered on from the next delta leave the next delta one past the last of them. */
  lemma {:induction false} NextDeltaAfterRows(base: seq<Row>, chunks: seq<seq<Link>>, hreflang: bool,
                                              attrs: OrderedMap<string, string>, now: int)
    ensures NextDelta(base + DeltaRows(NextDelta(base), chunks, hreflang, attrs, now)) == NextDelta(base) + |chunks|
  {
    var d0 := NextDelta(base);
    if chunks != [] {
      var n := |chunks|;
      var prev := DeltaRows(d0, chunks[..n - 1], hreflang, attrs, now);
      NextDeltaAfterRows(base, chunks[..n - 1], hreflang, attrs, now);
      var row := Row(d0 + (n - 1), DeltaDocument(chunks[n - 1], hreflang, attrs), now);
      DeltaRowsSnoc(d0, chunks, hreflang, attrs, now);
      assert base + (prev + [row]) == (base + prev) + [row];
      NextDeltaSnoc(base + prev, DeltaDocument(chunks[n - 1], hreflang, attrs), now);
    } else {
      assert base + DeltaRows(d0, chunks, hreflang, attrs, now) == base;
    }
  }

  /** A write in a settled state (hreflang cached, attributes settled) only appends the next row. */
  lemma GenerateSettled(st: GenState, languages: seq<string>, context: string, links: seq<Link>, now: int)
    requires AfterDelta(st, languages) == st
    ensures var rows := RowsOf(st.table, context);
      GenerateSitemapSpec(st, languages, context, links, false, now)
        == st.(table := st.table[context := rows + [Row(NextDelta(rows), DeltaDocument(links, Hreflang(st, languages), st.attributes), now)]])
  {
  }

  /** Once a delta has been written, writing another one leaves the cache and the attributes as they are. */
  lemma AfterDeltaSettled(st: GenState, languages: seq<string>)
    ensures AfterDelta(AfterDelta(st, languages), languages) == AfterDelta(st, languages)
  {
    if !Hreflang(st, languages) {
      RemoveKeyIdempotent(st.attributes, "xmlns:xhtml");
    }
  }

  /**
   * Writing chunks c0, ..., c(k-1) in a row: the context gets k new rows, in
   * chunk order, numbered consecutively from 1 (remove) or from MAX+1, each
   * holding its chunk's `urlset` document under the hreflang answer and root
   * attributes fixed by the first write; with remove the old rows are gone.
   * Other contexts' rows are untouched.
   */
  lemma {:induction false} GenerateAllRows(st: GenState, languages: seq<string>, context: string,
                                           chunks: seq<seq<Link>>, remove: bool, now: int)
    requires chunks != []
    ensures var h := Hreflang(st, languages);
      var st1 := AfterDelta(st, languages);
      var base := if remove then [] else RowsOf(st.table, context);
      GenerateAll(st, languages, context, chunks, remove, now)
        == st1.(table := st.table[context := base + DeltaRows(NextDelta(base), chunks, h, st1.attributes, now)])
  {
    var n := |chunks|;
    if n == 1 {
      GenerateAllFirst(st, languages, context, chunks, remove, now);
    } else {
      GenerateAllRows(st, languages, context, chunks[..n - 1], remove, now);
      GenerateAllStep(st, languages, context, chunks, remove, now);
    }
  }

  lemma GenerateAllFirst(st: GenState, languages: seq<string>, context: string,
                         chunks: seq<seq<Link>>, remove: bool, now: int)
    requires |chunks| == 1
    ensures var h := Hreflang(st, languages);
      var st1 := AfterDelta(st, languages);
      var base := if remove then [] else RowsOf(st.table, context);
      GenerateAll(st, languages, context, chunks, remove, now)
        == st1.(table := st.table[context := base + DeltaRows(NextDelta(base), chunks, h, st1.attributes, now)])
  {
    var h := Hreflang(st, languages);
    var attrs := AfterDelta(st, languages).attributes;
    var base := if remove then [] else RowsOf(st.table, context);
    assert chunks[..0] == [];
    assert DeltaRows(NextDelta(base), chunks, h, attrs, now) == [Row(NextDelta(base), DeltaDocument(chunks[0], h, attrs), now)];
  }

  /** The induction step of GenerateAllRows: one more chunk in a settled state. */
  lemma GenerateAllStep(st: GenState, languages: seq<string>, context: string,
                        chunks: seq<seq<Link>>, remove: bool, now: int)
    requires |chunks| >= 2
    requires var h := Hreflang(st, languages);
      var st1 := AfterDelta(st, languages);
      var base := if remove then [] else RowsOf(st.table, context);
      GenerateAll(st, languages, context, chunks[..|chunks| - 1], remove, now)
        == st1.(table := st.table[context := base + DeltaRows(NextDelta(base), chunks[..|chunks| - 1], h, st1.attributes, now)])
    ensures var h := Hreflang(st, languages);
      var st1 := AfterDelta(st, languages);
      var base := if remove then [] else RowsOf(st.table, context);
      GenerateAll(st, languages, context, chunks, remove, now)
        == st1.(table := st.table[context := base + DeltaRows(NextDelta(base), chunks, h, st1.attributes, now)])
  {
    var h := Hreflang(st, languages);
    var st1 := AfterDelta(st, languages);
    var base := if remove then [] else RowsOf(st.table, context);
    var n := |chunks|;
    var prevRows := DeltaRows(NextDelta(base), chunks[..n - 1], h, st1.attributes, now);
    SettledWrite(st, languages, context, st.table[context := base + prevRows], chunks[n - 1], now);
    RowsExtend(base, chunks, h, st1.attributes, now);
    MapUpdateTwice(st.table, context, base + prevRows, base + DeltaRows(NextDelta(base), chunks, h, st1.attributes, now));
  }

  /** After a first write, a further write with table t appends the next row to t's rows. */
  lemma SettledWrite(st: GenState, languages: seq<string>, context: string, t: Table, links: seq<Link>, now: int)
    ensures var st1 := AfterDelta(st, languages);
      var rows := RowsOf(t, context);
      GenerateSitemapSpec(st1.(table := t), languages, context, links, false, now)
        == st1.(table := t[context := rows + [Row(NextDelta(rows), DeltaDocument(links, Hreflang(st, languages), st1.attributes), now)]])
  {
    AfterDeltaSettled(st, languages);
    GenerateSettled(AfterDelta(st, languages).(table := t), languages, context, links, now);
  }

  /** The rows of one more chunk: the next row, numbered one past the previous rows, is appended. */
  lemma RowsExtend(base: seq<Row>, chunks: seq<seq<Link>>, h: bool, attrs: OrderedMap<string, string>, now: int)
    requires chunks != []
    ensures var n := |chunks|;
      var prev := base + DeltaRows(NextDelta(base), chunks[..n - 1], h, attrs, now);
      prev + [Row(NextDelta(prev), DeltaDocument(chunks[n - 1], h, attrs), now)]
        == base + DeltaRows(NextDelta(base), chunks, h, attrs, now)
  {
    var n := |chunks|;
    NextDeltaAfterRows(base, chunks[..n - 1], h, attrs, now);
    DeltaRowsSnoc(NextDelta(base), chunks, h, attrs, now);
  }

  lemma MapUpdateTwice<K, V>(t: map<K, V>, k: K, a: V, b: V)
    ensures t[k := a][k := b] == t[k := b]
  {
  }

  /**
   * The same in terms of the stored rows: the kept rows stay in front,
   * MAX(delta) rises by the number of chunks, with remove the first new row
   * is delta 1, and other contexts keep their rows (GenerateAllRowAt gives
   * each new row).
   */
  lemma GenerateAllNumbering(st: GenState, languages: seq<string>, context: string,
                             chunks: seq<seq<Link>>, remove: bool, now: int)
    requires chunks != []
    ensures var st' := GenerateAll(st, languages, context, chunks, remove, now);
      var base := if remove then [] else RowsOf(st.table, context);
      var rows := RowsOf(st'.table, context);
      && (forall c :: c != context ==> RowsOf(st'.table, c) == RowsOf(st.table, c))
      && |rows| == |base| + |chunks|
      && rows[..|base|] == base
      && NextDelta(rows) == NextDelta(base) + |chunks|
      && (remove ==> rows[0].delta == FIRST_CHUNK_INDEX)
  {
    GenerateAllRows(st, languages, context, chunks, remove, now);
    var base := if remove then [] else RowsOf(st.table, context);
    NextDeltaAfterRows(base, chunks, Hreflang(st, languages), AfterDelta(st, languages).attributes, now);
  }

  /** The i-th of several chunks written in a row is the row after the kept rows plus i. */
  lemma GenerateAllRowAt(st: GenState, languages: seq<string>, context: string,
                         chunks: seq<seq<Link>>, remove: bool, now: int, i: nat)
    requires i < |chunks|
    ensures var base := if remove then [] else RowsOf(st.table, context);
      var rows := RowsOf(GenerateAll(st, languages, context, chunks, remove, now).table, context);
      && |base| + i < |rows|
      && rows[|base| + i] == Row(NextDelta(base) + i, DeltaOf(st, languages, chunks[i]), now)
  {
    GenerateAllRows(st, languages, context, chunks, remove, now);
  }

  // ---------------------------------------------------------------------
  // The generator service

  class Generator {
    /** Langcodes of LanguageManager::getLanguages(). */
    const languages: seq<string>
    /** $GLOBALS['base_url']. */
    const globalBaseUrl: string

    var settings: GeneratorSettings
    var hreflangCache: Option<bool>
    /** The static $attributes array: shared by every document the process writes. */
    var attributes: OrderedMap<string, string>
    var table: Table

    function State(): GenState
      reads this
    {
      GenState(settings, hreflangCache, attributes, table)
    }

    constructor (languages: seq<string>, globalBaseUrl: string, table: Table)
      ensures this.languages == languages && this.globalBaseUrl == globalBaseUrl
      ensures State() == GenState(GeneratorSettings({}, ""), None, InitialAttributes, table)
    {
      this.languages := languages;
      this.globalBaseUrl := globalBaseUrl;
      settings := GeneratorSettings({}, "");
      hreflangCache := None;
      attributes := InitialAttributes;
      this.table := table;
    }

    /** setSettings(): replaces the settings and nothing else (the hreflang cache survives). */
    method SetSettings(s: GeneratorSettings)
      modifies this
      ensures State() == old(State()).(settings := s)
    {
      settings := s;
    }

    method IsHreflangSitemap() returns (h: bool)
      modifies this
      ensures h == Hreflang(old(State()), languages)
      ensures State() == old(State()).(hreflangCache := Some(h))
    {
      if hreflangCache.None? {
        hreflangCache := Some(KeptLanguageCount(languages, settings.excludedLanguages) > 1);
      }
      h := hreflangCache.value;
    }

    /** The `url` element of one link, written child by child. */
    static method WriteUrl(link: Link, hreflang: bool) returns (n: Node)
      ensures n == UrlEntry(link, hreflang)
    {
      var alts: seq<Node> := [];
      if link.alternates.Some? && hreflang {
        alts := WriteAltLinks(link.alternates.value);
      }
      var lastmod: seq<Node> := [];
      if link.lastmod.Some? {
        lastmod := [Leaf("lastmod", link.lastmod.value)];
      }
      var changefreq: seq<Node> := [];
      if link.changefreq != Null {
        changefreq := [Leaf("changefreq", ToPhpString(link.changefreq))];
      }
      var priority: seq<Node> := [];
      if link.priority != Null {
        priority := [Leaf("priority", ToPhpString(link.priority))];
      }
      var images: seq<Node> := [];
      if |link.images| > 0 {
        images := WriteImages(link.images);
      }
      n := Element("url", [], [Leaf("loc", link.loc)] + alts + lastmod + changefreq + priority + images);
    }

    /** One `xhtml:link` per alternate, in map order. */
    static method WriteAltLinks(alts: AltMap) returns (nodes: seq<Node>)
      ensures nodes == AltLinkNodes(alts)
    {
      nodes := [];
      for i := 0 to |alts|
        invariant nodes == AltLinkNodes(alts)[..i]
      {
        nodes := nodes + [AltLinkNode(alts[i].0, alts[i].1)];
        assert AltLinkNodes(alts)[..i + 1] == AltLinkNodes(alts)[..i] + [AltLinkNodes(alts)[i]];
      }
      assert AltLinkNodes(alts)[..|alts|] == AltLinkNodes(alts);
    }

    /** One `image:image` per image path, in order. */
    static method WriteImages(images: seq<string>) returns (nodes: seq<Node>)
      ensures nodes == ImageNodes(images)
    {
      nodes := [];
      for i := 0 to |images|
        invariant nodes == ImageNodes(images)[..i]
      {
        nodes := nodes + [ImageNode(images[i])];
        assert ImageNodes(images)[..i + 1] == ImageNodes(images)[..i] + [ImageNodes(images)[i]];
      }
      assert ImageNodes(images)[..|images|] == ImageNodes(images);
    }

    /** The `url` elements of a chunk, in link order. */
    static method WriteUrls(links: seq<Link>, hreflang: bool) returns (entries: seq<Node>)
      ensures entries == UrlEntries(links, hreflang)
    {
      entries := [];
      for i := 0 to |links|
        invariant entries == UrlEntries(links[..i], hreflang)
      {
        var e := WriteUrl(links[i], hreflang);
        assert links[..i + 1][..i] == links[..i];
        entries := entries + [e];
      }
      assert links[..|links|] == links;
    }

    /** generateSitemapDelta(): the `urlset` document of a chunk of links. */
    method GenerateSitemapDelta(links: seq<Link>) returns (doc: Node)
      modifies this
      ensures doc == DeltaOf(old(State()), languages, links)
      ensures State() == AfterDelta(old(State()), languages)
    {
      var h := IsHreflangSitemap();
      if !h {
        attributes := RemoveKey(attributes, "xmlns:xhtml");
      }
      var entries := WriteUrls(links, h);
      doc := Element("urlset", attributes, entries);
    }

    /** generateSitemap(): writes the chunk and inserts it as the next delta (or as delta 1, replacing the context). */
    method GenerateSitemap(context: string, links: seq<Link>, remove: bool, now: int)
      modifies this
      ensures State() == GenerateSitemapSpec(old(State()), languages, context, links, remove, now)
    {
      var delta := if remove then FIRST_CHUNK_INDEX else NextDelta(RowsOf(table, context));
      var doc := GenerateSitemapDelta(links);
      var row := Row(delta, doc, now);
      if remove {
        table := table[context := []];
      }
      table := table[context := RowsOf(table, context) + [row]];
    }

    /** getCustomBaseUrl(): the configured base URL, or the global one when it is empty. */
    function GetCustomBaseUrl(): (r: string)
      reads this
      ensures !StrEmpty(settings.baseUrl) ==> r == settings.baseUrl
      ensures StrEmpty(settings.baseUrl) ==> r == globalBaseUrl
    {
      if !StrEmpty(settings.baseUrl) then settings.baseUrl else globalBaseUrl
    }

    /**
     * generateSitemapIndex(): one `sitemap` per delta, in the given order,
     * located at base URL + the delta's route and dated by its creation.
     * `route` renders the simple_sitemap.delta route; `formatDate` is date_iso8601.
     */
    method GenerateSitemapIndex(context: string, deltaInfo: seq<(nat, int)>,
                                route: (string, nat) -> string, formatDate: int -> string)
      returns (doc: Node)
      ensures doc.Element? && doc.name == "sitemapindex" && doc.attrs == IndexAttributes
      ensures |doc.children| == |deltaInfo|
      ensures forall i :: 0 <= i < |deltaInfo| ==>
        doc.children[i] == SitemapEntry(GetCustomBaseUrl() + route(context, deltaInfo[i].0), formatDate(deltaInfo[i].1))
    {
      var entries: seq<Node> := [];
      for i := 0 to |deltaInfo|
        invariant |entries| == i
        invariant forall k :: 0 <= k < i ==>
          entries[k] == SitemapEntry(GetCustomBaseUrl() + route(context, deltaInfo[k].0), formatDate(deltaInfo[k].1))
      {
        var url := route(context, deltaInfo[i].0);
        entries := entries + [SitemapEntry(GetCustomBaseUrl() + url, formatDate(deltaInfo[i].1))];
      }
      doc := Element("sitemapindex", IndexAttributes, entries);
    }
  }
}

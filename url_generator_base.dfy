/**
 * The shared logic of the URL producers (src/Plugin/simple_sitemap/
 * UrlGenerator/UrlGeneratorBase.php): base-URL rewriting, the choice of
 * language variants of a path, the fan-out of one path into one buffered
 * link per variant, and the flush of full `max_links` chunks of the buffer
 * into numbered sitemap deltas.
 */
module UrlGeneratorBase {
  import opened Wrappers
  import opened Php
  import opened SitemapData
  import opened Collaborators
  import opened BatchContext
  import opened SitemapGenerator

  /** Language::LANGCODE_NOT_SPECIFIED and Language::LANGCODE_NOT_APPLICABLE. */
  const LANGCODE_NOT_SPECIFIED := "und"
  const LANGCODE_NOT_APPLICABLE := "zxx"

  // ---------------------------------------------------------------------
  // Base URL

  /** replaceBaseUrlWithCustom(): a non-empty custom base_url replaces every occurrence of the global one. */
  function ReplaceBaseUrl(env: Env, s: BatchSettings, url: string): string {
    if !StrEmpty(s.baseUrl) then StrReplace(url, env.globalBaseUrl, s.baseUrl) else url
  }

  /**
   * A URL on the global base URL is moved onto the custom base URL with its
   * path kept (up to further occurrences of the global base in the path); with
   * an empty custom base_url, or a URL that does not mention the global base,
   * nothing changes.
   */
  lemma ReplaceBaseUrlMoves(env: Env, s: BatchSettings, rest: string)
    ensures env.globalBaseUrl != [] && !StrEmpty(s.baseUrl) ==>
      ReplaceBaseUrl(env, s, env.globalBaseUrl + rest) == s.baseUrl + StrReplace(rest, env.globalBaseUrl, s.baseUrl)
    ensures StrEmpty(s.baseUrl) ==> ReplaceBaseUrl(env, s, rest) == rest
    ensures (forall i: nat :: !OccursAt(rest, env.globalBaseUrl, i)) ==> ReplaceBaseUrl(env, s, rest) == rest
  {
    if env.globalBaseUrl != [] && !StrEmpty(s.baseUrl) {
      StrReplacePrefix(env.globalBaseUrl, rest, s.baseUrl);
    }
    if forall i: nat :: !OccursAt(rest, env.globalBaseUrl, i) {
      StrReplaceAbsent(rest, env.globalBaseUrl, s.baseUrl);
    }
  }

  // ---------------------------------------------------------------------
  // Language variants

  /** The URL of `url` rendered in one language, moved onto the custom base URL. */
  function Rendered(env: Env, s: BatchSettings, url: UrlObject, langcode: string): string {
    ReplaceBaseUrl(env, s, env.render(url, langcode))
  }

  /** A language is offered when it is not excluded or is the default; per translation, its view access decides too. */
  predicate Selected(env: Env, s: BatchSettings, url: UrlObject, l: Language, perTranslation: bool) {
    (l.id !in s.excludedLanguages || l.isDefault) && (perTranslation ==> env.translationAccess(url, l.id))
  }

  /** The alternate map built by the loop over `langs`, one entry written per selected language. */
  function LanguageAlts(env: Env, s: BatchSettings, url: UrlObject, langs: seq<Language>, perTranslation: bool): AltMap {
    if langs == [] then []
    else
      var m := LanguageAlts(env, s, url, langs[..|langs| - 1], perTranslation);
      var l := langs[|langs| - 1];
      if Selected(env, s, url, l, perTranslation) then Put(m, l.id, Rendered(env, s, url, l.id)) else m
  }

  /**
   * The alternate map holds a langcode exactly when one of the languages with
   * that langcode is selected; its URL is that language's rendering; no
   * langcode occurs twice.
   */
  lemma {:induction false} LanguageAltsMembers(env: Env, s: BatchSettings, url: UrlObject, langs: seq<Language>, perTranslation: bool)
    ensures var r := LanguageAlts(env, s, url, langs, perTranslation);
      && UniqueKeys(r)
      && (forall k :: Lookup(r, k).Some? <==>
            exists i :: 0 <= i < |langs| && langs[i].id == k && Selected(env, s, url, langs[i], perTranslation))
      && (forall k :: Lookup(r, k).Some? ==> Lookup(r, k).value == Rendered(env, s, url, k))
  {
    if langs != [] {
      var init := langs[..|langs| - 1];
      var l := langs[|langs| - 1];
      var m := LanguageAlts(env, s, url, init, perTranslation);
      LanguageAltsMembers(env, s, url, init, perTranslation);
      var r := LanguageAlts(env, s, url, langs, perTranslation);
      if Selected(env, s, url, l, perTranslation) {
        PutKeepsUnique(m, l.id, Rendered(env, s, url, l.id));
        forall k ensures Lookup(r, k) == if k == l.id then Some(Rendered(env, s, url, l.id)) else Lookup(m, k) {
          LookupPut(m, l.id, Rendered(env, s, url, l.id), k);
        }
      }
      forall k | Lookup(r, k).Some? ensures exists i :: 0 <= i < |langs| && langs[i].id == k && Selected(env, s, url, langs[i], perTranslation) {
        if Lookup(m, k).Some? {
          var i :| 0 <= i < |init| && init[i].id == k && Selected(env, s, url, init[i], perTranslation);
          assert langs[i] == init[i];
        } else {
          assert langs[|langs| - 1].id == k;
        }
      }
      forall k | exists i :: 0 <= i < |langs| && langs[i].id == k && Selected(env, s, url, langs[i], perTranslation)
        ensures Lookup(r, k).Some?
      {
        var i :| 0 <= i < |langs| && langs[i].id == k && Selected(env, s, url, langs[i], perTranslation);
        if i < |init| {
          assert init[i] == langs[i];
        }
      }
    }
  }

  /** getAlternateUrlsForDefaultLanguage(): the default language only, behind the anonymous access check. */
  function DefaultLanguageAlts(env: Env, s: BatchSettings, url: UrlObject): AltMap {
    if env.anonAccess(url) then [(env.defaultLanguage, Rendered(env, s, url, env.defaultLanguage))] else []
  }

  /** getAlternateUrlsForTranslatedLanguages(): the selected translations, each behind its own view check. */
  function TranslatedAlts(env: Env, s: BatchSettings, url: UrlObject, translations: seq<Language>): AltMap {
    LanguageAlts(env, s, url, translations, true)
  }

  /** getAlternateUrlsForAllLanguages(): every selected site language, behind one anonymous access check. */
  function AllLanguageAlts(env: Env, s: BatchSettings, url: UrlObject): AltMap {
    if env.anonAccess(url) then LanguageAlts(env, s, url, env.languages, false) else []
  }

  /** The translation languages hold und or zxx: the content's language is unknown. */
  predicate UnknownLanguage(translations: seq<Language>) {
    exists i :: 0 <= i < |translations| && translations[i].id in [LANGCODE_NOT_SPECIFIED, LANGCODE_NOT_APPLICABLE]
  }

  /** The branch of addUrlVariants that picks the language variants of a Url. */
  function SelectAlternates(env: Env, s: BatchSettings, url: UrlObject): AltMap {
    var e := env.entityFromUrl(url);
    if e.UrlEntity? && e.isContentEntity && s.skipUntranslated then
      if UnknownLanguage(e.translationLanguages) then DefaultLanguageAlts(env, s, url)
      else TranslatedAlts(env, s, url, e.translationLanguages)
    else AllLanguageAlts(env, s, url)
  }

  /**
   * Which languages a path is offered in. A content entity under
   * skip_untranslated with an unknown language: the default language only,
   * when anonymous access is granted. Any other content entity under
   * skip_untranslated: each of its translations that is selected and viewable.
   * Everything else: every selected site language when anonymous access is
   * granted, none when it is denied. Each URL is its language's rendering, and
   * each langcode appears once.
   */
  lemma AlternatesSelection(env: Env, s: BatchSettings, url: UrlObject)
    ensures var r := SelectAlternates(env, s, url);
      var e := env.entityFromUrl(url);
      var translatedCase := e.UrlEntity? && e.isContentEntity && s.skipUntranslated;
      && UniqueKeys(r)
      && (forall k :: Lookup(r, k).Some? ==> Lookup(r, k).value == Rendered(env, s, url, k))
      && (translatedCase && UnknownLanguage(e.translationLanguages) ==>
            forall k :: Lookup(r, k).Some? <==> k == env.defaultLanguage && env.anonAccess(url))
      && (translatedCase && !UnknownLanguage(e.translationLanguages) ==>
            forall k :: Lookup(r, k).Some? <==>
              exists i :: 0 <= i < |e.translationLanguages| && e.translationLanguages[i].id == k
                && Selected(env, s, url, e.translationLanguages[i], true))
      && (!translatedCase ==>
            forall k :: Lookup(r, k).Some? <==>
              env.anonAccess(url)
              && exists i :: 0 <= i < |env.languages| && env.languages[i].id == k && Selected(env, s, url, env.languages[i], false))
  {
    var e := env.entityFromUrl(url);
    if e.UrlEntity? && e.isContentEntity && s.skipUntranslated {
      if !UnknownLanguage(e.translationLanguages) {
        LanguageAltsMembers(env, s, url, e.translationLanguages, true);
      }
    } else if env.anonAccess(url) {
      LanguageAltsMembers(env, s, url, env.languages, false);
    }
  }

  /** The loop of getAlternateUrlsForTranslatedLanguages/ForAllLanguages over `langs`. */
  method BuildLanguageAlts(env: Env, s: BatchSettings, url: UrlObject, langs: seq<Language>, perTranslation: bool)
    returns (alts: AltMap)
    ensures alts == LanguageAlts(env, s, url, langs, perTranslation)
  {
    alts := [];
    for i := 0 to |langs|
      invariant alts == LanguageAlts(env, s, url, langs[..i], perTranslation)
    {
      var l := langs[i];
      assert langs[..i + 1][..i] == langs[..i];
      if (l.id !in s.excludedLanguages || l.isDefault) && (perTranslation ==> env.translationAccess(url, l.id)) {
        alts := Put(alts, l.id, ReplaceBaseUrl(env, s, env.render(url, l.id)));
      }
    }
    assert langs[..|langs|] == langs;
  }

  /** getAlternateUrlsForTranslatedLanguages(). */
  method AlternateUrlsForTranslatedLanguages(env: Env, s: BatchSettings, url: UrlObject, translations: seq<Language>)
    returns (alts: AltMap)
    ensures UniqueKeys(alts)
    ensures forall k :: Lookup(alts, k).Some? <==>
      exists i :: 0 <= i < |translations| && translations[i].id == k && Selected(env, s, url, translations[i], true)
    ensures alts == TranslatedAlts(env, s, url, translations)
  {
    alts := BuildLanguageAlts(env, s, url, translations, true);
    LanguageAltsMembers(env, s, url, translations, true);
  }

  /** getAlternateUrlsForAllLanguages(). */
  method AlternateUrlsForAllLanguages(env: Env, s: BatchSettings, url: UrlObject) returns (alts: AltMap)
    ensures UniqueKeys(alts)
    ensures forall k :: Lookup(alts, k).Some? <==>
      env.anonAccess(url)
      && exists i :: 0 <= i < |env.languages| && env.languages[i].id == k && Selected(env, s, url, env.languages[i], false)
    ensures alts == AllLanguageAlts(env, s, url)
  {
    alts := [];
    if env.anonAccess(url) {
      alts := BuildLanguageAlts(env, s, url, env.languages, false);
      LanguageAltsMembers(env, s, url, env.languages, false);
    }
  }

  /** getImages(): every image URL of the entity, moved onto the custom base URL, in order. */
  method GetImages(env: Env, s: BatchSettings, entityType: string, id: nat) returns (images: seq<string>)
    ensures |images| == |env.imageUrls(entityType, id)|
    ensures forall i :: 0 <= i < |images| ==> images[i] == ReplaceBaseUrl(env, s, env.imageUrls(entityType, id)[i])
  {
    var urls := env.imageUrls(entityType, id);
    images := [];
    for i := 0 to |urls|
      invariant |images| == i
      invariant forall j :: 0 <= j < i ==> images[j] == ReplaceBaseUrl(env, s, urls[j])
    {
      images := images + [ReplaceBaseUrl(env, s, urls[i])];
    }
  }

  /** The image list getImages() yields. */
  function ImagesOf(env: Env, s: BatchSettings, entityType: string, id: nat): seq<string> {
    var urls := env.imageUrls(entityType, id);
    seq(|urls|, i requires 0 <= i < |urls| => ReplaceBaseUrl(env, s, urls[i]))
  }

  // ---------------------------------------------------------------------
  // addUrl

  /**
   * `$path_data + ['langcode' => …, 'url' => …, 'alternate_urls' => …]` after
   * 'url' has been unset: a langcode or alternate map the path data already
   * carries wins, the URL is always the variant's.
   */
  function VariantLink(pd: PathData, langcode: string, url: string, alts: AltMap): Link {
    Link(url,
         if pd.langcode.Some? then pd.langcode else Some(langcode),
         if pd.alternates.Some? then pd.alternates else Some(alts),
         pd.lastmod, pd.priority, pd.changefreq, pd.images, pd.context, pd.meta)
  }

  /** A path data record whose url is already a string, stored as it is. */
  function RawLink(pd: PathData): Link
    requires pd.url.UrlString?
  {
    Link(pd.url.s, pd.langcode, pd.alternates, pd.lastmod, pd.priority, pd.changefreq, pd.images, pd.context, pd.meta)
  }

  /** One link per entry of the alternate map, in map order. */
  function Variants(pd: PathData, alts: AltMap): seq<Link> {
    seq(|alts|, i requires 0 <= i < |alts| => VariantLink(pd, alts[i].0, alts[i].1, alts))
  }

  /** addUrl(): the links a path data record adds to the buffer. */
  function AddedLinks(env: Env, s: BatchSettings, pd: PathData): seq<Link> {
    match pd.url
    case UrlString(_) => [RawLink(pd)]
    case UrlObj(u) => Variants(pd, SelectAlternates(env, s, u))
  }

  /** addUrl(): appends those links to the context's buffer. */
  function AddUrlSpec(b: BatchState, env: Env, s: BatchSettings, context: string, pd: PathData): BatchState {
    AppendResults(b, context, AddedLinks(env, s, pd))
  }

  /**
   * A Url record becomes one buffered link per selected language, each located
   * at its language's URL and carrying the whole alternate map; a langcode
   * or map the record brings itself wins, and every other field of the
   * record is carried over. A record with a string URL is buffered
   * unchanged. Only that context's buffer grows, at its end.
   */
  lemma AddUrlFanOut(b: BatchState, env: Env, s: BatchSettings, context: string, pd: PathData)
    ensures var b' := AddUrlSpec(b, env, s, context, pd);
      var added := AddedLinks(env, s, pd);
      && ResultsOf(b', context) == ResultsOf(b, context) + added
      && (forall c :: c != context ==> ResultsOf(b', c) == ResultsOf(b, c))
      && b'.(results := b.results) == b
      && (pd.url.UrlString? ==>
            && |added| == 1 && added[0].loc == pd.url.s
            && added[0].langcode == pd.langcode && added[0].alternates == pd.alternates
            && added[0].context == pd.context && added[0].priority == pd.priority && added[0].changefreq == pd.changefreq
            && added[0].lastmod == pd.lastmod && added[0].images == pd.images && added[0].meta == pd.meta)
      && (pd.url.UrlObj? ==>
            var alts := SelectAlternates(env, s, pd.url.obj);
            && |added| == |alts|
            && (forall k :: Lookup(alts, k).Some? <==> k in Keys(alts))
            && (forall i :: 0 <= i < |added| ==>
                  && added[i].loc == Rendered(env, s, pd.url.obj, alts[i].0)
                  && (pd.langcode.None? ==> added[i].langcode == Some(alts[i].0))
                  && (pd.alternates.None? ==> added[i].alternates == Some(alts))
                  && (pd.langcode.Some? ==> added[i].langcode == pd.langcode)
                  && (pd.alternates.Some? ==> added[i].alternates == pd.alternates)
                  && added[i].context == pd.context && added[i].priority == pd.priority && added[i].changefreq == pd.changefreq
                  && added[i].lastmod == pd.lastmod && added[i].images == pd.images && added[i].meta == pd.meta))
  {
    AppendResultsFrame(b, context, AddedLinks(env, s, pd));
    if pd.url.UrlObj? {
      var u := pd.url.obj;
      var alts := SelectAlternates(env, s, u);
      AlternatesSelection(env, s, u);
      forall k ensures Lookup(alts, k).Some? <==> k in Keys(alts) {
        LookupKeys(alts, k);
      }
      forall i | 0 <= i < |alts| ensures alts[i].1 == Rendered(env, s, u, alts[i].0) {
        LookupFirst(alts, i);
      }
    }
  }

  /** addUrl(): a Url record fans out into its variants, any other record is buffered as it is. */
  method AddUrl(batch: Batch, env: Env, s: BatchSettings, context: string, pd: PathData)
    modifies batch
    ensures batch.State() == AddUrlSpec(old(batch.State()), env, s, context, pd)
  {
    match pd.url
    case UrlObj(u) =>
      AddUrlVariants(batch, env, s, context, pd, u);
    case UrlString(_) =>
      batch.AddBatchResult(context, RawLink(pd));
  }

  /** addUrlVariants(): picks the language variants, then buffers one link per variant in map order. */
  method AddUrlVariants(batch: Batch, env: Env, s: BatchSettings, context: string, pd: PathData, u: UrlObject)
    modifies batch
    ensures batch.State() == AppendResults(old(batch.State()), context, Variants(pd, SelectAlternates(env, s, u)))
  {
    var e := env.entityFromUrl(u);
    var alts: AltMap;
    if e.UrlEntity? && e.isContentEntity && s.skipUntranslated {
      if UnknownLanguage(e.translationLanguages) {
        alts := DefaultLanguageAlts(env, s, u);
      } else {
        alts := AlternateUrlsForTranslatedLanguages(env, s, u, e.translationLanguages);
      }
    } else {
      alts := AlternateUrlsForAllLanguages(env, s, u);
    }
    AddVariantLinks(batch, context, pd, alts);
  }

  /** The loop of addUrlVariants(): one link per variant, in map order. */
  method AddVariantLinks(batch: Batch, context: string, pd: PathData, alts: AltMap)
    modifies batch
    ensures batch.State() == AppendResults(old(batch.State()), context, Variants(pd, alts))
  {
    ghost var b0 := batch.State();
    ghost var vs := Variants(pd, alts);
    for i := 0 to |alts|
      invariant batch.State() == AppendResults(b0, context, vs[..i])
    {
      var link := VariantLink(pd, alts[i].0, alts[i].1, alts);
      AppendResultsSnoc(b0, context, vs[..i], link);
      assert vs[..i + 1] == vs[..i] + [link];
      batch.AddBatchResult(context, link);
    }
    assert vs[..|alts|] == vs;
  }

  /** With unique keys, looking up the key of position i finds position i's value. */
  lemma {:induction false} LookupFirst<K, V>(m: OrderedMap<K, V>, i: nat)
    requires UniqueKeys(m) && i < |m|
    ensures Lookup(m, m[i].0) == Some(m[i].1)
  {
    if i > 0 {
      assert m[0].0 != m[i].0;
      assert m[1..][i - 1] == m[i];
      LookupFirst(m[1..], i - 1);
    }
  }

  // ---------------------------------------------------------------------
  // processSegment

  /** `array_chunk(xs, m)`: consecutive pieces of m elements, the last one possibly shorter. */
  function ArrayChunk<T>(xs: seq<T>, m: nat): seq<seq<T>>
    requires m > 0
    decreases |xs|
  {
    if xs == [] then [] else if |xs| <= m then [xs] else [xs[..m]] + ArrayChunk(xs[m..], m)
  }

  /** A list longer than m: its first m elements, then the chunks of the rest. */
  lemma ArrayChunkUnfold<T>(xs: seq<T>, m: nat)
    requires m > 0 && |xs| > m
    ensures ArrayChunk(xs, m) == [xs[..m]] + ArrayChunk(xs[m..], m)
  {
  }

  /** array_chunk loses and reorders nothing: the pieces concatenate to the list. */
  lemma {:induction false} ArrayChunkConcat<T>(xs: seq<T>, m: nat)
    requires m > 0
    ensures Concat(ArrayChunk(xs, m)) == xs
    decreases |xs|
  {
    if |xs| > m {
      var rest := ArrayChunk(xs[m..], m);
      ArrayChunkConcat(xs[m..], m);
      ArrayChunkUnfold(xs, m);
      assert ([xs[..m]] + rest)[1..] == rest;
      assert xs == xs[..m] + xs[m..];
    } else if xs != [] {
      assert [xs][1..] == [];
    }
  }

  /** Piece j of array_chunk is the window of m elements at j * m. */
  lemma {:induction false} ArrayChunkAt<T>(xs: seq<T>, m: nat, j: nat)
    requires m > 0 && j < |ArrayChunk(xs, m)|
    ensures ArrayChunk(xs, m)[j] == Window(xs, j * m, m)
    decreases |xs|, 1
  {
    if j == 0 {
      ArrayChunkFirst(xs, m);
    } else {
      ArrayChunkAtStep(xs, m, j);
    }
  }

  /** The first piece is the first m elements (or all of them). */
  lemma ArrayChunkFirst<T>(xs: seq<T>, m: nat)
    requires m > 0 && 0 < |ArrayChunk(xs, m)|
    ensures ArrayChunk(xs, m)[0] == Window(xs, 0, m)
  {
  }

  lemma {:induction false} ArrayChunkAtStep<T>(xs: seq<T>, m: nat, j: nat)
    requires m > 0 && 0 < j < |ArrayChunk(xs, m)|
    ensures ArrayChunk(xs, m)[j] == Window(xs, j * m, m)
    decreases |xs|, 0
  {
    assert |xs| > m;
    ArrayChunkUnfold(xs, m);
    ArrayChunkAt(xs[m..], m, j - 1);
    MulStep(j - 1, m);
    ArrayChunkShift(xs, m, j, (j - 1) * m, j * m);
  }

  /** The step of ArrayChunkAt: piece j is piece j - 1 of the chunks after the first m elements. */
  lemma ArrayChunkShift<T>(xs: seq<T>, m: nat, j: nat, p: nat, q: nat)
    requires m > 0 && |xs| > m && j > 0 && q == m + p
    requires j - 1 < |ArrayChunk(xs[m..], m)| && ArrayChunk(xs[m..], m)[j - 1] == Window(xs[m..], p, m)
    ensures j < |ArrayChunk(xs, m)| && ArrayChunk(xs, m)[j] == Window(xs, q, m)
  {
    ArrayChunkUnfold(xs, m);
    WindowShift(xs, m, p, m);
  }

  /** With k * m <= |xs| < (k + 1) * m there are k full pieces, and one more exactly when m does not divide |xs|. */
  lemma {:induction false} ArrayChunkCount<T>(xs: seq<T>, m: nat, k: nat)
    requires m > 0 && k * m <= |xs| < k * m + m
    ensures |ArrayChunk(xs, m)| == if k * m == |xs| then k else k + 1
    decreases |xs|
  {
    if |xs| > m {
      assert k >= 1 by {
        if k == 0 { assert false; }
      }
      MulStep(k - 1, m);
      ArrayChunkUnfold(xs, m);
      ArrayChunkCount(xs[m..], m, k - 1);
    } else if |xs| == m {
      assert k == 1 by {
        if k == 0 { assert false; }
        if k >= 2 { MulMono(2, k, m); }
      }
    } else {
      assert k == 0 by {
        if k >= 1 { MulMono(1, k, m); }
      }
    }
  }

  /** The full pieces of array_chunk: the windows of m links at 0, m, 2m, ..., in buffer order. */
  function FullChunks(buffer: seq<Link>, m: nat): (r: seq<seq<Link>>)
    requires m > 0
    ensures |r| == |buffer| / m
  {
    Windows(buffer, m, |buffer| / m)
  }

  /** Each full piece holds exactly m links, the m links from position i * m on. */
  lemma FullChunkAt(buffer: seq<Link>, m: nat, i: nat)
    requires m > 0 && i < |buffer| / m
    ensures i * m + m <= |buffer|
    ensures FullChunks(buffer, m)[i] == buffer[i * m..i * m + m]
    ensures |FullChunks(buffer, m)[i]| == m
  {
    var k := |buffer| / m;
    DivMod(|buffer|, m);
    MulStep(i, m);
    MulMono(i + 1, k, m);
  }

  /**
   * The pieces of array_chunk that processSegment flushes: exactly the first
   * n / m pieces are full, and a further piece, if any, is shorter than m.
   */
  lemma ArrayChunkFull(buffer: seq<Link>, m: nat, i: nat)
    requires m > 0 && i < |ArrayChunk(buffer, m)|
    ensures i < |buffer| / m ==> ArrayChunk(buffer, m)[i] == FullChunks(buffer, m)[i]
    ensures |ArrayChunk(buffer, m)[i]| == m <==> i < |buffer| / m
  {
    var k := |buffer| / m;
    DivMod(|buffer|, m);
    ArrayChunkCount(buffer, m, k);
    ArrayChunkAt(buffer, m, i);
    if i < k {
      FullChunkAt(buffer, m, i);
    } else {
      assert i == k && k * m < |buffer|;
    }
  }

  /** The settings processSegment hands to the sitemap generator: excluded_languages only. */
  function FlushSettings(s: BatchSettings): GeneratorSettings {
    GeneratorSettings(s.excludedLanguages, "")
  }

  /** The batch context after the first j full chunks of `buffer` have been flushed. */
  function FlushedBatch(b: BatchState, context: string, buffer: seq<Link>, m: nat, j: nat): BatchState {
    if j == 0 then b
    else SetResultsSpec(SetDeltaCountSpec(b, context, DeltaCountOf(b, context) + j), context, Rest(buffer, j * m))
  }

  /** The generator after the first j full chunks of `buffer` have been written. */
  function FlushedGen(g: GenState, languages: seq<string>, s: BatchSettings, context: string, buffer: seq<Link>,
                      remove: bool, now: int, j: nat): GenState
    requires s.maxLinks > 0 && j <= |buffer| / s.maxLinks
  {
    if j == 0 then g
    else GenerateAll(g.(settings := FlushSettings(s)), languages, context, FullChunks(buffer, s.maxLinks)[..j], remove, now)
  }

  /** The batch context and the sitemap generator together. */
  datatype World = World(batch: BatchState, gen: GenState)

  /**
   * processSegment() in closed form. In batch mode the progress is reported
   * first. Then, with a non-empty max_links m and a buffer of n >= m links, the
   * k = n / m full chunks are written as deltas, the first with remove exactly
   * when the delta count was 0; the count rises by k and the buffer keeps its
   * last n % m links.
   */
  function ProcessSegmentSpec(w: World, languages: seq<string>, s: BatchSettings, context: string, now: int): World {
    FlushFullChunksSpec(if IsBatch(s) then w.(batch := ProgressInfoSpec(w.batch)) else w, languages, s, context, now)
  }

  /** The writing part of processSegment(): every full chunk of the buffer flushed. */
  function FlushFullChunksSpec(w: World, languages: seq<string>, s: BatchSettings, context: string, now: int): World {
    var buffer := ResultsOf(w.batch, context);
    var m := s.maxLinks;
    if m == 0 || |buffer| < m then w
    else
      var k := |buffer| / m;
      World(FlushedBatch(w.batch, context, buffer, m, k),
            FlushedGen(w.gen, languages, s, context, buffer, DeltaCountOf(w.batch, context) == 0, now, k))
  }

  /** GenerateAll keeps the generator settings it was started with. */
  lemma {:induction false} GenerateAllSettings(g: GenState, languages: seq<string>, context: string,
                                               chunks: seq<seq<Link>>, remove: bool, now: int)
    ensures GenerateAll(g, languages, context, chunks, remove, now).settings == g.settings
  {
    if chunks != [] {
      GenerateAllSettings(g, languages, context, chunks[..|chunks| - 1], remove, now);
    }
  }

  /** Writing full chunk j after the first j: the generator step of processSegment's loop. */
  lemma FlushGenStep(g: GenState, languages: seq<string>, s: BatchSettings, context: string, buffer: seq<Link>,
                     remove: bool, now: int, j: nat)
    requires s.maxLinks > 0 && j < |buffer| / s.maxLinks
    ensures var gp := FlushedGen(g, languages, s, context, buffer, remove, now, j);
      GenerateSitemapSpec(gp.(settings := FlushSettings(s)), languages, context, FullChunks(buffer, s.maxLinks)[j],
                          remove && j == 0, now)
        == FlushedGen(g, languages, s, context, buffer, remove, now, j + 1)
  {
    var fc := FullChunks(buffer, s.maxLinks);
    var g1 := g.(settings := FlushSettings(s));
    assert fc[..j + 1] == fc[..j] + [fc[j]];
    GenerateAllExtend(g1, languages, context, fc[..j], fc[j], remove, now);
    if j > 0 {
      GenerateAllSettings(g1, languages, context, fc[..j], remove, now);
    }
  }

  /** The context array after one chunk of n links is flushed: the count goes up by one and the chunk leaves the buffer. */
  function FlushBatchSpec(b: BatchState, context: string, n: nat): (b': BatchState)
    ensures DeltaCountOf(b', context) == DeltaCountOf(b, context) + 1
    ensures ResultsOf(b', context) == Rest(ResultsOf(b, context), n)
  {
    SetResultsSpec(SetDeltaCountSpec(b, context, DeltaCountOf(b, context) + 1), context, Rest(ResultsOf(b, context), n))
  }

  /** Dropping the chunk just flushed from the front: the batch step of processSegment's loop. */
  lemma FlushBatchStep(b: BatchState, context: string, buffer: seq<Link>, m: nat, j: nat)
    requires m > 0 && j < |buffer| / m && buffer == ResultsOf(b, context)
    ensures var bp := FlushedBatch(b, context, buffer, m, j);
      && DeltaCountOf(bp, context) == DeltaCountOf(b, context) + j
      && FlushBatchSpec(bp, context, m) == FlushedBatch(b, context, buffer, m, j + 1)
  {
    if j == 0 {
      FlushBatchFirst(b, context, buffer, m);
    } else {
      FlushBatchNext(b, context, buffer, m, j);
    }
  }

  /** One full chunk written and dropped, in terms of the states after the first j. */
  lemma FlushStep(b: BatchState, g: GenState, languages: seq<string>, s: BatchSettings, context: string,
                  buffer: seq<Link>, remove: bool, now: int, j: nat, deltaLinks: seq<Link>)
    requires s.maxLinks > 0 && j < |buffer| / s.maxLinks && buffer == ResultsOf(b, context)
    requires remove == (DeltaCountOf(b, context) == 0) && deltaLinks == FullChunks(buffer, s.maxLinks)[j]
    requires |deltaLinks| == s.maxLinks
    ensures var bj := FlushedBatch(b, context, buffer, s.maxLinks, j);
      var gj := FlushedGen(g, languages, s, context, buffer, remove, now, j);
      && FlushBatchSpec(bj, context, |deltaLinks|) == FlushedBatch(b, context, buffer, s.maxLinks, j + 1)
      && GenerateSitemapSpec(gj.(settings := FlushSettings(s)), languages, context, deltaLinks,
                             DeltaCountOf(bj, context) == 0, now)
         == FlushedGen(g, languages, s, context, buffer, remove, now, j + 1)
  {
    FlushGenStep(g, languages, s, context, buffer, remove, now, j);
    FlushBatchStep(b, context, buffer, s.maxLinks, j);
  }

  /** The first flush: the buffer loses its first m links and the count goes up by one. */
  lemma FlushBatchFirst(b: BatchState, context: string, buffer: seq<Link>, m: nat)
    requires buffer == ResultsOf(b, context)
    ensures FlushBatchSpec(b, context, m) == FlushedBatch(b, context, buffer, m, 1)
  {
    assert 1 * m == m;
  }

  /** A later flush, after j >= 1 earlier ones. */
  lemma FlushBatchNext(b: BatchState, context: string, buffer: seq<Link>, m: nat, j: nat)
    requires j > 0
    ensures var bp := FlushedBatch(b, context, buffer, m, j);
      && DeltaCountOf(bp, context) == DeltaCountOf(b, context) + j
      && FlushBatchSpec(bp, context, m) == FlushedBatch(b, context, buffer, m, j + 1)
  {
    var c0 := DeltaCountOf(b, context);
    var b1 := SetDeltaCountSpec(b, context, c0 + j);
    var rj := Rest(buffer, j * m);
    MulStep(j, m);
    RestRest(buffer, j * m, m);
    SetResultsDeltaCountCommute(b1, context, rj, c0 + j + 1);
    SetDeltaCountTwice(b, context, c0 + j, c0 + j + 1);
    SetResultsTwice(SetDeltaCountSpec(b, context, c0 + j + 1), context, rj, Rest(rj, m));
  }

  /** Euclidean division of a buffer length by max_links. */
  lemma DivMod(n: nat, m: nat)
    requires m > 0
    ensures (n / m) * m <= n < (n / m) * m + m
    ensures n - (n / m) * m == n % m
    ensures n >= m <==> n / m >= 1
  {
  }

  /**
   * processSegment(): in batch mode reports progress; then, when max_links is
   * set and the buffer holds at least max_links links, walks array_chunk of the
   * buffer and flushes every full chunk as the next delta (replacing the
   * context's deltas while the delta count is 0), counting it and dropping it
   * from the front of the buffer.
   */
  method ProcessSegment(batch: Batch, gen: Generator, s: BatchSettings, context: string, now: int)
    modifies batch, gen
    ensures World(batch.State(), gen.State())
      == ProcessSegmentSpec(World(old(batch.State()), old(gen.State())), gen.languages, s, context, now)
  {
    if IsBatch(s) {
      batch.SetProgressInfo();
    }
    FlushFullChunks(batch, gen, s, context, now);
  }

  /** processSegment's loop over array_chunk of the buffer, flushing the full chunks. */
  method FlushFullChunks(batch: Batch, gen: Generator, s: BatchSettings, context: string, now: int)
    modifies batch, gen
    ensures World(batch.State(), gen.State())
      == FlushFullChunksSpec(World(old(batch.State()), old(gen.State())), gen.languages, s, context, now)
  {
    var m := s.maxLinks;
    var buffer := ResultsOf(batch.State(), context);
    if m != 0 && |buffer| >= m {
      FlushChunks(batch, gen, s, context, buffer, now);
    }
  }

  /** The loop over array_chunk(buffer, max_links): every full piece is written and leaves the buffer. */
  method FlushChunks(batch: Batch, gen: Generator, s: BatchSettings, context: string, buffer: seq<Link>, now: int)
    requires s.maxLinks > 0 && |buffer| >= s.maxLinks && buffer == ResultsOf(batch.State(), context)
    modifies batch, gen
    ensures batch.State() == FlushedBatch(old(batch.State()), context, buffer, s.maxLinks, |buffer| / s.maxLinks)
    ensures gen.State() == FlushedGen(old(gen.State()), gen.languages, s, context, buffer,
                                      DeltaCountOf(old(batch.State()), context) == 0, now, |buffer| / s.maxLinks)
  {
    var m := s.maxLinks;
    var chunks := ArrayChunk(buffer, m);
    ghost var b0 := batch.State();
    ghost var g0 := gen.State();
    ghost var k := |buffer| / m;
    ghost var remove := DeltaCountOf(b0, context) == 0;
    ghost var j := 0;
    DivMod(|buffer|, m);
    ArrayChunkCount(buffer, m, k);
    for i := 0 to |chunks|
      invariant j == if i < k then i else k
      invariant batch.State() == FlushedBatch(b0, context, buffer, m, j)
      invariant gen.State() == FlushedGen(g0, gen.languages, s, context, buffer, remove, now, j)
    {
      var deltaLinks := chunks[i];
      ArrayChunkFull(buffer, m, i);
      if |deltaLinks| == m {
        FlushStep(b0, g0, gen.languages, s, context, buffer, remove, now, j, deltaLinks);
        FlushChunk(batch, gen, s, context, deltaLinks, now);
        j := j + 1;
      }
    }
  }

  /**
   * One pass of processSegment's loop over a full chunk: the generator writes
   * the chunk as the next delta, replacing the context's deltas exactly when
   * the delta count is still 0; then the count goes up and the chunk leaves the
   * front of the buffer.
   */
  method FlushChunk(batch: Batch, gen: Generator, s: BatchSettings, context: string, deltaLinks: seq<Link>, now: int)
    modifies batch, gen
    ensures batch.State() == FlushBatchSpec(old(batch.State()), context, |deltaLinks|)
    ensures gen.State() == GenerateSitemapSpec(old(gen.State()).(settings := FlushSettings(s)), gen.languages, context,
                                               deltaLinks, DeltaCountOf(old(batch.State()), context) == 0, now)
  {
    gen.SetSettings(FlushSettings(s));
    gen.GenerateSitemap(context, deltaLinks, DeltaCountOf(batch.State(), context) == 0, now);
    var count := DeltaCountOf(batch.State(), context);
    batch.SetDeltaCount(context, if count == 0 then 1 else count + 1);
    batch.SetBatchResults(context, Rest(ResultsOf(batch.State(), context), |deltaLinks|));
  }

  /** How many chunks processSegment flushes from a buffer of n links with max_links m. */
  function FlushCount(n: nat, m: nat): (k: nat)
    ensures m != 0 && n >= m ==> k >= 1 && k * m <= n && n - k * m == n % m
    ensures m == 0 || n < m ==> k == 0
  {
    if m != 0 && n >= m then DivMod(n, m); n / m else 0
  }

  /**
   * processSegment on the buffer and the delta count. k = FlushCount(n, m)
   * chunks leave the front of the buffer, which keeps exactly its trailing
   * n % m links when max_links m is set and n >= m, and the whole buffer
   * otherwise; the delta count rises by k.
   */
  lemma ProcessSegmentBuffer(w: World, languages: seq<string>, s: BatchSettings, context: string, now: int)
    ensures var buffer := ResultsOf(w.batch, context);
      var k := FlushCount(|buffer|, s.maxLinks);
      var b' := ProcessSegmentSpec(w, languages, s, context, now).batch;
      && k * s.maxLinks <= |buffer|
      && ResultsOf(b', context) == buffer[k * s.maxLinks..]
      && DeltaCountOf(b', context) == DeltaCountOf(w.batch, context) + k
  {
  }

  /** After processSegment fewer than max_links links stay buffered, so no full chunk is left behind. */
  lemma ProcessSegmentLeavesPartial(w: World, languages: seq<string>, s: BatchSettings, context: string, now: int)
    requires s.maxLinks != 0
    ensures |ResultsOf(ProcessSegmentSpec(w, languages, s, context, now).batch, context)| < s.maxLinks
  {
    var n := |ResultsOf(w.batch, context)|;
    ProcessSegmentBuffer(w, languages, s, context, now);
    if n >= s.maxLinks {
      DivMod(n, s.maxLinks);
    }
  }

  /**
   * processSegment changes nothing in the batch context but the progress
   * report and this context's buffer and delta count; other contexts' buffers
   * and counts stay as they are.
   */
  lemma ProcessSegmentFrame(w: World, languages: seq<string>, s: BatchSettings, context: string, now: int)
    ensures var b := if IsBatch(s) then ProgressInfoSpec(w.batch) else w.batch;
      var b' := ProcessSegmentSpec(w, languages, s, context, now).batch;
      && b'.(results := b.results, deltaCounts := b.deltaCounts) == b
      && (forall c :: c != context ==> ResultsOf(b', c) == ResultsOf(w.batch, c))
      && (forall c :: c != context ==> DeltaCountOf(b', c) == DeltaCountOf(w.batch, c))
  {
  }

  /** processSegment's writes as one GenerateAll over the full chunks, or none. */
  lemma ProcessSegmentGen(w: World, languages: seq<string>, s: BatchSettings, context: string, now: int)
    ensures var buffer := ResultsOf(w.batch, context);
      var k := FlushCount(|buffer|, s.maxLinks);
      var g' := ProcessSegmentSpec(w, languages, s, context, now).gen;
      && (k == 0 ==> g' == w.gen)
      && (k > 0 ==> s.maxLinks > 0 && g' == GenerateAll(w.gen.(settings := FlushSettings(s)), languages, context,
                                                       FullChunks(buffer, s.maxLinks),
                                                       DeltaCountOf(w.batch, context) == 0, now))
  {
    var buffer := ResultsOf(w.batch, context);
    if s.maxLinks != 0 && |buffer| >= s.maxLinks {
      var fc := FullChunks(buffer, s.maxLinks);
      assert fc[..|buffer| / s.maxLinks] == fc;
    }
  }

  /**
   * processSegment on the sitemap table. The k full chunks become k new rows
   * of the context after the rows it keeps, numbered consecutively on from
   * the context's MAX(delta); only the first write passes remove, and it does
   * so exactly when the delta count is 0, so those rows then replace the
   * context's rows and start at delta 1. Other contexts' rows never change;
   * without a full chunk the generator is untouched.
   */
  lemma ProcessSegmentRows(w: World, languages: seq<string>, s: BatchSettings, context: string, now: int)
    ensures var buffer := ResultsOf(w.batch, context);
      var k := FlushCount(|buffer|, s.maxLinks);
      var remove := DeltaCountOf(w.batch, context) == 0;
      var g' := ProcessSegmentSpec(w, languages, s, context, now).gen;
      var base := if remove then [] else RowsOf(w.gen.table, context);
      var rows := RowsOf(g'.table, context);
      && (forall c :: c != context ==> RowsOf(g'.table, c) == RowsOf(w.gen.table, c))
      && (k == 0 ==> g' == w.gen)
      && (k > 0 ==>
            && |rows| == |base| + k
            && rows[..|base|] == base
            && NextDelta(rows) == NextDelta(base) + k
            && (remove ==> rows[0].delta == FIRST_CHUNK_INDEX))
  {
    var buffer := ResultsOf(w.batch, context);
    ProcessSegmentGen(w, languages, s, context, now);
    if FlushCount(|buffer|, s.maxLinks) > 0 {
      var g1 := w.gen.(settings := FlushSettings(s));
      assert g1.table == w.gen.table;
      GenerateAllNumbering(g1, languages, context, FullChunks(buffer, s.maxLinks),
                           DeltaCountOf(w.batch, context) == 0, now);
    }
  }

  /** With at least one full chunk, processSegment's writes are GenerateAll over the full chunks. */
  lemma ProcessSegmentWrites(w: World, languages: seq<string>, s: BatchSettings, context: string, now: int)
    requires s.maxLinks > 0 && |ResultsOf(w.batch, context)| >= s.maxLinks
    ensures ProcessSegmentSpec(w, languages, s, context, now).gen
      == GenerateAll(w.gen.(settings := FlushSettings(s)), languages, context,
                     FullChunks(ResultsOf(w.batch, context), s.maxLinks), DeltaCountOf(w.batch, context) == 0, now)
  {
    ProcessSegmentGen(w, languages, s, context, now);
  }

  /** Chunking loses and reorders nothing: the flushed chunks followed by what stays buffered are the buffer. */
  lemma FullChunksThenRest(buffer: seq<Link>, m: nat, j: nat)
    requires m > 0 && j <= |buffer| / m
    ensures j * m <= |buffer|
    ensures Concat(FullChunks(buffer, m)[..j]) + buffer[j * m..] == buffer
  {
    DivMod(|buffer|, m);
    MulMono(j, |buffer| / m, m);
    assert FullChunks(buffer, m)[..j] == Windows(buffer, m, j);
    WindowsCover(buffer, m, j);
    assert buffer == buffer[..j * m] + buffer[j * m..];
  }

  // ---------------------------------------------------------------------
  // Duplicate checks of processDataSet

  /**
   * The two duplicate checks the producers run on a path, in their order:
   * with remove_duplicates_by_context the context's list is checked (and the
   * path recorded there); a hit ends the checks; otherwise, with
   * remove_duplicates, the global list is checked (and the path recorded).
   * The flag is TRUE when either test hit.
   */
  function DedupSpec(b: BatchState, s: BatchSettings, context: string, path: string): (BatchState, bool) {
    var b1 := if s.removeDuplicatesByContext then PathProcessedByContextSpec(b, context, path) else b;
    if s.removeDuplicatesByContext && path in PathsOf(b, context) then (b1, true)
    else if s.removeDuplicates then (PathProcessedSpec(b1, path), path in b1.processedPaths)
    else (b1, false)
  }

  /** The duplicate checks, through the test-and-insert helpers. */
  method Dedup(batch: Batch, s: BatchSettings, context: string, path: string) returns (duplicate: bool)
    modifies batch
    ensures (batch.State(), duplicate) == DedupSpec(old(batch.State()), s, context, path)
  {
    if s.removeDuplicatesByContext {
      duplicate := batch.PathProcessedByContext(context, path);
      if duplicate {
        return;
      }
    }
    duplicate := false;
    if s.removeDuplicates {
      duplicate := batch.PathProcessed(path);
    }
  }

  /**
   * A path is a duplicate exactly when a check that is switched on finds it
   * already recorded. A hit in the context's list stops before the global
   * list, which then stays as it was; otherwise every switched-on list holds
   * the path afterwards. Buffers, delta counts, the sandbox and the other
   * contexts' lists never change.
   */
  lemma DedupMeaning(b: BatchState, s: BatchSettings, context: string, path: string)
    ensures var (b', duplicate) := DedupSpec(b, s, context, path);
      && (duplicate <==> (s.removeDuplicatesByContext && path in PathsOf(b, context))
                         || (s.removeDuplicates && path in b.processedPaths))
      && (s.removeDuplicatesByContext ==> path in PathsOf(b', context))
      && (s.removeDuplicates && !(s.removeDuplicatesByContext && path in PathsOf(b, context)) ==> path in b'.processedPaths)
      && (s.removeDuplicatesByContext && path in PathsOf(b, context) ==> b' == b)
      && (!s.removeDuplicates ==> b'.processedPaths == b.processedPaths)
      && (!s.removeDuplicatesByContext ==> b'.processedPathsByContext == b.processedPathsByContext)
      && (forall c :: c != context ==> PathsOf(b', c) == PathsOf(b, c))
      && b'.results == b.results && b'.deltaCounts == b.deltaCounts && b'.sandbox == b.sandbox
  {
  }

  /** A path that passed the checks is caught by them the next time, as long as one of them is on. */
  lemma DedupSecondTime(b: BatchState, s: BatchSettings, context: string, path: string)
    requires s.removeDuplicates || s.removeDuplicatesByContext
    ensures var (b', duplicate) := DedupSpec(b, s, context, path);
      !duplicate ==> DedupSpec(b', s, context, path).1
  {
    DedupMeaning(b, s, context, path);
    var (b', duplicate) := DedupSpec(b, s, context, path);
    DedupMeaning(b', s, context, path);
  }

  // ---------------------------------------------------------------------
  // getBatchIterationElements

  /**
   * The batch step before iteration: when the sandbox is empty the context
   * array is initialised over the run's contexts with max = the number of
   * elements in the whole run.
   */
  function PrepareSpec(b: BatchState, env: Env, s: BatchSettings, count: nat): (b': BatchState)
    ensures IsBatch(s) ==> b'.sandbox.Some?
  {
    if NeedsInitialization(b) then InitializeSpec(b, env.sitemapContexts, IsBatch(s), count) else b
  }

  /** In batch mode the next batch_process_limit elements from the progress counter on, otherwise all. */
  function IterationWindow<E>(b: BatchState, s: BatchSettings, elements: seq<E>): (r: seq<E>)
    ensures IsBatch(s) ==> r == Window(elements, Progress(b), s.batchProcessLimit)
    ensures !IsBatch(s) ==> r == elements
  {
    if IsBatch(s) then Window(elements, Progress(b), s.batchProcessLimit) else elements
  }

  /**
   * getBatchIterationElements() of the base class, for elements already
   * listed with keys 0, 1, ...: array_slice renumbers the window from 0,
   * so an element's key is its position in the returned list.
   */
  method BatchIterationElements<E>(batch: Batch, env: Env, s: BatchSettings, elements: seq<E>) returns (window: seq<E>)
    modifies batch
    ensures batch.State() == PrepareSpec(old(batch.State()), env, s, |elements|)
    ensures window == IterationWindow(batch.State(), s, elements)
  {
    if batch.sandbox.None? {
      batch.InitializeBatch(env.sitemapContexts, IsBatch(s), |elements|);
    }
    if IsBatch(s) {
      window := Window(elements, batch.State().sandbox.value.progress, s.batchProcessLimit);
    } else {
      window := elements;
    }
  }

  /**
   * A fresh batch run starts at the first element; a run that has taken p
   * elements takes the next ones from p on, so the windows of successive
   * runs follow each other without gap or overlap while they are full.
   */
  lemma IterationWindowsFollow<E>(b: BatchState, env: Env, s: BatchSettings, elements: seq<E>)
    requires IsBatch(s)
    ensures NeedsInitialization(b) ==>
      IterationWindow(PrepareSpec(b, env, s, |elements|), s, elements) == Window(elements, 0, s.batchProcessLimit)
    ensures !NeedsInitialization(b) ==> PrepareSpec(b, env, s, |elements|) == b
    ensures var w := Window(elements, Progress(b), s.batchProcessLimit);
      w + Window(elements, Progress(b) + |w|, s.batchProcessLimit)
        == Window(elements, Progress(b), |w| + s.batchProcessLimit)
  {
    if NeedsInitialization(b) {
      InitializeKeepsProgress(b, env.sitemapContexts, true, |elements|);
    }
    var w := Window(elements, Progress(b), s.batchProcessLimit);
    WindowsTile(elements, Progress(b), |w|, s.batchProcessLimit);
  }
}

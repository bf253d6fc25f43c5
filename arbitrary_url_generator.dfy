/**
 * The arbitrary link producer (src/Plugin/simple_sitemap/UrlGenerator/
 * ArbitraryUrlGenerator.php): links other modules supply through
 * hook_simple_sitemap_arbitrary_links_alter, kept for the requested
 * context and for the default context.
 */
module ArbitraryUrlGenerator {
  import opened Php
  import opened SitemapData
  import opened Collaborators

  /** Simplesitemap::CONTEXT_DEFAULT. */
  const CONTEXT_DEFAULT := "default"

  /** A link with an empty context belongs to the default context. */
  function WithContext(link: PathData): (r: PathData)
    ensures !StrEmpty(r.context)
  {
    if StrEmpty(link.context) then link.(context := CONTEXT_DEFAULT) else link
  }

  /** The first loop of getDataSets(): every supplied link with its context filled in. */
  function Filled(links: seq<PathData>): (r: seq<PathData>)
    ensures |r| == |links| && forall i :: 0 <= i < |links| ==> r[i] == WithContext(links[i])
  {
    seq(|links|, i requires 0 <= i < |links| => WithContext(links[i]))
  }

  /** The links of the requested context and of the default context, in their order. */
  function KeptFor(links: seq<PathData>, context: string): seq<PathData> {
    if links == [] then []
    else
      var last := links[|links| - 1];
      KeptFor(links[..|links| - 1], context) + (if last.context == context || last.context == CONTEXT_DEFAULT then [last] else [])
  }

  /** getDataSets(): the supplied links with their contexts filled in, kept for the context and renumbered. */
  function DataSets(env: Env, context: string): seq<PathData> {
    KeptFor(Filled(env.arbitraryLinks), context)
  }

  /** getDataSets(): first the empty contexts become the default one, then the other contexts' links are unset. */
  method GetDataSets(env: Env, context: string) returns (links: seq<PathData>)
    ensures links == DataSets(env, context)
  {
    var supplied := env.arbitraryLinks;
    var filled: seq<PathData> := [];
    for i := 0 to |supplied|
      invariant |filled| == i
      invariant forall k :: 0 <= k < i ==> filled[k] == WithContext(supplied[k])
    {
      var link := supplied[i];
      if StrEmpty(link.context) {
        link := link.(context := CONTEXT_DEFAULT);
      }
      filled := filled + [link];
    }
    assert filled == Filled(supplied);
    links := [];
    for i := 0 to |filled|
      invariant links == KeptFor(filled[..i], context)
    {
      assert filled[..i + 1][..i] == filled[..i];
      if filled[i].context == context || filled[i].context == CONTEXT_DEFAULT {
        links := links + [filled[i]];
      }
    }
    assert filled[..|filled|] == filled;
  }

  /** A link is kept exactly when it is one of the given links and belongs to the context or to the default context. */
  lemma {:induction false} KeptForMembers(links: seq<PathData>, context: string)
    ensures forall l :: l in KeptFor(links, context) <==> l in links && (l.context == context || l.context == CONTEXT_DEFAULT)
    ensures |KeptFor(links, context)| <= |links|
  {
    if links != [] {
      KeptForMembers(links[..|links| - 1], context);
      assert links == links[..|links| - 1] + [links[|links| - 1]];
    }
  }

  /**
   * Keeping distributes over concatenation: the kept links of a list are the
   * kept links of its front followed by those of its back, so the kept links
   * keep their relative order and each occurs as often as it was supplied.
   */
  lemma {:induction false} KeptForAppend(a: seq<PathData>, b: seq<PathData>, context: string)
    ensures KeptFor(a + b, context) == KeptFor(a, context) + KeptFor(b, context)
    decreases |b|
  {
    if b == [] {
      assert a + b == a;
    } else {
      var front := b[..|b| - 1];
      KeptForAppend(a, front, context);
      assert (a + b)[..|a + b| - 1] == a + front;
      assert (a + b)[|a + b| - 1] == b[|b| - 1];
    }
  }

  /** Filling in contexts distributes over concatenation. */
  lemma FilledAppend(a: seq<PathData>, b: seq<PathData>)
    ensures Filled(a + b) == Filled(a) + Filled(b)
  {
  }

  /**
   * getDataSets() keeps the supplied order: cutting the supplied links at any
   * point, the result is the result for the links before the cut followed by
   * the result for the links after it. A single supplied link comes back
   * (with its context filled in) exactly when it belongs to the context or
   * to the default context.
   */
  lemma DataSetsOrder(env: Env, context: string, i: nat)
    requires i <= |env.arbitraryLinks|
    ensures var supplied := env.arbitraryLinks;
      DataSets(env, context) == KeptFor(Filled(supplied[..i]), context) + KeptFor(Filled(supplied[i..]), context)
    ensures forall l :: (KeptFor(Filled([l]), context)
      == if WithContext(l).context == context || WithContext(l).context == CONTEXT_DEFAULT then [WithContext(l)] else [])
  {
    var supplied := env.arbitraryLinks;
    assert supplied == supplied[..i] + supplied[i..];
    FilledAppend(supplied[..i], supplied[i..]);
    KeptForAppend(Filled(supplied[..i]), Filled(supplied[i..]), context);
    forall l ensures KeptFor(Filled([l]), context) ==
      if WithContext(l).context == context || WithContext(l).context == CONTEXT_DEFAULT then [WithContext(l)] else []
    {
      assert Filled([l])[..0] == [];
    }
  }

  /**
   * Every returned link belongs to the requested context or to the default
   * context; a supplied link with an empty context comes back with the
   * default context; a supplied link of the requested context comes back
   * unchanged; a supplied link of any other context is dropped; and the
   * links come back in their supplied order (the result for any front of
   * the supplied links is a front of the result).
   */
  lemma DataSetsMeaning(env: Env, context: string)
    ensures forall l :: l in DataSets(env, context) ==> l.context == context || l.context == CONTEXT_DEFAULT
    ensures forall i :: 0 <= i < |env.arbitraryLinks| && StrEmpty(env.arbitraryLinks[i].context) ==>
      env.arbitraryLinks[i].(context := CONTEXT_DEFAULT) in DataSets(env, context)
    ensures forall i :: 0 <= i < |env.arbitraryLinks| && env.arbitraryLinks[i].context == context && !StrEmpty(context) ==>
      env.arbitraryLinks[i] in DataSets(env, context)
    ensures forall l :: l in DataSets(env, context) ==> !StrEmpty(l.context)
    ensures |DataSets(env, context)| <= |env.arbitraryLinks|
    ensures forall i :: 0 <= i <= |env.arbitraryLinks| ==>
      DataSets(env, context) == KeptFor(Filled(env.arbitraryLinks[..i]), context) + KeptFor(Filled(env.arbitraryLinks[i..]), context)
  {
    var supplied := env.arbitraryLinks;
    forall i | 0 <= i <= |supplied|
      ensures DataSets(env, context) == KeptFor(Filled(supplied[..i]), context) + KeptFor(Filled(supplied[i..]), context)
    {
      DataSetsOrder(env, context, i);
    }
    var filled := Filled(supplied);
    KeptForMembers(filled, context);
    forall i | 0 <= i < |supplied| ensures filled[i] in filled {
    }
    forall l | l in KeptFor(filled, context) ensures !StrEmpty(l.context) {
      var i :| 0 <= i < |filled| && filled[i] == l;
    }
  }
}

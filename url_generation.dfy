/**
 * generate() of the URL producers (src/Plugin/simple_sitemap/UrlGenerator/
 * UrlGeneratorBase.php): list the elements of a data set, take this batch
 * step's window of them, turn each into path data, buffer its language
 * variants, and flush full chunks of the buffer into sitemap deltas. The
 * three producers are told apart by a datatype instead of subclasses.
 */
module UrlGeneration {
  import opened Wrappers
  import opened SitemapData
  import opened Collaborators
  import opened BatchContext
  import opened UrlGeneratorBase
  import EntityGen = EntityUrlGenerator
  import MenuGen = MenuUrlGenerator
  import ArbitraryGen = ArbitraryUrlGenerator

  /** The producer plugins. */
  datatype Producer = EntityProducer | MenuProducer | ArbitraryProducer

  /** What generate() is given: an entity data set, a menu name, or a list of links. */
  datatype DataSet =
    | EntitySet(ds: EntityGen.EntityDataSet)
    | MenuSet(menuName: string)
    | LinkList(links: seq<PathData>)

  /** One element of the iteration. */
  datatype Element =
    | EntityElement(entity: Entity)
    | MenuElement(link: MenuLink)
    | LinkElement(data: PathData)

  /**
   * The data set a producer works on. The entity and menu producers read a
   * single data set where the argument goes, so they must be given one; the
   * arbitrary producer falls back on getDataSets() when given NULL.
   */
  predicate Accepts(producer: Producer, dataSets: Option<DataSet>) {
    match producer
    case EntityProducer => dataSets.Some? && dataSets.value.EntitySet?
    case MenuProducer => dataSets.Some? && dataSets.value.MenuSet?
    case ArbitraryProducer => dataSets.None? || dataSets.value.LinkList?
  }

  function InputOf(env: Env, context: string, dataSets: Option<DataSet>): DataSet {
    if dataSets.Some? then dataSets.value else LinkList(ArbitraryGen.DataSets(env, context))
  }

  // ---------------------------------------------------------------------
  // The iteration elements with their keys

  /** loadMultiple(): entities keyed by id. */
  function EntityKeyed(es: seq<Entity>): (r: seq<(int, Element)>)
    ensures |r| == |es|
  {
    seq(|es|, i requires 0 <= i < |es| => (es[i].id, EntityElement(es[i])))
  }

  /** array_values()/array_slice(): links keyed by position. */
  function MenuKeyed(links: seq<MenuLink>): (r: seq<(int, Element)>)
    ensures |r| == |links|
  {
    seq(|links|, i requires 0 <= i < |links| => (i, MenuElement(links[i])))
  }

  function LinkKeyed(links: seq<PathData>): (r: seq<(int, Element)>)
    ensures |r| == |links|
  {
    seq(|links|, i requires 0 <= i < |links| => (i, LinkElement(links[i])))
  }

  /** Everything a data set lists, before windowing. */
  function ListedCount(env: Env, input: DataSet): nat {
    match input
    case EntitySet(ds) => |EntityGen.QueryResult(env, ds)|
    case MenuSet(name) => |MenuGen.FlattenedLinks(env.menuTree(name))|
    case LinkList(links) => |links|
  }

  /** getBatchIterationElements() of the producer: the prepared batch and this step's keyed elements. */
  function IterationSpec(b: BatchState, env: Env, s: BatchSettings, input: DataSet): (BatchState, seq<(int, Element)>) {
    var b' := PrepareSpec(b, env, s, ListedCount(env, input));
    match input
    case EntitySet(ds) => (b', EntityKeyed(IterationWindow(b', s, EntityGen.QueryResult(env, ds))))
    case MenuSet(name) => (b', MenuKeyed(IterationWindow(b', s, MenuGen.FlattenedLinks(env.menuTree(name)))))
    case LinkList(links) => (b', LinkKeyed(IterationWindow(b', s, links)))
  }

  method IterationElements(batch: Batch, env: Env, s: BatchSettings, input: DataSet) returns (elements: seq<(int, Element)>)
    modifies batch
    ensures (batch.State(), elements) == IterationSpec(old(batch.State()), env, s, input)
  {
    match input
    case EntitySet(ds) =>
      var es := EntityGen.BatchIterationElements(batch, env, s, ds);
      elements := EntityKeyed(es);
    case MenuSet(name) =>
      var links := MenuGen.BatchIterationElements(batch, env, s, name);
      elements := MenuKeyed(links);
    case LinkList(links) =>
      var window := UrlGeneratorBase.BatchIterationElements(batch, env, s, links);
      elements := LinkKeyed(window);
  }

  // ---------------------------------------------------------------------
  // processDataSet and the loop of generate()

  /** processDataSet() of the producer the element comes from; the arbitrary producer passes links through. */
  function ProcessElementSpec(b: BatchState, env: Env, s: BatchSettings, context: string, el: Element): (BatchState, Option<PathData>) {
    match el
    case EntityElement(e) => EntityGen.ProcessSpec(b, env, s, context, e)
    case MenuElement(link) => MenuGen.ProcessSpec(b, env, s, context, link)
    case LinkElement(pd) => (b, Some(pd))
  }

  method ProcessElement(batch: Batch, env: Env, s: BatchSettings, context: string, el: Element) returns (r: Option<PathData>)
    modifies batch
    ensures (batch.State(), r) == ProcessElementSpec(old(batch.State()), env, s, context, el)
  {
    match el
    case EntityElement(e) =>
      r := EntityGen.ProcessDataSet(batch, env, s, context, e);
    case MenuElement(link) =>
      r := MenuGen.ProcessDataSet(batch, env, s, context, link);
    case LinkElement(pd) =>
      r := Some(pd);
  }

  /** One pass of the loop: setCurrentId(), processDataSet(), and addUrl() unless the element was skipped. */
  function StepSpec(b: BatchState, env: Env, s: BatchSettings, context: string, id: int, el: Element): BatchState {
    var b1 := SetCurrentIdSpec(b, IsBatch(s), id);
    var (b2, r) := ProcessElementSpec(b1, env, s, context, el);
    if r.Some? then AddUrlSpec(b2, env, s, context, r.value) else b2
  }

  /** The loop of generate() over the keyed elements. */
  function LoopSpec(b: BatchState, env: Env, s: BatchSettings, context: string, elements: seq<(int, Element)>): BatchState {
    if elements == [] then b
    else
      var (id, el) := elements[|elements| - 1];
      StepSpec(LoopSpec(b, env, s, context, elements[..|elements| - 1]), env, s, context, id, el)
  }

  /** generate(): the elements, the loop over them, then processSegment(). */
  function GenerateSpec(w: World, languages: seq<string>, env: Env, s: BatchSettings, context: string,
                        dataSets: Option<DataSet>, now: int): World {
    var (b1, elements) := IterationSpec(w.batch, env, s, InputOf(env, context, dataSets));
    ProcessSegmentSpec(World(LoopSpec(b1, env, s, context, elements), w.gen), languages, s, context, now)
  }

  /** One pass of the loop of generate(). */
  method Step(batch: Batch, env: Env, s: BatchSettings, context: string, id: int, el: Element)
    modifies batch
    ensures batch.State() == StepSpec(old(batch.State()), env, s, context, id, el)
  {
    batch.SetCurrentId(IsBatch(s), id);
    var pathData := ProcessElement(batch, env, s, context, el);
    if pathData.Some? {
      AddUrl(batch, env, s, context, pathData.value);
    }
  }

  /** The loop of generate(); the writer is not touched. */
  method Loop(batch: Batch, env: Env, s: BatchSettings, context: string, elements: seq<(int, Element)>)
    modifies batch
    ensures batch.State() == LoopSpec(old(batch.State()), env, s, context, elements)
  {
    ghost var b0 := batch.State();
    for i := 0 to |elements|
      invariant batch.State() == LoopSpec(b0, env, s, context, elements[..i])
    {
      assert elements[..i + 1][..i] == elements[..i];
      Step(batch, env, s, context, elements[i].0, elements[i].1);
    }
    assert elements[..|elements|] == elements;
  }

  method Generate(batch: Batch, gen: SitemapGenerator.Generator, env: Env, s: BatchSettings, producer: Producer,
                  context: string, dataSets: Option<DataSet>, now: int)
    requires Accepts(producer, dataSets)
    modifies batch, gen
    ensures World(batch.State(), gen.State())
      == GenerateSpec(World(old(batch.State()), old(gen.State())), gen.languages, env, s, context, dataSets, now)
  {
    var input: DataSet;
    if dataSets.Some? {
      input := dataSets.value;
    } else {
      var links := ArbitraryGen.GetDataSets(env, context);
      input := LinkList(links);
    }
    var elements := IterationElements(batch, env, s, input);
    Loop(batch, env, s, context, elements);
    ProcessSegment(batch, gen, s, context, now);
  }

  // ---------------------------------------------------------------------
  // Properties

  /**
   * One pass buffers exactly the variants of the path data the element
   * yields, at the end of the context's buffer, and nothing for a skipped
   * element; no other buffer and no delta count changes; the sandbox moves
   * on as setCurrentId() says.
   */
  lemma StepMeaning(b: BatchState, env: Env, s: BatchSettings, context: string, id: int, el: Element)
    ensures var b' := StepSpec(b, env, s, context, id, el);
      var r := ProcessElementSpec(SetCurrentIdSpec(b, IsBatch(s), id), env, s, context, el).1;
      && ResultsOf(b', context) == ResultsOf(b, context) + (if r.Some? then AddedLinks(env, s, r.value) else [])
      && (forall c :: c != context ==> ResultsOf(b', c) == ResultsOf(b, c))
      && (forall c :: DeltaCountOf(b', c) == DeltaCountOf(b, c))
      && b'.sandbox == SetCurrentIdSpec(b, IsBatch(s), id).sandbox
  {
    var b1 := SetCurrentIdSpec(b, IsBatch(s), id);
    var (b2, r) := ProcessElementSpec(b1, env, s, context, el);
    ProcessElementKeeps(b1, env, s, context, el);
    if r.Some? {
      AppendResultsFrame(b2, context, AddedLinks(env, s, r.value));
    }
  }

  /** processDataSet() only records paths: the buffers, the delta counts and the sandbox stay as they were. */
  lemma ProcessElementKeeps(b: BatchState, env: Env, s: BatchSettings, context: string, el: Element)
    ensures var b' := ProcessElementSpec(b, env, s, context, el).0;
      b'.results == b.results && b'.deltaCounts == b.deltaCounts && b'.sandbox == b.sandbox
  {
    match el {
      case EntityElement(e) =>
        EntityGen.ProcessMeaning(b, env, s, context, e);
        DedupMeaning(b, s, context, e.url.internalPath);
      case MenuElement(link) =>
        MenuGen.ProcessMeaning(b, env, s, context, link);
        DedupMeaning(b, s, context, link.url.internalPath);
      case LinkElement(pd) =>
    }
  }

  /** Over the whole loop the context's buffer only grows at its end, and nothing else that is buffered or counted changes. */
  lemma {:induction false} LoopKeepsOthers(b: BatchState, env: Env, s: BatchSettings, context: string, elements: seq<(int, Element)>)
    ensures var b' := LoopSpec(b, env, s, context, elements);
      && ResultsOf(b, context) <= ResultsOf(b', context)
      && (forall c :: c != context ==> ResultsOf(b', c) == ResultsOf(b, c))
      && (forall c :: DeltaCountOf(b', c) == DeltaCountOf(b, c))
  {
    if elements != [] {
      var n := |elements|;
      LoopKeepsOthers(b, env, s, context, elements[..n - 1]);
      StepMeaning(LoopSpec(b, env, s, context, elements[..n - 1]), env, s, context, elements[n - 1].0, elements[n - 1].1);
    }
  }

  /** In batch mode each element of the loop moves the progress counter on by one, and the last key becomes current_id. */
  lemma {:induction false} LoopProgress(b: BatchState, env: Env, s: BatchSettings, context: string, elements: seq<(int, Element)>)
    requires IsBatch(s) && b.sandbox.Some?
    ensures var b' := LoopSpec(b, env, s, context, elements);
      && b'.sandbox.Some?
      && Progress(b') == Progress(b) + |elements|
      && (elements != [] ==> b'.sandbox.value.currentId == elements[|elements| - 1].0)
  {
    if elements != [] {
      var n := |elements|;
      LoopProgress(b, env, s, context, elements[..n - 1]);
      StepMeaning(LoopSpec(b, env, s, context, elements[..n - 1]), env, s, context, elements[n - 1].0, elements[n - 1].1);
    }
  }

  /** Outside batch mode the loop never touches the sandbox. */
  lemma {:induction false} LoopNoBatch(b: BatchState, env: Env, s: BatchSettings, context: string, elements: seq<(int, Element)>)
    requires !IsBatch(s)
    ensures LoopSpec(b, env, s, context, elements).sandbox == b.sandbox
  {
    if elements != [] {
      var n := |elements|;
      LoopNoBatch(b, env, s, context, elements[..n - 1]);
      StepMeaning(LoopSpec(b, env, s, context, elements[..n - 1]), env, s, context, elements[n - 1].0, elements[n - 1].1);
    }
  }

  /**
   * A batch step of generate() advances the progress counter by the number
   * of elements it took, so the next step (which finds the sandbox set and
   * does not initialise again) takes its window right after this one.
   */
  lemma GenerateAdvances(w: World, languages: seq<string>, env: Env, s: BatchSettings, context: string,
                         dataSets: Option<DataSet>, now: int)
    requires IsBatch(s)
    ensures var (b1, elements) := IterationSpec(w.batch, env, s, InputOf(env, context, dataSets));
      var b' := GenerateSpec(w, languages, env, s, context, dataSets, now).batch;
      && !NeedsInitialization(b')
      && Progress(b') == Progress(b1) + |elements|
  {
    var (b1, elements) := IterationSpec(w.batch, env, s, InputOf(env, context, dataSets));
    LoopProgress(b1, env, s, context, elements);
    var b2 := LoopSpec(b1, env, s, context, elements);
    ProcessSegmentFrame(World(b2, w.gen), languages, s, context, now);
  }

  /** generate() for one context leaves the other contexts' buffers and delta counts as they were. */
  lemma GenerateKeepsOtherContexts(w: World, languages: seq<string>, env: Env, s: BatchSettings, context: string,
                                   dataSets: Option<DataSet>, now: int)
    ensures var b' := GenerateSpec(w, languages, env, s, context, dataSets, now).batch;
      && (forall c :: c != context ==> ResultsOf(b', c) == ResultsOf(w.batch, c))
      && (forall c :: c != context ==> DeltaCountOf(b', c) == DeltaCountOf(w.batch, c))
  {
    var input := InputOf(env, context, dataSets);
    var (b1, elements) := IterationSpec(w.batch, env, s, input);
    if NeedsInitialization(w.batch) {
      InitializeKeepsProgress(w.batch, env.sitemapContexts, IsBatch(s), ListedCount(env, input));
    }
    LoopKeepsOthers(b1, env, s, context, elements);
    ProcessSegmentFrame(World(LoopSpec(b1, env, s, context, elements), w.gen), languages, s, context, now);
  }
}

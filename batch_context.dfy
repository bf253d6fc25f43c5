/**
 * The batch context of a URL-generation run (src/Plugin/simple_sitemap/
 * UrlGenerator/UrlGeneratorBase.php): the array the Batch API hands to every
 * producer by reference. It holds the per-context result buffers and delta
 * counters, the global and per-context lists of processed paths, and the
 * sandbox that makes a long run resumable across requests.
 */
module BatchContext {
  import opened Wrappers
  import opened SitemapData

  /** The 'from' value of a run outside the Batch API. */
  const NO_BATCH := "nobatch"

  /**
   * The batch settings a producer is given. A max_links of 0 stands for an
   * empty setting and a base_url of "" for a missing one.
   */
  datatype BatchSettings = BatchSettings(
    from: string,
    batchProcessLimit: nat,
    maxLinks: nat,
    removeDuplicates: bool,
    removeDuplicatesByContext: bool,
    skipUntranslated: bool,
    excludedLanguages: set<string>,
    baseUrl: string)

  /** isBatch(): every run except a 'nobatch' one goes through the Batch API. */
  predicate IsBatch(s: BatchSettings) {
    s.from != NO_BATCH
  }

  /** context['sandbox']: where the current run stands. */
  datatype Sandbox = Sandbox(progress: nat, currentId: int, max: nat, finished: int)

  /**
   * The whole batch context. `processedElements` and
   * `processedElementsByContext` are the keys that initializeBatch writes;
   * the dedup checks read `processedPaths` and `processedPathsByContext`.
   * `finished` is context['finished'] as the fraction progress/max.
   */
  datatype BatchState = BatchState(
    results: map<string, seq<Link>>,
    deltaCounts: map<string, nat>,
    processedPaths: seq<string>,
    processedPathsByContext: map<string, seq<string>>,
    processedElements: Option<seq<string>>,
    processedElementsByContext: map<string, seq<string>>,
    sandbox: Option<Sandbox>,
    finished: Option<(nat, nat)>)

  /** The context array of a fresh run. */
  const EmptyBatch := BatchState(map[], map[], [], map[], None, map[], None, None)

  /** getBatchResults(): the buffered links of a context, [] when there are none. */
  function ResultsOf(b: BatchState, context: string): seq<Link> {
    if context in b.results then b.results[context] else []
  }

  /** getDeltaCount(): the number of deltas written for a context, 0 when unset. */
  function DeltaCountOf(b: BatchState, context: string): nat {
    if context in b.deltaCounts then b.deltaCounts[context] else 0
  }

  /** getProcessedElementsByContext(): the paths already taken for a context. */
  function PathsOf(b: BatchState, context: string): seq<string> {
    if context in b.processedPathsByContext then b.processedPathsByContext[context] else []
  }

  /** sandbox['progress'], where a missing sandbox reads as 0. */
  function Progress(b: BatchState): nat {
    if b.sandbox.Some? then b.sandbox.value.progress else 0
  }

  /** needsInitialization(): the sandbox is empty. */
  predicate NeedsInitialization(b: BatchState) {
    b.sandbox.None?
  }

  // ---------------------------------------------------------------------
  // Dedup lists

  /** pathProcessed(): a test-and-insert on the global list. */
  function PathProcessedSpec(b: BatchState, path: string): BatchState {
    if path in b.processedPaths then b else b.(processedPaths := b.processedPaths + [path])
  }

  /** pathProcessedByContext(): a test-and-insert on one context's list. */
  function PathProcessedByContextSpec(b: BatchState, context: string, path: string): BatchState {
    if path in PathsOf(b, context) then b
    else b.(processedPathsByContext := b.processedPathsByContext[context := PathsOf(b, context) + [path]])
  }

  /**
   * After a global test the path is recorded, recorded exactly once more than
   * before when it was new, and a second test of the same path answers TRUE
   * and changes nothing. No per-context list is touched.
   */
  lemma PathProcessedTestAndInsert(b: BatchState, path: string)
    ensures var b' := PathProcessedSpec(b, path);
      && path in b'.processedPaths
      && (path !in b.processedPaths ==> b'.processedPaths == b.processedPaths + [path])
      && PathProcessedSpec(b', path) == b'
      && (forall c :: PathsOf(b', c) == PathsOf(b, c))
      && b'.processedPathsByContext == b.processedPathsByContext
  {
  }

  /**
   * A per-context test records the path in that context only: the other
   * contexts' lists and the global list are as before, and a second test in
   * the same context answers TRUE and changes nothing.
   */
  lemma PathProcessedByContextIndependent(b: BatchState, context: string, path: string)
    ensures var b' := PathProcessedByContextSpec(b, context, path);
      && path in PathsOf(b', context)
      && (path !in PathsOf(b, context) ==> PathsOf(b', context) == PathsOf(b, context) + [path])
      && (forall c :: c != context ==> PathsOf(b', c) == PathsOf(b, c))
      && b'.processedPaths == b.processedPaths
      && PathProcessedByContextSpec(b', context, path) == b'
  {
  }

  /** A dedup list built by test-and-insert never holds a path twice. */
  predicate NoDuplicates(s: seq<string>) {
    forall i, j :: 0 <= i < j < |s| ==> s[i] != s[j]
  }

  lemma PathProcessedKeepsUnique(b: BatchState, context: string, path: string)
    requires NoDuplicates(b.processedPaths) && NoDuplicates(PathsOf(b, context))
    ensures NoDuplicates(PathProcessedSpec(b, path).processedPaths)
    ensures NoDuplicates(PathsOf(PathProcessedByContextSpec(b, context, path), context))
  {
  }

  // ---------------------------------------------------------------------
  // initializeBatch, setCurrentId, setProgressInfo

  /** One pass of initializeBatch's loop: a context's entries written back as read. */
  function TouchContext(b: BatchState, context: string): BatchState {
    b.(results := b.results[context := ResultsOf(b, context)],
       deltaCounts := b.deltaCounts[context := DeltaCountOf(b, context)],
       processedElementsByContext := b.processedElementsByContext[context := PathsOf(b, context)])
  }

  /** The loop of initializeBatch over the run's contexts, in order. */
  function TouchContexts(b: BatchState, contexts: seq<string>): BatchState {
    if contexts == [] then b
    else TouchContext(TouchContexts(b, contexts[..|contexts| - 1]), contexts[|contexts| - 1])
  }

  /**
   * initializeBatch(max): every context of the run gets its buffer, delta
   * count and processed_elements_by_context entry written back as read; the
   * global list is copied to processed_elements; in batch mode the sandbox
   * starts at progress 0 with the given maximum.
   */
  function InitializeSpec(b: BatchState, contexts: seq<string>, batch: bool, max: nat): BatchState {
    TouchContexts(b, contexts).(
      processedElements := Some(b.processedPaths),
      sandbox := if batch then Some(Sandbox(0, 0, max, 0)) else b.sandbox)
  }

  /** The loop reads back what it writes, and writes every context it visits. */
  lemma {:induction false} TouchContextsKeeps(b: BatchState, contexts: seq<string>)
    ensures var b' := TouchContexts(b, contexts);
      && (forall c :: ResultsOf(b', c) == ResultsOf(b, c))
      && (forall c :: DeltaCountOf(b', c) == DeltaCountOf(b, c))
      && b'.processedPathsByContext == b.processedPathsByContext
      && b'.processedPaths == b.processedPaths
      && b'.sandbox == b.sandbox
      && (forall i :: 0 <= i < |contexts| ==>
            contexts[i] in b'.results && contexts[i] in b'.deltaCounts
            && contexts[i] in b'.processedElementsByContext
            && b'.processedElementsByContext[contexts[i]] == PathsOf(b, contexts[i]))
      && (forall c :: c in b.processedElementsByContext && c !in contexts ==>
            c in b'.processedElementsByContext && b'.processedElementsByContext[c] == b.processedElementsByContext[c])
    decreases |contexts|, 1
  {
    if contexts != [] {
      TouchContextsKeepsStep(b, contexts);
    }
  }

  lemma {:induction false} TouchContextsKeepsStep(b: BatchState, contexts: seq<string>)
    requires contexts != []
    ensures var b' := TouchContexts(b, contexts);
      && (forall c :: ResultsOf(b', c) == ResultsOf(b, c))
      && (forall c :: DeltaCountOf(b', c) == DeltaCountOf(b, c))
      && b'.processedPathsByContext == b.processedPathsByContext
      && b'.processedPaths == b.processedPaths
      && b'.sandbox == b.sandbox
      && (forall i :: 0 <= i < |contexts| ==>
            contexts[i] in b'.results && contexts[i] in b'.deltaCounts
            && contexts[i] in b'.processedElementsByContext
            && b'.processedElementsByContext[contexts[i]] == PathsOf(b, contexts[i]))
      && (forall c :: c in b.processedElementsByContext && c !in contexts ==>
            c in b'.processedElementsByContext && b'.processedElementsByContext[c] == b.processedElementsByContext[c])
    decreases |contexts|, 0
  {
    var init := contexts[..|contexts| - 1];
    TouchContextsKeeps(b, init);
    forall i | 0 <= i < |init| ensures init[i] == contexts[i] {
    }
  }

  /**
   * Initialisation loses nothing: every buffer, delta count and dedup list
   * reads as before (the writes go to the processed_elements keys, not the
   * processed_paths keys that the dedup checks read), and in batch mode the
   * sandbox is reset to progress 0, current id 0, the given max and
   * finished 0; outside batch mode the sandbox is left alone.
   */
  lemma InitializeKeepsProgress(b: BatchState, contexts: seq<string>, batch: bool, max: nat)
    ensures var b' := InitializeSpec(b, contexts, batch, max);
      && (forall c :: ResultsOf(b', c) == ResultsOf(b, c))
      && (forall c :: DeltaCountOf(b', c) == DeltaCountOf(b, c))
      && (forall c :: PathsOf(b', c) == PathsOf(b, c))
      && b'.processedPaths == b.processedPaths
      && b'.processedElements == Some(b.processedPaths)
      && (forall i :: 0 <= i < |contexts| ==>
            contexts[i] in b'.processedElementsByContext
            && b'.processedElementsByContext[contexts[i]] == PathsOf(b, contexts[i]))
      && (batch ==> b'.sandbox == Some(Sandbox(0, 0, max, 0)) && !NeedsInitialization(b'))
      && (!batch ==> b'.sandbox == b.sandbox)
  {
    TouchContextsKeeps(b, contexts);
  }

  /** setCurrentId(): in batch mode progress rises by one and current_id is the element's key. */
  function SetCurrentIdSpec(b: BatchState, batch: bool, id: int): BatchState {
    if !batch then b
    else
      var sb := b.sandbox.GetOr(Sandbox(0, 0, 0, 0));
      b.(sandbox := Some(sb.(progress := sb.progress + 1, currentId := id)))
  }

  /** setProgressInfo(): context['finished'] becomes progress/max unless the run is complete. */
  function ProgressInfoSpec(b: BatchState): (b': BatchState)
    ensures b'.(finished := b.finished) == b
  {
    match b.sandbox
    case None => b
    case Some(sb) => if sb.progress != sb.max then b.(finished := Some((sb.progress, sb.max))) else b
  }

  /** array_slice(xs, offset, length) on a list. */
  function Window<T>(xs: seq<T>, offset: nat, length: nat): (r: seq<T>)
    ensures |r| <= length && |r| <= |xs|
    ensures offset + length <= |xs| ==> r == xs[offset..offset + length]
    ensures offset < |xs| < offset + length ==> r == xs[offset..]
    ensures offset >= |xs| ==> r == []
  {
    var lo := if offset < |xs| then offset else |xs|;
    var hi := if offset + length < |xs| then offset + length else |xs|;
    xs[lo..hi]
  }

  /** array_slice(xs, offset) without a length: everything from the offset on. */
  function Rest<T>(xs: seq<T>, offset: nat): (r: seq<T>)
    ensures offset <= |xs| ==> r == xs[offset..]
    ensures offset >= |xs| ==> r == []
  {
    if offset < |xs| then xs[offset..] else []
  }

  /** Slicing off a then b from the front is slicing off a + b. */
  lemma RestRest<T>(xs: seq<T>, a: nat, b: nat)
    ensures Rest(Rest(xs, a), b) == Rest(xs, a + b)
  {
    if a + b <= |xs| {
      assert xs[a..][b..] == xs[a + b..];
    }
  }

  /**
   * Consecutive windows tile the list: the window at p of n elements followed
   * by the window at p + n of m elements is the window at p of n + m.
   */
  lemma WindowsTile<T>(xs: seq<T>, p: nat, n: nat, m: nat)
    ensures Window(xs, p, n) + Window(xs, p + n, m) == Window(xs, p, n + m)
  {
  }

  /** A window of the list after its first d elements is a window of the list, d further on. */
  lemma WindowShift<T>(xs: seq<T>, d: nat, p: nat, n: nat)
    requires d <= |xs|
    ensures Window(xs[d..], p, n) == Window(xs, d + p, n)
  {
  }

  /** The step from piece j to piece j + 1 of a list cut into pieces of m. */
  lemma MulStep(j: nat, m: nat)
    ensures j * m + m == (j + 1) * m
  {
  }

  /** Later pieces start further on. */
  lemma MulMono(a: nat, b: nat, m: nat)
    requires a <= b
    ensures a * m <= b * m
  {
  }

  /** The windows of n elements at 0, n, ..., (k - 1) n. */
  function Windows<T>(xs: seq<T>, n: nat, k: nat): (ws: seq<seq<T>>)
    ensures |ws| == k
  {
    seq(k, i requires 0 <= i < k => Window(xs, i * n, n))
  }

  /** Windows that advance by their length from 0 cover the list in order. */
  lemma {:induction false} WindowsCover<T>(xs: seq<T>, n: nat, k: nat)
    ensures Concat(Windows(xs, n, k)) == Window(xs, 0, k * n)
    decreases k, 1
  {
    if k > 0 {
      WindowsCoverStep(xs, n, k);
    }
  }

  lemma {:induction false} WindowsCoverStep<T>(xs: seq<T>, n: nat, k: nat)
    requires k > 0
    ensures Concat(Windows(xs, n, k)) == Window(xs, 0, k * n)
    decreases k, 0
  {
    var ws := Windows(xs, n, k);
    WindowsCover(xs, n, k - 1);
    assert ws[..k - 1] == Windows(xs, n, k - 1);
    assert ws == ws[..k - 1] + [ws[k - 1]];
    ConcatSnoc(ws[..k - 1], ws[k - 1]);
    MulStep(k - 1, n);
    WindowsTile(xs, 0, (k - 1) * n, n);
  }

  /** Enough windows take in the whole list. */
  lemma WindowAll<T>(xs: seq<T>, length: nat)
    requires length >= |xs|
    ensures Window(xs, 0, length) == xs
  {
  }

  function Concat<T>(ss: seq<seq<T>>): seq<T> {
    if ss == [] then [] else ss[0] + Concat(ss[1..])
  }

  lemma {:induction false} ConcatSnoc<T>(ss: seq<seq<T>>, s: seq<T>)
    ensures Concat(ss + [s]) == Concat(ss) + s
  {
    if ss != [] {
      assert (ss + [s])[1..] == ss[1..] + [s];
      ConcatSnoc(ss[1..], s);
    } else {
      assert [s][1..] == [];
    }
  }

  /** setBatchResults() on the context array: the context's buffer is replaced, nothing else. */
  function SetResultsSpec(b: BatchState, context: string, links: seq<Link>): (b': BatchState)
    ensures ResultsOf(b', context) == links
    ensures b'.deltaCounts == b.deltaCounts
  {
    b.(results := b.results[context := links])
  }

  /**
   * addBatchResult() once per link, in order: the links join the end of the
   * context's buffer; with no link nothing is written at all.
   */
  function AppendResults(b: BatchState, context: string, links: seq<Link>): (b': BatchState)
    ensures ResultsOf(b', context) == ResultsOf(b, context) + links
  {
    if links == [] then b else SetResultsSpec(b, context, ResultsOf(b, context) + links)
  }

  /** Appending touches the context's buffer only. */
  lemma AppendResultsFrame(b: BatchState, context: string, links: seq<Link>)
    ensures var b' := AppendResults(b, context, links);
      && b'.(results := b.results) == b
      && (forall c :: c != context ==> ResultsOf(b', c) == ResultsOf(b, c))
  {
  }

  /** One more addBatchResult() after a run of them is the run with the link at its end. */
  lemma AppendResultsSnoc(b: BatchState, context: string, links: seq<Link>, link: Link)
    ensures var b' := AppendResults(b, context, links);
      SetResultsSpec(b', context, ResultsOf(b', context) + [link]) == AppendResults(b, context, links + [link])
  {
    var r := ResultsOf(b, context);
    if links == [] {
      assert links + [link] == [link];
    } else {
      assert (r + links) + [link] == r + (links + [link]);
      SetResultsTwice(b, context, r + links, r + (links + [link]));
    }
  }

  /** setDeltaCount() on the context array: the context's count is replaced, nothing else. */
  function SetDeltaCountSpec(b: BatchState, context: string, count: nat): (b': BatchState)
    ensures DeltaCountOf(b', context) == count
    ensures b'.results == b.results
  {
    b.(deltaCounts := b.deltaCounts[context := count])
  }

  /** A second setBatchResults() on the same context wins. */
  lemma SetResultsTwice(b: BatchState, context: string, a: seq<Link>, c: seq<Link>)
    ensures SetResultsSpec(SetResultsSpec(b, context, a), context, c) == SetResultsSpec(b, context, c)
  {
    assert b.results[context := a][context := c] == b.results[context := c];
  }

  /** A second setDeltaCount() on the same context wins. */
  lemma SetDeltaCountTwice(b: BatchState, context: string, x: nat, y: nat)
    ensures SetDeltaCountSpec(SetDeltaCountSpec(b, context, x), context, y) == SetDeltaCountSpec(b, context, y)
  {
    assert b.deltaCounts[context := x][context := y] == b.deltaCounts[context := y];
  }

  /** The buffer and the delta count are independent entries of the context array. */
  lemma SetResultsDeltaCountCommute(b: BatchState, context: string, links: seq<Link>, count: nat)
    ensures SetDeltaCountSpec(SetResultsSpec(b, context, links), context, count)
         == SetResultsSpec(SetDeltaCountSpec(b, context, count), context, links)
  {
  }

  // ---------------------------------------------------------------------
  // The context array, shared by reference

  class Batch {
    var results: map<string, seq<Link>>
    var deltaCounts: map<string, nat>
    var processedPaths: seq<string>
    var processedPathsByContext: map<string, seq<string>>
    var processedElements: Option<seq<string>>
    var processedElementsByContext: map<string, seq<string>>
    var sandbox: Option<Sandbox>
    var finished: Option<(nat, nat)>

    function State(): BatchState
      reads this
    {
      BatchState(results, deltaCounts, processedPaths, processedPathsByContext,
                 processedElements, processedElementsByContext, sandbox, finished)
    }

    constructor ()
      ensures State() == EmptyBatch
    {
      results := map[];
      deltaCounts := map[];
      processedPaths := [];
      processedPathsByContext := map[];
      processedElements := None;
      processedElementsByContext := map[];
      sandbox := None;
      finished := None;
    }

    /** addBatchResult(): appends one link to a context's buffer. */
    method AddBatchResult(context: string, link: Link)
      modifies this
      ensures State() == SetResultsSpec(old(State()), context, ResultsOf(old(State()), context) + [link])
    {
      results := results[context := ResultsOf(State(), context) + [link]];
    }

    /** setBatchResults(): replaces a context's buffer. */
    method SetBatchResults(context: string, links: seq<Link>)
      modifies this
      ensures State() == SetResultsSpec(old(State()), context, links)
    {
      results := results[context := links];
    }

    /** setDeltaCount(): replaces a context's delta count. */
    method SetDeltaCount(context: string, count: nat)
      modifies this
      ensures State() == SetDeltaCountSpec(old(State()), context, count)
    {
      deltaCounts := deltaCounts[context := count];
    }

    /** pathProcessed(): TRUE iff the path was already taken; a new path is recorded. */
    method PathProcessed(path: string) returns (processed: bool)
      modifies this
      ensures processed == (path in old(processedPaths))
      ensures State() == PathProcessedSpec(old(State()), path)
    {
      if path in processedPaths {
        return true;
      }
      processedPaths := processedPaths + [path];
      return false;
    }

    /** pathProcessedByContext(): the same test on one context's list. */
    method PathProcessedByContext(context: string, path: string) returns (processed: bool)
      modifies this
      ensures processed == (path in PathsOf(old(State()), context))
      ensures State() == PathProcessedByContextSpec(old(State()), context, path)
    {
      var paths := PathsOf(State(), context);
      if path in paths {
        return true;
      }
      processedPathsByContext := processedPathsByContext[context := paths + [path]];
      return false;
    }

    /** initializeBatch(): one pass over the run's contexts, then the sandbox. */
    method InitializeBatch(contexts: seq<string>, batch: bool, max: nat)
      modifies this
      ensures State() == InitializeSpec(old(State()), contexts, batch, max)
    {
      ghost var b0 := State();
      for i := 0 to |contexts|
        invariant State() == TouchContexts(b0, contexts[..i])
      {
        var c := contexts[i];
        assert contexts[..i + 1][..i] == contexts[..i];
        results := results[c := ResultsOf(State(), c)];
        deltaCounts := deltaCounts[c := DeltaCountOf(State(), c)];
        processedElementsByContext := processedElementsByContext[c := PathsOf(State(), c)];
      }
      assert contexts[..|contexts|] == contexts;
      TouchContextsKeeps(b0, contexts);
      processedElements := Some(processedPaths);
      if batch {
        sandbox := Some(Sandbox(0, 0, max, 0));
      }
    }

    /** setCurrentId(): counts one visited element in batch mode. */
    method SetCurrentId(batch: bool, id: int)
      modifies this
      ensures State() == SetCurrentIdSpec(old(State()), batch, id)
    {
      if batch {
        var sb := sandbox.GetOr(Sandbox(0, 0, 0, 0));
        sandbox := Some(sb.(progress := sb.progress + 1, currentId := id));
      }
    }

    /** setProgressInfo(): reports progress/max to the Batch API. */
    method SetProgressInfo()
      modifies this
      ensures State() == ProgressInfoSpec(old(State()))
    {
      if sandbox.Some? && sandbox.value.progress != sandbox.value.max {
        finished := Some((sandbox.value.progress, sandbox.value.max));
      }
    }
  }
}

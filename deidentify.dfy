/** The de-identification engine: for each input text and its detected
    entities, visit the entities by ascending start index, let the
    processor chosen by the entity's label produce a replacement, and
    splice it into the text at the start and end indices shifted by the
    growth so far. */
module PostProcessing {
  import opened Types
  import opened Strings
  import opened DefaultProcessors
  import opened FuzzyMatch

  /** The processors the engine can be configured with. */
  datatype EntityProcessor =
    | Mask(mask: MaskEntityProcessor)
    | Marker(marker: MarkerEntityProcessor)
    | Fuzzy(fuzzy: FuzzyMatchEntityProcessor)

  /** The objects a processor updates when called. */
  function Footprint(p: EntityProcessor): set<object> {
    match p
    case Mask(_) => {}
    case Marker(m) => {m}
    case Fuzzy(f) => {f}
  }

  /** A processor's counters as they stand; the mask processor has none. */
  function LiveCounts(p: EntityProcessor): Counts
    reads Footprint(p)
  {
    match p
    case Mask(_) => map[]
    case Marker(m) => m.counts
    case Fuzzy(f) => f.counts
  }

  /** The processors' counters, keyed by processor. */
  type State = map<EntityProcessor, Counts>

  function Counter(st: State, p: EntityProcessor): Counts {
    if p in st then st[p] else map[]
  }

  /** Every processor the engine may call: the configured ones and the default. */
  function Procs(procs: map<string, EntityProcessor>, dflt: EntityProcessor): set<EntityProcessor> {
    procs.Values + {dflt}
  }

  function Footprints(ps: set<EntityProcessor>): set<object> {
    (set p | p in ps && p.Marker? :: p.marker as object) + (set p | p in ps && p.Fuzzy? :: p.fuzzy as object)
  }

  /** A processor of `ps` only touches objects of `ps`. */
  lemma FootprintWithin(ps: set<EntityProcessor>, p: EntityProcessor)
    requires p in ps
    ensures Footprint(p) <= Footprints(ps)
  {
  }

  ghost function LiveState(ps: set<EntityProcessor>): State
    reads Footprints(ps)
  {
    map p | p in ps :: LiveCounts(p)
  }

  /** The processor for a label: the configured one, else the default. */
  function Choose(procs: map<string, EntityProcessor>, dflt: EntityProcessor, key: string): (p: EntityProcessor)
    ensures p in Procs(procs, dflt)
    ensures key in procs ==> p == procs[key]
    ensures key !in procs ==> p == dflt
  {
    if key in procs then procs[key] else dflt
  }

  /** What calling a processor does: from the entity and the processor's
      counters, its replacement and new counters, or the exception it
      raises. The engine's definitions and lemmas hold for any such
      behaviour; the processors modelled here behave as `ApplyOne`. */
  type Apply = (EntityProcessor, Counts, Entity) -> Result<Step>

  /** One processor call on counters `counts`: its replacement and new counters. */
  function ApplyOne(p: EntityProcessor, counts: Counts, e: Entity): Result<Step> {
    match p
    case Mask(m) => Ok(Step(m.Call(e), counts))
    case Marker(_) => Ok(MarkerStep(counts, e.bestLabel))
    case Fuzzy(f) => FuzzyStep(f.config, counts, e.text, e.bestLabel)
  }

  /** A call's result together with the counters it left. */
  function Outcome(r: Result<string>, counts: Counts): Result<Step> {
    if r.Ok? then Ok(Step(r.value, counts)) else Err(r.error)
  }

  /** Calls a processor on an entity; only that processor's counters move. */
  method CallProcessor(p: EntityProcessor, e: Entity) returns (r: Result<string>)
    modifies Footprint(p)
    ensures ApplyOne(p, old(LiveCounts(p)), e) == Outcome(r, LiveCounts(p))
    ensures r.Err? ==> LiveCounts(p) == old(LiveCounts(p))
  {
    match p
    case Mask(m) =>
      r := Ok(m.Call(e));
    case Marker(m) =>
      var marker := m.Call(e);
      r := Ok(marker);
    case Fuzzy(f) =>
      r := f.Call(e);
  }

  /** The state after a call: only the called processor's counters moved. */
  lemma AfterCall(ps: set<EntityProcessor>, p: EntityProcessor, before: State, after: State)
    requires p in ps
    requires forall q :: q in ps ==> q in before && q in after
    requires forall q :: q in before ==> q in ps
    requires forall q :: q in after ==> q in ps
    requires forall q :: q in ps && q != p ==> after[q] == before[q]
    ensures after == before[p := after[p]]
  {
  }

  /** Calls a processor of `ps`; the other processors' counters stay as
      they were, since no two processors share an object. */
  method CallTracked(ghost ps: set<EntityProcessor>, p: EntityProcessor, e: Entity) returns (r: Result<string>)
    requires p in ps
    modifies Footprint(p)
    ensures ApplyOne(p, Counter(old(LiveState(ps)), p), e) == Outcome(r, LiveCounts(p))
    ensures LiveState(ps) == if r.Ok? then old(LiveState(ps))[p := LiveCounts(p)] else old(LiveState(ps))
  {
    ghost var before := LiveState(ps);
    r := CallProcessor(p, e);
    ghost var after := LiveState(ps);
    forall q | q in ps && q != p
      ensures after[q] == before[q]
    {
      assert Footprint(q) !! Footprint(p);
    }
    AfterCall(ps, p, before, after);
  }

  // ---------------------------------------------------------------------
  // The order of visits: Python's stable `sorted` on the start index.

  /** Entity `i` is visited before entity `j`: a smaller start, or the same
      start and an earlier position in the list. */
  predicate Before(es: seq<Entity>, i: nat, j: nat)
    requires i < |es| && j < |es|
  {
    es[i].sttIdx < es[j].sttIdx || (es[i].sttIdx == es[j].sttIdx && i < j)
  }

  predicate InRange(es: seq<Entity>, order: seq<nat>) {
    forall k :: 0 <= k < |order| ==> order[k] < |es|
  }

  predicate SortedBy(es: seq<Entity>, order: seq<nat>)
    requires InRange(es, order)
  {
    forall a, b :: 0 <= a < b < |order| ==> Before(es, order[a], order[b])
  }

  /** The head of a sorted order is visited before the rest. */
  lemma HeadFirst(es: seq<Entity>, order: seq<nat>)
    requires order != [] && InRange(es, order) && SortedBy(es, order)
    ensures forall y :: y in order[1..] ==> Before(es, order[0], y)
  {
    forall y | y in order[1..]
      ensures Before(es, order[0], y)
    {
      var m :| 0 <= m < |order| - 1 && order[1..][m] == y;
      assert order[m + 1] == y;
    }
  }

  /** An index visited before every index of a sorted order can lead it. */
  lemma SortedCons(es: seq<Entity>, x: nat, rest: seq<nat>)
    requires x < |es| && InRange(es, rest) && SortedBy(es, rest)
    requires forall y :: y in rest ==> Before(es, x, y)
    ensures InRange(es, [x] + rest) && SortedBy(es, [x] + rest)
  {
    forall a, b | 0 <= a < b < |[x] + rest|
      ensures Before(es, ([x] + rest)[a], ([x] + rest)[b])
    {
      if a == 0 {
        assert rest[b - 1] in rest;
      }
    }
  }

  /** Inserts index `i`, later than every index in `order`, in its place. */
  function Insert(es: seq<Entity>, order: seq<nat>, i: nat): (r: seq<nat>)
    requires i < |es| && InRange(es, order) && SortedBy(es, order)
    requires forall k :: 0 <= k < |order| ==> order[k] < i
    ensures |r| == |order| + 1
    ensures forall x :: x in r <==> x in order || x == i
    ensures InRange(es, r) && SortedBy(es, r)
  {
    if order == [] then [i]
    else if Before(es, i, order[0]) then [i] + order
    else
      var rest := Insert(es, order[1..], i);
      HeadFirst(es, order);
      SortedCons(es, order[0], rest);
      [order[0]] + rest
  }

  /** The first `n` indices, sorted. */
  function SortPrefix(es: seq<Entity>, n: nat): (r: seq<nat>)
    requires n <= |es|
    ensures |r| == n
    ensures forall x: nat :: x in r <==> x < n
    ensures InRange(es, r) && SortedBy(es, r)
  {
    if n == 0 then []
    else
      var prev := SortPrefix(es, n - 1);
      assert forall k :: 0 <= k < |prev| ==> prev[k] in prev;
      Insert(es, prev, n - 1)
  }

  /** `sorted(range(len(es)), key=stt_idx)`: every index exactly once (the
      order is strict), by ascending start, ties in list order. */
  function SortOrder(es: seq<Entity>): (order: seq<nat>)
    ensures |order| == |es|
    ensures forall i :: 0 <= i < |es| ==> i in order
    ensures InRange(es, order) && SortedBy(es, order)
  {
    SortPrefix(es, |es|)
  }

  /** A sorted order lists no index twice. */
  lemma SortedDistinct(es: seq<Entity>, order: seq<nat>)
    requires InRange(es, order) && SortedBy(es, order)
    ensures forall a, b :: 0 <= a < b < |order| ==> order[a] != order[b]
  {
  }

  // ---------------------------------------------------------------------
  // One text.

  /** Python slicing bound: indices past either end stop at that end. */
  function Clamp(i: int, n: nat): (c: nat)
    ensures c <= n
    ensures 0 <= i <= n ==> c == i
    ensures i < 0 ==> c == 0
    ensures i > n ==> c == n
  {
    if i < 0 then 0 else if i > n then n else i
  }

  /** `s[:start] + r + s[end:]`. */
  function Splice(s: string, start: int, end: int, r: string): string {
    s[..Clamp(start, |s|)] + r + s[Clamp(end, |s|)..]
  }

  /** The engine's state after some of a text's entities: the working text,
      the accumulated growth, the replacements so far, the processors'
      counters and the exception that stopped it, if any. */
  datatype Progress = Progress(text: string, offset: int, repls: seq<string>, state: State, failure: Option<Error>)

  /** One turn of the inner loop on entity `e` with processor `p`: the
      call's replacement is spliced in at the span shifted by the growth so
      far and `p`'s counters move on; a call that raises records the
      exception, and once one has been raised nothing more happens. */
  function Visit(apply: Apply, prev: Progress, e: Entity, p: EntityProcessor): (r: Progress)
    ensures r.failure.None? ==> prev.failure.None? && |r.repls| == |prev.repls| + 1
    ensures r.failure.Some? ==> |r.repls| == |prev.repls|
  {
    if prev.failure.Some? then prev
    else
      match apply(p, Counter(prev.state, p), e)
      case Err(err) => prev.(failure := Some(err))
      case Ok(step) =>
        Progress(Splice(prev.text, e.sttIdx + prev.offset, e.endIdx + prev.offset, step.replacement),
                 prev.offset + |step.replacement| - |e.text|,
                 prev.repls + [step.replacement],
                 prev.state[p := step.counts],
                 None)
  }

  /** The first `k` visits of the inner loop, from counters `st0`. A
      processor that raises stops the loop; the counters keep what earlier
      calls did. */
  function Run(text: string, es: seq<Entity>, order: seq<nat>, apply: Apply, procs: map<string, EntityProcessor>,
               dflt: EntityProcessor, st0: State, k: nat): (r: Progress)
    requires k <= |order| && InRange(es, order)
    ensures |r.repls| <= k
    ensures r.failure.None? ==> |r.repls| == k
  {
    if k == 0 then Progress(text, 0, [], st0, None)
    else
      var e := es[order[k - 1]];
      Visit(apply, Run(text, es, order, apply, procs, dflt, st0, k - 1), e, Choose(procs, dflt, e.bestLabel))
  }

  /** A visit whose call raised ends the run there, counters unchanged. */
  lemma VisitFails(text: string, es: seq<Entity>, order: seq<nat>, apply: Apply, procs: map<string, EntityProcessor>,
                   dflt: EntityProcessor, st0: State, k: nat,
                   modified: string, offset: int, repls: seq<string>, before: State, err: Error)
    requires k < |order| && InRange(es, order)
    requires Run(text, es, order, apply, procs, dflt, st0, k) == Progress(modified, offset, repls, before, None)
    requires var e := es[order[k]];
             var p := Choose(procs, dflt, e.bestLabel);
             apply(p, Counter(before, p), e) == Err(err)
    ensures Run(text, es, order, apply, procs, dflt, st0, |order|) == Progress(modified, offset, repls, before, Some(err))
  {
    RunStops(text, es, order, apply, procs, dflt, st0, k + 1, |order|);
  }

  /** A visit whose call returned splices the replacement in at the span
      shifted by the offset, overwrites the entity's text and keeps the
      called processor's new counters. */
  lemma VisitSplices(text: string, es: seq<Entity>, order: seq<nat>, apply: Apply, procs: map<string, EntityProcessor>,
                     dflt: EntityProcessor, st0: State, k: nat,
                     modified: string, offset: int, repls: seq<string>, updated: seq<Entity>,
                     before: State, x: string, counts: Counts, startIdx: int, endIdx: int)
    requires k < |order| && InRange(es, order)
    requires Run(text, es, order, apply, procs, dflt, st0, k) == Progress(modified, offset, repls, before, None)
    requires updated == Overwrite(es, order, repls)
    requires var e := es[order[k]];
             var p := Choose(procs, dflt, e.bestLabel);
             apply(p, Counter(before, p), e) == Ok(Step(x, counts))
             && startIdx == e.sttIdx + offset && endIdx == e.endIdx + offset
    ensures Run(text, es, order, apply, procs, dflt, st0, k + 1)
            == Progress(Splice(modified, startIdx, endIdx, x), offset + |x| - |es[order[k]].text|, repls + [x],
                        before[Choose(procs, dflt, es[order[k]].bestLabel) := counts], None)
    ensures Overwrite(es, order, repls + [x]) == updated[order[k] := updated[order[k]].(text := x)]
  {
    OverwriteSnoc(es, order, repls, x);
  }

  /** Once a processor has raised, later visits change nothing. */
  lemma {:induction false} RunStops(text: string, es: seq<Entity>, order: seq<nat>, apply: Apply, procs: map<string, EntityProcessor>,
                                    dflt: EntityProcessor, st0: State, k: nat, m: nat)
    requires k <= m <= |order| && InRange(es, order)
    requires Run(text, es, order, apply, procs, dflt, st0, k).failure.Some?
    ensures Run(text, es, order, apply, procs, dflt, st0, m) == Run(text, es, order, apply, procs, dflt, st0, k)
    decreases m - k
  {
    if k < m {
      RunStops(text, es, order, apply, procs, dflt, st0, k, m - 1);
    }
  }

  /** `entity["text"] = replacement` for the first `|repls|` visited
      entities; the entity list is otherwise left as it was. */
  function Overwrite(es: seq<Entity>, order: seq<nat>, repls: seq<string>): (r: seq<Entity>)
    requires |repls| <= |order| && InRange(es, order)
    ensures |r| == |es|
  {
    if repls == [] then es
    else
      var n := |repls| - 1;
      var prev := Overwrite(es, order, repls[..n]);
      prev[order[n] := prev[order[n]].(text := repls[n])]
  }

  /** One more replacement overwrites one more entity's text. */
  lemma OverwriteSnoc(es: seq<Entity>, order: seq<nat>, repls: seq<string>, x: string)
    requires |repls| < |order| && InRange(es, order)
    ensures var prev := Overwrite(es, order, repls);
            Overwrite(es, order, repls + [x]) == prev[order[|repls|] := prev[order[|repls|]].(text := x)]
  {
    assert (repls + [x])[..|repls|] == repls;
  }

  /** Each visited entity carries its own replacement and keeps its
      location and label; an entity not yet visited is untouched. */
  lemma {:induction false} OverwriteAt(es: seq<Entity>, order: seq<nat>, repls: seq<string>, i: nat)
    requires |repls| <= |order| && InRange(es, order) && SortedBy(es, order) && i < |es|
    ensures forall k :: 0 <= k < |repls| && order[k] == i ==> Overwrite(es, order, repls)[i] == es[i].(text := repls[k])
    ensures (forall k :: 0 <= k < |repls| ==> order[k] != i) ==> Overwrite(es, order, repls)[i] == es[i]
  {
    if repls != [] {
      var n := |repls| - 1;
      OverwriteAt(es, order, repls[..n], i);
      SortedDistinct(es, order);
      assert forall k :: 0 <= k < n ==> repls[..n][k] == repls[k];
    }
  }

  /** The growth of the first `|repls|` visited entities: each replacement's
      length minus the length of the entity text it replaced. */
  function Growth(es: seq<Entity>, order: seq<nat>, repls: seq<string>): int
    requires |repls| <= |order| && InRange(es, order)
  {
    if repls == [] then 0
    else
      var n := |repls| - 1;
      Growth(es, order, repls[..n]) + |repls[n]| - |es[order[n]].text|
  }

  /** The offset is the growth of the replacements made so far, measured
      against the entity texts, not the index spans. */
  lemma {:induction false} RunOffset(text: string, es: seq<Entity>, order: seq<nat>, apply: Apply, procs: map<string, EntityProcessor>,
                                     dflt: EntityProcessor, st0: State, k: nat)
    requires k <= |order| && InRange(es, order)
    requires Run(text, es, order, apply, procs, dflt, st0, k).failure.None?
    ensures var r := Run(text, es, order, apply, procs, dflt, st0, k);
            r.offset == Growth(es, order, r.repls)
  {
    if k > 0 {
      RunStepOk(text, es, order, apply, procs, dflt, st0, k);
      RunOffset(text, es, order, apply, procs, dflt, st0, k - 1);
      GrowthStep(es, order, Run(text, es, order, apply, procs, dflt, st0, k - 1), Run(text, es, order, apply, procs, dflt, st0, k));
    }
  }

  /** One more visit adds its replacement's growth: the inductive step of `RunOffset`. */
  lemma GrowthStep(es: seq<Entity>, order: seq<nat>, prev: Progress, next: Progress)
    requires |prev.repls| < |order| && InRange(es, order)
    requires Visited(es, order, prev, next) && prev.offset == Growth(es, order, prev.repls)
    ensures next.offset == Growth(es, order, next.repls)
  {
  }

  // A reference for the result: replace every span of the original text.

  /** Each entity's span lies in the text and is as long as its text, and
      no visited span overlaps a later one. */
  predicate WellFormed(text: string, es: seq<Entity>, order: seq<nat>)
    requires InRange(es, order)
  {
    (forall k :: 0 <= k < |order| ==>
       0 <= es[order[k]].sttIdx <= es[order[k]].endIdx <= |text|
       && es[order[k]].endIdx - es[order[k]].sttIdx == |es[order[k]].text|)
    && (forall a, b :: 0 <= a < b < |order| ==> es[order[a]].endIdx <= es[order[b]].sttIdx)
  }

  /** Where the untouched text resumes after the first `k` spans. */
  function PrevEnd(es: seq<Entity>, order: seq<nat>, k: nat): int
    requires k <= |order| && InRange(es, order)
  {
    if k == 0 then 0 else es[order[k - 1]].endIdx
  }

  /** The original text up to the end of the `|repls|`-th span, with each
      span replaced and the text between spans kept. */
  function Lead(text: string, es: seq<Entity>, order: seq<nat>, repls: seq<string>): string
    requires |repls| <= |order| && InRange(es, order) && WellFormed(text, es, order)
  {
    if repls == [] then ""
    else
      var n := |repls| - 1;
      Lead(text, es, order, repls[..n]) + text[PrevEnd(es, order, n)..es[order[n]].sttIdx] + repls[n]
  }

  /** The text with the first `|repls|` spans replaced. */
  function Replaced(text: string, es: seq<Entity>, order: seq<nat>, repls: seq<string>): string
    requires |repls| <= |order| && InRange(es, order) && WellFormed(text, es, order)
  {
    Lead(text, es, order, repls) + text[PrevEnd(es, order, |repls|)..]
  }

  /** The working text is the original with the spans visited so far
      replaced, and it has grown by the offset. */
  predicate Replacing(text: string, es: seq<Entity>, order: seq<nat>, p: Progress)
    requires |p.repls| <= |order| && InRange(es, order) && WellFormed(text, es, order)
  {
    p.text == Replaced(text, es, order, p.repls)
    && |Lead(text, es, order, p.repls)| == PrevEnd(es, order, |p.repls|) + p.offset
    && |p.text| == |text| + p.offset
  }

  /** `next` is `prev` after one more visit that did not raise. */
  predicate Visited(es: seq<Entity>, order: seq<nat>, prev: Progress, next: Progress)
    requires InRange(es, order)
  {
    |next.repls| == |prev.repls| + 1 <= |order|
    && next.repls[..|prev.repls|] == prev.repls
    && var e := es[order[|prev.repls|]];
       var x := next.repls[|prev.repls|];
       next.text == Splice(prev.text, e.sttIdx + prev.offset, e.endIdx + prev.offset, x)
       && next.offset == prev.offset + |x| - |e.text|
  }

  /** On well-formed spans the shifted splices replace exactly the spans
      of the original text, and the text grows by the offset. */
  lemma {:induction false} RunReplaces(text: string, es: seq<Entity>, order: seq<nat>, apply: Apply, procs: map<string, EntityProcessor>,
                                       dflt: EntityProcessor, st0: State, k: nat)
    requires k <= |order| && InRange(es, order) && WellFormed(text, es, order)
    requires Run(text, es, order, apply, procs, dflt, st0, k).failure.None?
    ensures Replacing(text, es, order, Run(text, es, order, apply, procs, dflt, st0, k))
  {
    if k > 0 {
      RunStepOk(text, es, order, apply, procs, dflt, st0, k);
      RunReplaces(text, es, order, apply, procs, dflt, st0, k - 1);
      ReplacesStep(text, es, order, Run(text, es, order, apply, procs, dflt, st0, k - 1), Run(text, es, order, apply, procs, dflt, st0, k));
    }
  }

  /** A visit that did not raise: the previous run did not raise either,
      and the visit spliced its replacement at the shifted span. */
  lemma RunStepOk(text: string, es: seq<Entity>, order: seq<nat>, apply: Apply, procs: map<string, EntityProcessor>,
                  dflt: EntityProcessor, st0: State, k: nat)
    requires 0 < k <= |order| && InRange(es, order)
    requires Run(text, es, order, apply, procs, dflt, st0, k).failure.None?
    ensures Run(text, es, order, apply, procs, dflt, st0, k - 1).failure.None?
    ensures Visited(es, order, Run(text, es, order, apply, procs, dflt, st0, k - 1), Run(text, es, order, apply, procs, dflt, st0, k))
  {
    var prev := Run(text, es, order, apply, procs, dflt, st0, k - 1);
    VisitOk(apply, es, order, prev, Choose(procs, dflt, es[order[k - 1]].bestLabel));
  }

  /** A visit that did not raise appends one replacement, splices it in at
      the span shifted by the growth so far and grows the offset by it. */
  lemma VisitOk(apply: Apply, es: seq<Entity>, order: seq<nat>, prev: Progress, p: EntityProcessor)
    requires InRange(es, order) && |prev.repls| < |order|
    requires Visit(apply, prev, es[order[|prev.repls|]], p).failure.None?
    ensures prev.failure.None?
    ensures Visited(es, order, prev, Visit(apply, prev, es[order[|prev.repls|]], p))
  {
    var r := Visit(apply, prev, es[order[|prev.repls|]], p);
    assert r.repls == prev.repls + [r.repls[|prev.repls|]];
  }

  /** One more well-formed span replaced: the inductive step of `RunReplaces`. */
  lemma ReplacesStep(text: string, es: seq<Entity>, order: seq<nat>, prev: Progress, next: Progress)
    requires |prev.repls| < |order| && InRange(es, order) && WellFormed(text, es, order)
    requires Replacing(text, es, order, prev) && Visited(es, order, prev, next)
    ensures Replacing(text, es, order, next)
  {
    var n := |prev.repls|;
    var e := es[order[n]];
    var pe := PrevEnd(es, order, n);
    var lead := Lead(text, es, order, prev.repls);
    assert pe <= e.sttIdx by {
      if n > 0 {
        assert es[order[n - 1]].endIdx <= es[order[n]].sttIdx;
      }
    }
    SpliceSpan(lead, text, pe, e.sttIdx, e.endIdx, prev.offset, next.repls[n]);
    assert Lead(text, es, order, next.repls) == lead + text[pe..e.sttIdx] + next.repls[n];
  }

  /** Splicing at a span shifted by the growth, into a text whose head is
      already rewritten up to the previous span, rewrites one span more. */
  lemma SpliceSpan(lead: string, text: string, pe: int, stt: int, end: int, off: int, r: string)
    requires |lead| == pe + off && 0 <= pe <= stt <= end <= |text|
    ensures Splice(lead + text[pe..], stt + off, end + off, r) == (lead + text[pe..stt] + r) + text[end..]
  {
    var t := lead + text[pe..];
    assert t[..stt + off] == lead + text[pe..stt];
    assert t[end + off..] == text[end..];
  }

  /** The labels of the first `k` visited entities, in visiting order. */
  function Labels(es: seq<Entity>, order: seq<nat>, k: nat): (r: seq<string>)
    requires k <= |order| && InRange(es, order)
    ensures |r| == k
    ensures forall j :: 0 <= j < k ==> r[j] == es[order[j]].bestLabel
  {
    if k == 0 then [] else Labels(es, order, k - 1) + [es[order[k - 1]].bestLabel]
  }

  /** `AllToMarker` says, visit by visit, that every visited label is
      dispatched to `m`. */
  lemma {:induction false} AllToMarkerIff(es: seq<Entity>, order: seq<nat>, procs: map<string, EntityProcessor>,
                                          dflt: EntityProcessor, k: nat, m: MarkerEntityProcessor)
    requires k <= |order| && InRange(es, order)
    ensures AllToMarker(es, order, procs, dflt, k, m)
            <==> forall j :: 0 <= j < k ==> Choose(procs, dflt, es[order[j]].bestLabel) == Marker(m)
  {
    if k > 0 {
      AllToMarkerIff(es, order, procs, dflt, k - 1, m);
    }
  }

  /** The replacements so far are the markers `run` numbered, without a
      failure, and marker processor `m`'s counters are the ones it ended with. */
  predicate NumberedBy(r: Progress, run: Markers, m: MarkerEntityProcessor) {
    r.failure.None? && r.repls == run.markers && Counter(r.state, Marker(m)) == run.counts
  }

  /** The first `k` visited entities all go to marker processor `m`. */
  predicate AllToMarker(es: seq<Entity>, order: seq<nat>, procs: map<string, EntityProcessor>,
                        dflt: EntityProcessor, k: nat, m: MarkerEntityProcessor)
    requires k <= |order| && InRange(es, order)
  {
    k == 0 || (AllToMarker(es, order, procs, dflt, k - 1, m) && Choose(procs, dflt, es[order[k - 1]].bestLabel) == Marker(m))
  }

  /** When every visited entity goes to one marker processor, the
      replacements are that processor's markers for the visited labels in
      order, numbered on from its counters, and the counters end where the
      marker run ends; so one text never receives the same marker twice. */
  lemma {:induction false} RunWithOneMarker(text: string, es: seq<Entity>, order: seq<nat>,
                                            procs: map<string, EntityProcessor>, dflt: EntityProcessor,
                                            st0: State, k: nat, m: MarkerEntityProcessor)
    requires k <= |order| && InRange(es, order)
    requires AllToMarker(es, order, procs, dflt, k, m)
    ensures NumberedBy(Run(text, es, order, ApplyOne, procs, dflt, st0, k), MarkerRun(Counter(st0, Marker(m)), Labels(es, order, k)), m)
  {
    if k > 0 {
      RunWithOneMarker(text, es, order, procs, dflt, st0, k - 1, m);
      MarkerVisitNumbers(text, es, order, procs, dflt, st0, k, m);
    }
  }

  /** The inductive step of `RunWithOneMarker`. */
  lemma MarkerVisitNumbers(text: string, es: seq<Entity>, order: seq<nat>, procs: map<string, EntityProcessor>,
                           dflt: EntityProcessor, st0: State, k: nat, m: MarkerEntityProcessor)
    requires 0 < k <= |order| && InRange(es, order)
    requires Choose(procs, dflt, es[order[k - 1]].bestLabel) == Marker(m)
    requires NumberedBy(Run(text, es, order, ApplyOne, procs, dflt, st0, k - 1), MarkerRun(Counter(st0, Marker(m)), Labels(es, order, k - 1)), m)
    ensures NumberedBy(Run(text, es, order, ApplyOne, procs, dflt, st0, k), MarkerRun(Counter(st0, Marker(m)), Labels(es, order, k)), m)
  {
    var key := es[order[k - 1]].bestLabel;
    var keys := Labels(es, order, k - 1);
    MarkerVisit(text, es, order, procs, dflt, st0, k, m);
    MarkerRunSnoc(Counter(st0, Marker(m)), keys, key);
    assert Labels(es, order, k) == keys + [key];
  }

  /** A visit that goes to the marker processor numbers the entity from
      that processor's counters and raises nothing. */
  lemma MarkerVisit(text: string, es: seq<Entity>, order: seq<nat>, procs: map<string, EntityProcessor>,
                    dflt: EntityProcessor, st0: State, k: nat, m: MarkerEntityProcessor)
    requires 0 < k <= |order| && InRange(es, order)
    requires Run(text, es, order, ApplyOne, procs, dflt, st0, k - 1).failure.None?
    requires Choose(procs, dflt, es[order[k - 1]].bestLabel) == Marker(m)
    ensures var prev := Run(text, es, order, ApplyOne, procs, dflt, st0, k - 1);
            var s := MarkerStep(Counter(prev.state, Marker(m)), es[order[k - 1]].bestLabel);
            var r := Run(text, es, order, ApplyOne, procs, dflt, st0, k);
            r.failure.None? && r.repls == prev.repls + [s.replacement] && Counter(r.state, Marker(m)) == s.counts
  {
  }

  // ---------------------------------------------------------------------
  // All texts.

  /** The engine's result after some of the (text, entity list) pairs. */
  datatype Batch = Batch(outputs: seq<string>, updated: seq<seq<Entity>>, state: State, failure: Option<Error>)

  /** How many pairs `zip` yields. */
  function Pairs(texts: seq<string>, lists: seq<seq<Entity>>): nat {
    if |texts| <= |lists| then |texts| else |lists|
  }

  /** The first `n` pairs of the outer loop; an exception ends the batch. */
  function RunBatch(texts: seq<string>, lists: seq<seq<Entity>>, apply: Apply, procs: map<string, EntityProcessor>,
                    dflt: EntityProcessor, st0: State, n: nat): (b: Batch)
    requires n <= |texts| && n <= |lists|
    ensures |b.updated| == |lists|
    ensures b.failure.None? ==> |b.outputs| == n
  {
    if n == 0 then Batch([], lists, st0, None)
    else
      var prev := RunBatch(texts, lists, apply, procs, dflt, st0, n - 1);
      if prev.failure.Some? then prev
      else
        var es := lists[n - 1];
        var order := SortOrder(es);
        var run := Run(texts[n - 1], es, order, apply, procs, dflt, prev.state, |order|);
        Batch(prev.outputs + [run.text], prev.updated[n - 1 := Overwrite(es, order, run.repls)], run.state, run.failure)
  }

  /** One more pair: the text is run against its entity list from the
      counters the earlier pairs left, its output is appended and its
      entity list replaced by the updated one. */
  lemma BatchStep(texts: seq<string>, lists: seq<seq<Entity>>, apply: Apply, procs: map<string, EntityProcessor>,
                  dflt: EntityProcessor, st0: State, n: nat,
                  outputs: seq<string>, updated: seq<seq<Entity>>, st: State,
                  modified: string, list: seq<Entity>, failure: Option<Error>, st': State)
    requires n < |texts| && n < |lists|
    requires RunBatch(texts, lists, apply, procs, dflt, st0, n) == Batch(outputs, updated, st, None)
    requires var es := lists[n];
             var run := Run(texts[n], es, SortOrder(es), apply, procs, dflt, st, |es|);
             modified == run.text && failure == run.failure && st' == run.state
             && list == Overwrite(es, SortOrder(es), run.repls)
    ensures RunBatch(texts, lists, apply, procs, dflt, st0, n + 1) == Batch(outputs + [modified], updated[n := list], st', failure)
  {
  }

  /** Once a processor has raised, later pairs change nothing. */
  lemma {:induction false} RunBatchStops(texts: seq<string>, lists: seq<seq<Entity>>, apply: Apply, procs: map<string, EntityProcessor>,
                                         dflt: EntityProcessor, st0: State, n: nat, m: nat)
    requires n <= m <= |texts| && m <= |lists|
    requires RunBatch(texts, lists, apply, procs, dflt, st0, n).failure.Some?
    ensures RunBatch(texts, lists, apply, procs, dflt, st0, m) == RunBatch(texts, lists, apply, procs, dflt, st0, n)
    decreases m - n
  {
    if n < m {
      RunBatchStops(texts, lists, apply, procs, dflt, st0, n, m - 1);
    }
  }

  /** Output `k` is the `k`-th text run against the `k`-th entity list,
      with the counters the earlier pairs left. */
  lemma {:induction false} RunBatchAt(texts: seq<string>, lists: seq<seq<Entity>>, apply: Apply, procs: map<string, EntityProcessor>,
                                      dflt: EntityProcessor, st0: State, n: nat, k: nat)
    requires k < n <= |texts| && n <= |lists|
    requires RunBatch(texts, lists, apply, procs, dflt, st0, n).failure.None?
    ensures RunBatch(texts, lists, apply, procs, dflt, st0, n).outputs[k]
            == Run(texts[k], lists[k], SortOrder(lists[k]), apply, procs, dflt,
                   RunBatch(texts, lists, apply, procs, dflt, st0, k).state, |lists[k]|).text
  {
    BatchOutputsGrow(texts, lists, apply, procs, dflt, st0, n);
    if k < n - 1 {
      RunBatchAt(texts, lists, apply, procs, dflt, st0, n - 1, k);
    }
  }

  /** A batch that did not raise extends the one before it by one output. */
  lemma BatchOutputsGrow(texts: seq<string>, lists: seq<seq<Entity>>, apply: Apply, procs: map<string, EntityProcessor>,
                         dflt: EntityProcessor, st0: State, n: nat)
    requires 0 < n <= |texts| && n <= |lists|
    requires RunBatch(texts, lists, apply, procs, dflt, st0, n).failure.None?
    ensures RunBatch(texts, lists, apply, procs, dflt, st0, n - 1).failure.None?
    ensures RunBatch(texts, lists, apply, procs, dflt, st0, n).outputs
            == RunBatch(texts, lists, apply, procs, dflt, st0, n - 1).outputs
               + [Run(texts[n - 1], lists[n - 1], SortOrder(lists[n - 1]), apply, procs, dflt,
                      RunBatch(texts, lists, apply, procs, dflt, st0, n - 1).state, |lists[n - 1]|).text]
  {
  }

  /** A pair with an empty entity list yields its text unchanged. */
  lemma EmptyListUnchanged(texts: seq<string>, lists: seq<seq<Entity>>, apply: Apply, procs: map<string, EntityProcessor>,
                           dflt: EntityProcessor, st0: State, n: nat, k: nat)
    requires k < n <= |texts| && n <= |lists| && lists[k] == []
    requires RunBatch(texts, lists, apply, procs, dflt, st0, n).failure.None?
    ensures RunBatch(texts, lists, apply, procs, dflt, st0, n).outputs[k] == texts[k]
  {
    RunBatchAt(texts, lists, apply, procs, dflt, st0, n, k);
  }

  /** One output per pair, so as many outputs as input texts exactly when
      there are at least as many entity lists. */
  lemma OutputCount(texts: seq<string>, lists: seq<seq<Entity>>, apply: Apply, procs: map<string, EntityProcessor>,
                    dflt: EntityProcessor, st0: State)
    requires RunBatch(texts, lists, apply, procs, dflt, st0, Pairs(texts, lists)).failure.None?
    ensures var b := RunBatch(texts, lists, apply, procs, dflt, st0, Pairs(texts, lists));
            |b.outputs| == Pairs(texts, lists) && (|b.outputs| == |texts| <==> |texts| <= |lists|)
  {
  }

  // ---------------------------------------------------------------------
  // The engine itself.

  /** What the engine does with a call's outcome: an exception stops the
      text with everything as it was; a replacement is spliced in at the
      entity's span shifted by the offset, the offset grows by the change
      in length and the entity's text is overwritten. */
  method Settle(text: string, es: seq<Entity>, order: seq<nat>, ghost apply: Apply,
                procs: map<string, EntityProcessor>, dflt: EntityProcessor, ghost st0: State, k: nat,
                modified: string, offset: int, ghost repls: seq<string>, updated: seq<Entity>,
                ghost before: State, res: Result<string>, ghost counts: Counts, ghost after: State)
    returns (modified': string, offset': int, ghost repls': seq<string>, updated': seq<Entity>, failure: Option<Error>)
    requires k < |order| && InRange(es, order)
    requires Run(text, es, order, apply, procs, dflt, st0, k) == Progress(modified, offset, repls, before, None)
    requires updated == Overwrite(es, order, repls)
    requires var e := es[order[k]];
             var p := Choose(procs, dflt, e.bestLabel);
             apply(p, Counter(before, p), e) == Outcome(res, counts)
             && after == (if res.Ok? then before[p := counts] else before)
    ensures failure.None? ==>
              Run(text, es, order, apply, procs, dflt, st0, k + 1) == Progress(modified', offset', repls', after, None)
              && updated' == Overwrite(es, order, repls')
    ensures failure.Some? ==>
              Run(text, es, order, apply, procs, dflt, st0, |order|) == Progress(modified', offset', repls', after, failure)
              && updated' == Overwrite(es, order, repls')
  {
    var entity := es[order[k]];
    if res.Err? {
      VisitFails(text, es, order, apply, procs, dflt, st0, k, modified, offset, repls, before, res.error);
      return modified, offset, repls, updated, Some(res.error);
    }
    var startIdx := entity.sttIdx + offset;
    var endIdx := entity.endIdx + offset;
    VisitSplices(text, es, order, apply, procs, dflt, st0, k, modified, offset, repls, updated,
                 before, res.value, counts, startIdx, endIdx);
    updated' := updated[order[k] := updated[order[k]].(text := res.value)];
    offset' := offset + |res.value| - |entity.text|;
    modified' := Splice(modified, startIdx, endIdx, res.value);
    repls' := repls + [res.value];
    failure := None;
  }

  /** One entity: call the processor its label selects and settle the outcome. */
  method VisitEntity(ghost ps: set<EntityProcessor>, text: string, es: seq<Entity>, order: seq<nat>,
                     procs: map<string, EntityProcessor>, dflt: EntityProcessor, ghost st0: State, k: nat,
                     modified: string, offset: int, ghost repls: seq<string>, updated: seq<Entity>)
    returns (modified': string, offset': int, ghost repls': seq<string>, updated': seq<Entity>, failure: Option<Error>)
    requires ps == Procs(procs, dflt) && k < |order| && InRange(es, order)
    requires Run(text, es, order, ApplyOne, procs, dflt, st0, k) == Progress(modified, offset, repls, LiveState(ps), None)
    requires updated == Overwrite(es, order, repls)
    modifies Footprints(ps)
    ensures failure.None? ==>
              Run(text, es, order, ApplyOne, procs, dflt, st0, k + 1) == Progress(modified', offset', repls', LiveState(ps), None)
              && updated' == Overwrite(es, order, repls')
    ensures failure.Some? ==>
              Run(text, es, order, ApplyOne, procs, dflt, st0, |order|) == Progress(modified', offset', repls', LiveState(ps), failure)
              && updated' == Overwrite(es, order, repls')
  {
    var processor := Choose(procs, dflt, es[order[k]].bestLabel);
    ghost var before := LiveState(ps);
    FootprintWithin(ps, processor);
    var res := CallTracked(ps, processor, es[order[k]]);
    modified', offset', repls', updated', failure :=
      Settle(text, es, order, ApplyOne, procs, dflt, st0, k, modified, offset, repls, updated,
             before, res, LiveCounts(processor), LiveState(ps));
  }

  /** One text: visit the entities in sorted order. */
  method DeidentifyOne(text: string, es: seq<Entity>, procs: map<string, EntityProcessor>, dflt: EntityProcessor)
    returns (modified: string, updated: seq<Entity>, failure: Option<Error>)
    modifies Footprints(Procs(procs, dflt))
    ensures var run := Run(text, es, SortOrder(es), ApplyOne, procs, dflt, old(LiveState(Procs(procs, dflt))), |es|);
            modified == run.text && failure == run.failure && LiveState(Procs(procs, dflt)) == run.state
            && updated == Overwrite(es, SortOrder(es), run.repls)
  {
    ghost var ps := Procs(procs, dflt);
    ghost var st0 := LiveState(ps);
    var order := SortOrder(es);
    var offset := 0;
    modified := text;
    updated := es;
    failure := None;
    ghost var repls: seq<string> := [];
    for k := 0 to |order|
      invariant Run(text, es, order, ApplyOne, procs, dflt, st0, k) == Progress(modified, offset, repls, LiveState(ps), None)
      invariant updated == Overwrite(es, order, repls)
      invariant failure.None?
    {
      modified, offset, repls, updated, failure := VisitEntity(ps, text, es, order, procs, dflt, st0, k,
                                                               modified, offset, repls, updated);
      if failure.Some? {
        return;
      }
    }
  }

  /** One turn of the outer loop of `deidentify_text`: the `i`-th text is
      de-identified and appended to the outputs, and its entity list is
      replaced by the updated one. If a processor raised, the batch of `n`
      pairs ends here. */
  method VisitText(texts: seq<string>, lists: seq<seq<Entity>>,
                   procs: map<string, EntityProcessor>, dflt: EntityProcessor, ghost st0: State,
                   i: nat, n: nat, outputs: seq<string>, updated: seq<seq<Entity>>)
    returns (outputs': seq<string>, updated': seq<seq<Entity>>, failure: Option<Error>)
    requires i < n <= |texts| && n <= |lists|
    requires RunBatch(texts, lists, ApplyOne, procs, dflt, st0, i) == Batch(outputs, updated, LiveState(Procs(procs, dflt)), None)
    modifies Footprints(Procs(procs, dflt))
    ensures failure.None? ==> RunBatch(texts, lists, ApplyOne, procs, dflt, st0, i + 1) == Batch(outputs', updated', LiveState(Procs(procs, dflt)), None)
    ensures failure.Some? ==> RunBatch(texts, lists, ApplyOne, procs, dflt, st0, n) == Batch(outputs', updated', LiveState(Procs(procs, dflt)), failure)
  {
    ghost var before := LiveState(Procs(procs, dflt));
    var modified, list;
    modified, list, failure := DeidentifyOne(texts[i], lists[i], procs, dflt);
    BatchStep(texts, lists, ApplyOne, procs, dflt, st0, i, outputs, updated, before, modified, list, failure, LiveState(Procs(procs, dflt)));
    if failure.Some? {
      RunBatchStops(texts, lists, ApplyOne, procs, dflt, st0, i + 1, n);
    }
    outputs' := outputs + [modified];
    updated' := updated[i := list];
  }

  /** `deidentify_text`: one de-identified text per (text, entity list)
      pair, or the first exception a processor raised. The processors'
      counters and the entities' texts change as the calls made them. */
  method DeidentifyText(inputTexts: seq<string>, entities: seq<seq<Entity>>,
                        procs: map<string, EntityProcessor>, dflt: EntityProcessor)
    returns (r: Result<seq<string>>, updated: seq<seq<Entity>>)
    modifies Footprints(Procs(procs, dflt))
    ensures var b := RunBatch(inputTexts, entities, ApplyOne, procs, dflt, old(LiveState(Procs(procs, dflt))),
                              Pairs(inputTexts, entities));
            LiveState(Procs(procs, dflt)) == b.state && updated == b.updated
            && r == (if b.failure.Some? then Err(b.failure.value) else Ok(b.outputs))
  {
    ghost var st0 := LiveState(Procs(procs, dflt));
    var n := Pairs(inputTexts, entities);
    var modifiedTexts: seq<string> := [];
    updated := entities;
    for i := 0 to n
      invariant RunBatch(inputTexts, entities, ApplyOne, procs, dflt, st0, i) == Batch(modifiedTexts, updated, LiveState(Procs(procs, dflt)), None)
    {
      var failure;
      modifiedTexts, updated, failure := VisitText(inputTexts, entities, procs, dflt, st0, i, n, modifiedTexts, updated);
      if failure.Some? {
        return Err(failure.value), updated;
      }
    }
    r := Ok(modifiedTexts);
  }
}

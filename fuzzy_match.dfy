/** The fuzzy-match processor: an entity passes through or is blocked
    depending on whether its text is within an edit-distance threshold of
    some known word; blocked entities are masked or numbered. */
module FuzzyMatch {
  import opened Types
  import opened Strings
  import opened EditDistance

  const Strategies: seq<string> := ["BLOCK", "ALLOW"]
  const ProcessTypes: seq<string> := ["MARKER", "MASK"]

  const StrategyError := ValueError(InvalidStrategy)
  const ProcessTypeError := ValueError(InvalidProcessType)
  const KnownWordsError := ValueError(InvalidKnownWords)
  const MaskingCharacterError := ValueError(InvalidMaskingCharacter)
  const IgnoreCasingError := ValueError(InvalidIgnoreCasing)
  /** What `min` raises on an empty sequence. */
  const EmptyMinError := ValueError(EmptyMin)

  /** The constructor's checks, in source order; the first failing one is
      the error raised. The known-words condition negates a two-element
      tuple, which is always truthy, so that check never fails; the
      threshold is not checked at all. */
  function ValidateAttributes(knownWordsList: PyValue, strategy: string, processType: string,
                              maskingCharacter: PyValue, ignoreCasing: PyValue): (r: Option<Error>)
    ensures r.None? <==>
              strategy in Strategies && processType in ProcessTypes && maskingCharacter.PyStr? && ignoreCasing.PyBool?
    ensures strategy !in Strategies ==> r == Some(StrategyError)
    ensures strategy in Strategies && processType !in ProcessTypes ==> r == Some(ProcessTypeError)
    ensures strategy in Strategies && processType in ProcessTypes && !maskingCharacter.PyStr? ==>
              r == Some(MaskingCharacterError)
    ensures strategy in Strategies && processType in ProcessTypes && maskingCharacter.PyStr? && !ignoreCasing.PyBool? ==>
              r == Some(IgnoreCasingError)
    ensures r != Some(KnownWordsError)
  {
    if strategy !in Strategies then Some(StrategyError)
    else if processType !in ProcessTypes then Some(ProcessTypeError)
    else if !Truthy(PyTuple([PyBool(knownWordsList.PyList? || knownWordsList.PyTuple?), PyBool(knownWordsList.PySet?)]))
    then Some(KnownWordsError)
    else if !maskingCharacter.PyStr? then Some(MaskingCharacterError)
    else if !ignoreCasing.PyBool? then Some(IgnoreCasingError)
    else None
  }

  /** The processor's settings once the constructor has accepted them. The
      known words and the threshold are kept exactly as given. */
  datatype Config = Config(
    knownWordsList: PyValue,
    threshold: PyValue,
    strategy: string,
    processType: string,
    maskingCharacter: string,
    ignoreCasing: bool)

  /** `for word in value`: strings yield their characters, dicts their keys. */
  function Iterate(v: PyValue): Result<seq<PyValue>> {
    match v
    case PyStr(s) => Ok(seq(|s|, i requires 0 <= i < |s| => PyStr([s[i]])))
    case PyList(xs) => Ok(xs)
    case PyTuple(xs) => Ok(xs)
    case PySet(xs) => Ok(xs)
    case PyDict(ks) => Ok(ks)
    case _ => Err(TypeError(NotIterable))
  }

  /** The text as compared: lower-cased when casing is ignored. */
  function Fold(s: string, ignoreCasing: bool): string {
    if ignoreCasing then Lower(s) else s
  }

  /** The distances the generator inside `min` yields, word by word; the
      first word that is not a string raises (`.lower()` on it, or the
      distance function). */
  function WordDistances(text: string, words: seq<PyValue>, ignoreCasing: bool): (r: Result<seq<nat>>)
    ensures r.Ok? ==> |r.value| == |words|
  {
    if words == [] then Ok([])
    else if !words[0].PyStr? then
      Err(if ignoreCasing then AttributeError(NoLower)
          else TypeError(NotSubscriptable))
    else
      var rest :- WordDistances(text, words[1..], ignoreCasing);
      Ok([Dist(Fold(text, ignoreCasing), Fold(words[0].s, ignoreCasing))] + rest)
  }

  /** The distances are there exactly when every known word is a string,
      one per word, in order. */
  lemma {:induction false} WordDistancesSpec(text: string, words: seq<PyValue>, ignoreCasing: bool)
    ensures var r := WordDistances(text, words, ignoreCasing);
            r.Ok? <==> forall k :: 0 <= k < |words| ==> words[k].PyStr?
    ensures var r := WordDistances(text, words, ignoreCasing);
            r.Ok? ==> forall k :: 0 <= k < |words| ==>
                        r.value[k] == Dist(Fold(text, ignoreCasing), Fold(words[k].s, ignoreCasing))
  {
    if words != [] {
      WordDistancesSpec(text, words[1..], ignoreCasing);
      assert forall k :: 1 <= k < |words| ==> words[1..][k - 1] == words[k];
    }
  }

  /** Python's `min` over a non-empty sequence. */
  function SeqMin(ds: seq<nat>): (m: nat)
    requires ds != []
  {
    if |ds| == 1 then ds[0]
    else
      var rest := SeqMin(ds[1..]);
      if ds[0] <= rest then ds[0] else rest
  }

  /** `SeqMin` is an element of the sequence and no element is smaller. */
  lemma {:induction false} SeqMinIsMin(ds: seq<nat>)
    requires ds != []
    ensures SeqMin(ds) in ds
    ensures forall k :: 0 <= k < |ds| ==> SeqMin(ds) <= ds[k]
  {
    if |ds| > 1 {
      SeqMinIsMin(ds[1..]);
      assert forall k :: 1 <= k < |ds| ==> ds[1..][k - 1] == ds[k];
    }
  }

  /** The smallest distance from the entity text to a known word. */
  function MinDistance(text: string, knownWordsList: PyValue, ignoreCasing: bool): Result<nat> {
    var words :- Iterate(knownWordsList);
    var ds :- WordDistances(text, words, ignoreCasing);
    if ds == [] then Err(EmptyMinError) else Ok(SeqMin(ds))
  }

  /** `min_dist <= threshold`: a bool counts as 0 or 1, any other
      non-integer cannot be compared. */
  function AtMost(d: nat, threshold: PyValue): Result<bool> {
    match threshold
    case PyInt(t) => Ok(d <= t)
    case PyBool(b) => Ok(d <= if b then 1 else 0)
    case _ => Err(TypeError(NotComparable))
  }

  /** The gate: the entity text is returned unchanged exactly when being
      similar to a known word is what the strategy allows. */
  function PassesThrough(config: Config, text: string): Result<bool> {
    var minDist :- MinDistance(text, config.knownWordsList, config.ignoreCasing);
    var isSimilar :- AtMost(minDist, config.threshold);
    Ok(isSimilar == (config.strategy == "ALLOW"))
  }

  /** One call: pass through, mask, or number the entity with the
      processor's own counters (`key_n`, without brackets). */
  function FuzzyStep(config: Config, counts: Counts, text: string, key: string): Result<Step> {
    var passes :- PassesThrough(config, text);
    if passes then Ok(Step(text, counts))
    else if config.processType == "MASK" then Ok(Step(Repeat(config.maskingCharacter, |text|), counts))
    else
      var n := Get(counts, key) + 1;
      Ok(Step(Numbered(key, n), counts[key := n]))
  }

  class FuzzyMatchEntityProcessor {
    const config: Config
    var counts: Counts

    constructor Init(config: Config)
      ensures this.config == config && counts == map[]
    {
      this.config := config;
      counts := map[];
    }

    /** The constructor with its validation: either the first failing
        check's error or a fresh processor with empty counters. */
    static method New(knownWordsList: PyValue, threshold: PyValue, strategy: string := "BLOCK",
                      processType: string := "MARKER", maskingCharacter: PyValue := PyStr("#"),
                      ignoreCasing: PyValue := PyBool(true))
      returns (r: Result<FuzzyMatchEntityProcessor>)
      ensures var v := ValidateAttributes(knownWordsList, strategy, processType, maskingCharacter, ignoreCasing);
              v.Some? ==> r == Err(v.value)
      ensures var v := ValidateAttributes(knownWordsList, strategy, processType, maskingCharacter, ignoreCasing);
              v.None? ==> r.Ok? && fresh(r.value) && r.value.counts == map[]
                          && r.value.config == Config(knownWordsList, threshold, strategy, processType,
                                                      maskingCharacter.s, ignoreCasing.b)
    {
      var v := ValidateAttributes(knownWordsList, strategy, processType, maskingCharacter, ignoreCasing);
      if v.Some? {
        return Err(v.value);
      }
      var p := new FuzzyMatchEntityProcessor.Init(
        Config(knownWordsList, threshold, strategy, processType, maskingCharacter.s, ignoreCasing.b));
      return Ok(p);
    }

    method Call(entity: Entity) returns (r: Result<string>)
      modifies this
      ensures FuzzyStep(config, old(counts), entity.text, entity.bestLabel)
              == (if r.Ok? then Ok(Step(r.value, counts)) else Err(r.error))
      ensures r.Err? ==> counts == old(counts)
    {
      var minDist := MinDistance(entity.text, config.knownWordsList, config.ignoreCasing);
      if minDist.Err? {
        return Err(minDist.error);
      }
      var shouldAllow := config.strategy == "ALLOW";
      var isSimilar := AtMost(minDist.value, config.threshold);
      if isSimilar.Err? {
        return Err(isSimilar.error);
      }
      if isSimilar.value == shouldAllow {
        return Ok(entity.text);
      }
      if config.processType == "MASK" {
        return Ok(Repeat(config.maskingCharacter, |entity.text|));
      }
      var key := entity.bestLabel;
      counts := counts[key := Get(counts, key) + 1];
      return Ok(key + "_" + Decimal(counts[key]));
    }
  }

  /** The gate's minimum is at most the threshold exactly when some known
      word is within the threshold. */
  lemma MinDistanceWithin(text: string, knownWordsList: PyValue, ignoreCasing: bool, t: int)
    requires MinDistance(text, knownWordsList, ignoreCasing).Ok?
    ensures var words := Iterate(knownWordsList).value;
            MinDistance(text, knownWordsList, ignoreCasing).value <= t <==>
            exists k :: 0 <= k < |words| && words[k].PyStr?
                        && Dist(Fold(text, ignoreCasing), Fold(words[k].s, ignoreCasing)) <= t
  {
    var words := Iterate(knownWordsList).value;
    WordDistancesSpec(text, words, ignoreCasing);
    var ds := WordDistances(text, words, ignoreCasing).value;
    SeqMinIsMin(ds);
    var m := SeqMin(ds);
    var k :| 0 <= k < |ds| && ds[k] == m;
    assert words[k].PyStr?;
  }

  /** Without any known word the call raises `ValueError`, whatever the
      entity; the constructor does not rule this out. */
  lemma EmptyKnownWordsFails(config: Config, counts: Counts, text: string, key: string)
    requires Iterate(config.knownWordsList) == Ok([])
    ensures FuzzyStep(config, counts, text, key) == Err(EmptyMinError)
  {
  }

  /** Swapping BLOCK and ALLOW flips the gate and nothing else. */
  lemma StrategyFlip(config: Config, text: string)
    requires config.strategy in Strategies
    ensures var flipped := config.(strategy := if config.strategy == "BLOCK" then "ALLOW" else "BLOCK");
            match PassesThrough(config, text)
            case Ok(b) => PassesThrough(flipped, text) == Ok(!b)
            case Err(e) => PassesThrough(flipped, text) == Err(e)
  {
  }

  /** What a successful call does to the text and the counters: a passed
      entity comes back unchanged; a masked one has one mask copy per
      character; only a numbered one moves a counter, its own label's, by
      one, and carries that count. */
  lemma FuzzyStepEffect(config: Config, counts: Counts, text: string, key: string)
    requires FuzzyStep(config, counts, text, key).Ok?
    ensures var s := FuzzyStep(config, counts, text, key).value;
            forall other :: other != key ==> Get(s.counts, other) == Get(counts, other)
    ensures var s := FuzzyStep(config, counts, text, key).value;
            PassesThrough(config, text) == Ok(true) ==> s == Step(text, counts)
    ensures var s := FuzzyStep(config, counts, text, key).value;
            PassesThrough(config, text) == Ok(false) && config.processType == "MASK" ==>
              s.counts == counts && s.replacement == Repeat(config.maskingCharacter, |text|)
              && |s.replacement| == |config.maskingCharacter| * |text|
    ensures var s := FuzzyStep(config, counts, text, key).value;
            s.counts != counts <==> PassesThrough(config, text) == Ok(false) && config.processType != "MASK"
    ensures var s := FuzzyStep(config, counts, text, key).value;
            s.counts != counts ==> Get(s.counts, key) == Get(counts, key) + 1
                                   && s.replacement == Numbered(key, Get(s.counts, key))
  {
    var n := Get(counts, key) + 1;
    assert counts[key := n] != counts by {
      assert Get(counts[key := n], key) != Get(counts, key);
    }
  }

  /** With casing ignored the gate sees only the lower-cased entity text. */
  lemma {:induction false} IgnoreCasingDistances(t1: string, t2: string, words: seq<PyValue>)
    requires Lower(t1) == Lower(t2)
    ensures WordDistances(t1, words, true) == WordDistances(t2, words, true)
  {
    if words != [] && words[0].PyStr? {
      IgnoreCasingDistances(t1, t2, words[1..]);
    }
  }

  /** Entity texts that differ only in ASCII case get the same decision
      when casing is ignored. */
  lemma IgnoreCasingGate(config: Config, t1: string, t2: string)
    requires config.ignoreCasing && Lower(t1) == Lower(t2)
    ensures PassesThrough(config, t1) == PassesThrough(config, t2)
  {
    match Iterate(config.knownWordsList)
    case Ok(words) => IgnoreCasingDistances(t1, t2, words);
    case Err(_) =>
  }

  /** Substituting the last characters costs at most one more edit. */
  lemma DistSubstituteLast(a: string, b: string)
    requires a != [] && b != []
    ensures Dist(a, b) <= Dist(a[..|a| - 1], b[..|b| - 1]) + 1
  {
  }

  /** "josh" becomes "john" by substituting its last two characters. */
  lemma JoshNearJohn()
    ensures Dist("josh", "john") <= 2
  {
    DistZeroIffEqual("jo", "jo");
    assert "josh"[..3] == "jos" && "john"[..3] == "joh" && "jos"[..2] == "jo" && "joh"[..2] == "jo";
    DistSubstituteLast("jos", "joh");
    DistSubstituteLast("josh", "john");
  }

  /** "Josh" is within distance 2 of "John", so blocking against John and
      Peter stops it, whatever the process type. (The strings are
      parameters so that the verifier does not evaluate every distance.) */
  lemma JoshIsBlocked(text: string, words: seq<PyValue>, processType: string)
    requires text == "Josh" && words == [PyStr("John"), PyStr("Peter")]
    ensures PassesThrough(Config(PyList(words), PyInt(2), "BLOCK", processType, "#", true), text) == Ok(false)
  {
    JoshWithinTwo(text, words);
  }

  /** Ignoring case, the nearest of John and Peter is at most 2 edits from "Josh". */
  lemma JoshWithinTwo(text: string, words: seq<PyValue>)
    requires text == "Josh" && words == [PyStr("John"), PyStr("Peter")]
    ensures MinDistance(text, PyList(words), true).Ok?
    ensures MinDistance(text, PyList(words), true).value <= 2
  {
    assert Lower(text) == "josh" && Lower(words[0].s) == "john";
    JoshNearJohn();
    WordDistancesSpec(text, words, true);
    var ds := WordDistances(text, words, true).value;
    SeqMinIsMin(ds);
    assert ds[0] <= 2;
    assert SeqMin(ds) <= 2;
  }

  /** Masking the blocked "Josh" gives four mask characters. */
  lemma JoshIsMasked(text: string, words: seq<PyValue>)
    requires text == "Josh" && words == [PyStr("John"), PyStr("Peter")]
    ensures FuzzyStep(Config(PyList(words), PyInt(2), "BLOCK", "MASK", "#", true), map[], text, "NAME_GIVEN")
            == Ok(Step("####", map[]))
  {
    JoshIsBlocked(text, words, "MASK");
    assert Repeat("#", |text|) == "####";
  }

  /** A blocked entity under MARKER is numbered with its label's next count. */
  lemma BlockedMarkerStep(config: Config, counts: Counts, text: string, key: string)
    requires PassesThrough(config, text) == Ok(false) && config.processType == "MARKER"
    ensures FuzzyStep(config, counts, text, key)
            == Ok(Step(Numbered(key, Get(counts, key) + 1), counts[key := Get(counts, key) + 1]))
  {
  }

  /** The first token of a label. */
  lemma FirstToken(key: string)
    ensures Numbered(key, 1) == key + "_1"
  {
    assert Decimal(1) == "1";
  }

  /** Marking the blocked "Josh" gives the first NAME_GIVEN token, without
      brackets. */
  lemma JoshIsMarked(text: string, words: seq<PyValue>)
    requires text == "Josh" && words == [PyStr("John"), PyStr("Peter")]
    ensures FuzzyStep(Config(PyList(words), PyInt(2), "BLOCK", "MARKER", "#", true), map[], text, "NAME_GIVEN")
            == Ok(Step("NAME_GIVEN_1", map["NAME_GIVEN" := 1]))
  {
    var config := Config(PyList(words), PyInt(2), "BLOCK", "MARKER", "#", true);
    JoshIsBlocked(text, words, "MARKER");
    BlockedMarkerStep(config, map[], text, "NAME_GIVEN");
    FirstToken("NAME_GIVEN");
    assert "NAME_GIVEN" + "_1" == "NAME_GIVEN_1";
    var empty: Counts := map[];
    assert Get(empty, "NAME_GIVEN") == 0;
  }

  /** With casing respected, "Josh" is not an exact match for "JOSH". */
  lemma CaseMatters()
    ensures Dist(Fold("Josh", false), Fold("JOSH", false)) > 0
    ensures Dist(Fold("Josh", true), Fold("JOSH", true)) == 0
  {
    DistZeroIffEqual("Josh", "JOSH");
    assert Lower("Josh") == "josh" == Lower("JOSH");
    DistZeroIffEqual("josh", "josh");
  }
}

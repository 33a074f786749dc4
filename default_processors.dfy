/** The two stock entity processors: masking and per-label numbered markers. */
module DefaultProcessors {
  import opened Types
  import opened Strings

  /** Replaces an entity by its masking character repeated once per
      character of the entity text. Stateless; the constructor accepts any
      string, of any length. */
  datatype MaskEntityProcessor = MaskEntityProcessor(maskingCharacter: string := "#") {

    function Call(entity: Entity): (r: string)
      ensures |r| == |maskingCharacter| * |entity.text|
      ensures |maskingCharacter| == 1 ==> |r| == |entity.text|
      ensures forall i :: 0 <= i < |r| ==> r[i] in maskingCharacter
      ensures |maskingCharacter| == 1 ==> forall i :: 0 <= i < |r| ==> r[i] == maskingCharacter[0]
      ensures forall i :: 0 <= i < |r| ==> r[i] == maskingCharacter[i % |maskingCharacter|]
    {
      RepeatAt(maskingCharacter, |entity.text|);
      Repeat(maskingCharacter, |entity.text|)
    }
  }

  /** The marker the marker processor emits: `[key_n]`. */
  function MarkerText(key: string, n: nat): string {
    "[" + Numbered(key, n) + "]"
  }

  /** One marker call on counters `counts`: bump the label's count and
      emit the marker with the new count. */
  function MarkerStep(counts: Counts, key: string): Step {
    var n := Get(counts, key) + 1;
    Step(MarkerText(key, n), counts[key := n])
  }

  /** Numbers entities per label; the counts live on the instance and
      keep growing across calls. */
  class MarkerEntityProcessor {
    var counts: Counts

    constructor ()
      ensures counts == map[]
    {
      counts := map[];
    }

    method Call(entity: Entity) returns (marker: string)
      modifies this
      ensures counts == old(counts)[entity.bestLabel := Get(old(counts), entity.bestLabel) + 1]
      ensures marker == MarkerText(entity.bestLabel, counts[entity.bestLabel])
      ensures Step(marker, counts) == MarkerStep(old(counts), entity.bestLabel)
    {
      var key := entity.bestLabel;
      counts := counts[key := Get(counts, key) + 1];
      marker := "[" + key + "_" + Decimal(counts[key]) + "]";
    }
  }

  /** A marker call changes the count of its own label only, by one. */
  lemma MarkerStepCounts(counts: Counts, key: string)
    ensures Get(MarkerStep(counts, key).counts, key) == Get(counts, key) + 1
    ensures forall other :: other != key ==> Get(MarkerStep(counts, key).counts, other) == Get(counts, other)
  {
  }

  /** Distinct (label, count) pairs give distinct markers. */
  lemma MarkerTextInjective(k1: string, n1: nat, k2: string, n2: nat)
    requires MarkerText(k1, n1) == MarkerText(k2, n2)
    ensures k1 == k2 && n1 == n2
  {
    var m := MarkerText(k1, n1);
    assert Numbered(k1, n1) == m[1..|m| - 1] == Numbered(k2, n2);
    NumberedInjective(k1, n1, k2, n2);
  }

  /** The markers and the counters after calling one instance, starting
      from `counts`, on entities with the labels `keys`, in order. */
  datatype Markers = Markers(markers: seq<string>, counts: Counts)

  function MarkerRun(counts: Counts, keys: seq<string>): (r: Markers)
    ensures |r.markers| == |keys|
  {
    if keys == [] then Markers([], counts)
    else
      var prev := MarkerRun(counts, keys[..|keys| - 1]);
      var s := MarkerStep(prev.counts, keys[|keys| - 1]);
      Markers(prev.markers + [s.replacement], s.counts)
  }

  /** Numbering one more key continues from the counts so far. */
  lemma MarkerRunSnoc(counts: Counts, keys: seq<string>, key: string)
    ensures var prev := MarkerRun(counts, keys);
            var s := MarkerStep(prev.counts, key);
            MarkerRun(counts, keys + [key]) == Markers(prev.markers + [s.replacement], s.counts)
  {
    assert (keys + [key])[..|keys|] == keys;
  }

  /** How many times `key` occurs in `keys`. */
  function Occurrences(keys: seq<string>, key: string): nat
  {
    if keys == [] then 0
    else Occurrences(keys[..|keys| - 1], key) + (if keys[|keys| - 1] == key then 1 else 0)
  }

  /** After a run of marker calls every label's count has grown by its
      number of occurrences. */
  lemma {:induction false} MarkerRunCounts(counts: Counts, keys: seq<string>)
    ensures forall key :: Get(MarkerRun(counts, keys).counts, key) == Get(counts, key) + Occurrences(keys, key)
  {
    if keys != [] {
      MarkerRunCounts(counts, keys[..|keys| - 1]);
    }
  }

  /** The k-th marker of a run carries its label's count so far. */
  lemma {:induction false} MarkerRunAt(counts: Counts, keys: seq<string>, k: nat)
    requires k < |keys|
    ensures MarkerRun(counts, keys).markers[k]
            == MarkerText(keys[k], Get(counts, keys[k]) + Occurrences(keys[..k + 1], keys[k]))
  {
    var n := |keys| - 1;
    var prefix := keys[..n];
    var prev := MarkerRun(counts, prefix);
    if k == n {
      MarkerRunCounts(counts, prefix);
      assert keys[..n + 1] == keys;
      assert Occurrences(keys[..n + 1], keys[n]) == Occurrences(prefix, keys[n]) + 1;
    } else {
      MarkerRunAt(counts, prefix, k);
      assert prefix[..k + 1] == keys[..k + 1];
      assert MarkerRun(counts, keys).markers[k] == prev.markers[k];
    }
  }

  /** Occurrences in a prefix never exceed those in a longer prefix. */
  lemma {:induction false} OccurrencesMonotone(keys: seq<string>, key: string, i: nat, j: nat)
    requires i <= j <= |keys|
    ensures Occurrences(keys[..i], key) <= Occurrences(keys[..j], key)
    decreases j - i
  {
    if i < j {
      OccurrencesMonotone(keys, key, i, j - 1);
      assert keys[..j][..j - 1] == keys[..j - 1];
    }
  }

  /** Two calls of one run, the second for label `keys[k2]`: that label
      has occurred more often by then, so the markers differ. */
  lemma MarkerPairDistinct(counts: Counts, keys: seq<string>, k1: nat, k2: nat)
    requires k1 < k2 < |keys|
    ensures MarkerRun(counts, keys).markers[k1] != MarkerRun(counts, keys).markers[k2]
  {
    var key := keys[k2];
    var n1 := Get(counts, keys[k1]) + Occurrences(keys[..k1 + 1], keys[k1]);
    var n2 := Get(counts, key) + Occurrences(keys[..k2 + 1], key);
    MarkerRunAt(counts, keys, k1);
    MarkerRunAt(counts, keys, k2);
    OccurrencesMonotone(keys, key, k1 + 1, k2);
    assert keys[..k2 + 1][..k2] == keys[..k2];
    if MarkerText(keys[k1], n1) == MarkerText(key, n2) {
      MarkerTextInjective(keys[k1], n1, key, n2);
    }
  }

  /** One instance never emits the same marker twice. */
  lemma MarkerRunDistinct(counts: Counts, keys: seq<string>)
    ensures forall k1, k2 :: 0 <= k1 < k2 < |keys| ==>
              MarkerRun(counts, keys).markers[k1] != MarkerRun(counts, keys).markers[k2]
  {
    forall k1, k2 | 0 <= k1 < k2 < |keys|
      ensures MarkerRun(counts, keys).markers[k1] != MarkerRun(counts, keys).markers[k2]
    {
      MarkerPairDistinct(counts, keys, k1, k2);
    }
  }

  /** How often each label has occurred after each entity of the run
      NAME_GIVEN, LOCATION_COUNTRY, NAME_GIVEN. */
  lemma FreshOccurrences(keys: seq<string>)
    requires keys == ["NAME_GIVEN", "LOCATION_COUNTRY", "NAME_GIVEN"]
    ensures Occurrences(keys[..1], keys[0]) == 1
    ensures Occurrences(keys[..2], keys[1]) == 1
    ensures Occurrences(keys[..3], keys[2]) == 2
  {
    assert keys[..3] == keys && keys[..3][..2] == keys[..2] && keys[..2][..1] == keys[..1];
    assert keys[..1][..0] == [] && keys[..1][0] == keys[0];
    assert |keys[0]| != |keys[1]| && keys[0] == keys[2];
    assert Occurrences(keys[..1], keys[0]) == 1 && Occurrences(keys[..1], keys[1]) == 0;
    assert keys[..2][1] == keys[1] && keys[..3][2] == keys[2];
    assert Occurrences(keys[..2], keys[2]) == 1;
  }

  /** A fresh instance applied to NAME_GIVEN, LOCATION_COUNTRY, NAME_GIVEN
      numbers them 1, 1, 2. */
  lemma FreshMarkerSequence()
    ensures MarkerRun(map[], ["NAME_GIVEN", "LOCATION_COUNTRY", "NAME_GIVEN"]).markers
            == [MarkerText("NAME_GIVEN", 1), MarkerText("LOCATION_COUNTRY", 1), MarkerText("NAME_GIVEN", 2)]
  {
    var keys := ["NAME_GIVEN", "LOCATION_COUNTRY", "NAME_GIVEN"];
    FreshOccurrences(keys);
    MarkerRunAt(map[], keys, 0);
    MarkerRunAt(map[], keys, 1);
    MarkerRunAt(map[], keys, 2);
  }

  /** The second NAME_GIVEN marker, written out: the marker is bracketed. */
  lemma SecondNameMarker()
    ensures MarkerText("NAME_GIVEN", 2) == "[NAME_GIVEN_2]"
  {
    assert Decimal(2) == "2";
  }
}

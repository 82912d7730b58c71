/**
 * The `Dataset` class of Project_2/dataset.py: a list of melodies built from a
 * `{name: {'P': [...], 'T': [...]}}` dictionary, the pitch and duration vocabularies
 * built from the union of their values, and the operations that rebuild a fresh
 * dataset from the raw form.
 */
module Datasets {
  import opened Wrappers
  import opened Vocabulary
  import opened Categorical
  import opened Melodies

  /** One `name: {'P': [...], 'T': [...]}` item of an insertion-ordered dictionary. */
  type Entry = (string, Representation)

  /** No name occurs twice: the sequence is the item list of a dictionary. */
  predicate DistinctNames<V>(d: seq<(string, V)>) {
    forall i, j :: 0 <= i < j < |d| ==> d[i].0 != d[j].0
  }

  /** The names of a dictionary's items, in order. */
  function Names<V>(d: seq<(string, V)>): (r: seq<string>)
    ensures |r| == |d|
    ensures forall i :: 0 <= i < |d| ==> r[i] == d[i].0
  {
    if d == [] then [] else [d[0].0] + Names(d[1..])
  }

  /** Putting an item in front of a dictionary's items. */
  lemma ConsNames<V>(x: (string, V), rest: seq<(string, V)>)
    ensures Names([x] + rest) == [x.0] + Names(rest)
    ensures DistinctNames([x] + rest) <==> DistinctNames(rest) && x.0 !in Names(rest)
  {
    var r := [x] + rest;
    assert r[1..] == rest;
    if DistinctNames(r) {
      forall i | 0 <= i < |rest| ensures Names(rest)[i] != x.0 {
        assert r[i + 1] == rest[i];
      }
    }
    if DistinctNames(rest) && x.0 !in Names(rest) {
      forall i, j | 0 <= i < j < |r| ensures r[i].0 != r[j].0 {
        if i == 0 {
          assert r[j].0 == Names(rest)[j - 1];
        } else {
          assert r[i] == rest[i - 1] && r[j] == rest[j - 1];
        }
      }
    }
  }

  // ---------------------------------------------------------------------------
  // Dictionary comprehensions

  lemma AppendAfterHead<T>(d: seq<T>, e: T)
    requires d != []
    ensures d + [e] == [d[0]] + (d[1..] + [e])
  {
  }

  /** `r` is `d` with every item named `e.0` replaced by `e`, each in its place. */
  ghost predicate Overwritten<V>(d: seq<(string, V)>, e: (string, V), r: seq<(string, V)>) {
    |r| == |d| && forall i :: 0 <= i < |d| ==> r[i] == (if d[i].0 == e.0 then e else d[i])
  }

  /** Overwriting the tail of a dictionary whose head has another name. */
  lemma OverwrittenTail<V>(d: seq<(string, V)>, e: (string, V), rest: seq<(string, V)>)
    requires d != [] && d[0].0 != e.0
    requires Overwritten(d[1..], e, rest)
    ensures Overwritten(d, e, [d[0]] + rest)
  {
    var r := [d[0]] + rest;
    forall i | 0 <= i < |d| ensures r[i] == (if d[i].0 == e.0 then e else d[i]) {
      if i > 0 {
        assert r[i] == rest[i - 1] && d[i] == d[1..][i - 1];
      }
    }
  }

  /**
   * `d[e.0] = e.1` on an insertion-ordered dictionary: an existing name keeps its place
   * and takes the new value, every other item stays as it was; a new name is appended.
   */
  function Store<V>(d: seq<(string, V)>, e: (string, V)): (r: seq<(string, V)>)
    requires DistinctNames(d)
    ensures DistinctNames(r)
    ensures forall name :: name in Names(r) <==> name in Names(d) || name == e.0
    ensures e.0 !in Names(d) ==> r == d + [e]
    ensures e.0 in Names(d) ==> Overwritten(d, e, r)
  {
    if d == [] then [e]
    else
      assert d == [d[0]] + d[1..];
      ConsNames(d[0], d[1..]);
      ConsNames(e, d[1..]);
      if d[0].0 == e.0 then
        var r := [e] + d[1..];
        assert Overwritten(d, e, r) by {
          assert forall i :: 0 < i < |d| ==> r[i] == d[i] && d[i].0 != e.0;
        }
        r
      else
        var rest := Store(d[1..], e);
        ConsNames(d[0], rest);
        AppendAfterHead(d, e);
        if e.0 in Names(d) then
          assert e.0 in Names(d[1..]);
          OverwrittenTail(d, e, rest);
          [d[0]] + rest
        else
          [d[0]] + rest
  }

  /** `x` is a pair of `pairs` and no later pair has its name. */
  ghost predicate LastOfName<V>(pairs: seq<(string, V)>, x: (string, V)) {
    exists j :: 0 <= j < |pairs| && pairs[j] == x && forall l :: j < l < |pairs| ==> pairs[l].0 != x.0
  }

  /** A final pair with another name leaves `x` the last of its name. */
  lemma LastOfNameStep<V>(pairs: seq<(string, V)>, x: (string, V))
    requires pairs != [] && x.0 != pairs[|pairs| - 1].0
    requires LastOfName(pairs[..|pairs| - 1], x)
    ensures LastOfName(pairs, x)
  {
    var init := pairs[..|pairs| - 1];
    var j :| 0 <= j < |init| && init[j] == x && forall l :: j < l < |init| ==> init[l].0 != x.0;
    assert pairs[j] == x;
    forall l | j < l < |pairs| ensures pairs[l].0 != x.0 {
      if l < |init| {
        assert pairs[l] == init[l];
      }
    }
  }

  /** Storing the final pair keeps every item the last pair of its name. */
  lemma StoreKeepsLastOfName<V>(pairs: seq<(string, V)>, dict: seq<(string, V)>, r: seq<(string, V)>)
    requires pairs != [] && DistinctNames(dict)
    requires forall i :: 0 <= i < |dict| ==> LastOfName(pairs[..|pairs| - 1], dict[i])
    requires r == Store(dict, pairs[|pairs| - 1])
    ensures forall i :: 0 <= i < |r| ==> LastOfName(pairs, r[i])
  {
    var last := pairs[|pairs| - 1];
    assert LastOfName(pairs, last);
    forall i | 0 <= i < |r| ensures LastOfName(pairs, r[i]) {
      if r[i] != last {
        if last.0 in Names(dict) {
          assert Overwritten(dict, last, r);
          assert r[i] == dict[i] && dict[i].0 != last.0;
        } else {
          assert r == dict + [last];
          assert r[i] == dict[i] && Names(dict)[i] == dict[i].0;
        }
        LastOfNameStep(pairs, r[i]);
      }
    }
  }

  /**
   * `{name: value for name, value in pairs}`: the names in order of first appearance,
   * each with the value of its last pair.
   */
  function ToDict<V>(pairs: seq<(string, V)>): (d: seq<(string, V)>)
    ensures DistinctNames(d)
    ensures forall name :: name in Names(d) <==> name in Names(pairs)
  {
    if pairs == [] then []
    else
      var init := pairs[..|pairs| - 1];
      assert Names(pairs) == Names(init) + [pairs[|pairs| - 1].0];
      Store(ToDict(init), pairs[|pairs| - 1])
  }

  /** Last value wins: every item of the comprehension is the last pair with its name. */
  lemma {:induction false} ToDictKeepsLastValues<V>(pairs: seq<(string, V)>)
    ensures forall i :: 0 <= i < |ToDict(pairs)| ==> LastOfName(pairs, ToDict(pairs)[i])
  {
    if pairs != [] {
      ToDictKeepsLastValues(pairs[..|pairs| - 1]);
      StoreKeepsLastOfName(pairs, ToDict(pairs[..|pairs| - 1]), ToDict(pairs));
    }
  }

  /** A dictionary comprehension over pairs with distinct names keeps every pair, in order. */
  lemma {:induction false} ToDictOfDistinct<V>(pairs: seq<(string, V)>)
    requires DistinctNames(pairs)
    ensures ToDict(pairs) == pairs
  {
    if pairs != [] {
      var init := pairs[..|pairs| - 1];
      ToDictOfDistinct(init);
      var last := pairs[|pairs| - 1];
      assert last.0 !in Names(init) by {
        forall i | 0 <= i < |init| ensures Names(init)[i] != last.0 {
          assert init[i] == pairs[i];
        }
      }
      assert init + [last] == pairs;
    }
  }

  // ---------------------------------------------------------------------------
  // Values collected over melodies

  /** `set().union(*sets)`. */
  function UnionAll(sets: seq<set<int>>): (r: set<int>)
    ensures forall x :: x in r <==> exists k :: 0 <= k < |sets| && x in sets[k]
  {
    if sets == [] then {}
    else
      var rest := UnionAll(sets[1..]);
      assert forall x :: x in rest <==> exists k :: 1 <= k < |sets| && x in sets[k] by {
        forall x | x in rest ensures exists k :: 1 <= k < |sets| && x in sets[k] {
          var k :| 0 <= k < |sets[1..]| && x in sets[1..][k];
          assert x in sets[k + 1];
        }
        forall x | exists k :: 1 <= k < |sets| && x in sets[k] ensures x in rest {
          var k :| 1 <= k < |sets| && x in sets[k];
          assert x in sets[1..][k - 1];
        }
      }
      sets[0] + rest
  }

  /** `Dataset.extract_piches`: every pitch value of every melody. */
  function PitchValues(melodies: seq<Melody>): (r: set<int>)
    ensures forall x :: x in r <==> exists k :: 0 <= k < |melodies| && x in melodies[k].midiPitches
  {
    var sets := seq(|melodies|, k requires 0 <= k < |melodies| => melodies[k].ExtractPitches());
    assert forall k :: 0 <= k < |melodies| ==> sets[k] == melodies[k].ExtractPitches();
    UnionAll(sets)
  }

  /** `Dataset.extract_durations`: every duration value of every melody. */
  function DurationValues(melodies: seq<Melody>): (r: set<int>)
    ensures forall x :: x in r <==> exists k :: 0 <= k < |melodies| && x in melodies[k].midiDurations
  {
    var sets := seq(|melodies|, k requires 0 <= k < |melodies| => melodies[k].ExtractDurations());
    assert forall k :: 0 <= k < |melodies| ==> sets[k] == melodies[k].ExtractDurations();
    UnionAll(sets)
  }

  /** `[map_(melody) for melody in melodies]`. */
  function Map(melodies: seq<Melody>, map_: Melody -> Melody): (r: seq<Melody>)
    ensures |r| == |melodies| && forall k :: 0 <= k < |r| ==> r[k] == map_(melodies[k])
  {
    seq(|melodies|, k requires 0 <= k < |melodies| => map_(melodies[k]))
  }

  /** `[melody.get_midi_durations() for melody in melodies]`. */
  function DurationLists(melodies: seq<Melody>): (r: seq<seq<int>>)
    ensures |r| == |melodies| && forall k :: 0 <= k < |r| ==> r[k] == melodies[k].midiDurations
  {
    seq(|melodies|, k requires 0 <= k < |melodies| => melodies[k].GetMidiDurations())
  }

  /**
   * `[melody.get_midi_representation() for melody in melodies]`: each melody's name with
   * its raw pitch and duration lists, in list order.
   */
  function MidiEntries(melodies: seq<Melody>): (d: seq<Entry>)
    ensures |d| == |melodies|
  {
    seq(|melodies|, k requires 0 <= k < |melodies| => melodies[k].GetMidiRepresentation())
  }

  /** Item `k` of the raw form is the name, pitch list and duration list of melody `k`. */
  lemma MidiEntriesItems(melodies: seq<Melody>)
    ensures forall k :: 0 <= k < |melodies| ==>
      MidiEntries(melodies)[k].0 == melodies[k].name &&
      MidiEntries(melodies)[k].1.p == melodies[k].midiPitches &&
      MidiEntries(melodies)[k].1.t == melodies[k].midiDurations
  {
  }

  /** The running maximum of `get_length()` (pitch count) computed by `Dataset.__init__`, 0 for no melodies. */
  function MaxLength(data: seq<Entry>): nat {
    if data == [] then 0
    else
      var init := MaxLength(data[..|data| - 1]);
      var last := |data[|data| - 1].1.p|;
      if init < last then last else init
  }

  /** The running maximum is the length of the longest melody. */
  lemma {:induction false} MaxLengthIsLongest(data: seq<Entry>)
    ensures forall k :: 0 <= k < |data| ==> |data[k].1.p| <= MaxLength(data)
    ensures data != [] ==> exists k :: 0 <= k < |data| && |data[k].1.p| == MaxLength(data)
  {
    if data != [] {
      var init := data[..|data| - 1];
      var last := |data[|data| - 1].1.p|;
      MaxLengthIsLongest(init);
      assert forall k :: 0 <= k < |init| ==> init[k] == data[k];
      if init != [] && last <= MaxLength(init) {
        var j :| 0 <= j < |init| && |init[j].1.p| == MaxLength(init);
        assert data[j] == init[j];
        assert MaxLength(data) == MaxLength(init);
      } else {
        assert MaxLength(data) == last;
      }
    }
  }

  // ---------------------------------------------------------------------------
  // Filtering and flattening

  /** `[x for x in s if keep(x)]`. */
  function Select<T>(s: seq<T>, keep: T -> bool): (r: seq<T>)
    ensures |r| <= |s|
    ensures forall i :: 0 <= i < |r| ==> r[i] in s && keep(r[i])
    ensures forall i :: 0 <= i < |s| && keep(s[i]) ==> s[i] in r
  {
    if s == [] then []
    else
      var rest := Select(s[1..], keep);
      forall i | 1 <= i < |s| && keep(s[i]) ensures s[i] in rest {
        assert s[1..][i - 1] == s[i];
      }
      (if keep(s[0]) then [s[0]] else []) + rest
  }

  /** Selection distributes over concatenation: the kept items stay in their original order. */
  lemma {:induction false} SelectAppend<T>(a: seq<T>, b: seq<T>, keep: T -> bool)
    ensures Select(a + b, keep) == Select(a, keep) + Select(b, keep)
  {
    if a == [] {
      assert a + b == b;
    } else {
      assert (a + b)[0] == a[0];
      assert (a + b)[1..] == a[1..] + b;
      SelectAppend(a[1..], b, keep);
    }
  }

  /** Selecting twice with the same condition selects nothing more. */
  lemma {:induction false} SelectIdempotent<T>(s: seq<T>, keep: T -> bool)
    ensures Select(Select(s, keep), keep) == Select(s, keep)
  {
    if s != [] {
      SelectIdempotent(s[1..], keep);
      var head := if keep(s[0]) then [s[0]] else [];
      SelectAppend(head, Select(s[1..], keep), keep);
      if keep(s[0]) {
        assert Select(head, keep) == head by {
          assert head[1..] == [];
        }
      }
    }
  }

  /** Dropping the first melody keeps the names distinct. */
  lemma TailKeepsNamesDistinct(melodies: seq<Melody>)
    requires melodies != [] && DistinctNames(MidiEntries(melodies))
    ensures DistinctNames(MidiEntries(melodies[1..]))
  {
    var tail := melodies[1..];
    forall i, j | 0 <= i < j < |tail| ensures MidiEntries(tail)[i].0 != MidiEntries(tail)[j].0 {
      assert MidiEntries(melodies)[i + 1].0 != MidiEntries(melodies)[j + 1].0;
    }
  }

  /** A melody whose name no melody of `tail` has, in front of melodies taken from `tail`. */
  lemma ConsKeepsNamesDistinct(m: Melody, rest: seq<Melody>, tail: seq<Melody>)
    requires DistinctNames(MidiEntries(rest))
    requires forall i :: 0 <= i < |rest| ==> rest[i] in tail
    requires forall l :: 0 <= l < |tail| ==> tail[l].name != m.name
    ensures DistinctNames(MidiEntries([m] + rest))
  {
    var r := [m] + rest;
    var d, dr := MidiEntries(r), MidiEntries(rest);
    forall i, j | 0 <= i < j < |d| ensures d[i].0 != d[j].0 {
      if i == 0 {
        var l :| 0 <= l < |tail| && tail[l] == rest[j - 1];
        assert d[j].0 == tail[l].name;
      } else {
        assert d[i].0 == dr[i - 1].0 && d[j].0 == dr[j - 1].0;
      }
    }
  }

  /** Melodies with distinct names keep distinct names under any selection. */
  lemma {:induction false} SelectKeepsNamesDistinct(melodies: seq<Melody>, keep: Melody -> bool)
    requires DistinctNames(MidiEntries(melodies))
    ensures DistinctNames(MidiEntries(Select(melodies, keep)))
  {
    if melodies != [] {
      var tail := melodies[1..];
      TailKeepsNamesDistinct(melodies);
      SelectKeepsNamesDistinct(tail, keep);
      var rest := Select(tail, keep);
      if keep(melodies[0]) {
        var d := MidiEntries(melodies);
        MidiEntriesItems(melodies);
        forall l | 0 <= l < |tail| ensures tail[l].name != melodies[0].name {
          assert d[0].0 != d[l + 1].0;
        }
        ConsKeepsNamesDistinct(melodies[0], rest, tail);
      } else {
        assert [] + rest == rest;
      }
      SelectCons(melodies, keep);
    }
  }

  /** The entries whose name differs from `name`, in order. */
  function WithoutName(d: seq<Entry>, name: string): (r: seq<Entry>)
    ensures forall e :: e in r <==> e in d && e.0 != name
    ensures name !in Names(r)
  {
    if d == [] then []
    else
      var rest := WithoutName(d[1..], name);
      assert forall e :: e in d <==> e == d[0] || e in d[1..];
      if d[0].0 != name then [d[0]] + rest else rest
  }

  lemma MidiEntriesAppend(a: seq<Melody>, b: seq<Melody>)
    ensures MidiEntries(a + b) == MidiEntries(a) + MidiEntries(b)
  {
  }

  /** The entries of the melodies after the first are the entries after the first. */
  lemma MidiEntriesTail(melodies: seq<Melody>)
    requires melodies != []
    ensures MidiEntries(melodies)[0] == melodies[0].GetMidiRepresentation()
    ensures MidiEntries(melodies)[1..] == MidiEntries(melodies[1..])
  {
  }

  /** `Select` keeps or drops the first item, then selects from the rest. */
  lemma SelectCons<T>(s: seq<T>, keep: T -> bool)
    requires s != []
    ensures Select(s, keep) == (if keep(s[0]) then [s[0]] else []) + Select(s[1..], keep)
  {
  }

  /** `WithoutName` keeps or drops the first entry, then filters the rest. */
  lemma WithoutNameCons(d: seq<Entry>, name: string)
    requires d != []
    ensures WithoutName(d, name) == (if d[0].0 != name then [d[0]] else []) + WithoutName(d[1..], name)
  {
  }

  /** One step of `SelectByName`: the first melody, kept or dropped, and the rest as selected. */
  lemma SelectByNameStep(melodies: seq<Melody>, name: string, keep: Melody -> bool)
    requires melodies != []
    requires keep(melodies[0]) == (melodies[0].name != name)
    requires MidiEntries(Select(melodies[1..], keep)) == WithoutName(MidiEntries(melodies[1..]), name)
    ensures MidiEntries(Select(melodies, keep)) == WithoutName(MidiEntries(melodies), name)
  {
    var d := MidiEntries(melodies);
    var head := if keep(melodies[0]) then [melodies[0]] else [];
    var headEntries := if d[0].0 != name then [d[0]] else [];
    MidiEntriesTail(melodies);
    SelectCons(melodies, keep);
    WithoutNameCons(d, name);
    MidiEntriesAppend(head, Select(melodies[1..], keep));
    assert MidiEntries(head) == headEntries;
  }

  /** Filtering melodies on their name is filtering their entries on the name. */
  lemma {:induction false} SelectByName(melodies: seq<Melody>, name: string, keep: Melody -> bool)
    requires forall m: Melody :: keep(m) == (m.name != name)
    ensures MidiEntries(Select(melodies, keep)) == WithoutName(MidiEntries(melodies), name)
  {
    if melodies != [] {
      SelectByName(melodies[1..], name, keep);
      SelectByNameStep(melodies, name, keep);
    }
  }

  /** `[item for sublist in lists for item in sublist]`. */
  function Flatten(lists: seq<seq<int>>): (r: seq<int>)
    ensures forall x :: x in r <==> exists k :: 0 <= k < |lists| && x in lists[k]
  {
    if lists == [] then []
    else
      var rest := Flatten(lists[1..]);
      assert forall x :: x in rest <==> exists k :: 1 <= k < |lists| && x in lists[k] by {
        forall x | x in rest ensures exists k :: 1 <= k < |lists| && x in lists[k] {
          var k :| 0 <= k < |lists[1..]| && x in lists[1..][k];
          assert x in lists[k + 1];
        }
        forall x | exists k :: 1 <= k < |lists| && x in lists[k] ensures x in rest {
          var k :| 1 <= k < |lists| && x in lists[k];
          assert x in lists[1..][k - 1];
        }
      }
      lists[0] + rest
  }

  function TotalLength(lists: seq<seq<int>>): nat {
    if lists == [] then 0 else |lists[0]| + TotalLength(lists[1..])
  }

  /** The flattened list is as long as all the lists together. */
  lemma {:induction false} FlattenLength(lists: seq<seq<int>>)
    ensures |Flatten(lists)| == TotalLength(lists)
  {
    if lists != [] {
      FlattenLength(lists[1..]);
    }
  }

  /** Flattening keeps list order: the items of earlier lists come first. */
  lemma {:induction false} FlattenAppend(a: seq<seq<int>>, b: seq<seq<int>>)
    ensures Flatten(a + b) == Flatten(a) + Flatten(b)
  {
    if a == [] {
      assert a + b == b;
    } else {
      assert (a + b)[0] == a[0];
      assert (a + b)[1..] == a[1..] + b;
      FlattenAppend(a[1..], b);
    }
  }

  // ---------------------------------------------------------------------------
  // Transposition

  /** Lines 89-90 of `transposeDataset`: every pitch moves by `interval`, durations are copied. */
  function Transpose(r: Representation, interval: int): (t: Representation)
    ensures |t.p| == |r.p| && t.t == r.t
    ensures forall k :: 0 <= k < |r.p| ==> t.p[k] - r.p[k] == interval
  {
    PT(seq(|r.p|, k requires 0 <= k < |r.p| => r.p[k] + interval), r.t)
  }

  /** Transposing back by the opposite interval restores the melody. */
  lemma TransposeBack(r: Representation, interval: int)
    ensures Transpose(Transpose(r, interval), -interval) == r
  {
    assert Transpose(Transpose(r, interval), -interval).p == r.p;
  }

  // ---------------------------------------------------------------------------
  // Staged state of the melodies of a dataset

  /**
   * The integer and one-hot stages that `Dataset.__init__` stores on a melody: every
   * raw value is in the vocabulary, the ids are its positions in it, and the rows are
   * one-hot over the whole vocabulary.
   */
  ghost predicate MelodyEncoded(m: Melody, pitches: Mappings, durations: Mappings)
    reads m
  {
    (forall k :: 0 <= k < |m.midiPitches| ==> m.midiPitches[k] in pitches.valueToId) &&
    (forall k :: 0 <= k < |m.midiDurations| ==> m.midiDurations[k] in durations.valueToId) &&
    m.integerPitches == Some(Lookup(m.midiPitches, pitches.valueToId)) &&
    m.integerDurations == Some(Lookup(m.midiDurations, durations.valueToId)) &&
    (forall k :: 0 <= k < |m.midiPitches| ==> 0 <= m.integerPitches.value[k] < |pitches.idToValue|) &&
    (forall k :: 0 <= k < |m.midiDurations| ==> 0 <= m.integerDurations.value[k] < |durations.idToValue|) &&
    |pitches.idToValue| > 0 && |durations.idToValue| > 0 &&
    m.matrixPitches == Some(ToCategorical(m.integerPitches.value, |pitches.idToValue|)) &&
    m.matrixDurations == Some(ToCategorical(m.integerDurations.value, |durations.idToValue|))
  }

  /** Both one-hot matrices of a melody padded or truncated to `maxLength` rows. */
  ghost predicate MelodyStandardized(m: Melody, maxLength: nat)
    reads m
  {
    m.matrixPitches.Some? && m.matrixDurations.Some? &&
    (maxLength == 0 && m.matrixPitches.value.width > 0 ==> |m.matrixPitches.value.rows| <= 1) &&
    (maxLength == 0 && m.matrixDurations.value.width > 0 ==> |m.matrixDurations.value.rows| <= 1) &&
    m.stdMatrixPitches == Some(PadSequences(m.matrixPitches.value, maxLength)) &&
    m.stdMatrixDurations == Some(PadSequences(m.matrixDurations.value, maxLength))
  }

  /** Every melody of the list holds its integer and one-hot stages. */
  ghost predicate AllEncoded(ms: seq<Melody>, pitches: Mappings, durations: Mappings)
    reads ms
  {
    forall k :: 0 <= k < |ms| ==> MelodyEncoded(ms[k], pitches, durations)
  }

  /** Every melody of the list holds its matrices padded or truncated to `maxLength` rows. */
  ghost predicate AllStandardized(ms: seq<Melody>, maxLength: nat)
    reads ms
  {
    forall k :: 0 <= k < |ms| ==> MelodyStandardized(ms[k], maxLength)
  }

  /** No melody of the list has any stage built. */
  ghost predicate AllUnbuilt(ms: seq<Melody>)
    reads ms
  {
    forall k :: 0 <= k < |ms| ==> ms[k].Unbuilt()
  }

  /** `[Melody(name, representation) for name, representation in data.items()]`. */
  method CreateMelodies(data: seq<Entry>) returns (ms: seq<Melody>)
    ensures MidiEntries(ms) == data
    ensures forall k :: 0 <= k < |ms| ==> fresh(ms[k])
    ensures AllUnbuilt(ms)
  {
    ms := [];
    var i := 0;
    while i < |data|
      invariant 0 <= i <= |data|
      invariant |ms| == i
      invariant forall k :: 0 <= k < i ==> fresh(ms[k]) && ms[k].Unbuilt()
      invariant MidiEntries(ms) == data[..i]
    {
      var m := new Melody(data[i].0, data[i].1);
      ms := ms + [m];
      i := i + 1;
    }
    assert data[..i] == data;
  }

  /** Every raw value of every melody has an id, and every id is a column of the one-hot rows. */
  ghost predicate Covers(ms: seq<Melody>, pitches: Mappings, durations: Mappings) {
    (forall k, j :: 0 <= k < |ms| && 0 <= j < |ms[k].midiPitches| ==>
      ms[k].midiPitches[j] in pitches.valueToId && 0 <= pitches.valueToId[ms[k].midiPitches[j]] < |pitches.idToValue|) &&
    (forall k, j :: 0 <= k < |ms| && 0 <= j < |ms[k].midiDurations| ==>
      ms[k].midiDurations[j] in durations.valueToId && 0 <= durations.valueToId[ms[k].midiDurations[j]] < |durations.idToValue|)
  }

  /** Every raw value of the melody at index `k` is among the values of the dataset. */
  lemma MelodyValuesInVocabulary(melodies: seq<Melody>, k: int)
    requires 0 <= k < |melodies|
    ensures forall j :: 0 <= j < |melodies[k].midiPitches| ==> melodies[k].midiPitches[j] in PitchValues(melodies)
    ensures forall j :: 0 <= j < |melodies[k].midiDurations| ==> melodies[k].midiDurations[j] in DurationValues(melodies)
  {
  }

  /** The vocabularies built from the values of all melodies cover every melody. */
  lemma VocabulariesCover(ms: seq<Melody>)
    ensures Covers(ms, BuildMappings(PitchValues(ms)), BuildMappings(DurationValues(ms)))
  {
    var pitches, durations := PitchValues(ms), DurationValues(ms);
    IdsInRange(pitches);
    IdsInRange(durations);
    forall k, j | 0 <= k < |ms| && 0 <= j < |ms[k].midiPitches| ensures ms[k].midiPitches[j] in pitches {
      assert ms[k].midiPitches[j] in ms[k].midiPitches;
    }
    forall k, j | 0 <= k < |ms| && 0 <= j < |ms[k].midiDurations| ensures ms[k].midiDurations[j] in durations {
      assert ms[k].midiDurations[j] in ms[k].midiDurations;
    }
  }

  /** One more melody updates the maximum length as `max(max_length, melody.get_length())`. */
  lemma MaxLengthStep(ms: seq<Melody>, i: int)
    requires 0 <= i < |ms|
    ensures var before := MaxLength(MidiEntries(ms[..i]));
      MaxLength(MidiEntries(ms[..i + 1])) == if before < ms[i].GetLength() then ms[i].GetLength() else before
  {
    var data := MidiEntries(ms[..i + 1]);
    assert data[..i] == MidiEntries(ms[..i]);
  }

  /**
   * The body of the first loop of `Dataset.__init__` for the melody at index `i`:
   * its integer ids, then its one-hot rows as wide as the vocabularies.
   */
  method EncodeMelody(ms: seq<Melody>, i: int, pitches: Mappings, durations: Mappings)
    requires 0 <= i < |ms|
    requires Covers(ms, pitches, durations)
    requires |pitches.idToValue| > 0 && |durations.idToValue| > 0
    requires forall k :: 0 <= k < i ==> MelodyEncoded(ms[k], pitches, durations)
    modifies ms[i]
    ensures forall k :: 0 <= k <= i ==> MelodyEncoded(ms[k], pitches, durations)
  {
    var m := ms[i];
    m.BuildIntegerRepresentation(pitches.idToValue, pitches.valueToId, durations.idToValue, durations.valueToId);
    m.BuildMatrixRepresentation(|pitches.idToValue|, |durations.idToValue|);
  }

  /**
   * The first loop of `Dataset.__init__`: builds the integer and one-hot stages of
   * every melody against the given vocabularies, and returns the running maximum of
   * their lengths. Each melody calls `to_categorical` with the vocabulary sizes, which
   * fails on an empty vocabulary.
   */
  method EncodeAll(ms: seq<Melody>, pitches: Mappings, durations: Mappings) returns (maxLength: nat)
    requires Covers(ms, pitches, durations)
    requires ms != [] ==> |pitches.idToValue| > 0 && |durations.idToValue| > 0
    modifies ms
    ensures maxLength == MaxLength(MidiEntries(ms))
    ensures forall k :: 0 <= k < |ms| ==> MelodyEncoded(ms[k], pitches, durations)
  {
    maxLength := 0;
    var i := 0;
    while i < |ms|
      invariant 0 <= i <= |ms|
      invariant maxLength == MaxLength(MidiEntries(ms[..i]))
      invariant forall k :: 0 <= k < i ==> MelodyEncoded(ms[k], pitches, durations)
    {
      EncodeMelody(ms, i, pitches, durations);
      MaxLengthStep(ms, i);
      maxLength := if maxLength < ms[i].GetLength() then ms[i].GetLength() else maxLength;
      i := i + 1;
    }
    assert ms[..i] == ms;
  }

  /** A maximum length of 0 means that no melody has a pitch event. */
  lemma NoPitchesAtZero(ms: seq<Melody>)
    requires MaxLength(MidiEntries(ms)) == 0
    ensures forall k :: 0 <= k < |ms| ==> ms[k].midiPitches == []
  {
    MaxLengthIsLongest(MidiEntries(ms));
    forall k | 0 <= k < |ms| ensures ms[k].midiPitches == [] {
      assert MidiEntries(ms)[k] == ms[k].GetMidiRepresentation();
    }
  }

  /**
   * The body of the second loop of `Dataset.__init__` for the melody at index `i`:
   * its one-hot matrices padded or truncated to `maxLength` rows. With `maxLength == 0`
   * the melody has no pitch and at most one duration, else `pad_sequences` fails.
   */
  method StandardizeMelody(ms: seq<Melody>, i: int, pitches: Mappings, durations: Mappings, maxLength: nat)
    requires 0 <= i < |ms|
    requires forall k :: 0 <= k < |ms| ==> MelodyEncoded(ms[k], pitches, durations)
    requires maxLength == 0 ==> ms[i].midiPitches == [] && |ms[i].midiDurations| <= 1
    requires forall k :: 0 <= k < i ==> MelodyStandardized(ms[k], maxLength)
    modifies ms[i]
    ensures forall k :: 0 <= k < |ms| ==> MelodyEncoded(ms[k], pitches, durations)
    ensures forall k :: 0 <= k <= i ==> MelodyStandardized(ms[k], maxLength)
  {
    var m := ms[i];
    assert MelodyEncoded(m, pitches, durations);
    assert |m.matrixPitches.value.rows| == |m.midiPitches|;
    assert |m.matrixDurations.value.rows| == |m.midiDurations|;
    m.BuildStandardizedMatrixRepresentation(maxLength);
  }

  /**
   * The second loop of `Dataset.__init__`: pads or truncates every melody's matrices
   * to `maxLength` rows, keeping the integer and one-hot stages.
   */
  method StandardizeAll(ms: seq<Melody>, pitches: Mappings, durations: Mappings, maxLength: nat)
    requires forall k :: 0 <= k < |ms| ==> MelodyEncoded(ms[k], pitches, durations)
    requires maxLength == 0 ==> forall k :: 0 <= k < |ms| ==> ms[k].midiPitches == [] && |ms[k].midiDurations| <= 1
    modifies ms
    ensures forall k :: 0 <= k < |ms| ==> MelodyEncoded(ms[k], pitches, durations)
    ensures forall k :: 0 <= k < |ms| ==> MelodyStandardized(ms[k], maxLength)
  {
    var i := 0;
    while i < |ms|
      invariant 0 <= i <= |ms|
      invariant forall k :: 0 <= k < |ms| ==> MelodyEncoded(ms[k], pitches, durations)
      invariant forall k :: 0 <= k < i ==> MelodyStandardized(ms[k], maxLength)
    {
      StandardizeMelody(ms, i, pitches, durations, maxLength);
      i := i + 1;
    }
  }

  /**
   * The `build_matrix_representation` branch of `Dataset.__init__`: both loops, with
   * the vocabularies of all the melodies' values.
   */
  method BuildMatrices(ms: seq<Melody>, pitches: Mappings, durations: Mappings) returns (maxLength: nat)
    requires Covers(ms, pitches, durations)
    requires ms != [] ==> |pitches.idToValue| > 0 && |durations.idToValue| > 0
    requires MaxLength(MidiEntries(ms)) == 0 ==> forall k :: 0 <= k < |ms| ==> |ms[k].midiDurations| <= 1
    modifies ms
    ensures maxLength == MaxLength(MidiEntries(ms))
    ensures AllEncoded(ms, pitches, durations)
    ensures AllStandardized(ms, maxLength)
  {
    maxLength := EncodeAll(ms, pitches, durations);
    if maxLength == 0 {
      NoPitchesAtZero(ms);
    }
    StandardizeAll(ms, pitches, durations, maxLength);
  }

  /**
   * Some entry has a pitch and some entry has a duration, unless there are no entries:
   * otherwise a vocabulary is empty and `to_categorical` fails on it.
   */
  predicate HasEvents(data: seq<Entry>) {
    data != [] ==>
      (exists k :: 0 <= k < |data| && data[k].1.p != []) &&
      (exists k :: 0 <= k < |data| && data[k].1.t != [])
  }

  /**
   * The `build_matrix_representation` branch of `Dataset.__init__` on the melodies
   * just created from `data`, against the vocabularies of all their values.
   */
  method BuildFromEntries(ms: seq<Melody>, data: seq<Entry>) returns (maxLength: nat)
    requires MidiEntries(ms) == data
    requires HasEvents(data)
    modifies ms
    ensures maxLength == MaxLength(data) && (data != [] ==> maxLength > 0)
    ensures AllEncoded(ms, BuildMappings(PitchValues(ms)), BuildMappings(DurationValues(ms)))
    ensures AllStandardized(ms, maxLength)
  {
    forall k | 0 <= k < |ms| ensures data[k].1 == ms[k].GetMidiRepresentation().1 {
      assert data[k] == ms[k].GetMidiRepresentation();
    }
    MaxLengthIsLongest(data);
    if data != [] {
      var kp :| 0 <= kp < |data| && data[kp].1.p != [];
      var kt :| 0 <= kt < |data| && data[kt].1.t != [];
      assert ms[kp].midiPitches[0] in PitchValues(ms);
      assert ms[kt].midiDurations[0] in DurationValues(ms);
      MappingsSize(PitchValues(ms));
      MappingsSize(DurationValues(ms));
    }
    VocabulariesCover(ms);
    maxLength := BuildMatrices(ms, BuildMappings(PitchValues(ms)), BuildMappings(DurationValues(ms)));
  }

  class Dataset {
    const melodies: seq<Melody>
    const idToPitches: map<int, int>
    const idToDurations: map<int, int>
    /** Both dictionaries `__init__` builds, for pitches and for durations; the source keeps only `id_to_*`. */
    ghost const pitchVocabulary: Mappings
    ghost const durationVocabulary: Mappings

    /**
     * The melodies carry distinct names (they come from a dictionary) and the two
     * id-to-value dictionaries are the vocabularies of all their values.
     */
    ghost predicate Valid() {
      DistinctNames(MidiEntries(melodies)) &&
      pitchVocabulary == BuildMappings(PitchValues(melodies)) &&
      durationVocabulary == BuildMappings(DurationValues(melodies)) &&
      idToPitches == pitchVocabulary.idToValue &&
      idToDurations == durationVocabulary.idToValue
    }

    /** Every melody holds its integer and one-hot stages, against the dataset's vocabularies. */
    ghost predicate Encoded()
      reads melodies
    {
      AllEncoded(melodies, pitchVocabulary, durationVocabulary)
    }

    /** Every melody holds its matrices padded or truncated to `maxLength` rows. */
    ghost predicate Standardized(maxLength: nat)
      reads melodies
    {
      AllStandardized(melodies, maxLength)
    }

    /**
     * `Dataset(data, build_matrix_representation)`. `data` is a dictionary, so its
     * names are distinct. When the matrices are built from at least one melody, a
     * pitch vocabulary or a duration vocabulary with no value makes `to_categorical`
     * fail, hence the second requires; it also leaves the maximum length above 0.
     */
    constructor (data: seq<Entry>, buildMatrixRepresentation: bool)
      requires DistinctNames(data)
      requires buildMatrixRepresentation ==> HasEvents(data)
      ensures Valid()
      ensures MidiEntries(melodies) == data
      ensures forall k :: 0 <= k < |melodies| ==> fresh(melodies[k])
      ensures !buildMatrixRepresentation ==> AllUnbuilt(melodies)
      ensures buildMatrixRepresentation ==> Encoded() && Standardized(MaxLength(data))
    {
      var ms := CreateMelodies(data);
      var pitches, durations := BuildMappings(PitchValues(ms)), BuildMappings(DurationValues(ms));
      melodies := ms;
      pitchVocabulary, durationVocabulary := pitches, durations;
      idToPitches, idToDurations := pitches.idToValue, durations.idToValue;
      new;
      if buildMatrixRepresentation {
        var maxLength := BuildFromEntries(ms, data);
      }
    }

    /** `get_mappings()`: the two id-to-value dictionaries. */
    function GetMappings(): (r: PT<map<int, int>>)
      requires Valid()
      ensures r.p.Keys == IdRange(|PitchValues(melodies)|) && r.p.Values == PitchValues(melodies)
      ensures r.t.Keys == IdRange(|DurationValues(melodies)|) && r.t.Values == DurationValues(melodies)
      ensures forall i, j :: i in r.p && j in r.p && i < j ==> r.p[i] < r.p[j]
      ensures forall i, j :: i in r.t && j in r.t && i < j ==> r.t[i] < r.t[j]
    {
      IdsCoverValues(PitchValues(melodies));
      IdsCoverValues(DurationValues(melodies));
      forall i, j | i in idToPitches && j in idToPitches && i < j ensures idToPitches[i] < idToPitches[j] {
        IdsFollowValueOrder(PitchValues(melodies), i, j);
      }
      forall i, j | i in idToDurations && j in idToDurations && i < j ensures idToDurations[i] < idToDurations[j] {
        IdsFollowValueOrder(DurationValues(melodies), i, j);
      }
      PT(idToPitches, idToDurations)
    }

    /** `get_number_of_melodies()`: one melody per name of the raw form. */
    function GetNumberOfMelodies(): (n: nat)
      requires Valid()
      ensures n == |GetMidiRepresentation()|
    {
      |melodies|
    }

    /**
     * `get_midi_representation()`: the raw form of every melody gathered back in a
     * dictionary. The names of a valid dataset are distinct, so nothing is merged.
     */
    function GetMidiRepresentation(): (d: seq<Entry>)
      ensures DistinctNames(d)
      ensures Valid() ==> d == MidiEntries(melodies)
    {
      var entries := MidiEntries(melodies);
      if DistinctNames(entries) then ToDictOfDistinct(entries); ToDict(entries) else ToDict(entries)
    }

    /**
     * `get_integer_representation()`: the integer ids of every melody (`None` where
     * not built), in a dictionary keyed by name.
     */
    function GetIntegerRepresentation(): (d: seq<(string, PT<Option<seq<int>>>)>)
      reads melodies
      ensures DistinctNames(d)
      ensures Valid() ==> |d| == |melodies| && forall k :: 0 <= k < |melodies| ==> d[k] == melodies[k].GetIntegerRepresentation()
    {
      var entries := seq(|melodies|, k requires 0 <= k < |melodies| reads melodies => melodies[k].GetIntegerRepresentation());
      if DistinctNames(entries) then ToDictOfDistinct(entries); ToDict(entries)
      else
        assert !DistinctNames(MidiEntries(melodies)) by {
          var i, j :| 0 <= i < j < |entries| && entries[i].0 == entries[j].0;
          assert MidiEntries(melodies)[i].0 == entries[i].0 && MidiEntries(melodies)[j].0 == entries[j].0;
        }
        ToDict(entries)
    }

    /** `get_all_midi_durations()`: the duration lists of all melodies, one after the other. */
    function GetAllMidiDurations(): (r: seq<int>)
      ensures forall x :: x in r <==> x in DurationValues(melodies)
      ensures |r| == TotalLength(DurationLists(melodies))
    {
      var lists := DurationLists(melodies);
      FlattenLength(lists);
      Flatten(lists)
    }

    /**
     * `filter(condition)`: a fresh dataset, without matrices, rebuilt from the raw form
     * of the melodies that satisfy `condition`; this dataset is left as it is.
     */
    method Filter(condition: Melody -> bool) returns (d: Dataset)
      requires Valid()
      ensures fresh(d) && d.Valid()
      ensures d.GetMidiRepresentation() == MidiEntries(Select(melodies, condition))
      ensures AllUnbuilt(d.melodies)
    {
      var entries := MidiEntries(Select(melodies, condition));
      SelectKeepsNamesDistinct(melodies, condition);
      ToDictOfDistinct(entries);
      d := new Dataset(ToDict(entries), false);
    }

    /**
     * `apply_to_melody(map_)`: a fresh dataset, without matrices, rebuilt from the raw
     * form of the melody `map_` gives for each melody. Two results with the same name
     * are merged as in a dictionary comprehension.
     */
    method ApplyToMelody(map_: Melody -> Melody) returns (d: Dataset)
      ensures fresh(d) && d.Valid()
      ensures d.GetMidiRepresentation() == ToDict(MidiEntries(Map(melodies, map_)))
      ensures AllUnbuilt(d.melodies)
    {
      d := new Dataset(ToDict(MidiEntries(Map(melodies, map_))), false);
    }

    /**
     * `delete_by_name(melody_name)`: a fresh dataset, without matrices, holding every
     * melody except the one named `melodyName`.
     */
    method DeleteByName(melodyName: string) returns (d: Dataset)
      requires Valid()
      ensures fresh(d) && d.Valid()
      ensures d.GetMidiRepresentation() == WithoutName(GetMidiRepresentation(), melodyName)
      ensures AllUnbuilt(d.melodies)
    {
      var keep := (m: Melody) => m.name != melodyName;
      SelectByName(melodies, melodyName, keep);
      assert GetMidiRepresentation() == MidiEntries(melodies);
      d := Filter(keep);
    }

    /**
     * `with_matrix_representation()`: a fresh dataset rebuilt from the raw form, this
     * time with the matrices of every melody padded to the longest melody.
     */
    method WithMatrixRepresentation() returns (d: Dataset)
      requires Valid()
      requires HasEvents(GetMidiRepresentation())
      ensures fresh(d) && d.Valid()
      ensures d.GetMidiRepresentation() == GetMidiRepresentation()
      ensures d.Encoded() && d.Standardized(MaxLength(GetMidiRepresentation()))
    {
      d := new Dataset(GetMidiRepresentation(), true);
    }
  }

  /** After the matrices are built, every padded matrix has exactly `maxLength` rows. */
  lemma StandardizedRowCounts(ds: Dataset, maxLength: nat, k: int)
    requires ds.Standardized(maxLength) && 0 <= k < |ds.melodies|
    ensures var m := ds.melodies[k];
      m.stdMatrixPitches.Some? && m.stdMatrixDurations.Some? &&
      |m.stdMatrixPitches.value.rows| == |m.stdMatrixDurations.value.rows| == maxLength
  {
  }

  /**
   * The integer ids of an encoded melody read back through `id_to_pitches` and
   * `id_to_durations` give the melody's raw values exactly.
   */
  lemma IntegerRepresentationDecodes(ds: Dataset, k: int)
    requires ds.Valid() && ds.Encoded() && 0 <= k < |ds.melodies|
    ensures var e := ds.GetIntegerRepresentation()[k];
      var raw := ds.GetMidiRepresentation()[k];
      e.0 == raw.0 && e.1.p.Some? && e.1.t.Some? &&
      (forall j :: 0 <= j < |e.1.p.value| ==> e.1.p.value[j] in ds.idToPitches) &&
      (forall j :: 0 <= j < |e.1.t.value| ==> e.1.t.value[j] in ds.idToDurations) &&
      Lookup(e.1.p.value, ds.idToPitches) == raw.1.p &&
      Lookup(e.1.t.value, ds.idToDurations) == raw.1.t
  {
    var m := ds.melodies[k];
    assert MelodyEncoded(m, ds.pitchVocabulary, ds.durationVocabulary);
    MelodyValuesInVocabulary(ds.melodies, k);
    DecodeEncode(m.midiPitches, PitchValues(ds.melodies));
    DecodeEncode(m.midiDurations, DurationValues(ds.melodies));
  }

  /**
   * The one-hot rows of an encoded melody, read back as the column of their 1 and then
   * through the dataset's dictionaries, give the melody's raw values exactly.
   */
  lemma MatrixRepresentationDecodes(ds: Dataset, k: int)
    requires ds.Valid() && ds.Encoded() && 0 <= k < |ds.melodies|
    ensures var m := ds.melodies[k];
      m.matrixPitches.Some? && m.matrixDurations.Some? &&
      var ip := FromCategorical(m.matrixPitches.value);
      var it := FromCategorical(m.matrixDurations.value);
      (forall j :: 0 <= j < |ip| ==> ip[j] in ds.idToPitches) &&
      (forall j :: 0 <= j < |it| ==> it[j] in ds.idToDurations) &&
      Lookup(ip, ds.idToPitches) == m.midiPitches &&
      Lookup(it, ds.idToDurations) == m.midiDurations
  {
    var m := ds.melodies[k];
    var pitches, durations := ds.pitchVocabulary, ds.durationVocabulary;
    assert MelodyEncoded(m, pitches, durations);
    FromToCategorical(m.integerPitches.value, |pitches.idToValue|);
    FromToCategorical(m.integerDurations.value, |durations.idToValue|);
    MelodyValuesInVocabulary(ds.melodies, k);
    DecodeEncode(m.midiPitches, PitchValues(ds.melodies));
    DecodeEncode(m.midiDurations, DurationValues(ds.melodies));
  }

  /** The vocabularies of a filtered dataset are drawn from those of the original. */
  lemma SelectShrinksVocabulary(melodies: seq<Melody>, keep: Melody -> bool)
    ensures PitchValues(Select(melodies, keep)) <= PitchValues(melodies)
    ensures DurationValues(Select(melodies, keep)) <= DurationValues(melodies)
  {
    var kept := Select(melodies, keep);
    forall i | 0 <= i < |kept| ensures exists j :: 0 <= j < |melodies| && melodies[j] == kept[i] {
      assert kept[i] in melodies;
    }
  }
}

/**
 * The `Melody` class of Project_2/melody.py: the raw pitch and duration lists of one
 * melody, plus the encodings that its `build_*` methods store on it stage by stage
 * (integer ids, one-hot matrices, padded matrices), each `None` until built.
 */
module Melodies {
  import opened Wrappers
  import opened Vocabulary
  import opened Categorical

  /** A `{'P': ..., 'T': ...}` dictionary: one value for the pitches, one for the durations. */
  datatype PT<T> = PT(p: T, t: T)

  /** The raw form of one melody: its pitch events and its duration events. */
  type Representation = PT<seq<int>>

  /** Python's `set(values)`. */
  function SetOf(values: seq<int>): (r: set<int>)
    ensures forall x :: x in r <==> x in values
    ensures |r| <= |values|
  {
    if values == [] then {}
    else
      var rest := SetOf(values[1..]);
      assert forall x :: x in values <==> x == values[0] || x in values[1..];
      {values[0]} + rest
  }

  class Melody {
    const name: string
    const midiPitches: seq<int>
    const midiDurations: seq<int>
    var integerPitches: Option<seq<int>>
    var integerDurations: Option<seq<int>>
    var matrixPitches: Option<Matrix>
    var matrixDurations: Option<Matrix>
    var stdMatrixPitches: Option<Matrix>
    var stdMatrixDurations: Option<Matrix>

    /** No stage has been built yet. */
    predicate Unbuilt()
      reads this
    {
      integerPitches == None && integerDurations == None &&
      matrixPitches == None && matrixDurations == None &&
      stdMatrixPitches == None && stdMatrixDurations == None
    }

    /**
     * `Melody(name, representation)`: keeps the two lists as given (their lengths are
     * not compared) and leaves every stage unbuilt.
     */
    constructor (name: string, representation: Representation)
      ensures GetMidiRepresentation() == (name, representation)
      ensures GetLength() == |representation.p|
      ensures Unbuilt()
    {
      this.name := name;
      midiPitches := representation.p;
      midiDurations := representation.t;
      integerPitches, integerDurations := None, None;
      matrixPitches, matrixDurations := None, None;
      stdMatrixPitches, stdMatrixDurations := None, None;
    }

    /** The length of a melody is its number of pitch events. */
    function GetLength(): nat {
      |midiPitches|
    }

    function GetName(): string {
      name
    }

    function GetIntegerRepresentation(): (string, PT<Option<seq<int>>>)
      reads this
    {
      (name, PT(integerPitches, integerDurations))
    }

    function GetMidiRepresentation(): (string, Representation) {
      (name, PT(midiPitches, midiDurations))
    }

    function GetMatrixRepresentation(): (string, PT<Option<Matrix>>)
      reads this
    {
      (name, PT(matrixPitches, matrixDurations))
    }

    function GetStdMatrixRepresentation(): (string, PT<Option<Matrix>>)
      reads this
    {
      (name, PT(stdMatrixPitches, stdMatrixDurations))
    }

    function GetMidiDurations(): seq<int> {
      midiDurations
    }

    /** The distinct pitch values of the melody. */
    function ExtractPitches(): (r: set<int>)
      ensures forall x :: x in r <==> x in midiPitches
      ensures |r| <= GetLength()
    {
      SetOf(midiPitches)
    }

    /** The distinct duration values of the melody. */
    function ExtractDurations(): (r: set<int>)
      ensures forall x :: x in r <==> x in midiDurations
      ensures |r| <= |midiDurations|
    {
      SetOf(midiDurations)
    }

    /** `set(test_set).intersection(set(self.midi_durations))`. */
    function IntersectMidiDurations(testSet: seq<int>): (r: set<int>)
      ensures r <= SetOf(testSet) && r <= ExtractDurations()
      ensures forall x :: x in testSet && x in midiDurations ==> x in r
    {
      SetOf(testSet) * SetOf(midiDurations)
    }

    /**
     * Looks every raw value up in the value-to-id dictionaries. A value missing from
     * a dictionary raises `KeyError` in the source, hence the requires. The
     * id-to-value dictionaries are accepted and not used, as in the source.
     */
    method BuildIntegerRepresentation(idToPitches: map<int, int>, pitchesToId: map<int, int>,
                                      idToDurations: map<int, int>, durationsToId: map<int, int>)
      requires forall k :: 0 <= k < |midiPitches| ==> midiPitches[k] in pitchesToId
      requires forall k :: 0 <= k < |midiDurations| ==> midiDurations[k] in durationsToId
      modifies this
      ensures integerPitches == Some(Lookup(midiPitches, pitchesToId))
      ensures integerDurations == Some(Lookup(midiDurations, durationsToId))
      ensures matrixPitches == old(matrixPitches) && matrixDurations == old(matrixDurations)
      ensures stdMatrixPitches == old(stdMatrixPitches) && stdMatrixDurations == old(stdMatrixDurations)
    {
      integerPitches := Some(Lookup(midiPitches, pitchesToId));
      integerDurations := Some(Lookup(midiDurations, durationsToId));
    }

    /**
     * Expands the integer ids into one-hot matrices of the given widths. The integer
     * stage must exist (`to_categorical(None)` fails), every id must be a column, and
     * neither width may be 0 (`to_categorical` then fails, see `ToCategorical`).
     */
    method BuildMatrixRepresentation(numberOfPitches: nat, numberOfDurations: nat)
      requires integerPitches.Some? && integerDurations.Some?
      requires numberOfPitches > 0 && numberOfDurations > 0
      requires forall k :: 0 <= k < |integerPitches.value| ==> 0 <= integerPitches.value[k] < numberOfPitches
      requires forall k :: 0 <= k < |integerDurations.value| ==> 0 <= integerDurations.value[k] < numberOfDurations
      modifies this
      ensures integerPitches == old(integerPitches) && integerDurations == old(integerDurations)
      ensures matrixPitches == Some(ToCategorical(integerPitches.value, numberOfPitches))
      ensures matrixDurations == Some(ToCategorical(integerDurations.value, numberOfDurations))
      ensures stdMatrixPitches == old(stdMatrixPitches) && stdMatrixDurations == old(stdMatrixDurations)
    {
      matrixPitches := Some(ToCategorical(integerPitches.value, numberOfPitches));
      matrixDurations := Some(ToCategorical(integerDurations.value, numberOfDurations));
    }

    /**
     * Pads (zero rows in front) or truncates (earliest rows dropped) both matrices to
     * exactly `maxLength` rows. The matrix stage must exist.
     */
    method BuildStandardizedMatrixRepresentation(maxLength: nat)
      requires matrixPitches.Some? && matrixDurations.Some?
      requires maxLength == 0 && matrixPitches.value.width > 0 ==> |matrixPitches.value.rows| <= 1
      requires maxLength == 0 && matrixDurations.value.width > 0 ==> |matrixDurations.value.rows| <= 1
      modifies this
      ensures integerPitches == old(integerPitches) && integerDurations == old(integerDurations)
      ensures matrixPitches == old(matrixPitches) && matrixDurations == old(matrixDurations)
      ensures stdMatrixPitches == Some(PadSequences(matrixPitches.value, maxLength))
      ensures stdMatrixDurations == Some(PadSequences(matrixDurations.value, maxLength))
      ensures |stdMatrixPitches.value.rows| == |stdMatrixDurations.value.rows| == maxLength
    {
      stdMatrixPitches := Some(PadSequences(matrixPitches.value, maxLength));
      stdMatrixDurations := Some(PadSequences(matrixDurations.value, maxLength));
    }
  }
}

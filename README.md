# Melody corpus encoding, modelled in Dafny

This project models the data-preparation core of the melody-generation part of the
repository (`Project_2/melody.py` and `Project_2/dataset.py`).

A **melody** has a name and two parallel lists of raw MIDI events: pitches (`'P'`) and
durations (`'T'`). Preparation builds three forms of it, one after the other, and each
form is stored on the melody in place:

1. integer ids, looked up in the corpus vocabularies;
2. one-hot matrices (`keras.utils.to_categorical`);
3. matrices padded or truncated to the longest melody (`pad_sequences`).

A **dataset** is built from an insertion-ordered `{name: {'P': [...], 'T': [...]}}`
dictionary. It creates one melody per item. It then builds a **vocabulary** for pitches
and one for durations: id `i` names the `i`-th smallest value seen anywhere in the corpus.
When asked, it runs the two encoding loops over its melodies. Every derived dataset
(`filter`, `apply_to_melody`, `delete_by_name`, `with_matrix_representation`) is a fresh
dataset rebuilt from the raw form, so its vocabularies are recomputed.

## Structure

- `wrappers.dfy`, module `Wrappers`: `Option`, which stands for Python's `None`.
- `vocabulary.dfy`, module `Vocabulary`: `__build_mappings` and the lookups through it.
  It proves that the ids are `0 .. n-1` in increasing value order. It proves that the two
  dictionaries are inverse. It proves that encoding then decoding gives back the raw
  values.
- `categorical.dfy`, module `Categorical`: the effect of `to_categorical` and of
  `pad_sequences(m.T, maxlen).T` on integer matrices. This includes one-hot rows, pre-padding
  with zero (mask) rows, and pre-truncation that keeps the latest events.
- `melody.dfy`, module `Melodies`: `class Melody`. The raw lists are `const` fields.
  The staged encodings are `Option` fields that the `Build*` methods assign.
- `dataset.dfy`, module `Datasets`: `class Dataset`. Its constructor runs the two loops of
  `__init__` as methods with loop invariants. Besides `id_to_pitches` and `id_to_durations`,
  the class keeps both dictionaries of each vocabulary as ghost fields, so that its
  invariant can name the `value_to_id` dictionaries the loops used. It also holds the derived-dataset operations
  and the lemmas that tie the stored encodings back to the raw melodies.

Python dictionaries are modelled as sequences of `(name, value)` pairs with distinct
names, in insertion order. `ToDict` is the `{name: r for name, r in pairs}`
comprehension: a later pair with the same name overwrites the value and keeps the
first position. `Lookup` is every `[d[x] for x in xs]` of the code, whether it turns
values into ids or ids back into values.

Two behaviours of the code worth knowing:

- A melody whose pitch and duration lists differ in length is accepted. Nothing in
  `Melody.__init__` compares them.
- A dataset with no melodies gets empty vocabularies and a maximum length of 0. It does
  not fail.

## Model

| member | source | states |
|---|---|---|
| Vocabulary.Sorted | Project_2/dataset.py:70 | `sorted(possible_values)` has one entry per value of the set and lists exactly the values of the set |
| Vocabulary.SortedIsIncreasing | Project_2/dataset.py:70 | `sorted(possible_values)` is in strictly increasing order, so no value appears twice |
| Vocabulary.SortedIsUnique | Project_2/dataset.py:70 | any strictly increasing listing of the set equals `sorted(...)`, so ids do not depend on the order in which values were found |
| Vocabulary.IdRange | Project_2/dataset.py:69 | `range(n)` as a set holds exactly `0 .. n-1` and has `n` elements |
| Vocabulary.ZipIds | Project_2/dataset.py:69-70 | `dict(zip(range(n), sorted_values))` has keys `0 .. n-1` and sends key `i` to the `i`-th sorted value |
| Vocabulary.InvertIds | Project_2/dataset.py:68-71 | `inv_map` has exactly the values as keys and sends each to a position of the sorted list that holds it |
| Vocabulary.BuildMappings | Project_2/dataset.py:67-71 | the id-to-value keys are `0 .. n-1` and the value-to-id keys are exactly the values |
| Vocabulary.MappingsSize | Project_2/dataset.py:67-71 | both dictionaries have one entry per distinct value |
| Vocabulary.IdIsKey | Project_2/dataset.py:69-70 | every position `0 .. n-1` is an id |
| Vocabulary.IdNamesSortedValue | Project_2/dataset.py:69-70 | id `i` names the `i`-th value of `sorted(possible_values)` |
| Vocabulary.IdsFollowValueOrder | Project_2/dataset.py:69-70 | a smaller id names a smaller value |
| Vocabulary.IdsCoverValues | Project_2/dataset.py:70 | the id-to-value dictionary names exactly the given values |
| Vocabulary.IdRoundTrip | Project_2/dataset.py:68-71 | looking up the value of any id in `inv_map(id_to_value)` gives that id back |
| Vocabulary.ValueRoundTrip | Project_2/dataset.py:68-71 | looking up the id of any value in `id_to_value` gives that value back |
| Vocabulary.MappingsAreInverse | Project_2/dataset.py:68-71 | `inv_map` inverts `id_to_value` in both directions |
| Vocabulary.IdsInRange | Project_2/dataset.py:68-71 | every value's id lies in `0 .. n-1` |
| Vocabulary.EmptyMappings | Project_2/dataset.py:67-71 | no values give two empty dictionaries |
| Vocabulary.BuildMappingsIsVocabulary | Project_2/dataset.py:67-71 | the two dictionaries have ids `0 .. n-1`, one key per value, and each value's id leads back to the value |
| Vocabulary.Lookup | Project_2/melody.py:46-47 | the list comprehension yields one dictionary value per key, each a value of the dictionary; a key missing from the dictionary is excluded by the requires (a `KeyError` in the source) |
| Vocabulary.EncodeThroughVocabulary | Project_2/melody.py:46-47 | encoding through any pair of dictionaries with that property gives ids in `0 .. n-1` that decode back to the raw events |
| Vocabulary.EncodeInRange | Project_2/melody.py:46-47 | encoding against the vocabulary of a superset of the values gives ids in `0 .. n-1` |
| Vocabulary.DecodeEncode | Project_2/melody.py:46-47 | reading the ids back through `id_to_value` recovers the raw events exactly |
| Categorical.ToCategorical | Project_2/melody.py:50-51 | `to_categorical` gives one row per id, each of width `number_of_classes`; ids are the `0 .. n-1` the caller passes, and a class count of 0 (a `ValueError` in the library) is excluded by the requires |
| Categorical.CategoricalRows | Project_2/melody.py:50-51 | every row sums to 1 with its 1 at the encoded id, so no event row is a mask row |
| Categorical.OneHotRowSum | Project_2/melody.py:50 | a one-hot row sums to exactly 1 |
| Categorical.FromToCategorical | Project_2/melody.py:50-51 | reading each row back to the column of its 1 recovers the id list |
| Categorical.PadSequences | Project_2/melody.py:54-55 | the result has exactly `maxlen` rows of the same width; a short matrix gets zero rows in front with its rows after them in order; a long one keeps its last `maxlen` rows |
| Categorical.PaddedRowSums | Project_2/melody.py:54-55 | after padding, the leading pad rows sum to 0 and every other row sums to 1 |
| Categorical.UnmaskPadded | Project_2/melody.py:54 | dropping the leading all-zero rows of a padded one-hot matrix gives back the unpadded rows |
| Categorical.TruncationKeepsLatest | Project_2/melody.py:54 | a truncated one-hot matrix decodes to the last `maxlen` ids |
| Melodies.SetOf | Project_2/melody.py:37 | `set(values)` holds exactly the listed values and is no larger than the list |
| Melodies.Melody.constructor | Project_2/melody.py:6-13 | keeps the name and both lists as given, `get_length()` is the pitch count, and every encoded stage is `None` |
| Melodies.Melody.ExtractPitches | Project_2/melody.py:36-37 | exactly the melody's pitch values, at most `get_length()` of them |
| Melodies.Melody.ExtractDurations | Project_2/melody.py:39-40 | exactly the melody's duration values |
| Melodies.Melody.IntersectMidiDurations | Project_2/melody.py:42-43 | a subset of both the test values and the melody's durations, holding every value in both |
| Melodies.Melody.BuildIntegerRepresentation | Project_2/melody.py:45-47 | stores the encoded pitch and duration lists and leaves the matrix stages unchanged |
| Melodies.Melody.BuildMatrixRepresentation | Project_2/melody.py:49-51 | stores the one-hot matrices of the stored ids and leaves the other stages unchanged; needs both widths above 0, since `to_categorical` fails on 0 classes |
| Melodies.Melody.BuildStandardizedMatrixRepresentation | Project_2/melody.py:53-55 | stores both matrices padded or truncated to `max_length` rows and leaves the earlier stages unchanged |
| Datasets.Names | Project_2/dataset.py:51 | the keys of a dictionary, in insertion order |
| Datasets.ConsNames | Project_2/dataset.py:51 | an item put in front keeps names distinct exactly when its name is new |
| Datasets.Store | Project_2/dataset.py:51 | assigning one item keeps names distinct and adds exactly its name; a new name is appended, and an existing name keeps its place and takes the new value while every other item stays as it was |
| Datasets.OverwrittenTail | Project_2/dataset.py:51 | overwriting a name in the tail of a dictionary whose head has another name leaves the head in place |
| Datasets.LastOfNameStep | Project_2/dataset.py:49-51 | a final pair with another name leaves an item the last pair of its name |
| Datasets.StoreKeepsLastOfName | Project_2/dataset.py:49-51 | storing the final pair keeps every item of the dictionary the last pair of its name |
| Datasets.ToDict | Project_2/dataset.py:49-51 | a dict comprehension yields distinct names, namely the names of the pairs |
| Datasets.ToDictKeepsLastValues | Project_2/dataset.py:49-51 | last value wins: every item of the comprehension is a pair of the input, and no later pair has its name |
| Datasets.ToDictOfDistinct | Project_2/dataset.py:49-51 | on pairs with distinct names the comprehension changes nothing |
| Datasets.Map | Project_2/dataset.py:36 | `[map_(melody) for melody in self.melodies]` has one item per melody, and item `k` is `map_` of melody `k` |
| Datasets.DurationLists | Project_2/dataset.py:59 | `[melody.get_midi_durations() for melody in self.melodies]` has one item per melody, and item `k` is the duration list of melody `k` |
| Datasets.MidiEntries | Project_2/dataset.py:50 | `[melody.get_midi_representation() for melody in self.melodies]` (also line 32, before the condition) has one item per melody |
| Datasets.MidiEntriesItems | Project_2/dataset.py:50 | item `k` of `[melody.get_midi_representation() for melody in self.melodies]` is the name, pitch list and duration list of melody `k` |
| Datasets.UnionAll | Project_2/dataset.py:62 | `set().union(*sets)` holds exactly the values of some set in the list |
| Datasets.PitchValues | Project_2/dataset.py:61-62 | `extract_piches()` holds exactly the pitches that occur in some melody |
| Datasets.DurationValues | Project_2/dataset.py:64-65 | `extract_durations()` holds exactly the durations that occur in some melody |
| Datasets.MaxLengthIsLongest | Project_2/dataset.py:16-20 | the running maximum is at least every melody's length, is 0 for no melodies, and is the length of some melody otherwise |
| Datasets.MaxLengthStep | Project_2/dataset.py:20 | one loop step takes the maximum of the previous value and the current melody's length |
| Datasets.Select | Project_2/dataset.py:32 | the comprehension keeps exactly the items that satisfy the condition |
| Datasets.SelectAppend | Project_2/dataset.py:32 | filtering distributes over concatenation, so kept melodies stay in their original order |
| Datasets.SelectIdempotent | Project_2/dataset.py:31-33 | filtering twice with one condition equals filtering once |
| Datasets.SelectKeepsNamesDistinct | Project_2/dataset.py:31-33 | a filtered melody list still has distinct names |
| Datasets.SelectShrinksVocabulary | Project_2/dataset.py:31-33 | a filtered dataset's pitch and duration values are subsets of the original's |
| Datasets.WithoutName | Project_2/dataset.py:39-40 | exactly the entries whose name differs from the given one |
| Datasets.SelectByName | Project_2/dataset.py:39-40 | filtering melodies by `get_name() != melody_name` is removing that name from the dictionary |
| Datasets.Flatten | Project_2/dataset.py:58-59 | the flattened list holds exactly the items of the sublists |
| Datasets.FlattenLength | Project_2/dataset.py:58-59 | the flattened list is as long as all sublists together |
| Datasets.FlattenAppend | Project_2/dataset.py:58 | flattening distributes over concatenation, so order is kept |
| Datasets.Transpose | Project_2/dataset.py:89-90 | every pitch moves by the interval and the durations are copied unchanged |
| Datasets.TransposeBack | Project_2/dataset.py:89-90 | transposing by the opposite interval restores the melody |
| Datasets.CreateMelodies | Project_2/dataset.py:11 | one fresh, unbuilt melody per dictionary item, in order, with that item's name and lists |
| Datasets.VocabulariesCover | Project_2/dataset.py:12-13 | the corpus vocabularies hold every event of every melody, with ids inside the vocabulary |
| Datasets.EncodeMelody | Project_2/dataset.py:18-19 | one loop body gives the current melody its integer and one-hot stages and leaves the earlier melodies encoded |
| Datasets.EncodeAll | Project_2/dataset.py:15-20 | after the first loop, every melody holds the ids and the one-hot matrices over the whole vocabulary, and `max_length` is the longest melody; with at least one melody both vocabularies must be non-empty |
| Datasets.NoPitchesAtZero | Project_2/dataset.py:16-23 | a maximum length of 0 means that no melody has a pitch |
| Datasets.StandardizeMelody | Project_2/dataset.py:22-23 | one step of the second loop pads the current melody's matrices to `max_length` and keeps every melody encoded and the earlier ones padded |
| Datasets.StandardizeAll | Project_2/dataset.py:22-23 | the second loop pads every melody's matrices to `max_length` and leaves the earlier stages unchanged |
| Datasets.BuildMatrices | Project_2/dataset.py:15-23 | both loops leave every melody encoded against the given vocabularies and padded to the longest melody |
| Datasets.BuildFromEntries | Project_2/dataset.py:12-23 | run on the melodies of `data`, both loops leave every melody encoded against the vocabularies of all its values and padded to the longest melody of `data`, which is above 0 when `data` has an item; needs some pitch and some duration when `data` has an item |
| Datasets.Dataset.constructor | Project_2/dataset.py:10-23 | the melodies are the items of `data` in order; the id dictionaries are the vocabularies of all values; stages are unbuilt, or all encoded and padded to the maximum length when `build_matrix_representation` holds; building needs some pitch and some duration in a non-empty `data` |
| Datasets.Dataset.GetMappings | Project_2/dataset.py:25-26 | `'P'` and `'T'` map ids `0 .. n-1` onto exactly the corpus values, in increasing order |
| Datasets.Dataset.GetNumberOfMelodies | Project_2/dataset.py:42-43 | the number of melodies equals the number of items of the raw dictionary |
| Datasets.Dataset.GetMidiRepresentation | Project_2/dataset.py:49-51 | a dictionary with distinct names that, for a valid dataset, is the melodies' raw items in order |
| Datasets.Dataset.GetIntegerRepresentation | Project_2/dataset.py:53-55 | a dictionary with distinct names that, for a valid dataset, holds each melody's integer stage in order |
| Datasets.Dataset.GetAllMidiDurations | Project_2/dataset.py:57-59 | exactly the corpus's duration values, one entry per duration event |
| Datasets.Dataset.Filter | Project_2/dataset.py:31-33 | a fresh, valid, unbuilt dataset of exactly the melodies that satisfy the condition, in order |
| Datasets.Dataset.ApplyToMelody | Project_2/dataset.py:35-37 | a fresh, valid, unbuilt dataset of the dictionary built from the mapped melodies' raw items |
| Datasets.Dataset.DeleteByName | Project_2/dataset.py:39-40 | a fresh, valid, unbuilt dataset whose dictionary is the original's without the given name |
| Datasets.Dataset.WithMatrixRepresentation | Project_2/dataset.py:28-29 | a fresh, valid dataset with the same raw dictionary, every melody encoded and padded to the longest melody; needs some pitch and some duration when there is a melody |
| Datasets.StandardizedRowCounts | Project_2/dataset.py:22-23 | after padding, both matrices of every melody have exactly `max_length` rows |
| Datasets.IntegerRepresentationDecodes | Project_2/dataset.py:53-55 | each stored id list, read back through the dataset's id dictionaries, is the melody's raw list |
| Datasets.MatrixRepresentationDecodes | Project_2/dataset.py:18-19 | each stored one-hot matrix, read back through the dataset's id dictionaries, is the melody's raw list |

## Left out

- `get_n_random_melodies` (`Project_2/dataset.py:45-47`) draws from NumPy's random generator. It is not modelled.
- `transposeDataset` (`Project_2/dataset.py:73-92`): only the pitch shift of lines 89-90 is modelled (`Transpose`), with the interval as a parameter. The MIDI parsing and key analysis by music21, the progress bar, the file path and the skipped `sessiontune32822` label are I/O or foreign calls.
- The training scripts that use the dataset are not part of this model.
- Matrices are integer lists. The NumPy dtypes are not modelled: `to_categorical` returns `float32` one-hot matrices and `pad_sequences` returns `int32` ones by default, so the standardized matrices are `int32`. The array type and the transposes around `pad_sequences` are not modelled either; only their effect on rows is.
- `Melodies.Melody.GetLength`, `GetName`, `GetMidiDurations` and the other `get_*` accessors are plain reads of the fields. Their results are stated through the constructor and the dataset members rather than by contracts of their own.
- Melodies.Melody.GetStdMatrixRepresentation: `Melody.get_std_matrix_representation` reads attributes that `Melody.__init__` never creates, so calling it before standardising raises `AttributeError`. The model reads those fields as `None` instead.
- Datasets.Dataset.Filter: the condition is a `Melody -> bool` that depends only on the melody's name and raw lists. It cannot read the staged encodings, and it cannot raise.
- Datasets.Dataset.ApplyToMelody: `map_` is a total `Melody -> Melody` that returns an existing melody object. It depends only on the name and raw lists and cannot raise. It cannot allocate a new melody: Dafny functions do not allocate.
- Datasets.Dataset.constructor: with `build_matrix_representation` and at least one item, a corpus with no pitch value or no duration value gives an empty vocabulary. Then `to_categorical(ids, 0)` falls back to `max(ids) + 1` on an empty id list and raises `ValueError`. That failure is a requires (`HasEvents`) rather than a modelled error. `Datasets.Dataset.WithMatrixRepresentation` and `Datasets.BuildFromEntries` carry the same requires. `Datasets.EncodeAll`, `Datasets.BuildMatrices`, `Datasets.EncodeMelody` and `Melodies.Melody.BuildMatrixRepresentation` state it as non-empty vocabularies.
- Categorical.ToCategorical: the class count 0 is excluded by a requires. The library treats 0 as "not given" and takes `max(ids) + 1`, which raises `ValueError` on the empty id list, the only one a 0-class vocabulary produces. A requires also keeps every id in `0 .. numClasses-1`. An id of `numClasses` or more raises `IndexError` in the library. A negative id down to `-numClasses` would instead set a column counted from the end, but the only caller passes ids from `range(n)`, so negative ids are not modelled.
- Categorical.PadSequences: `pad_sequences` with `maxlen=0` fails on a matrix with a column and two or more rows. That failure is a requires. Through the constructor it cannot arise, because a non-empty corpus with a pitch has a maximum length above 0.
- Melodies.Melody.BuildIntegerRepresentation: a value missing from the lookup dictionary raises `KeyError` in the source. The model makes it a requires.

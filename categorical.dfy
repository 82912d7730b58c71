/**
 * The observable effect, on integer rows, of the two library calls used by
 * `Melody.build_matrix_representation` and `Melody.build_standardized_matrix_representation`
 * in Project_2/melody.py: `keras.utils.to_categorical(ids, n)` and
 * `pad_sequences(matrix.T, maxlen=L).T` with its default `padding='pre'`, `truncating='pre'`.
 */
module Categorical {

  /** A 2-D array of shape `(|rows|, width)`; `width` survives even when there are no rows. */
  datatype Matrix = Matrix(width: nat, rows: seq<seq<int>>)

  /** Every row has `width` entries. */
  predicate Shaped(m: Matrix) {
    forall i :: 0 <= i < |m.rows| ==> |m.rows[i]| == m.width
  }

  function Sum(row: seq<int>): int {
    if row == [] then 0 else row[0] + Sum(row[1..])
  }

  lemma {:induction false} SumAppend(a: seq<int>, b: seq<int>)
    ensures Sum(a + b) == Sum(a) + Sum(b)
  {
    if a == [] {
      assert a + b == b;
    } else {
      assert (a + b)[0] == a[0];
      assert (a + b)[1..] == a[1..] + b;
      SumAppend(a[1..], b);
    }
  }

  /** The all-zero row, the mask value of the sequence model. */
  function ZeroRow(width: nat): (row: seq<int>)
    ensures |row| == width
  {
    seq(width, _ => 0)
  }

  predicate IsZeroRow(row: seq<int>) {
    forall j :: 0 <= j < |row| ==> row[j] == 0
  }

  lemma {:induction false} ZeroRowSum(width: nat)
    ensures Sum(ZeroRow(width)) == 0
  {
    if width > 0 {
      assert ZeroRow(width)[1..] == ZeroRow(width - 1);
      ZeroRowSum(width - 1);
    }
  }

  /** Row `k` of `to_categorical`: a 1 at column `k` and 0 elsewhere. */
  function OneHotRow(k: nat, width: nat): (row: seq<int>)
    requires k < width
    ensures |row| == width
  {
    seq(width, j => if j == k then 1 else 0)
  }

  /** A one-hot row sums to exactly 1. */
  lemma OneHotRowSum(k: nat, width: nat)
    requires k < width
    ensures Sum(OneHotRow(k, width)) == 1
  {
    var row := OneHotRow(k, width);
    assert row == ZeroRow(k) + [1] + ZeroRow(width - k - 1);
    SumAppend(ZeroRow(k) + [1], ZeroRow(width - k - 1));
    SumAppend(ZeroRow(k), [1]);
    ZeroRowSum(k);
    ZeroRowSum(width - k - 1);
  }

  /**
   * `to_categorical(ids, numClasses)`: one one-hot row per id. An id of `numClasses`
   * or more is an `IndexError` in the library. A negative id would be counted from the
   * last column instead, but the only caller passes ids in `0 .. numClasses-1`, hence
   * the first requires.
   * A `numClasses` of 0 is falsy, so the library falls back to `max(ids) + 1`, and
   * with no ids (the only ids that fit 0 classes) taking that maximum is a
   * `ValueError`, hence the second.
   */
  function ToCategorical(ids: seq<int>, numClasses: nat): (m: Matrix)
    requires forall i :: 0 <= i < |ids| ==> 0 <= ids[i] < numClasses
    requires numClasses > 0
    ensures m.width == numClasses && |m.rows| == |ids| && Shaped(m)
  {
    Matrix(numClasses, seq(|ids|, i requires 0 <= i < |ids| => OneHotRow(ids[i], numClasses)))
  }

  /** Every row of a categorical matrix sums to exactly 1, and its 1 sits at the encoded id. */
  lemma CategoricalRows(ids: seq<int>, numClasses: nat)
    requires forall i :: 0 <= i < |ids| ==> 0 <= ids[i] < numClasses
    requires numClasses > 0
    ensures var m := ToCategorical(ids, numClasses);
      forall i :: 0 <= i < |ids| ==> Sum(m.rows[i]) == 1 && m.rows[i][ids[i]] == 1 && !IsZeroRow(m.rows[i])
  {
    var m := ToCategorical(ids, numClasses);
    forall i | 0 <= i < |ids|
      ensures Sum(m.rows[i]) == 1 && m.rows[i][ids[i]] == 1 && !IsZeroRow(m.rows[i])
    {
      OneHotRowSum(ids[i], numClasses);
    }
  }

  /** The column of the first 1 in a row, or `|row|` when there is none. */
  function FirstOne(row: seq<int>): (j: nat)
    ensures j <= |row|
    ensures j < |row| ==> row[j] == 1
    ensures forall i :: 0 <= i < j ==> row[i] != 1
  {
    if row == [] then 0
    else if row[0] == 1 then 0
    else 1 + FirstOne(row[1..])
  }

  /** Reading each row back to the column of its 1: the argmax a consumer applies. */
  function FromCategorical(m: Matrix): (ids: seq<int>)
    ensures |ids| == |m.rows|
  {
    seq(|m.rows|, i requires 0 <= i < |m.rows| => FirstOne(m.rows[i]))
  }

  /** `to_categorical` loses nothing: every id is recovered from its row. */
  lemma FromToCategorical(ids: seq<int>, numClasses: nat)
    requires forall i :: 0 <= i < |ids| ==> 0 <= ids[i] < numClasses
    requires numClasses > 0
    ensures FromCategorical(ToCategorical(ids, numClasses)) == ids
  {
    var m := ToCategorical(ids, numClasses);
    forall i | 0 <= i < |ids| ensures FirstOne(m.rows[i]) == ids[i] {
      assert m.rows[i][ids[i]] == 1;
    }
  }

  /**
   * `pad_sequences(m.T, maxlen=maxLen).T` with the defaults `padding='pre'` and
   * `truncating='pre'`: a shorter matrix gets all-zero rows in front, a longer one keeps
   * only its last `maxLen` rows. With `maxLen == 0` the library truncates with
   * `s[-0:]`, which is the whole column, and then fails to store it into a
   * zero-length slot unless it has a single entry (which broadcasts to nothing); so it
   * fails exactly when the matrix has a column and two or more rows.
   */
  function PadSequences(m: Matrix, maxLen: nat): (r: Matrix)
    requires maxLen == 0 && m.width > 0 ==> |m.rows| <= 1
    ensures r.width == m.width && |r.rows| == maxLen
    ensures Shaped(m) ==> Shaped(r)
    ensures |m.rows| <= maxLen ==>
      (forall i :: 0 <= i < maxLen - |m.rows| ==> r.rows[i] == ZeroRow(m.width)) &&
      (forall i :: 0 <= i < |m.rows| ==> r.rows[maxLen - |m.rows| + i] == m.rows[i])
    ensures |m.rows| > maxLen ==>
      forall i :: 0 <= i < maxLen ==> r.rows[i] == m.rows[|m.rows| - maxLen + i]
  {
    var n := |m.rows|;
    if n <= maxLen then Matrix(m.width, seq(maxLen - n, _ => ZeroRow(m.width)) + m.rows)
    else Matrix(m.width, m.rows[n - maxLen..])
  }

  /**
   * After padding a categorical matrix, the padded rows sum to 0 and every row that
   * holds an event still sums to 1.
   */
  lemma PaddedRowSums(ids: seq<int>, numClasses: nat, maxLen: nat)
    requires forall i :: 0 <= i < |ids| ==> 0 <= ids[i] < numClasses
    requires numClasses > 0
    requires maxLen == 0 ==> |ids| <= 1
    ensures var r := PadSequences(ToCategorical(ids, numClasses), maxLen);
      forall i :: 0 <= i < maxLen ==> Sum(r.rows[i]) == if i < maxLen - |ids| then 0 else 1
  {
    if maxLen > 0 {
      var m := ToCategorical(ids, numClasses);
      var r := PadSequences(m, maxLen);
      CategoricalRows(ids, numClasses);
      forall i | 0 <= i < maxLen
        ensures Sum(r.rows[i]) == if i < maxLen - |ids| then 0 else 1
      {
        if i < maxLen - |ids| {
          ZeroRowSum(numClasses);
        } else if |ids| <= maxLen {
          assert r.rows[i] == m.rows[i - (maxLen - |ids|)];
        } else {
          assert r.rows[i] == m.rows[|ids| - maxLen + i];
        }
      }
    }
  }

  /** What a masking layer sees: the rows after the leading all-zero (mask) rows. */
  function Unmasked(rows: seq<seq<int>>): (r: seq<seq<int>>)
    ensures |r| <= |rows|
  {
    if rows != [] && IsZeroRow(rows[0]) then Unmasked(rows[1..]) else rows
  }

  lemma {:induction false} UnmaskedSkipsZeros(zeros: seq<seq<int>>, rest: seq<seq<int>>)
    requires forall i :: 0 <= i < |zeros| ==> IsZeroRow(zeros[i])
    requires rest == [] || !IsZeroRow(rest[0])
    ensures Unmasked(zeros + rest) == rest
  {
    if zeros != [] {
      assert (zeros + rest)[0] == zeros[0];
      assert (zeros + rest)[1..] == zeros[1..] + rest;
      UnmaskedSkipsZeros(zeros[1..], rest);
    }
  }

  /** Pre-padding is undone by dropping the mask rows: no event row is lost or reordered. */
  lemma UnmaskPadded(ids: seq<int>, numClasses: nat, maxLen: nat)
    requires forall i :: 0 <= i < |ids| ==> 0 <= ids[i] < numClasses
    requires numClasses > 0
    requires |ids| <= maxLen
    ensures Unmasked(PadSequences(ToCategorical(ids, numClasses), maxLen).rows) == ToCategorical(ids, numClasses).rows
  {
    var m := ToCategorical(ids, numClasses);
    var zeros := seq(maxLen - |ids|, _ => ZeroRow(numClasses));
    assert PadSequences(m, maxLen).rows == zeros + m.rows;
    CategoricalRows(ids, numClasses);
    UnmaskedSkipsZeros(zeros, m.rows);
  }

  /** Pre-truncation keeps the most recent events: the last `maxLen` ids are what remains. */
  lemma TruncationKeepsLatest(ids: seq<int>, numClasses: nat, maxLen: nat)
    requires forall i :: 0 <= i < |ids| ==> 0 <= ids[i] < numClasses
    requires numClasses > 0
    requires maxLen > 0 && |ids| > maxLen
    ensures FromCategorical(PadSequences(ToCategorical(ids, numClasses), maxLen)) == ids[|ids| - maxLen..]
  {
    FromToCategorical(ids, numClasses);
    var m := ToCategorical(ids, numClasses);
    var r := PadSequences(m, maxLen);
    forall i | 0 <= i < maxLen ensures FromCategorical(r)[i] == ids[|ids| - maxLen + i] {
      assert r.rows[i] == m.rows[|ids| - maxLen + i];
      assert FromCategorical(m)[|ids| - maxLen + i] == ids[|ids| - maxLen + i];
    }
  }
}

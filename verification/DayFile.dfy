/** A day file: its rows by key, as a flush leaves them after dropping all but the last row of each
    key and sorting. Shared by the archive and by the reader of the tape. */
module DayFile {
  import opened Wrappers

  /** Merges rows into a file; a later row replaces an earlier one of the same key. */
  function Write<K, R>(file: map<K, R>, rows: seq<(K, R)>): map<K, R> {
    if rows == [] then file
    else
      var n := |rows| - 1;
      Write(file, rows[..n])[rows[n].0 := rows[n].1]
  }

  function WriteEach<K, R>(file: map<K, R>, batches: seq<seq<(K, R)>>): map<K, R> {
    if batches == [] then file
    else Write(WriteEach(file, batches[..|batches| - 1]), batches[|batches| - 1])
  }

  lemma {:induction false} WriteConcat<K, R>(file: map<K, R>, a: seq<(K, R)>, b: seq<(K, R)>)
    ensures Write(file, a + b) == Write(Write(file, a), b)
  {
    if b == [] {
      assert a + b == a;
    } else {
      var n := |b| - 1;
      WriteConcat(file, a, b[..n]);
      assert (a + b)[..|a| + n] == a + b[..n] && (a + b)[|a| + n] == b[n];
    }
  }

  /** Flushing in any number of batches leaves the file that one write of everything would. */
  lemma {:induction false} BatchesMerge<K, R>(file: map<K, R>, batches: seq<seq<(K, R)>>)
    ensures WriteEach(file, batches) == Write(file, Flatten(batches))
  {
    if batches != [] {
      var n := |batches| - 1;
      BatchesMerge(file, batches[..n]);
      WriteConcat(file, Flatten(batches[..n]), batches[n]);
    }
  }

  lemma {:induction false} WriteKeys<K, R>(file: map<K, R>, rows: seq<(K, R)>)
    ensures forall k :: k in Write(file, rows) <==> k in file || exists i :: 0 <= i < |rows| && rows[i].0 == k
  {
    if rows != [] {
      var n := |rows| - 1;
      WriteKeys(file, rows[..n]);
      forall k ensures k in Write(file, rows) <==> k in file || exists i :: 0 <= i < |rows| && rows[i].0 == k {
        if i :| 0 <= i < |rows| && rows[i].0 == k {
          assert i < n ==> rows[..n][i].0 == k;
        }
        if i :| 0 <= i < n && rows[..n][i].0 == k {
          assert rows[i].0 == k;
        }
        assert k == rows[n].0 ==> rows[n].0 == k;
      }
    }
  }

  /** Every row of a written file was in it before or among the rows written. */
  lemma {:induction false} WriteValues<K, R>(file: map<K, R>, rows: seq<(K, R)>, k: K)
    requires k in Write(file, rows)
    ensures (k in file && Write(file, rows)[k] == file[k])
      || exists i :: 0 <= i < |rows| && rows[i] == (k, Write(file, rows)[k])
  {
    if rows != [] {
      var n := |rows| - 1;
      if rows[n].0 == k {
        assert rows[n] == (k, Write(file, rows)[k]);
      } else {
        WriteValues(file, rows[..n], k);
        if i :| 0 <= i < n && rows[..n][i] == (k, Write(file, rows[..n])[k]) {
          assert rows[i] == (k, Write(file, rows)[k]);
        }
      }
    }
  }
}

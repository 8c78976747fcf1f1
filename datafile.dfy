/**
 * One parsed simulator output file, and ordering a run's files by cycle.
 * The parser itself lives outside this model: a record is opaque apart from
 * its name, its cycle number and, per output label, its per-group errors.
 */
module DataFiles {

  /** A parsed `.m` output file. `E` is the type of an error value, which is only carried. */
  datatype DataFile<E> = DataFile(filename: string, cycle: int, errors: map<string, seq<E>>)

  /** Ascending by cycle number. */
  ghost predicate SortedByCycle<E>(s: seq<DataFile<E>>)
  {
    forall i, j :: 0 <= i < j < |s| ==> s[i].cycle <= s[j].cycle
  }

  /** Places `f` into the cycle-sorted `s`, ahead of the first record whose cycle is not smaller. */
  function InsertByCycle<E>(f: DataFile<E>, s: seq<DataFile<E>>): (r: seq<DataFile<E>>)
    ensures |r| == |s| + 1
    ensures multiset(r) == multiset(s) + multiset{f}
  {
    if |s| == 0 then [f]
    else if f.cycle <= s[0].cycle then [f] + s
    else
      var rest := InsertByCycle(f, s[1..]);
      assert s == [s[0]] + s[1..];
      [s[0]] + rest
  }

  /** Inserting into cycle-sorted files keeps them sorted. */
  lemma {:induction false} InsertByCycleSorted<E>(f: DataFile<E>, s: seq<DataFile<E>>)
    requires SortedByCycle(s)
    ensures SortedByCycle(InsertByCycle(f, s))
  {
    if |s| > 0 && f.cycle > s[0].cycle {
      var rest := InsertByCycle(f, s[1..]);
      InsertByCycleSorted(f, s[1..]);
      assert forall k :: 0 <= k < |rest| ==> s[0].cycle <= rest[k].cycle by {
        forall k | 0 <= k < |rest| ensures s[0].cycle <= rest[k].cycle {
          assert rest[k] in multiset(rest);
          assert rest[k] in multiset(s[1..]) + multiset{f};
          if rest[k] != f {
            assert rest[k] in s[1..];
          }
        }
      }
    }
  }

  /**
   * The order `list.sort()` leaves a run's files in: ascending by cycle, records
   * with equal cycles kept in their original order (an insertion sort).
   */
  function SortByCycle<E>(s: seq<DataFile<E>>): (r: seq<DataFile<E>>)
  {
    if |s| == 0 then [] else InsertByCycle(s[0], SortByCycle(s[1..]))
  }

  /** The sorted files are ascending by cycle. */
  lemma {:induction false} SortByCycleSorted<E>(s: seq<DataFile<E>>)
    ensures SortedByCycle(SortByCycle(s))
  {
    if |s| > 0 {
      SortByCycleSorted(s[1..]);
      InsertByCycleSorted(s[0], SortByCycle(s[1..]));
    }
  }

  /** The sorted files are a permutation of the unsorted ones: none lost, none added, none duplicated. */
  lemma {:induction false} SortByCyclePermutation<E>(s: seq<DataFile<E>>)
    ensures |SortByCycle(s)| == |s|
    ensures multiset(SortByCycle(s)) == multiset(s)
  {
    if |s| > 0 {
      var t := SortByCycle(s[1..]);
      SortByCyclePermutation(s[1..]);
      assert multiset(t) == multiset(s[1..]);
      var r := InsertByCycle(s[0], t);
      assert SortByCycle(s) == r;
      assert multiset(r) == multiset(s[1..]) + multiset{s[0]};
      assert s == [s[0]] + s[1..];
      assert multiset(s) == multiset(s[1..]) + multiset{s[0]};
    }
  }

  /** Files that are already in cycle order are left exactly as they are. */
  lemma {:induction false} SortByCycleKeepsSorted<E>(s: seq<DataFile<E>>)
    requires SortedByCycle(s)
    ensures SortByCycle(s) == s
  {
    if |s| > 0 {
      SortByCycleKeepsSorted(s[1..]);
      var t := s[1..];
      if |t| > 0 {
        assert s[0].cycle <= t[0].cycle;
      }
    }
  }

  /** The file names of the records, in order. */
  function Filenames<E>(s: seq<DataFile<E>>): (names: seq<string>)
  {
    if |s| == 0 then [] else [s[0].filename] + Filenames(s[1..])
  }

  /** Entry `i` of the names is the name of record `i`. */
  lemma {:induction false} FilenamesAt<E>(s: seq<DataFile<E>>)
    ensures |Filenames(s)| == |s|
    ensures forall i :: 0 <= i < |s| ==> Filenames(s)[i] == s[i].filename
  {
    if |s| > 0 {
      FilenamesAt(s[1..]);
    }
  }

  /** Inserting a record adds exactly its file name to the names of the records. */
  lemma {:induction false} InsertByCycleFilenames<E>(f: DataFile<E>, s: seq<DataFile<E>>)
    ensures multiset(Filenames(InsertByCycle(f, s))) == multiset(Filenames(s)) + multiset{f.filename}
  {
    if |s| > 0 && f.cycle > s[0].cycle {
      var rest := InsertByCycle(f, s[1..]);
      InsertByCycleFilenames(f, s[1..]);
      FilenamesCons(s[0], rest);
      assert InsertByCycle(f, s) == [s[0]] + rest;
      assert multiset(Filenames(rest)) == multiset(Filenames(s[1..])) + multiset{f.filename};
      assert Filenames(s) == [s[0].filename] + Filenames(s[1..]);
    } else if |s| > 0 {
      FilenamesCons(f, s);
      assert InsertByCycle(f, s) == [f] + s;
    }
  }

  /** The names of a record followed by others. */
  lemma FilenamesCons<E>(x: DataFile<E>, r: seq<DataFile<E>>)
    ensures Filenames([x] + r) == [x.filename] + Filenames(r)
  {
    assert ([x] + r)[1..] == r;
  }

  /** Sorting keeps the file names: none is lost, added or duplicated. */
  lemma {:induction false} SortByCycleFilenames<E>(s: seq<DataFile<E>>)
    ensures multiset(Filenames(SortByCycle(s))) == multiset(Filenames(s))
  {
    if |s| > 0 {
      SortByCycleFilenames(s[1..]);
      InsertByCycleFilenames(s[0], SortByCycle(s[1..]));
    }
  }
}

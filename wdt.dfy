/**
 * `SerpentRun`: the output files of one Serpent simulation run, read from one
 * directory, kept sorted by cycle number and tagged with the run's parameters.
 *
 * The file system is not modelled: whether the folder exists, its absolute
 * path and its listing are inputs, and parsing one output file is the
 * function `parse`, applied to the file's full path.
 */
module Wdt {
  import opened Wrappers
  import opened PyStr
  import opened PyObjects
  import opened DataFiles

  // ---------------------------------------------------------------------------
  // Errors

  /** The assertions `__init__` can fail. */
  datatype InitError = FolderMissing | NoMFiles | ParamsNotTuples
  {
    /** The message of the `AssertionError` raised. */
    function Message(): string
    {
      match this
      case FolderMissing => "Folder does not exist"
      case NoMFiles => "No .m files in that location"
      case ParamsNotTuples => "Parameters must be tuples"
    }
  }

  /** Why `get_error` can fail on a record: the quantity is unknown, or the group index is past its end. */
  datatype LookupError = UnknownLabel(quantity: string) | IndexOutOfRange(index: nat)

  /** `__str__` fails when a parameter tuple has fewer than two items. */
  datatype StrError = TupleIndexOutOfRange

  // ---------------------------------------------------------------------------
  // Ingesting the directory

  /** The test `x[-2:] == '.m'` on a directory entry. */
  predicate IsMFile(name: string)
    ensures IsMFile(name) <==> |name| >= 2 && name[|name| - 2] == '.' && name[|name| - 1] == 'm'
  {
    SliceFromEnd(name, 2) == ".m"
  }

  /** The entries of a listing that are `.m` files, in listing order. */
  function MFiles(listing: seq<string>): (kept: seq<string>)
    ensures |kept| <= |listing|
    ensures forall x :: x in kept <==> x in listing && IsMFile(x)
    ensures forall x :: multiset(kept)[x] == if IsMFile(x) then multiset(listing)[x] else 0
  {
    if |listing| == 0 then []
    else
      var last := listing[|listing| - 1];
      assert listing == listing[..|listing| - 1] + [last];
      MFiles(listing[..|listing| - 1]) + (if IsMFile(last) then [last] else [])
  }

  /** The path the parser is given for a directory entry. */
  function FilePath(loc: string, name: string): string
  {
    loc + "/" + name
  }

  /** One parsed record per name, in the order of the names. */
  function Ingest<E>(loc: string, names: seq<string>, parse: string -> DataFile<E>): seq<DataFile<E>>
  {
    seq(|names|, i requires 0 <= i < |names| => parse(FilePath(loc, names[i])))
  }

  // ---------------------------------------------------------------------------
  // Parameters

  /** Anything but a list becomes a one-element list; a list is kept as it is. */
  function Normalise(params: PyObj): seq<PyObj>
  {
    if params.List? then params.items else [params]
  }

  /** The check on the normalised parameters: an empty list, or every element a tuple. */
  predicate ParamsAccepted(ps: seq<PyObj>)
    ensures ParamsAccepted(ps) <==> forall i :: 0 <= i < |ps| ==> ps[i].Tuple?
  {
    |ps| == 0 || forall x :: x in ps ==> x.Tuple?
  }

  // ---------------------------------------------------------------------------
  // Construction

  /** The attributes of a constructed run. */
  datatype RunState<E> = RunState(
    files: seq<DataFile<E>>,
    n: int,
    cycles: seq<int>,
    params: seq<PyObj>,
    loc: string)

  /** What every successfully constructed run satisfies. */
  ghost predicate ValidState<E>(st: RunState<E>)
  {
    && st.n == |st.files|
    && st.n > 0
    && SortedByCycle(st.files)
    && st.cycles == []
    && ParamsAccepted(st.params)
  }

  /**
   * The outcome of `SerpentRun(directory, params)`: the checks in the order
   * `__init__` makes them, and on success the attributes it sets.
   */
  function Construct<E>(folderExists: bool, absLoc: string, listing: seq<string>,
                        params: PyObj, parse: string -> DataFile<E>): Result<RunState<E>, InitError>
  {
    if !folderExists then Failure(FolderMissing)
    else
      var files := SortByCycle(Ingest(absLoc, MFiles(listing), parse));
      if |files| == 0 then Failure(NoMFiles)
      else
        var ps := Normalise(params);
        if !ParamsAccepted(ps) then Failure(ParamsNotTuples)
        else Success(RunState(files, |files|, [], ps, absLoc))
  }

  /** Which check fails, if any: each error case exactly when its condition holds. */
  lemma ConstructOutcome<E>(folderExists: bool, absLoc: string, listing: seq<string>,
                            params: PyObj, parse: string -> DataFile<E>)
    ensures Construct(folderExists, absLoc, listing, params, parse) == Failure(FolderMissing)
            <==> !folderExists
    ensures Construct(folderExists, absLoc, listing, params, parse) == Failure(NoMFiles)
            <==> folderExists && forall i :: 0 <= i < |listing| ==> !IsMFile(listing[i])
    ensures Construct(folderExists, absLoc, listing, params, parse) == Failure(ParamsNotTuples)
            <==> && folderExists
                 && (exists i :: 0 <= i < |listing| && IsMFile(listing[i]))
                 && !ParamsAccepted(Normalise(params))
    ensures Construct(folderExists, absLoc, listing, params, parse).Success?
            <==> && folderExists
                 && (exists i :: 0 <= i < |listing| && IsMFile(listing[i]))
                 && ParamsAccepted(Normalise(params))
  {
  }

  /** A constructed run's files: sorted by cycle, and exactly the parsed `.m` entries. */
  lemma ConstructFiles<E>(folderExists: bool, absLoc: string, listing: seq<string>,
                          params: PyObj, parse: string -> DataFile<E>)
    ensures Construct(folderExists, absLoc, listing, params, parse).Success? ==>
            var files := Construct(folderExists, absLoc, listing, params, parse).value.files;
            && SortedByCycle(files)
            && |files| == |MFiles(listing)|
            && multiset(files) == multiset(Ingest(absLoc, MFiles(listing), parse))
  {
    var raw := Ingest(absLoc, MFiles(listing), parse);
    SortByCycleSorted(raw);
    SortByCyclePermutation(raw);
  }

  /** A constructed run's other attributes: nothing else is derived from the files. */
  lemma ConstructAttributes<E>(folderExists: bool, absLoc: string, listing: seq<string>,
                               params: PyObj, parse: string -> DataFile<E>)
    ensures Construct(folderExists, absLoc, listing, params, parse).Success? ==>
            var st := Construct(folderExists, absLoc, listing, params, parse).value;
            && ValidState(st)
            && st.n == |st.files|
            && st.cycles == []
            && st.params == Normalise(params)
            && st.loc == absLoc
  {
    ConstructFiles(folderExists, absLoc, listing, params, parse);
  }

  /** The full paths of the kept names, in order. */
  function Paths(loc: string, names: seq<string>): seq<string>
  {
    seq(|names|, i requires 0 <= i < |names| => FilePath(loc, names[i]))
  }

  /**
   * With a parser that records the path it was given as the file name, the run's
   * file names are exactly the paths of the listed `.m` entries.
   */
  lemma ConstructFilenames<E>(folderExists: bool, absLoc: string, listing: seq<string>,
                              params: PyObj, parse: string -> DataFile<E>)
    requires forall p :: parse(p).filename == p
    ensures Construct(folderExists, absLoc, listing, params, parse).Success? ==>
            multiset(Filenames(Construct(folderExists, absLoc, listing, params, parse).value.files))
            == multiset(Paths(absLoc, MFiles(listing)))
  {
    if Construct(folderExists, absLoc, listing, params, parse).Success? {
      var kept := MFiles(listing);
      var raw := Ingest(absLoc, kept, parse);
      assert Construct(folderExists, absLoc, listing, params, parse).value.files == SortByCycle(raw);
      SortByCycleFilenames(raw);
      FilenamesAt(raw);
      forall i | 0 <= i < |raw|
        ensures Filenames(raw)[i] == Paths(absLoc, kept)[i]
      {
        assert raw[i] == parse(FilePath(absLoc, kept[i]));
      }
      assert Filenames(raw) == Paths(absLoc, kept);
    }
  }

  /** How `params` is normalised and checked, for each kind of argument. */
  lemma ParamsNormalisation(params: PyObj)
    ensures !params.List? ==> Normalise(params) == [params]
    ensures !params.List? ==> (ParamsAccepted(Normalise(params)) <==> params.Tuple?)
    ensures params.List? ==> Normalise(params) == params.items
    ensures params == List([]) ==> ParamsAccepted(Normalise(params))
    ensures params.List? ==>
              (ParamsAccepted(Normalise(params)) <==> forall i :: 0 <= i < |params.items| ==> params.items[i].Tuple?)
  {
  }

  /** The cases the test suite exercises: a plain value or a dict is wrapped and refused, a lone tuple is wrapped and kept. */
  lemma ParamsExamples()
    ensures Normalise(Int(1)) == [Int(1)] && !ParamsAccepted(Normalise(Int(1)))
    ensures Normalise(Tuple([Int(1), Int(1)])) == [Tuple([Int(1), Int(1)])]
    ensures ParamsAccepted(Normalise(Tuple([Int(1), Int(1)])))
    ensures !ParamsAccepted(Normalise(Dict([(Str("param"), Int(1))])))
    ensures ParamsAccepted(Normalise(List([Tuple([Str("param"), Int(1)])])))
    ensures !ParamsAccepted(Normalise(List([Tuple([Str("param"), Int(1)]), Int(2)])))
  {
    assert Normalise(Int(1))[0] == Int(1);
    assert Normalise(Dict([(Str("param"), Int(1))]))[0] == Dict([(Str("param"), Int(1))]);
    assert Normalise(List([Tuple([Str("param"), Int(1)]), Int(2)]))[1] == Int(2);
  }

  /** Which directory entries count as `.m` files: names shorter than two characters never do. */
  lemma IsMFileExamples()
    ensures IsMFile("res_10.m") && IsMFile(".m")
    ensures !IsMFile("notes.txt") && !IsMFile("res.mat") && !IsMFile("m") && !IsMFile("")
  {
  }

  // ---------------------------------------------------------------------------
  // get_error

  /** `quantity` is known to `f` and has an entry at 0-based `index`. */
  predicate HasEntry<E>(f: DataFile<E>, quantity: string, index: nat)
  {
    quantity in f.errors && index < |f.errors[quantity]|
  }

  /** The error raised when looking up `quantity` at `index` in a record lacking that entry. */
  function LookupFailure<E>(f: DataFile<E>, quantity: string, index: nat): LookupError
  {
    if quantity !in f.errors then UnknownLabel(quantity) else IndexOutOfRange(index)
  }

  /**
   * The 0-based entry `index` of `quantity` in every record, in stored order; the
   * first record without it decides the error.
   */
  function ErrorColumn<E>(files: seq<DataFile<E>>, quantity: string, index: nat): (r: Result<seq<E>, LookupError>)
    ensures r.Success? <==> forall i :: 0 <= i < |files| ==> HasEntry(files[i], quantity, index)
    ensures r.Success? ==> |r.value| == |files|
    ensures r.Success? ==> forall i :: 0 <= i < |files| ==> r.value[i] == files[i].errors[quantity][index]
    ensures r.Failure? ==>
              exists i :: && 0 <= i < |files|
                          && !HasEntry(files[i], quantity, index)
                          && (forall j :: 0 <= j < i ==> HasEntry(files[j], quantity, index))
                          && r.error == LookupFailure(files[i], quantity, index)
  {
    if |files| == 0 then Success([])
    else if !HasEntry(files[0], quantity, index) then Failure(LookupFailure(files[0], quantity, index))
    else
      match ErrorColumn(files[1..], quantity, index)
      case Failure(e) => Failure(e)
      case Success(rest) => Success([files[0].errors[quantity][index]] + rest)
  }

  // ---------------------------------------------------------------------------
  // __str__

  /** Every parameter tuple has the two items `__str__` reads. */
  predicate Printable(ps: seq<PyObj>)
    requires ParamsAccepted(ps)
  {
    forall i :: 0 <= i < |ps| ==> |ps[i].items| >= 2
  }

  /** The first two lines of the summary. */
  function Header(n: nat, loc: string): string
  {
    DecimalString(n) + " .m files uploaded from: " + loc + "\n" + "Parameters:\n"
  }

  /** The line of one parameter, `str` of its name and value being `show`. */
  function ParamLine(t: PyObj, show: PyObj -> string): string
    requires t.Tuple? && |t.items| >= 2
  {
    "\t" + show(t.items[0]) + ":\t" + show(t.items[1]) + "\n"
  }

  /** The lines of all parameters, in order. */
  function ParamLines(ps: seq<PyObj>, show: PyObj -> string): string
    requires ParamsAccepted(ps) && Printable(ps)
  {
    if |ps| == 0 then ""
    else ParamLines(ps[..|ps| - 1], show) + ParamLine(ps[|ps| - 1], show)
  }

  /** What `__str__` returns: the header and parameter lines without the last character. */
  function Summary(n: nat, loc: string, ps: seq<PyObj>, show: PyObj -> string): Result<string, StrError>
    requires ParamsAccepted(ps)
  {
    if !Printable(ps) then Failure(TupleIndexOutOfRange)
    else
      var full := Header(n, loc) + ParamLines(ps, show);
      Success(full[..|full| - 1])
  }

  /** The character `__str__` drops is always the newline ending the last line. */
  lemma SummaryDropsNewline(n: nat, loc: string, ps: seq<PyObj>, show: PyObj -> string)
    requires ParamsAccepted(ps)
    requires Summary(n, loc, ps, show).Success?
    ensures Summary(n, loc, ps, show).value + "\n" == Header(n, loc) + ParamLines(ps, show)
  {
  }

  /** Without parameters, the summary is the header without its final newline. */
  lemma SummaryNoParams(n: nat, loc: string, show: PyObj -> string)
    ensures Summary(n, loc, [], show)
            == Success(DecimalString(n) + " .m files uploaded from: " + loc + "\nParameters:")
  {
    var full := Header(n, loc) + ParamLines([], show);
    assert full == DecimalString(n) + " .m files uploaded from: " + loc + "\nParameters:" + "\n";
  }

  /** Each parameter line adds exactly one newline, provided its name and value hold none. */
  lemma {:induction false} ParamLinesNewlines(ps: seq<PyObj>, show: PyObj -> string)
    requires ParamsAccepted(ps) && Printable(ps)
    requires forall i :: 0 <= i < |ps| ==> '\n' !in show(ps[i].items[0]) && '\n' !in show(ps[i].items[1])
    ensures CountChar(ParamLines(ps, show), '\n') == |ps|
  {
    if |ps| > 0 {
      var init, t := ps[..|ps| - 1], ps[|ps| - 1];
      ParamLinesNewlines(init, show);
      var a, b := show(t.items[0]), show(t.items[1]);
      CountCharAppend(ParamLines(init, show), ParamLine(t, show), '\n');
      CountCharAppend("\t" + a + ":\t" + b, "\n", '\n');
      CountCharAppend("\t" + a + ":\t", b, '\n');
      CountCharAppend("\t" + a, ":\t", '\n');
      CountCharAppend("\t", a, '\n');
    }
  }

  /** The header holds exactly two newlines when the location holds none. */
  lemma HeaderNewlines(n: nat, loc: string)
    requires '\n' !in loc
    ensures CountChar(Header(n, loc), '\n') == 2
  {
    var d := DecimalString(n);
    var a := " .m files uploaded from: ";
    var p := "Parameters:";
    assert '\n' !in d && '\n' !in a && '\n' !in p;
    CountCharAppend(d, a, '\n');
    CountCharAppend(d + a, loc, '\n');
    CountCharAppend(d + a + loc, "\n", '\n');
    CountCharAppend(p, "\n", '\n');
    assert p + "\n" == "Parameters:\n";
    CountCharAppend(d + a + loc + "\n", p + "\n", '\n');
  }

  /** With no newline in the location, names or values, the summary has exactly `1 + |ps|` newlines. */
  lemma SummaryNewlines(n: nat, loc: string, ps: seq<PyObj>, show: PyObj -> string)
    requires ParamsAccepted(ps)
    requires Summary(n, loc, ps, show).Success?
    requires '\n' !in loc
    requires forall i :: 0 <= i < |ps| ==> '\n' !in show(ps[i].items[0]) && '\n' !in show(ps[i].items[1])
    ensures CountChar(Summary(n, loc, ps, show).value, '\n') == 1 + |ps|
  {
    var r := Summary(n, loc, ps, show).value;
    SummaryDropsNewline(n, loc, ps, show);
    HeaderNewlines(n, loc);
    ParamLinesNewlines(ps, show);
    CountCharAppend(Header(n, loc), ParamLines(ps, show), '\n');
    CountCharAppend(r, "\n", '\n');
  }

  /**
   * Construction only checks that each parameter is a tuple, while `__str__`
   * reads two items of each: a run built with a one-item tuple cannot be printed.
   */
  lemma OneItemTupleAcceptedButUnprintable<E>(absLoc: string, parse: string -> DataFile<E>, show: PyObj -> string)
    ensures var r := Construct(true, absLoc, ["res_10.m"], Tuple([Str("param")]), parse);
            && r.Success?
            && r.value.n == 1
            && r.value.params == [Tuple([Str("param")])]
            && Summary(1, r.value.loc, r.value.params, show) == Failure(TupleIndexOutOfRange)
  {
    assert IsMFile("res_10.m");
    assert ["res_10.m"][..0] == [];
    assert MFiles(["res_10.m"]) == ["res_10.m"];
    var raw := Ingest(absLoc, ["res_10.m"], parse);
    SortByCyclePermutation(raw);
    assert Normalise(Tuple([Str("param")])) == [Tuple([Str("param")])];
  }

  // ---------------------------------------------------------------------------
  // The run object

  /** A Serpent run: the object whose attributes `__init__` assigns. */
  class SerpentRun<E> {
    var files: seq<DataFile<E>>
    var n: int
    var cycles: seq<int>
    var params: seq<PyObj>
    var loc: string

    /** The run's attributes as a value. */
    function State(): RunState<E>
      reads this
    {
      RunState(files, n, cycles, params, loc)
    }

    ghost predicate Valid()
      reads this
    {
      ValidState(State())
    }

    /** The object before `__init__` has run. */
    constructor Blank()
      ensures files == [] && n == 0 && cycles == [] && params == [] && loc == ""
    {
      files, n, cycles, params, loc := [], 0, [], [], "";
    }

    /**
     * `__init__(directory, params)`: the folder check, the ingest loop over the
     * `.m` entries, the sort, and the attribute assignments with their checks.
     * On failure the error is that of `Construct`; on success so is every attribute.
     */
    method Init(folderExists: bool, absLoc: string, listing: seq<string>,
                params0: PyObj, parse: string -> DataFile<E>) returns (outcome: Outcome<InitError>)
      modifies this
      ensures Construct(folderExists, absLoc, listing, params0, parse).Failure? ==>
                outcome == Fail(Construct(folderExists, absLoc, listing, params0, parse).error)
      ensures Construct(folderExists, absLoc, listing, params0, parse).Success? ==>
                && outcome == Pass
                && State() == Construct(folderExists, absLoc, listing, params0, parse).value
                && Valid()
    {
      if !folderExists {
        return Fail(FolderMissing);
      }
      IngestFiles(absLoc, MFiles(listing), parse);
      SortFiles();
      ghost var sorted := files;
      n := |files|;
      if n <= 0 {
        assert Construct(folderExists, absLoc, listing, params0, parse) == Failure(NoMFiles);
        return Fail(NoMFiles);
      }
      cycles := [];
      var ps := if params0.List? then params0.items else [params0];
      assert ps == Normalise(params0);
      if |ps| > 0 && !(forall x | x in ps :: x.Tuple?) {
        assert !ParamsAccepted(ps);
        assert Construct(folderExists, absLoc, listing, params0, parse) == Failure(ParamsNotTuples);
        return Fail(ParamsNotTuples);
      }
      params := ps;
      loc := absLoc;
      outcome := Pass;
      assert ParamsAccepted(ps);
      assert Construct(folderExists, absLoc, listing, params0, parse) == Success(RunState(sorted, |sorted|, [], ps, absLoc));
      ConstructAttributes(folderExists, absLoc, listing, params0, parse);
    }

    /** `self.files = []` and the loop appending one parsed record per kept name. */
    method IngestFiles(absLoc: string, kept: seq<string>, parse: string -> DataFile<E>)
      modifies this
      ensures files == Ingest(absLoc, kept, parse)
      ensures n == old(n) && cycles == old(cycles) && params == old(params) && loc == old(loc)
    {
      files := [];
      for i := 0 to |kept|
        invariant |files| == i
        invariant forall j :: 0 <= j < i ==> files[j] == parse(FilePath(absLoc, kept[j]))
        invariant n == old(n) && cycles == old(cycles) && params == old(params) && loc == old(loc)
      {
        files := files + [parse(FilePath(absLoc, kept[i]))];
      }
    }

    /** `self.files.sort()`: the files in cycle order, nothing else touched. */
    method SortFiles()
      modifies this
      ensures files == SortByCycle(old(files))
      ensures n == old(n) && cycles == old(cycles) && params == old(params) && loc == old(loc)
    {
      files := SortByCycle(files);
    }

    /**
     * `SerpentRun(directory, params)`: a fresh run on success, the failed
     * assertion otherwise.
     */
    static method Load(folderExists: bool, absLoc: string, listing: seq<string>,
                       params: PyObj, parse: string -> DataFile<E>) returns (r: Result<SerpentRun<E>, InitError>)
      ensures r.Failure? <==> Construct(folderExists, absLoc, listing, params, parse).Failure?
      ensures r.Failure? ==> r.error == Construct(folderExists, absLoc, listing, params, parse).error
      ensures r.Success? ==>
                && fresh(r.value)
                && r.value.Valid()
                && r.value.State() == Construct(folderExists, absLoc, listing, params, parse).value
    {
      var run := new SerpentRun.Blank();
      var outcome := run.Init(folderExists, absLoc, listing, params, parse);
      if outcome.Fail? {
        r := Failure(outcome.error);
      } else {
        r := Success(run);
      }
    }

    /**
     * `get_error(quantity, grp)`: the error of group `grp` (1-based) of
     * `quantity` in every file, in stored (cycle) order.
     */
    function GetError(quantity: string, grp: int): (r: Result<seq<E>, LookupError>)
      reads this
      requires grp >= 1
      ensures r.Success? <==>
                forall i :: 0 <= i < |files| ==> quantity in files[i].errors && grp <= |files[i].errors[quantity]|
      ensures r.Success? ==> |r.value| == |files|
      ensures r.Success? ==> forall i :: 0 <= i < |files| ==> r.value[i] == files[i].errors[quantity][grp - 1]
      ensures r.Success? && Valid() ==> |r.value| == n
      ensures r.Failure? ==> r.error == UnknownLabel(quantity) || r.error == IndexOutOfRange(grp - 1)
    {
      ErrorColumn(files, quantity, grp - 1)
    }

    /** `__str__`: the header line, the parameter lines, the final character dropped. */
    method ToString(show: PyObj -> string) returns (r: Result<string, StrError>)
      requires Valid()
      ensures r == Summary(n, loc, params, show)
    {
      var s := DecimalString(n) + " .m files uploaded from: " + loc + "\n" + "Parameters:\n";
      for i := 0 to |params|
        invariant forall j :: 0 <= j < i ==> |params[j].items| >= 2
        invariant s == Header(n, loc) + ParamLines(params[..i], show)
      {
        var tup := params[i];
        if |tup.items| < 2 {
          return Failure(TupleIndexOutOfRange);
        }
        assert params[..i + 1][..i] == params[..i];
        s := s + "\t" + show(tup.items[0]) + ":\t" + show(tup.items[1]) + "\n";
      }
      assert params[..|params|] == params;
      return Success(s[..|s| - 1]);
    }
  }
}

# SerpentRun: one Serpent run's output files, in Dafny

This project models `SerpentRun` from the WDT_Analysis tools. These tools run
figure-of-merit studies of the weighted delta-tracking method on Serpent
Monte Carlo output. A `SerpentRun` gathers the `.m` result files of a single
simulation run from one directory. It keeps them sorted by cycle number and
records the run's parameters. It offers two things:

- `get_error`: the series of one output quantity's error for a given energy
  group, with one value per file.
- `__str__`: a text summary of the run.

The model has five modules:

- `Wrappers` (`wrappers.dfy`): `Result` and `Outcome`. These stand for the
  values the Python code returns and the exceptions it raises.
- `PyStr` (`pystr.dfy`): the parts of Python string behaviour the class uses.
  These are `str(n)` for a count, the slice `x[-2:]`, and a character count
  used to state the summary's line structure.
- `PyObjects` (`pyobj.dfy`): the Python values a caller may pass as `params`.
- `DataFiles` (`datafile.dfy`): a parsed output file, kept abstract. It has a
  file name, a cycle number and, for each output label, a sequence of
  per-group errors. The module also holds a stable sort by cycle number, which
  stands for `list.sort()` on the records.
- `Wdt` (`wdt.dfy`): the class itself.
  - `Construct` is a pure specification of `__init__`.
  - `ErrorColumn` is the specification of `get_error`, and `Summary` is the
    specification of `__str__`.
  - The class `SerpentRun` has the source's fields.
  - `Init` runs the ingest loop, the in-place sort and the field assignments,
    and is proved equal to `Construct`.
  - `ToString` builds the summary in a loop and is proved equal to `Summary`.
  - `GetError` turns the 1-based group number into a 0-based index.

The environment is turned into parameters:

- whether the folder exists is a boolean;
- the absolute path (`os.path.abspath(os.path.expanduser(directory))`) is a string;
- `os.listdir` is a sequence of names;
- `core.DataFile(path)` is a function `parse` applied to `loc + "/" + name`;
- Python's `str()` of a parameter's name and value is a function `show`.

Error values have a generic type `E`. They are only carried and indexed, never
combined, so no floating point appears.

Where the test suite and `analysis/wdt.py` disagree, the model follows the code:

- `tests/wdt_tests.py:79-81` expects `cycles` to hold the cycle numbers. The
  code sets it to the empty list, and so does the model: `ConstructAttributes`
  proves `cycles == []`.
- `tests/wdt_tests.py:91` passes a dict as `params`. The code wraps it in a
  list and then rejects it (`ParamsExamples`).
- `tests/wdt_tests.py:77` expects the tuple `(1,1)` to be refused. The code
  wraps it and accepts it (`ParamsExamples`). That line's failure is never
  reached anyway, because line 76 fails first.

The construction check and `__str__` do not agree on what a parameter must
be. Construction only asks that each parameter be a tuple. `__str__` reads two
items from each one. So a run built with a one-item tuple constructs fine, but
it cannot be printed (`OneItemTupleAcceptedButUnprintable`).

## Model

| member | source | states |
|---|---|---|
| `PyStr.DecimalString` | analysis/wdt.py:70 | `str(n)` of a count is a non-empty string of decimal digits; a leading `0` appears only in `"0"` itself, so the string is exactly Python's `str(n)` |
| `PyStr.DecimalRoundTrip` | analysis/wdt.py:70 | reading the digits of `str(n)` back gives `n` |
| `PyStr.SliceFromEnd` | analysis/wdt.py:40 | Python's `x[-k:]`: the last `k` characters, or the whole string when it is shorter than `k` |
| `Wdt.IsMFile` | analysis/wdt.py:40 | `x[-2:] == '.m'` holds exactly when the name has at least two characters and ends in `.` then `m` |
| `Wdt.IsMFileExamples` | analysis/wdt.py:40 | `res_10.m` and `.m` are kept; `notes.txt`, `res.mat`, `m` and the empty name are not |
| `Wdt.MFiles` | analysis/wdt.py:40 | the kept names are exactly the listed `.m` names, each as many times as it is listed, and no other name |
| `Wdt.FilePath` | analysis/wdt.py:42-43 | no contract of its own: the path `loc + '/' + name` handed to the parser; used by `Ingest`, `Paths` and `ConstructFiles` |
| `Wdt.Ingest` | analysis/wdt.py:40-43 | no contract of its own: one parsed record per kept name, in order; specified through `ConstructFiles` and `SerpentRun.IngestFiles` |
| `Wdt.Paths` | analysis/wdt.py:42-43 | no contract of its own: the paths `loc + '/' + name` of the kept names, in order; the reference list that `ConstructFilenames` compares the run's file names against |
| `DataFiles.InsertByCycle` | analysis/wdt.py:46 | inserting a record adds exactly that record to the multiset of records |
| `DataFiles.InsertByCycleSorted` | analysis/wdt.py:46 | inserting into cycle-sorted records keeps them sorted |
| `DataFiles.SortByCycle` | analysis/wdt.py:46 | no contract of its own: the stable sort by cycle standing for `self.files.sort()`; specified by `SortByCycleSorted`, `SortByCyclePermutation`, `SortByCycleKeepsSorted` and `SortByCycleFilenames` |
| `DataFiles.SortByCycleSorted` | analysis/wdt.py:46 | after the sort, the files are ascending by cycle number |
| `DataFiles.SortByCyclePermutation` | analysis/wdt.py:46 | the sort is a permutation: same length and same multiset of records |
| `DataFiles.SortByCycleKeepsSorted` | analysis/wdt.py:46 | files already in cycle order are left exactly as they are |
| `DataFiles.Filenames` | tests/wdt_tests.py:61-64 | no contract of its own: the `filename` of each record, in order; specified by `FilenamesAt` |
| `DataFiles.FilenamesAt` | tests/wdt_tests.py:61-64 | there is one name per record, and entry `i` is the file name of record `i` |
| `DataFiles.InsertByCycleFilenames` | analysis/wdt.py:46 | inserting a record adds exactly its file name to the multiset of names |
| `DataFiles.SortByCycleFilenames` | analysis/wdt.py:46 | sorting keeps the multiset of file names |
| `Wdt.ParamsAccepted` | analysis/wdt.py:58-60 | the check accepts normalised parameters exactly when every element is a tuple; the `len` guard adds nothing, so the empty list is accepted |
| `Wdt.Normalise` | analysis/wdt.py:57 | no contract of its own: a non-list becomes a one-element list, and a list is kept; specified by `ParamsNormalisation` and `ParamsExamples` |
| `Wdt.ParamsNormalisation` | analysis/wdt.py:57-61 | a non-list is wrapped into a one-element list and is then accepted exactly when it is a tuple; a list is kept as given and accepted exactly when all its elements are tuples; `[]` is accepted |
| `Wdt.ParamsExamples` | analysis/wdt.py:57-61 | `params=1` and a dict are wrapped and refused; a lone tuple `(1,1)` is wrapped and accepted; a list with a non-tuple element is refused |
| `Wdt.Construct` | analysis/wdt.py:31-64 | no contract of its own: the three checks in source order and the attributes `__init__` sets; specified by `ConstructOutcome`, `ConstructFiles`, `ConstructAttributes` and `ConstructFilenames` |
| `Wdt.InitError.Message` | analysis/wdt.py:34-60 | no contract of its own: the `AssertionError` message of each construction failure, word for word |
| `Wdt.ConstructOutcome` | analysis/wdt.py:33-61 | construction fails with "Folder does not exist" exactly when the folder is missing, whatever else is given; with "No .m files" exactly when it exists but no listed name is a `.m` file; with "Parameters must be tuples" exactly when both checks pass but the normalised params hold a non-tuple; it succeeds exactly when all three checks pass |
| `Wdt.ConstructFiles` | analysis/wdt.py:37-46 | on success `files` is sorted by cycle, has one record per kept name and is a permutation of the records parsed from `loc + "/" + name` |
| `Wdt.ConstructAttributes` | analysis/wdt.py:50-64 | on success `n` is the number of files and is positive; `cycles` is empty; `params` is the normalised argument, all tuples; `loc` is the absolute location; the run invariant holds |
| `Wdt.ConstructFilenames` | tests/wdt_tests.py:61-64 | when the parser records the path it is given as the file name, a constructed run's file names are exactly the paths `loc + '/' + name` of the listed `.m` names, each once per listing |
| `Wdt.OneItemTupleAcceptedButUnprintable` | analysis/wdt.py:57-61 | a run whose only parameter is a one-item tuple is constructed, but its summary fails with an index error |
| `Wdt.ErrorColumn` | analysis/wdt.py:89-90 | the column exists exactly when every record has the label and the index; it then has one entry per record, and entry `i` is the error at that index of record `i`; otherwise the error is that of the first record lacking the entry |
| `Wdt.SerpentRun.GetError` | analysis/wdt.py:76-90 | for `grp >= 1`, the result exists exactly when every file has `grp` or more groups for the label; it then has length `n`, and element `i` is the error at 0-based position `grp - 1` of `files[i]`, in stored order; otherwise it is an unknown-label or index error |
| `Wdt.Summary` | analysis/wdt.py:68-74 | no contract of its own: the header plus the parameter lines with the last character cut, or an IndexError when some tuple has fewer than two items; specified by `SerpentRun.ToString`, `SummaryDropsNewline`, `SummaryNoParams` and `SummaryNewlines` |
| `Wdt.SummaryDropsNewline` | analysis/wdt.py:74 | the character removed by `[:-1]` is always the trailing newline: summary + `"\n"` is the header followed by the parameter lines |
| `Wdt.SummaryNoParams` | analysis/wdt.py:70-74 | without parameters the summary is `"<n> .m files uploaded from: <loc>\nParameters:"` |
| `Wdt.Header` | analysis/wdt.py:70-71 | no contract of its own: `"<n> .m files uploaded from: <loc>\nParameters:\n"`; specified by `HeaderNewlines`, `SummaryNoParams` and `SummaryDropsNewline` |
| `Wdt.ParamLine` | analysis/wdt.py:73 | no contract of its own: `"\t<name>:\t<value>\n"` for one parameter tuple; specified by `ParamLinesNewlines` |
| `Wdt.ParamLines` | analysis/wdt.py:72-73 | no contract of its own: the parameter lines in order; specified by `ParamLinesNewlines` and `SummaryDropsNewline` |
| `Wdt.HeaderNewlines` | analysis/wdt.py:70-71 | if the location has no newline, the header has exactly two newlines |
| `Wdt.ParamLinesNewlines` | analysis/wdt.py:72-73 | each parameter line adds exactly one newline when its name and value contain none |
| `Wdt.SummaryNewlines` | analysis/wdt.py:68-74 | if the location, names and values have no newline, the summary has exactly one newline more than there are parameters |
| `Wdt.SerpentRun.Blank` | analysis/wdt.py:31 | the object before `__init__` has run: every attribute empty or zero |
| `Wdt.SerpentRun.IngestFiles` | analysis/wdt.py:37-43 | `files` becomes one parsed record per kept name, in listing order; no other field changes |
| `Wdt.SerpentRun.SortFiles` | analysis/wdt.py:46 | `files` becomes the cycle-sorted files; no other field changes |
| `Wdt.SerpentRun.Init` | analysis/wdt.py:31-64 | `__init__` fails with exactly the error `Construct` gives; on success every field equals `Construct`'s state and the run invariant holds |
| `Wdt.SerpentRun.Load` | analysis/wdt.py:31-64 | `SerpentRun(...)` fails exactly when `Construct` fails, with the same error; otherwise it returns a fresh run whose state is `Construct`'s |
| `Wdt.SerpentRun.ToString` | analysis/wdt.py:68-74 | the loop-built string of a constructed run is exactly `Summary` of its `n`, `loc` and `params` |

## Left out

- File system and console I/O are not modelled. This covers `os.path.abspath`,
  `os.path.expanduser`, `os.path.exists`, `os.listdir`, the `print` calls and
  the `verb` flag. Existence, the absolute path and the listing are inputs.
  A path that exists but is not a directory (so that `os.listdir` raises) is
  not modelled.
- `core.DataFile` parsing and its ordering protocol are not modelled;
  `analysis/core.py` is not part of this model. A record is opaque and parsing
  cannot fail. Records are ordered by cycle number, as `tests/wdt_tests.py:66-70`
  requires.
- `SortByCycle`: it keeps records with equal cycles in listing order, as the
  stable `list.sort()` does. What `DataFile`'s comparison does with equal
  cycles is unknown, so no contract states an order among ties.
- `Wdt.SerpentRun.GetError`: it requires `grp >= 1`, as the docstring asks.
  Python's negative indexing, where `grp = 0` picks the last group, is not
  modelled. The `np.array(...)` it returns becomes a plain sequence. The
  expression `get_data(label, err=True)[0]` is reduced to one map
  lookup: `errors[label]` stands for the whole expression, including its `[0]`
  step. What `get_data` returns before that `[0]`, and its error behaviour on
  an unknown label, are not known, so a missing label is modelled as an
  unknown-label failure.
- Python's `str()` of parameter names and values is the parameter `show`; its
  real formatting is not modelled.
- Only exact lists are unwrapped, and the model does not tell `list` subclasses
  or `tuple` subclasses apart from other values. `PyObj` has no such
  constructors.
- The FOM methods (`fom`, `fom_corr`, `fom_std`, `fom_std_corr`), `cyc_v_cpu`,
  `get_param`, `cpus`, `MultiRun`, `fom.Analyzer` and `core.ParamData` are not
  modelled. They appear only in the tests, and their code (`analysis/fom.py`,
  `analysis/core.py`) is not part of this model. They are also floating-point
  statistics.
- The shared mutable default `params = []` is not modelled. It is never
  mutated, so it has no observable effect.
- Aliasing of `params` is not modelled. When `params` is a list, `self.params = params`
  stores the caller's own list object. If the caller later changes that list
  (for example, appends a non-tuple), the run's parameters change too, and
  `str(run)` can then raise a `TypeError`. The model holds `params` as a value.
  So the run invariant `ValidState` (all parameters are tuples), which
  `ToString` requires, is only promised as of construction.
- Running Python with assertions disabled (`python -O`) is not modelled. The
  three construction failures are `assert` statements, and `-O` removes them.
  Then a missing folder fails inside `os.listdir` with a different error, an
  empty folder gives a run with `n == 0`, and non-tuple parameters are stored.
  `Construct` and `ConstructOutcome` describe the code with assertions enabled.

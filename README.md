# Batch digital objects and Handle batch files

A Dafny model of two ArchivesSpace batch scripts.

- `aspace_batch_dao.py` reads a tab file row by row. For each row it does four things:
  - builds a digital object from the metadata of the archival object the row names (title, first date, notes);
  - links the new digital object to the archival object by appending an instance;
  - for each file in the directory whose name contains the row's reference id (there may be none, one or several; every file matches an empty id), groups the image file names listed in it by base name, with a fresh dictionary per file;
  - emits one digital object component per base name, in order of first appearance.
- `handle_batch_text.py` writes a Handle System batch file. Each row of the tab file becomes a record group with four parts:
  - a `CREATE` line for the handle `<prefix>/<component id>`;
  - an `HS_ADMIN` line for that handle;
  - an `HS_SECKEY` line holding the password;
  - a `URL` line pointing at the component's IIIF viewer page, followed by an empty line.

Files:

- `text.dfy` (module `Text`) models the Python string operations the scripts rely on:
  - `in` on strings;
  - `str.index`;
  - `str.split` with a one-character separator;
  - `str.splitlines`;
  - the text left by writing lines each followed by a line break.

  Each operation is proved against its inverse or a declarative definition.
- `dao.dfy` (module `BatchDao`) models `aspace_batch_dao.py`:
  - The row and the digital object are functions that return `Result`. Each `sys.exit()` and each uncaught exception in the modelled lines becomes a `Failure`, except those listed under Left out.
  - The archival object is a class whose `instances` list is appended to in place.
  - The grouping is a method with a loop that updates a map (`files_dictionary`) and an order list (`keeping_track`). It is proved against a declarative specification: `Classify`, `FirstSeen` and `VersionsOf`.
- `handles.dfy` (module `HandleBatch`) models `handle_batch_text.py`:
  - The output file is a class whose `write_out` method appends a string.
  - The batch loop is a method proved against `BatchWrites`.
  - The shape of the file's text, read back line by line, is stated over `BatchLines`.

The model covers `aspace_batch_dao.py` and `handle_batch_text.py` as written. It has no filename normalisation, no undated-date fallback and no lookup tables.

## Model

| member | source | states |
|---|---|---|
| Text.Contains | aspace_batch_dao.py:64 | Python's `sub in s`: true exactly when `sub` occurs at some position of `s` |
| Text.IndexOf | aspace_batch_dao.py:105 | `s.index(c)`: None exactly when `c` is absent (where Python raises); otherwise the first position holding `c` |
| Text.Split | aspace_batch_dao.py:34 | `s.split(sep)`: one more field than there are separators; no field contains the separator; the first field is the text before the first separator, or all of `s` |
| Text.JoinSplit | aspace_batch_dao.py:34 | joining the fields of a split with the separator gives the string back |
| Text.SplitJoin | aspace_batch_dao.py:34 | splitting a join of separator-free fields gives the fields back |
| Text.SplitLines | handle_batch_text.py:88 | `s.splitlines()` with '\n' as the only line break: no line holds a line break; with SplitLinesTerminated, TerminatedSplitLines and SplitLinesUnterminated, the lines are exactly the text cut at its line breaks, a final line break opening no empty last line |
| Text.SplitLinesUnterminated | handle_batch_text.py:88 | a text whose last line has no line break is its lines, each followed by a line break, less the final one added |
| Text.SplitLinesTerminated | handle_batch_text.py:26-27 | reading back, line by line, a file written by `write_out` calls of newline-free strings gives those strings |
| Text.TerminatedSplitLines | handle_batch_text.py:88 | a text that is empty or ends in a line break is exactly its lines, each followed by a line break |
| BatchDao.IdRef | aspace_batch_dao.py:37-38 | the reference id is the aspace id with its first 7 characters removed (empty when the id is shorter) |
| BatchDao.ParseRow | aspace_batch_dao.py:34-37 | a row yields its fields exactly when it has at least three tabs; otherwise the row fails as `ShortRow` (`metadata[3]` raises) |
| BatchDao.ParseRowColumns | aspace_batch_dao.py:34-38 | a row of tab-free columns yields use note = column 3, dimensions note = "1 " + column 2, reference id from column 1 |
| BatchDao.DateExpression | aspace_batch_dao.py:64-67 | the expression starts with the begin date; it is the begin date exactly when the end date occurs in it, otherwise begin + "-" + end |
| BatchDao.DateExpressionCollapses | aspace_batch_dao.py:64-65 | an empty end date, or one equal to the begin date, gives the begin date alone |
| BatchDao.BuildDigitalObject | aspace_batch_dao.py:49-74 | built exactly when title, a first date entry, its begin and its end are all present; each missing item gives the script's failure for it, in the script's order (a missing `dates` list reads as a missing begin date); the built object has the handle id `http://hdl.handle.net.2345.2/` + id_ref, the four notes and one date |
| BatchDao.BuiltDateShape | aspace_batch_dao.py:73-74 | the one date of a built object is an inclusive creation date whose expression starts with its begin date, and equals the begin date exactly when the end date occurs in it |
| BatchDao.ArchivalObject.LinkDigitalObject | aspace_batch_dao.py:83-85 | one digital-object instance referring to the new uri is appended; the existing instances stay, unchanged, before it |
| BatchDao.GetTypeData | aspace_batch_dao.py:125-135 | a name containing "jpg" is a reference image even if it contains "tif"; one containing only "tif" is an archive image; any other fails as `ImproperFileName`; the file uri is the name |
| BatchDao.BaseName | aspace_batch_dao.py:105-106 | defined exactly when the name contains '.'; the base name is dot-free and followed by '.' in the name |
| BatchDao.Classify | aspace_batch_dao.py:102-113 | when all file names pass, one entry per name, in input order, each that name's base name and version |
| BatchDao.ClassifyFailure | aspace_batch_dao.py:102-113 | the list fails exactly when some name fails, and then with the failure of the first failing name, all names before it passing |
| BatchDao.ClassifyPrefixFailure | aspace_batch_dao.py:102-113 | a failure within a prefix of the list is the failure of the whole list |
| BatchDao.FirstSeenElements | aspace_batch_dao.py:107-110 | `keeping_track` holds exactly the base names that occur |
| BatchDao.FirstSeenDistinct | aspace_batch_dao.py:107-110 | `keeping_track` holds no base name twice |
| BatchDao.FirstSeenOrder | aspace_batch_dao.py:107-110 | the names of `keeping_track` are in strictly increasing order of first appearance |
| BatchDao.VersionsOfAbsent | aspace_batch_dao.py:107-109 | a base name that has not occurred has no versions, so its group starts as a fresh one-element list |
| BatchDao.EveryEntryCountedOnce | aspace_batch_dao.py:102-113 | the groups listed in `keeping_track` together hold as many versions as there are file names |
| BatchDao.VersionsOfOwnBase | aspace_batch_dao.py:111-113 | every version in a group comes from an entry with that base name, and every entry's version is in its own base name's group |
| BatchDao.GroupHoldsItsOwnFiles | aspace_batch_dao.py:102-113 | the group of a base name holds the version of every file name with that base name, and only versions of such file names |
| BatchDao.TracksNewBase | aspace_batch_dao.py:107-110 | a base name seen for the first time opens a one-version group and is appended to `keeping_track`, keeping the grouping invariant |
| BatchDao.TracksKnownBase | aspace_batch_dao.py:111-113 | a base name seen before gets its version appended to its group, keeping the grouping invariant |
| BatchDao.TrackedGrouping | aspace_batch_dao.py:99-113 | after grouping, `keeping_track` holds no duplicate, its names are exactly the dictionary's keys and exactly the base names that occur, and the groups hold one version per file name |
| BatchDao.GroupFiles | aspace_batch_dao.py:99-113 | fails exactly when some file name has no '.' or an unknown type, with the first such failure; otherwise returns a dictionary and order list satisfying the grouping invariant for all file names |
| BatchDao.EmitComponents | aspace_batch_dao.py:115-117 | one component per `keeping_track` name, in that order, with title and display string the name, that name's versions, and the digital object's uri |
| BatchDao.ProcessRow | aspace_batch_dao.py:34-117 | a bad row or missing metadata stops before linking; otherwise the archival object gains exactly one instance; then a bad file name fails the row, or one component per base name in first-seen order carries that base name's versions |
| HandleBatch.ComponentId | handle_batch_text.py:103-104 | the component id is the row text before the first tab, or the whole row |
| HandleBatch.BatchLineAt | handle_batch_text.py:100-112 | line i of the batch is line i mod 5 of the record group of row i div 5 |
| HandleBatch.GroupAt | handle_batch_text.py:100-112 | the five lines of row k, in order, are that row's record group |
| HandleBatch.RecordGroupAt | handle_batch_text.py:105-112 | row k gives a CREATE line and an HS_ADMIN line naming the same handle prefix/id, an HS_SECKEY line holding the password, a URL line for the IIIF viewer page of the id, and an empty line |
| HandleBatch.SecretKeyLines | handle_batch_text.py:111 | a line carries a secret key exactly when it is the third line of its group |
| HandleBatch.PasswordConfined | handle_batch_text.py:109-112 | every line other than the HS_SECKEY lines is the same whatever the password |
| HandleBatch.BatchFile.WriteOut | handle_batch_text.py:26-27 | `write_out` appends the string to what was written; the file's text is every written string followed by a line break |
| HandleBatch.BatchWritesAreLines | handle_batch_text.py:109-112 | the four writes of each row, the last ending in a line break of its own, leave the same text as the five lines of its record group |
| HandleBatch.WriteBatch | handle_batch_text.py:100-112 | the loop appends, row after row in input order, the four writes of each row's record group, after what was already written |
| HandleBatch.RunHandleBatch | handle_batch_text.py:62-64 | without both prefix and password nothing is written and the run fails; with both, the record groups of every line of the tab file are written |
| HandleBatch.BatchFileLines | handle_batch_text.py:88 | with newline-free prefix and password, the file read back line by line is exactly the record groups of the rows, five lines per row, in row order |

## Left out

- Network calls: login, the `find_by_id` lookup, fetching the archival object and posting records. The fetched title and dates and the uri the server gives the new digital object are inputs.
- The repost of the updated archival object and the posting of each component. `ProcessRow` returns the components to be posted, in posting order.
- The outer loop over the rows of the tab file (aspace_batch_dao.py:31-32). `ProcessRow` is one pass of that loop; a `Failure` ends the loop, so the rows after it are never processed.
- The directory scan for component files and the reads of the tab file and component files. `ProcessRow` models one matching component file, whose file names are an input; a row with several matching files repeats the grouping and emission once per file, and one with none posts no components. The text of the tab file is an input.
- `json.dumps`, the `jsonmodel_type` fields, `print` and the `write_to_stdout` flag of `write_out`. Records are datatypes, not JSON text.
- `sys.argv` checks, `load_dotenv`/`os.getenv`, the clock, the `HANDLES` directory and the timestamped output name. The configuration values are `Option` inputs.
- `str.splitlines` also breaks at '\r', '\v', '\f' and other separators. The model breaks at '\n' only.
- The archival object's `instances` key is taken to be present. The script would raise a KeyError without it.
- HandleBatch.PasswordConfined: does not claim the password text occurs nowhere else. It may occur inside the prefix or a component id. The lemma states instead that no other line depends on it.
- BatchDao.EmitComponents: requires every name of the order list to be a key of the dictionary. `GroupFiles` guarantees this and the script relies on it.

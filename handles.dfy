/** The Handle batch file of handle_batch_text.py: for every row of the tab file,
    a record group that creates the handle `<prefix>/<component id>`, gives it an
    administrator and a secret key, and points it at the component's IIIF viewer
    page. The output file is the `text` of a `BatchFile`; the clock, the console
    and the `.env` lookup are left out, the two configuration values being inputs. */
module HandleBatch {
  import opened Text

  const VIEWER_BASE := "https://library.bc.edu/iiif/view/"
  const CREATE := "CREATE "
  /** The administrator of every handle: index 300 of the handle itself, with all permissions. */
  const ADMIN_REF := "300:111111111111:"
  const HS_ADMIN := "100 HS_ADMIN 86400 1110 ADMIN " + ADMIN_REF
  const HS_SECKEY := "300 HS_SECKEY 86400 1100 UTF8 "
  const URL := "201 URL 86400 1110 UTF8 "

  /** `line.split("\t")[0]`: the row up to its first tab, or the whole row. */
  function ComponentId(line: string): (id: string)
    ensures id <= line && '\t' !in id
    ensures id == line || line[|id|] == '\t'
  {
    Split(line, '\t')[0]
  }

  function ComponentIds(lines: seq<string>): seq<string>
  {
    seq(|lines|, i requires 0 <= i < |lines| => ComponentId(lines[i]))
  }

  /** The handle minted for a component. */
  function Handle(prefix: string, id: string): string
  {
    prefix + "/" + id
  }

  /** The five lines one row contributes to the file; the last is empty. */
  function RecordGroup(prefix: string, password: string, id: string): seq<string>
  {
    [CREATE + Handle(prefix, id), HS_ADMIN + Handle(prefix, id), HS_SECKEY + password, URL + (VIEWER_BASE + id), ""]
  }

  /** The lines of the batch file for the component ids `ids`, row after row. */
  function BatchLines(prefix: string, password: string, ids: seq<string>): (lines: seq<string>)
    ensures |lines| == 5 * |ids|
  {
    if ids == [] then []
    else BatchLines(prefix, password, ids[..|ids| - 1]) + RecordGroup(prefix, password, ids[|ids| - 1])
  }

  // ---------------------------------------------------------------- reading a line back

  function After(line: string, tag: string): Option<string>
  {
    if tag <= line then Some(line[|tag|..]) else None
  }

  /** The handle a CREATE line creates. */
  function CreatedHandle(line: string): Option<string>
  {
    After(line, CREATE)
  }

  /** The handle an HS_ADMIN line administers. */
  function AdministeredHandle(line: string): Option<string>
  {
    After(line, HS_ADMIN)
  }

  /** The secret an HS_SECKEY line carries. */
  function SecretKey(line: string): Option<string>
  {
    After(line, HS_SECKEY)
  }

  /** The address a URL line points the handle at. */
  function TargetUrl(line: string): Option<string>
  {
    After(line, URL)
  }

  lemma AfterTag(tag: string, rest: string)
    ensures After(tag + rest, tag) == Some(rest)
  {
    assert (tag + rest)[..|tag|] == tag;
  }

  /** A line opened by another tag than HS_SECKEY carries no secret key. */
  lemma OtherTag(tag: string, rest: string)
    requires tag != [] && tag[0] != HS_SECKEY[0]
    ensures SecretKey(tag + rest).None?
  {
    assert (tag + rest)[0] == tag[0];
  }

  // ---------------------------------------------------------------- the batch lines

  /** Line `i` of the batch is line `i % 5` of the group of row `i / 5`. */
  lemma {:induction false} BatchLineAt(prefix: string, password: string, ids: seq<string>, i: nat)
    requires i < 5 * |ids|
    ensures BatchLines(prefix, password, ids)[i] == RecordGroup(prefix, password, ids[i / 5])[i % 5]
  {
    var n := |ids| - 1;
    if i < 5 * n {
      BatchLineAt(prefix, password, ids[..n], i);
      assert ids[..n][i / 5] == ids[i / 5];
    } else {
      assert i / 5 == n && i % 5 == i - 5 * n;
    }
  }

  /** The five lines of row `k` are its record group. */
  lemma GroupAt(prefix: string, password: string, ids: seq<string>, k: nat)
    requires k < |ids|
    ensures BatchLines(prefix, password, ids)[5 * k..5 * k + 5] == RecordGroup(prefix, password, ids[k])
  {
    var lines := BatchLines(prefix, password, ids);
    var g := RecordGroup(prefix, password, ids[k]);
    BatchLineAt(prefix, password, ids, 5 * k);
    BatchLineAt(prefix, password, ids, 5 * k + 1);
    BatchLineAt(prefix, password, ids, 5 * k + 2);
    BatchLineAt(prefix, password, ids, 5 * k + 3);
    BatchLineAt(prefix, password, ids, 5 * k + 4);
    assert lines[5 * k..5 * k + 5] == [lines[5 * k], lines[5 * k + 1], lines[5 * k + 2], lines[5 * k + 3], lines[5 * k + 4]];
  }

  /** Row `k` yields, in order, a CREATE line and an HS_ADMIN line naming the same
      handle `prefix/id`, an HS_SECKEY line holding the password, a URL line for
      the IIIF viewer page of the component, and an empty line. */
  lemma RecordGroupAt(prefix: string, password: string, ids: seq<string>, k: nat)
    requires k < |ids|
    ensures var lines := BatchLines(prefix, password, ids);
      && CreatedHandle(lines[5 * k]) == Some(Handle(prefix, ids[k]))
      && AdministeredHandle(lines[5 * k + 1]) == Some(Handle(prefix, ids[k]))
      && SecretKey(lines[5 * k + 2]) == Some(password)
      && TargetUrl(lines[5 * k + 3]) == Some(VIEWER_BASE + ids[k])
      && lines[5 * k + 4] == ""
  {
    var h := Handle(prefix, ids[k]);
    GroupAt(prefix, password, ids, k);
    AfterTag(CREATE, h);
    AfterTag(HS_ADMIN, h);
    AfterTag(HS_SECKEY, password);
    AfterTag(URL, VIEWER_BASE + ids[k]);
  }

  /** The lines that carry a secret key are exactly the third line of each group. */
  lemma SecretKeyLines(prefix: string, password: string, ids: seq<string>, i: nat)
    requires i < 5 * |ids|
    ensures SecretKey(BatchLines(prefix, password, ids)[i]).Some? <==> i % 5 == 2
  {
    BatchLineAt(prefix, password, ids, i);
    var id := ids[i / 5];
    match i % 5
    case 0 => OtherTag(CREATE, Handle(prefix, id));
    case 1 =>
      OtherTag(HS_ADMIN, Handle(prefix, id));
    case 2 => AfterTag(HS_SECKEY, password);
    case 3 => OtherTag(URL, VIEWER_BASE + id);
    case 4 =>
  }

  /** The password reaches no line but the HS_SECKEY ones: every other line is the
      same whatever the password. */
  lemma PasswordConfined(prefix: string, password: string, otherPassword: string, ids: seq<string>, i: nat)
    requires i < 5 * |ids| && i % 5 != 2
    ensures BatchLines(prefix, password, ids)[i] == BatchLines(prefix, otherPassword, ids)[i]
  {
    BatchLineAt(prefix, password, ids, i);
    BatchLineAt(prefix, otherPassword, ids, i);
  }

  // ---------------------------------------------------------------- the output file

  /** The four strings one row passes to `write_out`; the last one carries a
      line break of its own, which leaves an empty line after the group. */
  function RecordWrites(prefix: string, password: string, id: string): seq<string>
  {
    [CREATE + Handle(prefix, id), HS_ADMIN + Handle(prefix, id), HS_SECKEY + password, URL + (VIEWER_BASE + id) + "\n"]
  }

  /** The strings passed to `write_out` for the component ids `ids`, row after row. */
  function BatchWrites(prefix: string, password: string, ids: seq<string>): (writes: seq<string>)
    ensures |writes| == 4 * |ids|
  {
    if ids == [] then []
    else BatchWrites(prefix, password, ids[..|ids| - 1]) + RecordWrites(prefix, password, ids[|ids| - 1])
  }

  /** The output file `file_out`. */
  class BatchFile {
    /** The strings passed to `write_out` so far, in order. */
    var written: seq<string>

    constructor ()
      ensures written == []
    {
      written := [];
    }

    /** The text of the file: every written string followed by a line break. */
    function Text(): string
      reads this
    {
      Terminated(written)
    }

    /** `write_out`: the string, then a line break. */
    method WriteOut(s: string)
      modifies this
      ensures written == old(written) + [s]
    {
      written := written + [s];
    }
  }

  /** A last string ending in a line break writes the same text as that string
      and an empty line. */
  lemma LastLineBreak(lines: seq<string>, last: string)
    ensures Terminated(lines + [last + "\n"]) == Terminated(lines + [last, ""])
  {
    TerminatedAppend(lines, [last + "\n"]);
    TerminatedAppend(lines, [last, ""]);
    TerminatedCons(last, [""]);
    TerminatedCons("", []);
    TerminatedCons(last + "\n", []);
  }

  /** The file written for `ids` is, as text, the lines of their record groups. */
  lemma {:induction false} BatchWritesAreLines(prefix: string, password: string, ids: seq<string>)
    ensures Terminated(BatchWrites(prefix, password, ids)) == Terminated(BatchLines(prefix, password, ids))
  {
    if ids != [] {
      var init, id := ids[..|ids| - 1], ids[|ids| - 1];
      BatchWritesAreLines(prefix, password, init);
      var w := RecordWrites(prefix, password, id);
      var g := RecordGroup(prefix, password, id);
      TerminatedAppend(BatchWrites(prefix, password, init), w);
      TerminatedAppend(BatchLines(prefix, password, init), g);
      assert w == w[..3] + [URL + (VIEWER_BASE + id) + "\n"];
      assert g == w[..3] + [URL + (VIEWER_BASE + id), ""];
      LastLineBreak(w[..3], URL + (VIEWER_BASE + id));
    }
  }

  lemma FourAppends(start: seq<string>, done: seq<string>, next: seq<string>)
    requires |next| == 4
    ensures start + done + [next[0]] + [next[1]] + [next[2]] + [next[3]] == start + (done + next)
  {
  }

  lemma BatchWritesStep(prefix: string, password: string, lines: seq<string>, index: nat)
    requires index < |lines|
    ensures BatchWrites(prefix, password, ComponentIds(lines[..index + 1]))
      == BatchWrites(prefix, password, ComponentIds(lines[..index])) + RecordWrites(prefix, password, ComponentId(lines[index]))
  {
    assert ComponentIds(lines[..index + 1])[..index] == ComponentIds(lines[..index]);
  }

  /** Lines 100-112: for each row, in order, the four `write_out` calls of its
      record group. */
  method WriteBatch(file: BatchFile, prefix: string, password: string, lines: seq<string>)
    modifies file
    ensures file.written == old(file.written) + BatchWrites(prefix, password, ComponentIds(lines))
  {
    for index := 0 to |lines|
      invariant file.written == old(file.written) + BatchWrites(prefix, password, ComponentIds(lines[..index]))
    {
      var componentId := ComponentId(lines[index]);
      var iiifUri := VIEWER_BASE + componentId;
      ghost var done := BatchWrites(prefix, password, ComponentIds(lines[..index]));
      file.WriteOut(CREATE + Handle(prefix, componentId));
      file.WriteOut(HS_ADMIN + Handle(prefix, componentId));
      file.WriteOut(HS_SECKEY + password);
      file.WriteOut(URL + iiifUri + "\n");
      FourAppends(old(file.written), done, RecordWrites(prefix, password, componentId));
      BatchWritesStep(prefix, password, lines, index);
    }
    assert lines[..|lines|] == lines;
  }

  /** The script: without both configuration values it stops before writing
      anything; otherwise it writes one record group per line of the tab file. */
  method RunHandleBatch(file: BatchFile, prefix: Option<string>, password: Option<string>, tabData: string)
    returns (ok: bool)
    modifies file
    ensures ok <==> prefix.Some? && password.Some?
    ensures !ok ==> file.written == old(file.written)
    ensures ok ==>
      file.written == old(file.written) + BatchWrites(prefix.value, password.value, ComponentIds(SplitLines(tabData)))
  {
    if prefix.None? || password.None? {
      return false;
    }
    var eadLines := SplitLines(tabData);
    WriteBatch(file, prefix.value, password.value, eadLines);
    return true;
  }

  // ---------------------------------------------------------------- the file read back

  lemma ComponentIdOneLine(line: string)
    requires '\n' !in line
    ensures '\n' !in ComponentId(line)
  {
    var id := ComponentId(line);
    assert line[..|id|] == id;
  }

  lemma TagsOneLine()
    ensures '\n' !in CREATE && '\n' !in HS_ADMIN && '\n' !in HS_SECKEY && '\n' !in URL
  {
    assert '\n' !in CREATE;
    assert '\n' !in "100 HS_ADMIN 86400 1110 ADMIN " && '\n' !in ADMIN_REF;
    assert '\n' !in HS_SECKEY;
    assert '\n' !in URL;
  }

  lemma ViewerBaseOneLine()
    ensures '\n' !in VIEWER_BASE
  {
  }

  lemma GroupOneLine(prefix: string, password: string, id: string)
    requires '\n' !in prefix && '\n' !in password && '\n' !in id
    ensures forall l :: l in RecordGroup(prefix, password, id) ==> '\n' !in l
  {
    TagsOneLine();
    ViewerBaseOneLine();
    assert '\n' !in Handle(prefix, id);
  }

  lemma {:induction false} BatchLinesOneLine(prefix: string, password: string, ids: seq<string>)
    requires '\n' !in prefix && '\n' !in password
    requires forall id :: id in ids ==> '\n' !in id
    ensures forall l :: l in BatchLines(prefix, password, ids) ==> '\n' !in l
  {
    if ids != [] {
      var n := |ids| - 1;
      assert forall id :: id in ids[..n] ==> id in ids;
      BatchLinesOneLine(prefix, password, ids[..n]);
      assert ids[n] in ids;
      GroupOneLine(prefix, password, ids[n]);
    }
  }

  /** With configuration values free of line breaks, the file written for a tab
      file, read back line by line, is exactly the record groups of its rows in
      their order: five lines for each row. */
  lemma BatchFileLines(prefix: string, password: string, tabData: string)
    requires '\n' !in prefix && '\n' !in password
    ensures var ids := ComponentIds(SplitLines(tabData));
      && SplitLines(Terminated(BatchWrites(prefix, password, ids))) == BatchLines(prefix, password, ids)
      && |BatchLines(prefix, password, ids)| == 5 * |SplitLines(tabData)|
  {
    var rows := SplitLines(tabData);
    var ids := ComponentIds(rows);
    forall id | id in ids
      ensures '\n' !in id
    {
      var i :| 0 <= i < |ids| && ids[i] == id;
      assert rows[i] in rows;
      ComponentIdOneLine(rows[i]);
    }
    BatchLinesOneLine(prefix, password, ids);
    SplitLinesTerminated(BatchLines(prefix, password, ids));
    BatchWritesAreLines(prefix, password, ids);
  }
}

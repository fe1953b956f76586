/**
 * The ingestion path of ids.py: the `Vendor` and `Device` records,
 * `parse_data` (a forward pass over the lines of a usb.ids text) and
 * `format_data` (rows to (Vendor, Device) pairs).
 */
module Ids {
  import opened Wrappers
  import opened PyStr

  /** A vendor record; both fields are None for devices seen before any header. */
  datatype Vendor = Vendor(id: Option<string>, name: Option<string>)

  /** A device record; `vendor` is the owning vendor's id. */
  datatype Device = Device(id: string, name: string, vendor: Option<string>)

  /** One parsed row: vendor id, vendor name, device id, device name. */
  datatype Row = Row(vendorId: Option<string>, vendorName: Option<string>, deviceId: string, deviceName: string)

  /**
   * The ValueError raised when `split('  ', 1)` yields one piece. Python's
   * message names only the piece counts; the offending line is recorded
   * here by the model, so that properties can say which line raised.
   */
  datatype ParseError = UnpackError(line: string)

  /** The heading that opens the device-class catalogue; parsing stops at it. */
  const ClassListSentinel: string := "# List of known device classes, " + "subclasses and protocols"

  // ---------------------------------------------------------------------
  // Line kinds, tested in the order parse_data tests them
  // ---------------------------------------------------------------------

  predicate IsSentinel(line: string)
  {
    Strip(line) == ClassListSentinel
  }

  /** A comment or a whitespace-only line (meaningful only for non-sentinel lines). */
  predicate IsSkipped(line: string)
  {
    (|line| > 0 && line[0] == '#') || Strip(line) == ""
  }

  predicate StartsWithTab(line: string)
  {
    |line| > 0 && line[0] == '\t'
  }

  /** A vendor header: not the sentinel, not skipped, not tab-led. */
  predicate IsHeaderLine(line: string)
  {
    !IsSentinel(line) && !IsSkipped(line) && !StartsWithTab(line)
  }

  /** A device line (interface lines with two tabs included). */
  predicate IsDeviceLine(line: string)
  {
    !IsSentinel(line) && !IsSkipped(line) && StartsWithTab(line)
  }

  /** A header or device line whose unpack raises. */
  predicate Unsplittable(line: string)
  {
    (IsHeaderLine(line) && SplitOnce(line).None?)
    || (IsDeviceLine(line) && SplitOnce(Strip(line)).None?)
  }

  /** What one line means to parse_data, decided by the same tests in the same order. */
  datatype Line =
    | ClassListStart                          // the sentinel: the pass ends here
    | Skipped                                 // a comment or a blank line
    | VendorHeader(id: string, name: string)  // a new current vendor
    | DeviceEntry(id: string, name: string)   // one row under the current vendor
    | Malformed(text: string)                 // a header or device line whose unpack raises

  function Classify(line: string): (r: Line)
    ensures r.ClassListStart? <==> Strip(line) == ClassListSentinel
    ensures r.Skipped? <==>
              Strip(line) != ClassListSentinel && ((|line| > 0 && line[0] == '#') || Strip(line) == "")
    ensures r.VendorHeader? ==>
              !StartsWithTab(line) && line == r.id + "  " + r.name
              && forall i :: 0 <= i < |r.id| ==> !DoubleSpaceAt(line, i)
    ensures r.DeviceEntry? ==>
              StartsWithTab(line) && Strip(line) == r.id + "  " + r.name
              && forall i :: 0 <= i < |r.id| ==> !DoubleSpaceAt(Strip(line), i)
    ensures r.Malformed? ==>
              r.text == line && !IsSkipped(line)
              && (StartsWithTab(line) ==> forall i :: !DoubleSpaceAt(Strip(line), i))
              && (!StartsWithTab(line) ==> forall i :: !DoubleSpaceAt(line, i))
  {
    if Strip(line) == ClassListSentinel then ClassListStart
    else if (|line| > 0 && line[0] == '#') || Strip(line) == "" then Skipped
    else if !(|line| > 0 && line[0] == '\t') then
      match SplitOnce(line)
      case None => Malformed(line)
      case Some((id, name)) => VendorHeader(id, name)
    else
      match SplitOnce(Strip(line))
      case None => Malformed(line)
      case Some((id, name)) => DeviceEntry(id, name)
  }

  /** Classify sorts lines by the tests of parse_data and splits them at their first two-space run. */
  lemma ClassifyLine(line: string)
    ensures Classify(line).ClassListStart? <==> IsSentinel(line)
    ensures Classify(line).Skipped? <==> !IsSentinel(line) && IsSkipped(line)
    ensures Classify(line).VendorHeader? <==> IsHeaderLine(line) && SplitOnce(line).Some?
    ensures Classify(line).VendorHeader? ==> SplitOnce(line) == Some((Classify(line).id, Classify(line).name))
    ensures Classify(line).DeviceEntry? <==> IsDeviceLine(line) && SplitOnce(Strip(line)).Some?
    ensures Classify(line).DeviceEntry? ==> SplitOnce(Strip(line)) == Some((Classify(line).id, Classify(line).name))
    ensures Classify(line).Malformed? <==> Unsplittable(line)
  {
  }

  function ClassifyAll(lines: seq<string>): (ls: seq<Line>)
    ensures |ls| == |lines|
  {
    seq(|lines|, i requires 0 <= i < |lines| => Classify(lines[i]))
  }

  lemma ClassifyAllAppend(a: seq<string>, b: seq<string>)
    ensures ClassifyAll(a + b) == ClassifyAll(a) + ClassifyAll(b)
  {
    var x, y := ClassifyAll(a + b), ClassifyAll(a) + ClassifyAll(b);
    forall i | 0 <= i < |x| ensures x[i] == y[i] {
      if i < |a| { assert (a + b)[i] == a[i]; } else { assert (a + b)[i] == b[i - |a|]; }
    }
  }

  // ---------------------------------------------------------------------
  // parse_data, as a specification over the classified lines
  // ---------------------------------------------------------------------

  /** The state carried by the pass: the current vendor and the rows so far. */
  datatype Scan = Scan(vendorId: Option<string>, vendorName: Option<string>, rows: seq<Row>)

  const Start: Scan := Scan(None, None, [])

  /**
   * The effect of one line. RunFrom stops at the sentinel before stepping
   * it, so the ClassListStart branch is never taken.
   */
  function Step(c: Scan, l: Line): (r: Result<Scan, ParseError>)
    ensures r.Err? <==> l.Malformed?
    ensures r.Ok? ==> |c.rows| <= |r.value.rows| && r.value.rows[..|c.rows|] == c.rows
    ensures r.Ok? ==> |r.value.rows| == |c.rows| + (if l.DeviceEntry? then 1 else 0)
    ensures r.Ok? && !l.VendorHeader? ==> r.value.vendorId == c.vendorId && r.value.vendorName == c.vendorName
  {
    match l
    case ClassListStart => Ok(c)
    case Skipped => Ok(c)
    case VendorHeader(id, name) => Ok(Scan(Some(id), Some(name), c.rows))
    case DeviceEntry(id, name) => Ok(c.(rows := c.rows + [Row(c.vendorId, c.vendorName, id, name)]))
    case Malformed(text) => Err(UnpackError(text))
  }

  /** The pass from state c: stops at the sentinel or at the first error. */
  function RunFrom(c: Scan, ls: seq<Line>): (r: Result<Scan, ParseError>)
    ensures r.Ok? ==> |c.rows| <= |r.value.rows| && r.value.rows[..|c.rows|] == c.rows
    ensures r.Err? ==> Malformed(r.error.line) in ls
    decreases |ls|
  {
    if ls == [] || ls[0].ClassListStart? then Ok(c)
    else
      match Step(c, ls[0])
      case Err(e) => Err(e)
      case Ok(next) => RunFrom(next, ls[1..])
  }

  /** What parse_data returns for a list of lines, or the error it raises. */
  function ParseLines(lines: seq<string>): (r: Result<seq<Row>, ParseError>)
    ensures r.Err? ==> r.error.line in lines && Classify(r.error.line).Malformed?
  {
    match RunFrom(Start, ClassifyAll(lines))
    case Err(e) => Err(e)
    case Ok(c) => Ok(c.rows)
  }

  /** What parse_data returns for a text, or the error it raises. */
  function Parse(data: string): (r: Result<seq<Row>, ParseError>)
    ensures r.Err? ==> r.error.line in SplitLines(data) && '\n' !in r.error.line
  {
    ParseLines(SplitLines(data))
  }

  /** parse_data: one forward pass carrying the current vendor and appending rows. */
  method ParseData(data: string) returns (r: Result<seq<Row>, ParseError>)
    ensures r == Parse(data)
  {
    var lines := SplitLines(data);
    ghost var ls := ClassifyAll(lines);
    var parsed: seq<Row> := [];
    var vendorId: Option<string> := None;
    var vendorName: Option<string> := None;
    var i := 0;
    while i < |lines|
      invariant 0 <= i <= |lines|
      invariant RunFrom(Start, ls) == RunFrom(Scan(vendorId, vendorName, parsed), ls[i..])
    {
      var line := lines[i];
      assert ls[i..][0] == Classify(line) && ls[i..][1..] == ls[i + 1..];
      if Strip(line) == ClassListSentinel {
        break;
      } else if (|line| > 0 && line[0] == '#') || Strip(line) == "" {
        i := i + 1;
        continue;
      } else if !(|line| > 0 && line[0] == '\t') {
        match SplitOnce(line)
        case None =>
          return Err(UnpackError(line));
        case Some((id, name)) =>
          vendorId, vendorName := Some(id), Some(name);
      } else {
        match SplitOnce(Strip(line))
        case None =>
          return Err(UnpackError(line));
        case Some((id, name)) =>
          parsed := parsed + [Row(vendorId, vendorName, id, name)];
      }
      i := i + 1;
    }
    r := Ok(parsed);
  }

  // ---------------------------------------------------------------------
  // Reference definitions the pass is measured against
  // ---------------------------------------------------------------------

  /** No line of ls is the sentinel. */
  predicate NoClassListStart(ls: seq<Line>)
  {
    forall i :: 0 <= i < |ls| ==> !ls[i].ClassListStart?
  }

  /** The number of device lines before the first sentinel. */
  function EntryCount(ls: seq<Line>): nat
    decreases |ls|
  {
    if ls == [] || ls[0].ClassListStart? then 0
    else (if ls[0].DeviceEntry? then 1 else 0) + EntryCount(ls[1..])
  }

  /** The id and name of the last vendor header of ls, read from the end. */
  function LastHeader(ls: seq<Line>): Option<(string, string)>
    decreases |ls|
  {
    if ls == [] then None
    else if ls[|ls| - 1].VendorHeader? then Some((ls[|ls| - 1].id, ls[|ls| - 1].name))
    else LastHeader(ls[..|ls| - 1])
  }

  /** The vendor in force after the lines ls, starting from c's vendor. */
  function VendorAt(c: Scan, ls: seq<Line>): (Option<string>, Option<string>)
  {
    match LastHeader(ls)
    case Some((id, name)) => (Some(id), Some(name))
    case None => (c.vendorId, c.vendorName)
  }

  // ---------------------------------------------------------------------
  // Properties of the pass
  // ---------------------------------------------------------------------

  /** Nothing at or after a sentinel line affects the result. */
  lemma {:induction false} SentinelEndsParse(c: Scan, pre: seq<Line>, post: seq<Line>)
    ensures RunFrom(c, pre + [ClassListStart] + post) == RunFrom(c, pre)
    decreases |pre|
  {
    var ls := pre + [ClassListStart] + post;
    if pre == [] {
      assert ls[0] == ClassListStart;
    } else {
      assert ls[0] == pre[0];
      assert ls[1..] == pre[1..] + [ClassListStart] + post;
      if !pre[0].ClassListStart? && Step(c, pre[0]).Ok? {
        SentinelEndsParse(Step(c, pre[0]).value, pre[1..], post);
      }
    }
  }

  /** Removing a comment or blank line from anywhere changes nothing in the result. */
  lemma {:induction false} SkippedLineIsInert(c: Scan, pre: seq<Line>, post: seq<Line>)
    ensures RunFrom(c, pre + [Skipped] + post) == RunFrom(c, pre + post)
    decreases |pre|
  {
    var ls := pre + [Skipped] + post;
    if pre == [] {
      assert ls[0] == Skipped && ls[1..] == post && pre + post == post;
    } else {
      assert ls[0] == pre[0] && (pre + post)[0] == pre[0];
      assert ls[1..] == pre[1..] + [Skipped] + post;
      assert (pre + post)[1..] == pre[1..] + post;
      if !pre[0].ClassListStart? && Step(c, pre[0]).Ok? {
        SkippedLineIsInert(Step(c, pre[0]).value, pre[1..], post);
      }
    }
  }

  /** Line k is malformed and no sentinel comes before it. */
  predicate MalformedAt(ls: seq<Line>, k: int)
  {
    0 <= k < |ls| && NoClassListStart(ls[..k]) && ls[k].Malformed?
  }

  /** The pass raises exactly when some line before the sentinel cannot be unpacked. */
  lemma {:induction false} ParseFailsIff(c: Scan, ls: seq<Line>)
    ensures RunFrom(c, ls).Err? <==> exists k :: MalformedAt(ls, k)
    decreases |ls|
  {
    if ls == [] || ls[0].ClassListStart? {
      assert forall k :: 0 < k <= |ls| ==> ls[..k][0] == ls[0];
    } else {
      var l := ls[0];
      var rest := ls[1..];
      if l.Malformed? {
        assert ls[..0] == [];
        assert MalformedAt(ls, 0);
      } else {
        ParseFailsIff(Step(c, l).value, rest);
        forall k | MalformedAt(rest, k) ensures MalformedAt(ls, k + 1) {
          assert ls[..k + 1] == [l] + rest[..k];
        }
        forall k | MalformedAt(ls, k) ensures MalformedAt(rest, k - 1) {
          assert k > 0;
          var q := rest[..k - 1];
          assert ls[..k] == [l] + q;
          forall i | 0 <= i < |q| ensures !q[i].ClassListStart? {
            assert q[i] == ls[..k][i + 1];
          }
        }
      }
    }
  }

  /** A successful pass keeps the rows it started with and adds one per device line. */
  lemma {:induction false} RowCount(c: Scan, ls: seq<Line>)
    requires RunFrom(c, ls).Ok?
    ensures |RunFrom(c, ls).value.rows| == |c.rows| + EntryCount(ls)
    ensures RunFrom(c, ls).value.rows[..|c.rows|] == c.rows
    decreases |ls|
  {
    if ls != [] && !ls[0].ClassListStart? {
      var next := Step(c, ls[0]).value;
      RowCount(next, ls[1..]);
      assert next.rows[..|c.rows|] == c.rows;
    }
  }

  /** Reading the last header from the end agrees with reading the first line off the front. */
  lemma {:induction false} LastHeaderCons(l: Line, q: seq<Line>)
    ensures LastHeader([l] + q)
         == if LastHeader(q).Some? then LastHeader(q)
            else if l.VendorHeader? then Some((l.id, l.name)) else None
    decreases |q|
  {
    var p := [l] + q;
    if q == [] {
      assert p[..0] == [];
    } else {
      assert p[|p| - 1] == q[|q| - 1];
      assert p[..|p| - 1] == [l] + q[..|q| - 1];
      LastHeaderCons(l, q[..|q| - 1]);
    }
  }

  /**
   * Row i of the result comes from the i-th device line before the
   * sentinel: its vendor fields are those of the latest header above it
   * (or of the starting context when there is none), its device fields
   * those of the line itself.
   */
  lemma {:induction false} RowOfDeviceLine(c: Scan, ls: seq<Line>, k: nat)
    requires RunFrom(c, ls).Ok?
    requires k < |ls| && ls[k].DeviceEntry? && NoClassListStart(ls[..k])
    ensures |c.rows| + EntryCount(ls[..k]) < |RunFrom(c, ls).value.rows|
    ensures RunFrom(c, ls).value.rows[|c.rows| + EntryCount(ls[..k])]
         == Row(VendorAt(c, ls[..k]).0, VendorAt(c, ls[..k]).1, ls[k].id, ls[k].name)
    decreases |ls|
  {
    var l := ls[0];
    var rest := ls[1..];
    assert !l.ClassListStart? by {
      if k > 0 { assert ls[..k][0] == l; }
    }
    var next := Step(c, l).value;
    RowCount(next, rest);
    if k == 0 {
      assert ls[..0] == [];
    } else {
      var q := rest[..k - 1];
      assert ls[..k] == [l] + q;
      forall i | 0 <= i < |q| ensures !q[i].ClassListStart? {
        assert q[i] == ls[..k][i + 1];
      }
      RowOfDeviceLine(next, rest, k - 1);
      assert ([l] + q)[0] == l && ([l] + q)[1..] == q;
      assert EntryCount(ls[..k]) == (if l.DeviceEntry? then 1 else 0) + EntryCount(q);
      assert |next.rows| == |c.rows| + (if l.DeviceEntry? then 1 else 0);
      assert RunFrom(c, ls) == RunFrom(next, rest);
      LastHeaderCons(l, q);
      assert VendorAt(c, ls[..k]) == VendorAt(next, q);
    }
  }

  // ---------------------------------------------------------------------
  // The same properties read on the raw lines
  // ---------------------------------------------------------------------

  /** No row comes from the sentinel line or from any line after it. */
  lemma ParseStopsAtSentinel(pre: seq<string>, s: string, post: seq<string>)
    requires IsSentinel(s)
    ensures ParseLines(pre + [s] + post) == ParseLines(pre)
  {
    ClassifyLine(s);
    ClassifyAllAppend(pre + [s], post);
    ClassifyAllAppend(pre, [s]);
    assert ClassifyAll([s]) == [ClassListStart];
    SentinelEndsParse(Start, ClassifyAll(pre), ClassifyAll(post));
  }

  /** A comment or whitespace-only line changes nothing in the result. */
  lemma ParseSkipsLine(pre: seq<string>, l: string, post: seq<string>)
    requires !IsSentinel(l) && IsSkipped(l)
    ensures ParseLines(pre + [l] + post) == ParseLines(pre + post)
  {
    ClassifyLine(l);
    ClassifyAllAppend(pre + [l], post);
    ClassifyAllAppend(pre, [l]);
    ClassifyAllAppend(pre, post);
    assert ClassifyAll([l]) == [Skipped];
    SkippedLineIsInert(Start, ClassifyAll(pre), ClassifyAll(post));
  }

  /** No line of p is the sentinel. */
  predicate NoSentinel(p: seq<string>)
  {
    forall i :: 0 <= i < |p| ==> !IsSentinel(p[i])
  }

  /** The number of tab-led, non-blank, non-comment lines before the first sentinel. */
  function DeviceLineCount(lines: seq<string>): nat
    decreases |lines|
  {
    if lines == [] || IsSentinel(lines[0]) then 0
    else (if IsDeviceLine(lines[0]) then 1 else 0) + DeviceLineCount(lines[1..])
  }

  lemma ClassifyAllTail(lines: seq<string>)
    requires lines != []
    ensures ClassifyAll(lines)[0] == Classify(lines[0])
    ensures ClassifyAll(lines)[1..] == ClassifyAll(lines[1..])
  {
  }

  lemma ClassifyAllPrefix(lines: seq<string>, k: nat)
    requires k <= |lines|
    ensures ClassifyAll(lines)[..k] == ClassifyAll(lines[..k])
    ensures NoClassListStart(ClassifyAll(lines[..k])) <==> NoSentinel(lines[..k])
  {
    var p := lines[..k];
    forall i | 0 <= i < k ensures ClassifyAll(p)[i].ClassListStart? <==> IsSentinel(p[i]) {
      ClassifyLine(p[i]);
    }
  }

  lemma {:induction false} EntryCountOfLines(c: Scan, lines: seq<string>)
    requires RunFrom(c, ClassifyAll(lines)).Ok?
    ensures EntryCount(ClassifyAll(lines)) == DeviceLineCount(lines)
    decreases |lines|
  {
    if lines != [] {
      var ls := ClassifyAll(lines);
      ClassifyAllTail(lines);
      ClassifyLine(lines[0]);
      if !IsSentinel(lines[0]) {
        EntryCountOfLines(Step(c, ls[0]).value, lines[1..]);
      }
    }
  }

  /** A successful parse_data yields one row per device line before the sentinel. */
  lemma ParsedRowCount(lines: seq<string>)
    requires ParseLines(lines).Ok?
    ensures |ParseLines(lines).value| == DeviceLineCount(lines)
  {
    RowCount(Start, ClassifyAll(lines));
    EntryCountOfLines(Start, lines);
  }

  /**
   * The row of the device line k: it sits after the rows of the device lines
   * above it, carries the vendor in force there, and holds the two halves
   * of the stripped line.
   */
  lemma ParsedRowAt(lines: seq<string>, k: nat)
    requires ParseLines(lines).Ok?
    requires k < |lines| && IsDeviceLine(lines[k]) && NoSentinel(lines[..k])
    ensures SplitOnce(Strip(lines[k])).Some?
    ensures DeviceLineCount(lines[..k]) < |ParseLines(lines).value|
    ensures ParseLines(lines).value[DeviceLineCount(lines[..k])]
         == Row(VendorAt(Start, ClassifyAll(lines[..k])).0, VendorAt(Start, ClassifyAll(lines[..k])).1,
                SplitOnce(Strip(lines[k])).value.0, SplitOnce(Strip(lines[k])).value.1)
  {
    var ls := ClassifyAll(lines);
    ClassifyAllPrefix(lines, k);
    ClassifyLine(lines[k]);
    ParseFailsIff(Start, ls);
    assert !MalformedAt(ls, k);
    RowOfDeviceLine(Start, ls, k);
    RunUpToPrefix(lines, k);
    EntryCountOfLines(Start, lines[..k]);
  }

  /** A successful pass over lines also succeeds over any prefix of them. */
  lemma RunUpToPrefix(lines: seq<string>, k: nat)
    requires k <= |lines| && ParseLines(lines).Ok?
    ensures RunFrom(Start, ClassifyAll(lines[..k])).Ok?
  {
    ClassifyAllPrefix(lines, k);
    RunPrefixOk(Start, ClassifyAll(lines), k);
  }

  /** A pass that succeeds over classified lines succeeds over any prefix of them. */
  lemma RunPrefixOk(c: Scan, ls: seq<Line>, k: nat)
    requires k <= |ls| && RunFrom(c, ls).Ok?
    ensures RunFrom(c, ls[..k]).Ok?
  {
    ParseFailsIff(c, ls);
    ParseFailsIff(c, ls[..k]);
    forall j | MalformedAt(ls[..k], j) ensures MalformedAt(ls, j) {
      assert ls[..k][..j] == ls[..j];
    }
  }

  /** parse_data raises exactly when a header or device line before the sentinel lacks a two-space run. */
  lemma ParseRaisesIff(lines: seq<string>)
    ensures ParseLines(lines).Err?
        <==> exists k :: 0 <= k < |lines| && NoSentinel(lines[..k]) && Unsplittable(lines[k])
  {
    var ls := ClassifyAll(lines);
    ParseFailsIff(Start, ls);
    forall k | 0 <= k < |lines|
      ensures MalformedAt(ls, k) <==> NoSentinel(lines[..k]) && Unsplittable(lines[k])
    {
      ClassifyAllPrefix(lines, k);
      ClassifyLine(lines[k]);
    }
  }

  /** The sentinel never holds two spaces in a row, so no split line can be it. */
  lemma SentinelHasNoDoubleSpace()
    ensures forall i :: !DoubleSpaceAt(ClassListSentinel, i)
  {
    var a, b := "# List of known device classes, ", "subclasses and protocols";
    assert ClassListSentinel == a + b;
    forall i | 0 <= i < |a| + |b| - 1 ensures !DoubleSpaceAt(a + b, i) {
      if i + 1 < |a| {
        assert !DoubleSpaceAt(a, i);
      } else if i + 1 == |a| {
        assert (a + b)[i + 1] == b[0];
      } else {
        assert !DoubleSpaceAt(b, i - |a|);
      }
    }
  }

  /**
   * A vendor header line is read as its id and, verbatim, its name: header
   * lines are not stripped, so a trailing carriage return or an empty name
   * is kept as it is.
   */
  lemma ClassifyHeader(id: string, name: string)
    requires SplitHead(id) && id != [] && id[0] != '#' && !IsSpace(id[0])
    ensures Classify(id + "  " + name) == VendorHeader(id, name)
  {
    var line := id + "  " + name;
    assert line[0] == id[0];
    StripStartSpec(line);
    StripEndSpec(line);
    assert Strip(line)[0] == line[0];
    assert line[0] != ClassListSentinel[0];
    SplitOnceOfJoin(id, name);
  }

  /** A well-formed device line, one tab before it, is read as its id and its name. */
  lemma ClassifyDevice(id: string, name: string)
    requires SplitHead(id) && id != [] && !IsSpace(id[0])
    requires name != [] && !IsSpace(name[|name| - 1])
    ensures Classify("\t" + id + "  " + name) == DeviceEntry(id, name)
  {
    var core := id + "  " + name;
    var line := "\t" + core;
    assert core[0] == id[0] && core[|core| - 1] == name[|name| - 1];
    StripPadded("\t", core, "");
    assert "\t" + core + "" == line;
    assert "\t" + id + "  " + name == line;
    assert DoubleSpaceAt(core, |id|);
    SentinelHasNoDoubleSpace();
    SplitOnceOfJoin(id, name);
  }

  /**
   * A vendor header over one device line: the header splits at its first
   * two-space run, the device line is stripped and split at its first one,
   * and the later double space stays in the device name.
   */
  lemma IntelExample(header: string, device: string)
    requires header == "8086" + "  " + "Intel Corporation"
    requires device == "\t" + "0a2b" + "  " + "Device  With Spaces"
    ensures Parse(header + "\n" + device)
         == Ok([Row(Some("8086"), Some("Intel Corporation"), "0a2b", "Device  With Spaces")])
  {
    SplitLinesOfJoin([header, device]);
    assert JoinLines([header, device]) == header + "\n" + device;
    ClassifyHeader("8086", "Intel Corporation");
    ClassifyDevice("0a2b", "Device  With Spaces");
    HeaderThenDevice(header, device);
  }

  /** A header line followed by one device line parses to the single row they make. */
  lemma HeaderThenDevice(header: string, device: string)
    requires Classify(header).VendorHeader? && Classify(device).DeviceEntry?
    ensures ParseLines([header, device])
         == Ok([Row(Some(Classify(header).id), Some(Classify(header).name),
                    Classify(device).id, Classify(device).name)])
  {
    var h, d := Classify(header), Classify(device);
    var ls := ClassifyAll([header, device]);
    assert ls == [h, d] && ls[1..] == [d] && ls[1..][1..] == [];
    var c := Scan(Some(h.id), Some(h.name), []);
    assert RunFrom(Start, ls) == RunFrom(c, ls[1..]);
    var row := Row(Some(h.id), Some(h.name), d.id, d.name);
    assert Step(c, d) == Ok(c.(rows := [] + [row]));
    assert [] + [row] == [row];
    assert RunFrom(c, ls[1..]) == RunFrom(c.(rows := [row]), []);
  }

  // ---------------------------------------------------------------------
  // format_data
  // ---------------------------------------------------------------------

  /** The row a (Vendor, Device) pair was built from. */
  function ToRow(pair: (Vendor, Device)): Row
  {
    Row(pair.0.id, pair.0.name, pair.1.id, pair.1.name)
  }

  /** format_data: one pair per row, in order, each device pointing at its vendor's id. */
  method FormatData(rows: seq<Row>) returns (pairs: seq<(Vendor, Device)>)
    ensures |pairs| == |rows|
    ensures forall i :: 0 <= i < |pairs| ==> ToRow(pairs[i]) == rows[i]
    ensures forall i :: 0 <= i < |pairs| ==> pairs[i].1.vendor == pairs[i].0.id
  {
    pairs := [];
    for i := 0 to |rows|
      invariant |pairs| == i
      invariant forall j :: 0 <= j < i ==> ToRow(pairs[j]) == rows[j]
      invariant forall j :: 0 <= j < i ==> pairs[j].1.vendor == pairs[j].0.id
    {
      var row := rows[i];
      var vendor := Vendor(row.vendorId, row.vendorName);
      var device := Device(row.deviceId, row.deviceName, vendor.id);
      pairs := pairs + [(vendor, device)];
    }
  }
}

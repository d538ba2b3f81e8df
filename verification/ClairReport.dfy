/** The scan report: the text analyzeLayer prints, and the two parsers that read it back. */
module ClairReport {
  import opened Strings

  datatype Severity = Unknown | Negligible | Low | Medium | High | Critical | Defcon1

  function Name(s: Severity): string {
    match s
    case Unknown => "Unknown" case Negligible => "Negligible" case Low => "Low" case Medium => "Medium"
    case High => "High" case Critical => "Critical" case Defcon1 => "Defcon1"
  }

  /** A vulnerability with the feature it was found in. Empty strings are absent fields. */
  datatype Finding = Finding(
    name: string, severity: Severity, description: string, fixedBy: string, link: string,
    package: string, version: string, layer: string)

  function HeaderOf(f: Finding): string {
    f.name + " (" + Name(f.severity) + ")"
  }

  function DescriptionLines(f: Finding): seq<string> {
    if f.description != "" then ["\t" + f.description, ""] else []
  }

  function PackageOf(f: Finding): string {
    "\tPackage:" + "       " + f.package + " @ " + f.version
  }

  function FixedLines(f: Finding): seq<string> {
    if f.fixedBy != "" then ["\tFixed version:" + " " + f.fixedBy] else []
  }

  function LinkLines(f: Finding): seq<string> {
    if f.link != "" then ["\tLink:" + "          " + f.link] else []
  }

  function LayerOf(f: Finding): string {
    "\tLayer:" + "         " + f.layer
  }

  /** The lines printed for one finding. */
  function LinesOf(f: Finding): seq<string> {
    [HeaderOf(f)] + DescriptionLines(f) + [PackageOf(f)] + FixedLines(f) + LinkLines(f) + [LayerOf(f), ""]
  }

  function AllLines(findings: seq<Finding>, n: nat): seq<string>
    requires n <= |findings|
  {
    if n == 0 then [] else AllLines(findings, n - 1) + LinesOf(findings[n - 1])
  }

  /** Lines, each with its line end. */
  function Text(lines: seq<string>): string {
    if lines == [] then "" else lines[0] + "\n" + Text(lines[1..])
  }

  lemma {:induction false} TextAppend(a: seq<string>, b: seq<string>)
    ensures Text(a + b) == Text(a) + Text(b)
  {
    if a == [] {
      assert a + b == b;
    } else {
      assert (a + b)[1..] == a[1..] + b;
      TextAppend(a[1..], b);
    }
  }

  lemma TextPush(a: seq<string>, line: string)
    ensures Text(a + [line]) == Text(a) + (line + "\n")
  {
    TextAppend(a, [line]);
    assert [line][1..] == [];
  }

  lemma TextPushTwo(a: seq<string>, line: string)
    ensures Text(a + [line, ""]) == Text(a) + (line + "\n\n")
  {
    hide Text;
    assert a + [line, ""] == (a + [line]) + [""];
    TextPush(a, line);
    TextPush(a + [line], "");
    assert line + "\n" + ("" + "\n") == line + "\n\n";
  }

  /** The text of one finding, line by line. */
  method PrintFinding(f: Finding) returns (result: string)
    ensures result == Text(LinesOf(f))
  {
    hide Text, HeaderOf, PackageOf, LayerOf;
    result := PrintHead(f);
    ghost var lines := [HeaderOf(f)] + DescriptionLines(f) + [PackageOf(f)];
    if f.fixedBy != "" {
      result := result + (FixedLines(f)[0] + "\n");
      TextPush(lines, FixedLines(f)[0]);
    }
    assert lines + [] == lines;
    lines := lines + FixedLines(f);
    if f.link != "" {
      result := result + (LinkLines(f)[0] + "\n");
      TextPush(lines, LinkLines(f)[0]);
    }
    assert lines + [] == lines;
    lines := lines + LinkLines(f);
    result := result + (LayerOf(f) + "\n\n");
    TextPushTwo(lines, LayerOf(f));
  }

  /** The text of a finding, as it is read by people. */
  lemma TextOfFinding(f: Finding)
    ensures Text(LinesOf(f)) == (f.name + " (" + Name(f.severity) + ")\n")
      + (if f.description != "" then "\t" + f.description + "\n\n" else "")
      + ("\tPackage:       " + f.package + " @ " + f.version + "\n")
      + (if f.fixedBy != "" then "\tFixed version: " + f.fixedBy + "\n" else "")
      + (if f.link != "" then "\tLink:          " + f.link + "\n" else "")
      + ("\tLayer:         " + f.layer + "\n\n")
  {
    hide Text, HeaderOf, PackageOf, LayerOf, Name, DescriptionLines, FixedLines, LinkLines;
    TextOfLines(f);
    HeaderIs(f);
    DescriptionIs(f);
    PackageIs(f);
    FixedIs(f);
    LinkIs(f);
    LayerIs(f);
  }

  lemma TextOfLines(f: Finding)
    ensures Text(LinesOf(f)) == Text([HeaderOf(f)]) + Text(DescriptionLines(f)) + Text([PackageOf(f)])
      + Text(FixedLines(f)) + Text(LinkLines(f)) + Text([LayerOf(f), ""])
  {
    hide Text, HeaderOf, PackageOf, LayerOf, DescriptionLines, FixedLines, LinkLines;
    var lines := [HeaderOf(f)];
    TextAppend(lines, DescriptionLines(f));
    lines := lines + DescriptionLines(f);
    TextAppend(lines, [PackageOf(f)]);
    lines := lines + [PackageOf(f)];
    TextAppend(lines, FixedLines(f));
    lines := lines + FixedLines(f);
    TextAppend(lines, LinkLines(f));
    lines := lines + LinkLines(f);
    TextAppend(lines, [LayerOf(f), ""]);
  }

  lemma TextOfOne(line: string)
    ensures Text([line]) == line + "\n" && Text([line, ""]) == line + "\n\n"
  {
    hide Text;
    NoText();
    TextPush([], line);
    TextPushTwo([], line);
    assert [] + [line] == [line] && [] + [line, ""] == [line, ""];
  }

  lemma HeaderIs(f: Finding)
    ensures Text([HeaderOf(f)]) == f.name + " (" + Name(f.severity) + ")\n"
  {
    hide Text, Name;
    TextOfOne(HeaderOf(f));
    assert ")" + "\n" == ")\n";
  }

  lemma DescriptionIs(f: Finding)
    ensures Text(DescriptionLines(f)) == if f.description != "" then "\t" + f.description + "\n\n" else ""
  {
    hide Text;
    TextOfOne("\t" + f.description);
    NoText();
  }

  lemma PackageIs(f: Finding)
    ensures Text([PackageOf(f)]) == "\tPackage:       " + f.package + " @ " + f.version + "\n"
  {
    hide Text;
    TextOfOne(PackageOf(f));
    assert "\tPackage:" + "       " == "\tPackage:       ";
  }

  lemma FixedIs(f: Finding)
    ensures Text(FixedLines(f)) == if f.fixedBy != "" then "\tFixed version: " + f.fixedBy + "\n" else ""
  {
    hide Text;
    NoText();
    assert "\tFixed version:" + " " == "\tFixed version: ";
    TextOfOne("\tFixed version: " + f.fixedBy);
  }

  lemma LinkIs(f: Finding)
    ensures Text(LinkLines(f)) == if f.link != "" then "\tLink:          " + f.link + "\n" else ""
  {
    hide Text;
    NoText();
    assert "\tLink:" + "          " == "\tLink:          ";
    TextOfOne("\tLink:          " + f.link);
  }

  lemma LayerIs(f: Finding)
    ensures Text([LayerOf(f), ""]) == "\tLayer:         " + f.layer + "\n\n"
  {
    hide Text;
    assert "\tLayer:" + "         " == "\tLayer:         ";
    TextOfOne(LayerOf(f));
  }

  method PrintHead(f: Finding) returns (result: string)
    ensures result == Text([HeaderOf(f)] + DescriptionLines(f) + [PackageOf(f)])
  {
    hide Text, HeaderOf, PackageOf;
    result := HeaderOf(f) + "\n";
    ghost var lines := [HeaderOf(f)];
    NoText();
    TextPush([], HeaderOf(f));
    assert [] + lines == lines;
    if f.description != "" {
      result := result + ("\t" + f.description + "\n\n");
      TextPushTwo(lines, "\t" + f.description);
    }
    assert lines + [] == lines;
    lines := lines + DescriptionLines(f);
    result := result + (PackageOf(f) + "\n");
    TextPush(lines, PackageOf(f));
  }

  /** The printer, for the findings to show, in the order they are shown. */
  method PrintReport(findings: seq<Finding>) returns (result: string)
    ensures result == Text(AllLines(findings, |findings|))
  {
    hide Text, LinesOf;
    result := "";
    NoText();
    for i := 0 to |findings|
      invariant result == Text(AllLines(findings, i))
    {
      var text := PrintFinding(findings[i]);
      TextAppend(AllLines(findings, i), LinesOf(findings[i]));
      result := result + text;
    }
  }

  lemma NoText()
    ensures Text([]) == ""
  {
  }

  /** One vulnerability as the summary lists it. */
  datatype Record = Record(
    name: string, severity: string, description: string, package: string, version: string,
    fixed: string, link: string, layer: string)

  const BLANK := Record("", "", "", "", "", "", "", "")

  datatype Levels = Levels(high: nat, critical: nat, medium: nat, low: nat, negligible: nat, unknown: nat)

  /** The parser between two lines. `Panic` is an index out of range. */
  datatype State = Panic | Going(list: seq<Record>, current: Record, total: nat, patches: nat, levels: Levels)

  const START := Going([], BLANK, 0, 0, Levels(0, 0, 0, 0, 0, 0))

  /** What bufio.ScanLines takes off the end of a line. */
  function DropCR(line: string): string {
    if line != "" && line[|line| - 1] == '\r' then line[..|line| - 1] else line
  }

  function Remove(s: string, c: char): string {
    if s == "" then "" else (if s[0] == c then "" else [s[0]]) + Remove(s[1..], c)
  }

  function Strip(s: string): string {
    Remove(Remove(s, ' '), '\t')
  }

  predicate IsHeader(line: string) {
    ("CVE-" <= line || "RHSA-" <= line) && '(' in line
  }

  /** The level a line counts for: the first of these words it has. */
  function LevelOf(line: string): Severity {
    if Contains(line, "High") then High
    else if Contains(line, "Critical") then Critical
    else if Contains(line, "Medium") then Medium
    else if Contains(line, "Low") then Low
    else if Contains(line, "Negligible") then Negligible
    else Unknown
  }

  function Bump(l: Levels, s: Severity): Levels {
    match s
    case High => l.(high := l.high + 1)
    case Critical => l.(critical := l.critical + 1)
    case Medium => l.(medium := l.medium + 1)
    case Low => l.(low := l.low + 1)
    case Negligible => l.(negligible := l.negligible + 1)
    case _ => l.(unknown := l.unknown + 1)
  }

  /** A header line: the record before it is complete, a new one begins. */
  function Header(s: State, line: string): State
    requires s.Going?
  {
    var parts := Split(line, ' ');
    if |parts| < 2 || |parts[1]| < 2 then Panic else
    var done := s.current.name != "" && s.current.severity != "";
    Going(if done then s.list + [s.current] else s.list,
          (if done then BLANK else s.current).(name := parts[0], severity := parts[1][1..|parts[1]| - 1]),
          s.total + 1, s.patches, Bump(s.levels, LevelOf(line)))
  }

  function PackageLine(s: State, stripped: string): State
    requires s.Going?
  {
    var parts := Split(stripped, ':');
    if |parts| < 2 then Panic else
    var names := Split(parts[1], '@');
    if |names| < 2 then Panic else s.(current := s.current.(package := names[0], version := names[1]))
  }

  function LinkLine(s: State, stripped: string): State
    requires s.Going?
  {
    if |stripped| < 5 then Panic else s.(current := s.current.(link := stripped[5..]))
  }

  function FixedLine(s: State, stripped: string): State
    requires s.Going?
  {
    var from := if ':' in stripped then Index(stripped, ':') + 1 else 0;
    s.(patches := s.patches + 1, current := s.current.(fixed := Trim(stripped[from..], SPACES)))
  }

  function LayerLine(s: State, stripped: string): State
    requires s.Going?
  {
    var parts := Split(stripped, ':');
    if |parts| < 2 then Panic else s.(current := s.current.(layer := parts[1]))
  }

  datatype Kind = Empty | HeaderKind | PackageKind | LinkKind | FixedKind | LayerKind | Other

  function KindOf(line: string): Kind {
    if line == "" then Empty
    else if IsHeader(line) then HeaderKind
    else if "\tPackage" <= line then PackageKind
    else if "\tLink" <= line then LinkKind
    else if "\tFixed version" <= line then FixedKind
    else if "\tLayer" <= line then LayerKind
    else Other
  }

  /** What one line does to the parser. */
  function Step(s: State, line: string): State
    requires s.Going?
  {
    match KindOf(line)
    case Empty => s
    case HeaderKind => Header(s, line)
    case PackageKind => PackageLine(s, Strip(line))
    case LinkKind => LinkLine(s, Strip(line))
    case FixedKind => FixedLine(s, Strip(line))
    case LayerKind => LayerLine(s, Strip(line))
    case Other => s.(current := s.current.(description := s.current.description + Remove(line, '\t') + " "))
  }

  function After(s: State, lines: seq<string>, n: nat): State
    requires n <= |lines|
  {
    if n == 0 || s.Panic? then s else
    var before := After(s, lines, n - 1);
    if before.Panic? then Panic else Step(before, DropCR(lines[n - 1]))
  }

  datatype Answer =
    | Safe | Unsupported | Failed | Abnormal
    | Info(total: nat, patches: nat, levels: Levels, list: seq<Record>)
    | InfoThenAbnormal(patches: nat, levels: Levels, list: seq<Record>)

  /** The summary of a report text. A text that mentions a vulnerability but has no header line is
      answered twice, with a summary of nothing and as abnormal. */
  function Summary(text: string): Answer {
    if Contains(text, "Success!") || Contains(text, "No vulnerabilities") then Safe
    else if Contains(text, "the image isn't supported by Clair") then Unsupported
    else if Contains(text, "CVE-") || Contains(text, "RHSA-") then
      var lines := Split(text, '\n');
      var s := After(START, lines, |lines|);
      if s.Panic? then Failed
      else if s.total == 0 then InfoThenAbnormal(s.patches, s.levels, s.list + [s.current])
      else Info(s.total, s.patches, s.levels, s.list + [s.current])
    else Abnormal
  }

  /** Counts a header line under the first level word it has. */
  method CountLevel(levels: Levels, line: string) returns (counted: Levels)
    ensures counted == Bump(levels, LevelOf(line))
  {
    hide Contains;
    counted := levels;
    if Contains(line, "High") {
      counted := counted.(high := counted.high + 1);
    } else if Contains(line, "Critical") {
      counted := counted.(critical := counted.critical + 1);
    } else if Contains(line, "Medium") {
      counted := counted.(medium := counted.medium + 1);
    } else if Contains(line, "Low") {
      counted := counted.(low := counted.low + 1);
    } else if Contains(line, "Negligible") {
      counted := counted.(negligible := counted.negligible + 1);
    } else {
      counted := counted.(unknown := counted.unknown + 1);
    }
  }

  /** One line of a record that is not its header. */
  method ReadField(vl: Record, patches: nat, line: string) returns (r: Record, p: nat, ok: bool)
    requires line != "" && !IsHeader(line)
    ensures forall list, total, levels ::
      Step(Going(list, vl, total, patches, levels), line) == if ok then Going(list, r, total, p, levels) else Panic
  {
    hide Split, Remove, Trim, Index, IsHeader;
    r, p, ok := vl, patches, true;
    if "\tPackage" <= line {
      var parts := Split(Strip(line), ':');
      if |parts| < 2 || |Split(parts[1], '@')| < 2 {
        return r, p, false;
      }
      r := r.(package := Split(parts[1], '@')[0], version := Split(parts[1], '@')[1]);
    } else if "\tLink" <= line {
      var stripped := Strip(line);
      if |stripped| < 5 {
        return r, p, false;
      }
      r := r.(link := stripped[5..]);
    } else if "\tFixed version" <= line {
      var stripped := Strip(line);
      p := p + 1;
      r := r.(fixed := Trim(stripped[if ':' in stripped then Index(stripped, ':') + 1 else 0..], SPACES));
    } else if "\tLayer" <= line {
      var parts := Split(Strip(line), ':');
      if |parts| < 2 {
        return r, p, false;
      }
      r := r.(layer := parts[1]);
    } else {
      r := r.(description := r.description + Remove(line, '\t') + " ");
    }
  }

  method GetVulnerabilitySummary(text: string) returns (answer: Answer)
    ensures answer == Summary(text)
  {
    hide Contains, Split, After, IsHeader, LevelOf, Bump, DropCR, PackageLine, LinkLine, FixedLine, LayerLine;
    if Contains(text, "Success!") || Contains(text, "No vulnerabilities") {
      return Safe;
    }
    if Contains(text, "the image isn't supported by Clair") {
      return Unsupported;
    }
    if !Contains(text, "CVE-") && !Contains(text, "RHSA-") {
      return Abnormal;
    }
    var lines := Split(text, '\n');
    var list: seq<Record>, vl, total, patches, levels := [], BLANK, 0, 0, Levels(0, 0, 0, 0, 0, 0);
    AfterNothing(START, lines);
    for i := 0 to |lines|
      invariant Going(list, vl, total, patches, levels) == After(START, lines, i)
    {
      var line := DropCR(lines[i]);
      AfterStep(START, lines, i);
      if line == "" {
        continue;
      }
      if IsHeader(line) {
        if vl.name != "" && vl.severity != "" {
          list, vl := list + [vl], BLANK;
        }
        var parts := Split(line, ' ');
        if |parts| < 2 || |parts[1]| < 2 {
          PanicStays(START, lines, i + 1, |lines|);
          return Failed;
        }
        vl := vl.(name := parts[0], severity := parts[1][1..|parts[1]| - 1]);
        total := total + 1;
        levels := CountLevel(levels, line);
      } else {
        var ok;
        vl, patches, ok := ReadField(vl, patches, line);
        if !ok {
          PanicStays(START, lines, i + 1, |lines|);
          return Failed;
        }
      }
    }
    list := list + [vl];
    answer := if total == 0 then InfoThenAbnormal(patches, levels, list) else Info(total, patches, levels, list);
  }

  lemma AfterNothing(s: State, lines: seq<string>)
    ensures After(s, lines, 0) == s
  {
  }

  lemma AfterStep(s: State, lines: seq<string>, i: nat)
    requires i < |lines| && After(s, lines, i).Going?
    ensures After(s, lines, i + 1) == Step(After(s, lines, i), DropCR(lines[i]))
  {
    hide Step;
  }

  lemma {:induction false} PanicStays(s: State, lines: seq<string>, i: nat, n: nat)
    requires i <= n <= |lines| && After(s, lines, i).Panic?
    ensures After(s, lines, n).Panic?
  {
    hide Step;
    if i < n { PanicStays(s, lines, i, n - 1); }
  }

  /** Printable and without blanks. */
  predicate Plain(s: string) {
    forall i | 0 <= i < |s| :: '!' <= s[i] <= '~'
  }

  /** A description that fits on a line and does not look like a field. */
  predicate OneLine(d: string) {
    && '\n' !in d && '\r' !in d
    && !("Package" <= d) && !("Link" <= d) && !("Fixed version" <= d) && !("Layer" <= d)
  }

  /** A finding whose parts fit on their lines. */
  predicate Fits(f: Finding) {
    && Plain(f.name) && ("CVE-" <= f.name || "RHSA-" <= f.name) && OneLine(f.description)
    && Plain(f.package) && Plain(f.version) && Plain(f.fixedBy) && Plain(f.link) && Plain(f.layer)
  }

  function Until(s: string, c: char): string {
    Split(s, c)[0]
  }

  /** The parser cuts this package at its colon and then looks for the version in vain. */
  predicate LosesVersion(f: Finding) {
    ':' in f.package && '@' !in Until(f.package, ':')
  }

  /** A finding the summary can read. */
  predicate Readable(f: Finding) {
    Fits(f) && !LosesVersion(f)
  }

  lemma FitsParts(f: Finding)
    requires Fits(f)
    ensures OneLine(f.description) && Plain(f.package) && Plain(f.version)
    ensures Plain(f.fixedBy) && Plain(f.link) && Plain(f.layer)
  {
  }

  /** Package and version as the parser sees them: what stands before the first colon, parted at `@`. */
  function NamesOf(f: Finding): (names: seq<string>)
    ensures names != []
  {
    Split(Until(f.package + "@" + f.version, ':'), '@')
  }

  /** What the summary makes of a finding. */
  function RecordOf(f: Finding): Record {
    var names := NamesOf(f);
    Record(f.name, Name(f.severity), if f.description == "" then "" else Remove(f.description, '\t') + " ",
           names[0], if |names| < 2 then "" else names[1], f.fixedBy, f.link, Until(f.layer, ':'))
  }

  lemma {:induction false} RemoveAppend(a: string, b: string, c: char)
    ensures Remove(a + b, c) == Remove(a, c) + Remove(b, c)
  {
    if a == "" {
      assert a + b == b;
    } else {
      assert (a + b)[1..] == a[1..] + b;
      RemoveAppend(a[1..], b, c);
    }
  }

  lemma {:induction false} RemoveNothing(s: string, c: char)
    requires c !in s
    ensures Remove(s, c) == s
  {
    if s != "" {
      RemoveNothing(s[1..], c);
      assert s == [s[0]] + s[1..];
    }
  }

  lemma {:induction false} RemoveAll(s: string, c: char)
    requires forall i | 0 <= i < |s| :: s[i] == c
    ensures Remove(s, c) == ""
  {
    if s != "" { RemoveAll(s[1..], c); }
  }

  lemma StripAppend(a: string, b: string)
    ensures Strip(a + b) == Strip(a) + Strip(b)
  {
    RemoveAppend(a, b, ' ');
    RemoveAppend(Remove(a, ' '), Remove(b, ' '), '\t');
  }

  lemma StripPlain(s: string)
    requires Plain(s)
    ensures Strip(s) == s
  {
    RemoveNothing(s, ' ');
    RemoveNothing(s, '\t');
  }

  lemma StripSpaces(s: string)
    requires forall i | 0 <= i < |s| :: s[i] == ' '
    ensures Strip(s) == ""
  {
    RemoveAll(s, ' ');
  }

  /** A field line without its tab and blanks. */
  lemma StripField(field: string, spaces: string, value: string)
    requires Plain(field) && Plain(value) && forall i | 0 <= i < |spaces| :: spaces[i] == ' '
    ensures Strip("\t" + field + spaces + value) == field + value
  {
    hide Strip;
    StripAppend("\t" + field + spaces, value);
    StripAppend("\t" + field, spaces);
    StripAppend("\t", field);
    StripTab();
    StripPlain(field);
    StripPlain(value);
    StripSpaces(spaces);
  }

  lemma StripTab()
    ensures Strip("\t") == ""
  {
    RemoveNothing("\t", ' ');
    RemoveAll("\t", '\t');
  }

  lemma NotHeader(line: string)
    requires line != "" && line[0] == '\t'
    ensures !IsHeader(line)
  {
  }

  lemma HeaderParts(name: string, severity: Severity)
    requires Plain(name) && ("CVE-" <= name || "RHSA-" <= name)
    ensures var line := name + " (" + Name(severity) + ")"; var parts := Split(line, ' ');
      && KindOf(line) == HeaderKind
      && |parts| == 2 && parts[0] == name && |parts[1]| >= 2 && parts[1][1..|parts[1]| - 1] == Name(severity)
  {
    hide Name, Index;
    var sev := "(" + Name(severity) + ")";
    var line := name + " (" + Name(severity) + ")";
    NoBlankIn(severity);
    assert ' ' !in sev && ' ' !in name;
    assert line == name + [' '] + sev;
    SplitFirst(name, ' ', sev);
    assert Split(sev, ' ') == [sev];
    assert sev[1..|sev| - 1] == Name(severity);
    HeaderLine(name, sev, line);
  }

  lemma HeaderLine(name: string, sev: string, line: string)
    requires ("CVE-" <= name || "RHSA-" <= name) && sev != "" && sev[0] == '(' && line == name + [' '] + sev
    ensures KindOf(line) == HeaderKind
  {
    assert line[|name| + 1] == '(' && name <= line;
  }

  lemma NoBlankIn(severity: Severity)
    ensures ' ' !in Name(severity)
  {
  }

  lemma HeaderRead(s: State, f: Finding)
    requires s.Going? && Fits(f)
    ensures var line := f.name + " (" + Name(f.severity) + ")";
      var done := s.current.name != "" && s.current.severity != "";
      Step(s, line) == Going(if done then s.list + [s.current] else s.list,
        (if done then BLANK else s.current).(name := f.name, severity := Name(f.severity)),
        s.total + 1, s.patches, Bump(s.levels, LevelOf(line)))
  {
    hide LevelOf, Bump, OneLine, KindOf, Name, Split;
    HeaderParts(f.name, f.severity);
  }

  lemma PrefixAfter(c: char, p: string, s: string)
    ensures [c] + p <= [c] + s <==> p <= s
  {
    if [c] + p <= [c] + s { assert ([c] + p)[1..] == p && ([c] + s)[1..] == s; }
  }

  lemma KindOfDescription(d: string)
    requires OneLine(d)
    ensures KindOf("\t" + d) == Other
  {
    hide IsHeader;
    NotHeader("\t" + d);
    PrefixAfter('\t', "Package", d);
    PrefixAfter('\t', "Link", d);
    PrefixAfter('\t', "Fixed version", d);
    PrefixAfter('\t', "Layer", d);
    assert ['\t'] + "Package" == "\tPackage" && ['\t'] + "Link" == "\tLink";
    assert ['\t'] + "Fixed version" == "\tFixed version" && ['\t'] + "Layer" == "\tLayer";
  }

  lemma DescriptionRead(s: State, d: string)
    requires s.Going? && OneLine(d)
    ensures Step(s, "\t" + d) == s.(current := s.current.(description := s.current.description + Remove(d, '\t') + " "))
  {
    hide KindOf, OneLine, Strip, Header, PackageLine, LinkLine, FixedLine, LayerLine;
    KindOfDescription(d);
    assert ("\t" + d)[1..] == d;
  }

  lemma Initials(line: string)
    requires |line| >= 3
    ensures "\tPackage" <= line ==> line[1] == 'P'
    ensures "\tLink" <= line ==> line[1] == 'L' && line[2] == 'i'
    ensures "\tFixed version" <= line ==> line[1] == 'F'
    ensures "\tLayer" <= line ==> line[1] == 'L' && line[2] == 'a'
  {
  }

  /** A field line is what its first letters say. */
  lemma KindOfField(field: string, value: string)
    requires |field| >= 2
    ensures field == "Package" ==> KindOf("\t" + field + value) == PackageKind
    ensures field == "Link" ==> KindOf("\t" + field + value) == LinkKind
    ensures field == "Fixed version" ==> KindOf("\t" + field + value) == FixedKind
    ensures field == "Layer" ==> KindOf("\t" + field + value) == LayerKind
  {
    hide IsHeader;
    var line := "\t" + field + value;
    NotHeader(line);
    assert "\t" + field <= line && line[1] == field[0] && line[2] == field[1];
    Initials(line);
    assert "\t" + "Package" == "\tPackage" && "\t" + "Link" == "\tLink";
    assert "\t" + "Fixed version" == "\tFixed version" && "\t" + "Layer" == "\tLayer";
  }

  /** What a package line does, for any package and version. */
  lemma PackageRead(s: State, f: Finding)
    requires s.Going? && Plain(f.package) && Plain(f.version)
    ensures Step(s, PackageOf(f)) == if LosesVersion(f) then Panic else
      s.(current := s.current.(package := RecordOf(f).package, version := RecordOf(f).version))
  {
    hide KindOf, Strip, Name, Split, Plain, Until;
    assert PackageOf(f) == "\t" + "Package" + (":       " + f.package + " @ " + f.version);
    KindOfField("Package", ":       " + f.package + " @ " + f.version);
    PackageStripped(f.package, f.version);
    PackageParts(f.package, f.version);
    TwoParts(Until(f.package + "@" + f.version, ':'), '@');
    VersionFound(f);
  }

  lemma PackageParts(package: string, version: string)
    ensures var parts := Split("Package:" + (package + "@" + version), ':');
      |parts| >= 2 && parts[1] == Until(package + "@" + version, ':')
  {
    hide Index;
    var rest := package + "@" + version;
    SplitFirst("Package", ':', rest);
    assert "Package:" + rest == "Package" + [':'] + rest;
  }

  lemma PackageStripped(package: string, version: string)
    requires Plain(package) && Plain(version)
    ensures Strip("\tPackage:" + "       " + package + " @ " + version) == "Package:" + (package + "@" + version)
  {
    hide Strip;
    var front := "\t" + "Package:" + "       " + package;
    assert "\tPackage:" + "       " + package + " @ " + version == front + (" " + "@" + " ") + version;
    StripField("Package:", "       ", package);
    StripAppend(front + (" " + "@" + " "), version);
    StripAppend(front, " " + "@" + " ");
    StripAppend(" " + "@", " ");
    StripAppend(" ", "@");
    StripSpaces(" ");
    StripPlain("@");
    StripPlain(version);
  }

  /** Up to its first colon a package with its version has the whole package. */
  lemma FirstColon(package: string, version: string)
    requires ':' !in package
    ensures Split(package + "@" + version, ':')[0] == package + "@" + Until(version, ':')
  {
    var s := package + "@" + version;
    if ':' in version {
      var i := Index(version, ':');
      var front := package + "@" + version[..i];
      assert s == front + [':'] + version[i + 1..];
      SplitFirst(front, ':', version[i + 1..]);
    }
  }

  lemma TwoParts(a: string, c: char)
    ensures |Split(a, c)| >= 2 <==> c in a
  {
  }

  /** The parser fails on a package line exactly if the package has a colon with no `@` before it. */
  lemma PackagePanics(s: State, f: Finding)
    requires s.Going? && Plain(f.package) && Plain(f.version)
    ensures Step(s, PackageOf(f)).Panic? <==> ':' in f.package && '@' !in Until(f.package, ':')
  {
    hide Step, PackageOf, RecordOf, Plain, Until;
    PackageRead(s, f);
  }

  /** Before the first colon of a package and its version there is an `@`, unless the version is lost. */
  lemma VersionFound(f: Finding)
    ensures '@' in Until(f.package + "@" + f.version, ':') <==> !LosesVersion(f)
  {
    hide Index;
    var rest := f.package + "@" + f.version;
    if ':' in f.package {
      UntilFirst(f.package, ':', "@" + f.version);
      assert rest == f.package + ("@" + f.version);
    } else {
      FirstColon(f.package, f.version);
      var first := f.package + "@" + Until(f.version, ':');
      assert first[|f.package|] == '@';
    }
  }

  /** What follows a string with a separator does not matter for its first part. */
  lemma UntilFirst(a: string, c: char, b: string)
    requires c in a
    ensures Until(a + b, c) == Until(a, c)
  {
    hide Index;
    var i := Index(a, c);
    assert a + b == a[..i] + [c] + (a[i + 1..] + b);
    SplitFirst(a[..i], c, a[i + 1..] + b);
    assert a == a[..i] + [c] + a[i + 1..];
    SplitFirst(a[..i], c, a[i + 1..]);
  }

  lemma FixedRead(s: State, f: Finding)
    requires s.Going? && Fits(f) && f.fixedBy != ""
    ensures Step(s, "\tFixed version:" + " " + f.fixedBy)
      == s.(patches := s.patches + 1, current := s.current.(fixed := f.fixedBy))
  {
    hide KindOf, Strip, Name, OneLine, Fits, Plain, Split, Trim, Index;
    FitsParts(f);
    var line := "\tFixed version:" + " " + f.fixedBy;
    assert line == "\t" + "Fixed version" + (": " + f.fixedBy);
    KindOfField("Fixed version", ": " + f.fixedBy);
    FixedStripped(f.fixedBy);
    FixedParts(f.fixedBy);
  }

  lemma FixedParts(fixedBy: string)
    requires Plain(fixedBy)
    ensures var stripped := "Fixedversion:" + fixedBy;
      ':' in stripped && Trim(stripped[Index(stripped, ':') + 1..], SPACES) == fixedBy
  {
    hide Trim, Index;
    IndexAt("Fixedversion", ':', fixedBy);
    assert "Fixedversion:" + fixedBy == "Fixedversion" + [':'] + fixedBy;
    TrimKeeps(fixedBy, SPACES);
  }

  lemma FixedStripped(fixedBy: string)
    requires Plain(fixedBy)
    ensures Strip("\tFixed version:" + " " + fixedBy) == "Fixedversion:" + fixedBy
  {
    hide Strip;
    assert "\tFixed version:" + " " + fixedBy == ("\t" + "Fixed" + " " + "version:") + " " + fixedBy;
    StripField("Fixed", " ", "version:");
    StripAppend(("\t" + "Fixed" + " " + "version:") + " ", fixedBy);
    StripAppend("\t" + "Fixed" + " " + "version:", " ");
    StripSpaces(" ");
    StripPlain(fixedBy);
  }

  lemma LinkRead(s: State, f: Finding)
    requires s.Going? && Fits(f)
    ensures Step(s, "\tLink:" + "          " + f.link) == s.(current := s.current.(link := f.link))
  {
    hide KindOf, Strip, Name, OneLine, Fits, Plain, Split;
    FitsParts(f);
    var line := "\tLink:" + "          " + f.link;
    assert line == "\t" + "Link" + (":          " + f.link);
    KindOfField("Link", ":          " + f.link);
    LinkStripped(f.link);
    assert ("Link:" + f.link)[5..] == f.link;
  }

  lemma LinkStripped(link: string)
    requires Plain(link)
    ensures Strip("\tLink:" + "          " + link) == "Link:" + link
  {
    hide Strip;
    assert "\tLink:" + "          " + link == "\t" + "Link:" + "          " + link;
    StripField("Link:", "          ", link);
  }

  lemma LayerRead(s: State, f: Finding)
    requires s.Going? && Fits(f)
    ensures Step(s, "\tLayer:" + "         " + f.layer) == s.(current := s.current.(layer := Until(f.layer, ':')))
  {
    hide KindOf, Strip, Name, OneLine, Fits, Plain, Split;
    FitsParts(f);
    var line := "\tLayer:" + "         " + f.layer;
    assert line == "\t" + "Layer" + (":         " + f.layer);
    KindOfField("Layer", ":         " + f.layer);
    LayerStripped(f.layer);
    assert "Layer:" + f.layer == "Layer" + [':'] + f.layer;
    SplitFirst("Layer", ':', f.layer);
  }

  lemma LayerStripped(layer: string)
    requires Plain(layer)
    ensures Strip("\tLayer:" + "         " + layer) == "Layer:" + layer
  {
    hide Strip;
    assert "\tLayer:" + "         " + layer == "\t" + "Layer:" + "         " + layer;
    StripField("Layer:", "         ", layer);
  }

  lemma {:induction false} AfterAppend(s: State, a: seq<string>, b: seq<string>)
    ensures After(s, a + b, |a| + |b|) == After(After(s, a, |a|), b, |b|)
  {
    hide Step, DropCR;
    if b == [] {
      assert a + b == a;
    } else {
      var n := |b| - 1;
      assert (a + b)[..|a| + n] == a + b[..n] && (a + b)[|a| + n] == b[n];
      AfterAppend(s, a, b[..n]);
      AfterPrefix(s, a + b, |a| + n);
      AfterPrefix(After(s, a, |a|), b, n);
    }
  }

  lemma AfterPrefix(s: State, lines: seq<string>, n: nat)
    requires n <= |lines|
    ensures After(s, lines[..n], n) == After(s, lines, n)
  {
    SameAfter(s, lines[..n], lines, n);
  }

  lemma {:induction false} SameAfter(s: State, a: seq<string>, b: seq<string>, n: nat)
    requires n <= |a| && n <= |b| && forall i | 0 <= i < n :: a[i] == b[i]
    ensures After(s, a, n) == After(s, b, n)
  {
    hide Step, DropCR;
    if n > 0 { SameAfter(s, a, b, n - 1); }
  }

  /** Reading the lines takes the parser from `s` to `s'`. */
  predicate Reads(s: State, lines: seq<string>, s': State) {
    After(s, lines, |lines|) == s'
  }

  lemma ReadsAppend(s: State, a: seq<string>, b: seq<string>, s1: State, s2: State)
    requires Reads(s, a, s1) && Reads(s1, b, s2)
    ensures Reads(s, a + b, s2)
  {
    hide After;
    AfterAppend(s, a, b);
  }

  predicate Clean(line: string) {
    '\r' !in line && '\n' !in line
  }

  lemma ReadsLine(s: State, line: string)
    requires s.Going? && Clean(line)
    ensures Reads(s, [line], Step(s, line))
  {
    hide Step;
    assert DropCR(line) == line;
    assert After(s, [line], 0) == s;
  }

  lemma ReadsNothing(s: State)
    ensures Reads(s, [], s)
  {
  }

  lemma EmptyRead(s: State)
    requires s.Going?
    ensures Step(s, "") == s
  {
  }

  lemma CleanHeader(f: Finding)
    requires Plain(f.name)
    ensures Clean(HeaderOf(f))
  {
    assert Clean(Name(f.severity)) by { match f.severity { case Defcon1 => case _ => } }
    hide Name;
  }

  lemma CleanPlain(field: string, value: string)
    requires Clean(field) && Plain(value)
    ensures Clean(field + value)
  {
  }

  lemma CleanEnds(f: Finding)
    requires Fits(f)
    ensures Clean(PackageOf(f)) && Clean(LayerOf(f)) && Clean("")
  {
    CleanPlain("\tPackage:" + "       ", f.package);
    CleanPlain("\tPackage:" + "       " + f.package + " @ ", f.version);
    CleanPlain("\tLayer:" + "         ", f.layer);
    hide Plain, OneLine;
  }

  lemma CleanFields(f: Finding)
    requires Fits(f)
    ensures forall line | line in FixedLines(f) + LinkLines(f) :: Clean(line)
  {
    CleanPlain("\tFixed version:" + " ", f.fixedBy);
    CleanPlain("\tLink:" + "          ", f.link);
    hide Plain, OneLine;
  }

  lemma CleanDescription(f: Finding)
    requires Fits(f)
    ensures forall line | line in DescriptionLines(f) :: Clean(line)
  {
    hide Plain;
  }

  lemma CleanLines(f: Finding)
    requires Fits(f)
    ensures Clean(HeaderOf(f)) && Clean(PackageOf(f)) && Clean(LayerOf(f))
    ensures forall line | line in DescriptionLines(f) + FixedLines(f) + LinkLines(f) :: Clean(line)
    ensures forall line | line in LinesOf(f) :: Clean(line)
  {
    hide HeaderOf, Plain, OneLine, Clean;
    CleanHeader(f);
    CleanEnds(f);
    CleanFields(f);
    CleanDescription(f);
    forall line | line in LinesOf(f) ensures Clean(line) {
      assert line in DescriptionLines(f) + FixedLines(f) + LinkLines(f)
        || line in [HeaderOf(f), PackageOf(f), LayerOf(f), ""];
    }
    hide DescriptionLines, FixedLines, LinkLines, PackageOf, LayerOf, Fits;
  }

  /** The record before is complete, or there is none yet. */
  predicate Ready(s: State) {
    s.Going? && (s.current == BLANK || (s.current.name != "" && s.current.severity != ""))
  }

  function Complete(s: State): seq<Record>
    requires s.Going?
  {
    if s.current == BLANK then s.list else s.list + [s.current]
  }

  lemma DescriptionReads(s: State, f: Finding)
    requires s.Going? && Fits(f) && s.current.description == ""
    ensures Reads(s, DescriptionLines(f), s.(current := s.current.(description :=
      if f.description == "" then "" else Remove(f.description, '\t') + " ")))
  {
    CleanLines(f);
    hide Step, Reads, Remove, Clean, HeaderOf, PackageOf, LayerOf, Fits;
    if f.description == "" {
      ReadsNothing(s);
    } else {
      assert OneLine(f.description) by { FitsParts(f); }
      hide OneLine;
      DescriptionRead(s, f.description);
      var s1 := Step(s, "\t" + f.description);
      assert Clean(DescriptionLines(f)[0]) && Clean(DescriptionLines(f)[1]);
      ReadsLine(s, "\t" + f.description);
      EmptyRead(s1);
      ReadsLine(s1, "");
      ReadsAppend(s, ["\t" + f.description], [""], s1, s1);
      assert ["\t" + f.description] + [""] == DescriptionLines(f);
    }
  }

  lemma FixedReads(s: State, f: Finding)
    requires s.Going? && Fits(f) && s.current.fixed == ""
    ensures Reads(s, FixedLines(f), s.(patches := s.patches + (if f.fixedBy == "" then 0 else 1),
                                       current := s.current.(fixed := f.fixedBy)))
  {
    CleanLines(f);
    hide Step, Reads, Clean, HeaderOf, PackageOf, LayerOf, Fits;
    if f.fixedBy == "" {
      ReadsNothing(s);
    } else {
      FixedRead(s, f);
      assert Clean(FixedLines(f)[0]);
      ReadsLine(s, FixedLines(f)[0]);
    }
  }

  lemma LinkReads(s: State, f: Finding)
    requires s.Going? && Fits(f) && s.current.link == ""
    ensures Reads(s, LinkLines(f), s.(current := s.current.(link := f.link)))
  {
    CleanLines(f);
    hide Step, Reads, Clean, HeaderOf, PackageOf, LayerOf, Fits;
    if f.link == "" {
      ReadsNothing(s);
    } else {
      LinkRead(s, f);
      assert Clean(LinkLines(f)[0]);
      ReadsLine(s, LinkLines(f)[0]);
    }
  }

  lemma LayerReads(s: State, f: Finding)
    requires s.Going? && Fits(f)
    ensures Reads(s, [LayerOf(f), ""], s.(current := s.current.(layer := Until(f.layer, ':'))))
  {
    CleanLines(f);
    LayerRead(s, f);
    hide Step, Reads, Until, HeaderOf, PackageOf, Fits;
    var s1 := Step(s, LayerOf(f));
    ReadsLine(s, LayerOf(f));
    EmptyRead(s1);
    ReadsLine(s1, "");
    ReadsAppend(s, [LayerOf(f)], [""], s1, s1);
    assert [LayerOf(f)] + [""] == [LayerOf(f), ""];
  }

  lemma HeaderReads(s: State, f: Finding)
    requires Ready(s) && Fits(f)
    ensures Reads(s, [HeaderOf(f)], Going(Complete(s), BLANK.(name := f.name, severity := Name(f.severity)),
      s.total + 1, s.patches, Bump(s.levels, LevelOf(HeaderOf(f)))))
  {
    hide Step, Reads, Clean, Name, LevelOf, Bump, Fits;
    CleanLines(f);
    HeaderRead(s, f);
    ReadsLine(s, HeaderOf(f));
  }

  lemma PackageReads(s: State, f: Finding)
    requires s.Going? && Readable(f)
    ensures Reads(s, [PackageOf(f)], s.(current := s.current.(package := RecordOf(f).package,
                                                              version := RecordOf(f).version)))
  {
    hide Step, Reads, Clean, Fits, RecordOf, PackageOf, LosesVersion;
    CleanLines(f);
    FitsParts(f);
    PackageRead(s, f);
    ReadsLine(s, PackageOf(f));
  }

  /** Reading the lines of one finding turns it into one record. */
  lemma FindingRead(s: State, f: Finding)
    requires Ready(s) && Readable(f)
    ensures Reads(s, LinesOf(f), Going(Complete(s), RecordOf(f), s.total + 1,
      s.patches + (if f.fixedBy == "" then 0 else 1), Bump(s.levels, LevelOf(HeaderOf(f)))))
  {
    hide Step, Reads, Name, LevelOf, Bump, Remove, Until, Split, Fits;
    hide HeaderOf, PackageOf, LayerOf, DescriptionLines, FixedLines, LinkLines;
    var r := RecordOf(f);
    HeaderReads(s, f);
    var s1 := Going(Complete(s), BLANK.(name := f.name, severity := Name(f.severity)), s.total + 1, s.patches,
                    Bump(s.levels, LevelOf(HeaderOf(f))));
    DescriptionReads(s1, f);
    var s2 := s1.(current := s1.current.(description := r.description));
    ReadsAppend(s, [HeaderOf(f)], DescriptionLines(f), s1, s2);
    PackageReads(s2, f);
    var s3 := s2.(current := s2.current.(package := r.package, version := r.version));
    ReadsAppend(s, [HeaderOf(f)] + DescriptionLines(f), [PackageOf(f)], s2, s3);
    FixedReads(s3, f);
    var s4 := s3.(patches := s3.patches + (if f.fixedBy == "" then 0 else 1),
                  current := s3.current.(fixed := f.fixedBy));
    ReadsAppend(s, [HeaderOf(f)] + DescriptionLines(f) + [PackageOf(f)], FixedLines(f), s3, s4);
    LinkReads(s4, f);
    var s5 := s4.(current := s4.current.(link := f.link));
    ReadsAppend(s, [HeaderOf(f)] + DescriptionLines(f) + [PackageOf(f)] + FixedLines(f), LinkLines(f), s4, s5);
    LayerReads(s5, f);
    ReadsAppend(s, [HeaderOf(f)] + DescriptionLines(f) + [PackageOf(f)] + FixedLines(f) + LinkLines(f),
                [LayerOf(f), ""], s5, s5.(current := s5.current.(layer := r.layer)));
  }

  function Records(findings: seq<Finding>, n: nat): (r: seq<Record>)
    requires n <= |findings|
    ensures |r| == n
  {
    if n == 0 then [] else Records(findings, n - 1) + [RecordOf(findings[n - 1])]
  }

  lemma {:induction false} RecordAt(findings: seq<Finding>, n: nat, i: nat)
    requires i < n <= |findings|
    ensures Records(findings, n)[i] == RecordOf(findings[i])
  {
    hide RecordOf;
    if i < n - 1 { RecordAt(findings, n - 1, i); }
  }

  /** How many of the first `n` findings have a fixed version. */
  function Patched(findings: seq<Finding>, n: nat): nat
    requires n <= |findings|
  {
    if n == 0 then 0 else Patched(findings, n - 1) + if findings[n - 1].fixedBy == "" then 0 else 1
  }

  function LevelsOf(findings: seq<Finding>, n: nat): Levels
    requires n <= |findings|
  {
    if n == 0 then Levels(0, 0, 0, 0, 0, 0) else Bump(LevelsOf(findings, n - 1), LevelOf(HeaderOf(findings[n - 1])))
  }

  /** The parser after `n` findings; the last record is still open. */
  function StateAfter(findings: seq<Finding>, n: nat): (s: State)
    requires n <= |findings|
    ensures s.Going?
  {
    if n == 0 then START
    else Going(Records(findings, n - 1), RecordOf(findings[n - 1]), n, Patched(findings, n), LevelsOf(findings, n))
  }

  lemma ReadyAfter(findings: seq<Finding>, n: nat)
    requires n <= |findings| && forall i | 0 <= i < n :: Readable(findings[i])
    ensures Ready(StateAfter(findings, n)) && Complete(StateAfter(findings, n)) == Records(findings, n)
  {
    hide Readable, RecordOf, Patched, LevelsOf;
    if n > 0 { RecordIsComplete(findings[n - 1]); }
  }

  /** Reading the lines of `n` findings gives `n` records, in order. */
  lemma {:induction false} FindingsRead(findings: seq<Finding>, n: nat)
    requires n <= |findings| && forall i | 0 <= i < n :: Readable(findings[i])
    ensures Reads(START, AllLines(findings, n), StateAfter(findings, n))
  {
    hide Reads, LinesOf, Readable, RecordOf, LevelOf, Bump, HeaderOf, Ready, Complete;
    if n == 0 {
      ReadsNothing(START);
    } else {
      var s := StateAfter(findings, n - 1);
      FindingsRead(findings, n - 1);
      ReadyAfter(findings, n - 1);
      FindingRead(s, findings[n - 1]);
      ReadsAppend(START, AllLines(findings, n - 1), LinesOf(findings[n - 1]), s, StateAfter(findings, n));
    }
  }

  lemma RecordIsComplete(f: Finding)
    requires Readable(f)
    ensures RecordOf(f).name != "" && RecordOf(f).severity != ""
  {
  }

  /** The lines of a finding whose version is lost stop the parser. */
  lemma FindingPanics(s: State, f: Finding)
    requires Ready(s) && Fits(f) && LosesVersion(f)
    ensures Reads(s, LinesOf(f), Panic)
  {
    hide Step, Reads, Name, LevelOf, Bump, Remove, RecordOf, Fits, LosesVersion;
    hide HeaderOf, PackageOf, LayerOf, DescriptionLines, FixedLines, LinkLines;
    HeaderReads(s, f);
    var s1 := Going(Complete(s), BLANK.(name := f.name, severity := Name(f.severity)), s.total + 1, s.patches,
                    Bump(s.levels, LevelOf(HeaderOf(f))));
    DescriptionReads(s1, f);
    var s2 := s1.(current := s1.current.(description :=
      if f.description == "" then "" else Remove(f.description, '\t') + " "));
    ReadsAppend(s, [HeaderOf(f)], DescriptionLines(f), s1, s2);
    FitsParts(f);
    PackageRead(s2, f);
    CleanLines(f);
    ReadsLine(s2, PackageOf(f));
    ReadsAppend(s, [HeaderOf(f)] + DescriptionLines(f), [PackageOf(f)], s2, Panic);
    var rest := FixedLines(f) + LinkLines(f) + [LayerOf(f), ""];
    PanicReads(rest);
    ReadsAppend(s, [HeaderOf(f)] + DescriptionLines(f) + [PackageOf(f)], rest, Panic, Panic);
    assert [HeaderOf(f)] + DescriptionLines(f) + [PackageOf(f)] + rest == LinesOf(f);
  }

  lemma PanicReads(lines: seq<string>)
    ensures Reads(Panic, lines, Panic)
  {
  }

  /** One such finding is enough to stop it. */
  lemma {:induction false} FindingsPanic(findings: seq<Finding>, n: nat)
    requires n <= |findings| && forall i | 0 <= i < n :: Fits(findings[i])
    requires exists i | 0 <= i < n :: LosesVersion(findings[i])
    ensures Reads(START, AllLines(findings, n), Panic)
  {
    hide Reads, LinesOf, Fits, LosesVersion, RecordOf, Ready, Complete, StateAfter;
    var f := findings[n - 1];
    if exists i | 0 <= i < n - 1 :: LosesVersion(findings[i]) {
      FindingsPanic(findings, n - 1);
      PanicReads(LinesOf(f));
      ReadsAppend(START, AllLines(findings, n - 1), LinesOf(f), Panic, Panic);
    } else {
      FindingsRead(findings, n - 1);
      ReadyAfter(findings, n - 1);
      FindingPanics(StateAfter(findings, n - 1), f);
      ReadsAppend(START, AllLines(findings, n - 1), LinesOf(f), StateAfter(findings, n - 1), Panic);
    }
  }

  lemma {:induction false} SplitText(lines: seq<string>)
    requires forall line | line in lines :: '\n' !in line
    ensures Split(Text(lines), '\n') == lines + [""]
  {
    if lines == [] {
      assert Split("", '\n') == [""];
    } else {
      assert lines == [lines[0]] + lines[1..];
      SplitText(lines[1..]);
      SplitFirst(lines[0], '\n', Text(lines[1..]));
    }
  }

  lemma {:induction false} AllClean(findings: seq<Finding>, n: nat)
    requires n <= |findings| && forall i | 0 <= i < n :: Fits(findings[i])
    ensures forall line | line in AllLines(findings, n) :: Clean(line)
  {
    hide LinesOf, Fits, Clean;
    if n > 0 {
      AllClean(findings, n - 1);
      CleanLines(findings[n - 1]);
    }
  }

  lemma {:induction false} FirstLine(findings: seq<Finding>, n: nat)
    requires 0 < n <= |findings|
    ensures AllLines(findings, n) != [] && AllLines(findings, n)[0] == HeaderOf(findings[0])
  {
    hide HeaderOf;
    if n > 1 { FirstLine(findings, n - 1); }
  }

  lemma MentionsOne(findings: seq<Finding>)
    requires findings != [] && Fits(findings[0])
    ensures var text := Text(AllLines(findings, |findings|)); Contains(text, "CVE-") || Contains(text, "RHSA-")
  {
    hide LinesOf, AllLines, Contains, OneLine, Plain, Name;
    FirstLine(findings, |findings|);
    var text := Text(AllLines(findings, |findings|));
    assert findings[0].name <= HeaderOf(findings[0]) <= text;
    StartIsInside(text, "CVE-");
    StartIsInside(text, "RHSA-");
  }

  lemma StartIsInside(text: string, sub: string)
    ensures sub <= text ==> Contains(text, sub)
  {
    assert text[0..] == text;
  }

  /** The phrases by which the summary takes a text for something else than a list. */
  predicate Sentinel(text: string) {
    || Contains(text, "Success!") || Contains(text, "No vulnerabilities")
    || Contains(text, "the image isn't supported by Clair")
  }

  /** What the lines of the findings do to the parser, their text does. */
  lemma TextReads(findings: seq<Finding>, s: State)
    requires forall i | 0 <= i < |findings| :: Fits(findings[i])
    requires Reads(START, AllLines(findings, |findings|), s)
    ensures Reads(START, Split(Text(AllLines(findings, |findings|)), '\n'), s)
  {
    hide Fits, AllLines, Text, Split, Step, Clean, Reads;
    var n := |findings|;
    AllClean(findings, n);
    forall line | line in AllLines(findings, n) ensures '\n' !in line { CleanMeans(line); }
    SplitText(AllLines(findings, n));
    if s.Panic? {
      PanicReads([""]);
    } else {
      EmptyRead(s);
      CleanEmpty();
      ReadsLine(s, "");
    }
    ReadsAppend(START, AllLines(findings, n), [""], s, s);
  }

  /** What was printed is read back: every finding as one record, in order, with name, severity, link
      and fixed version, and the counters of all and of the patched ones. */
  lemma SummaryInvertsPrint(findings: seq<Finding>)
    requires findings != [] && forall i | 0 <= i < |findings| :: Readable(findings[i])
    requires !Sentinel(Text(AllLines(findings, |findings|)))
    ensures var n := |findings|;
      Summary(Text(AllLines(findings, n))) == Info(n, Patched(findings, n), LevelsOf(findings, n), Records(findings, n))
    ensures forall i | 0 <= i < |findings| :: var r, f := Records(findings, |findings|)[i], findings[i];
      && r.name == f.name && r.severity == Name(f.severity) && r.link == f.link && r.fixed == f.fixedBy
      && r.layer == Until(f.layer, ':')
      && r.description == (if f.description == "" then "" else Remove(f.description, '\t') + " ")
      && (r.package == f.package && r.version == f.version <==>
            '@' !in f.package && ':' !in f.package && '@' !in f.version && ':' !in f.version)
  {
    hide Contains, Fits, LosesVersion, AllLines, Text, Split, Patched, LevelsOf, After, Name, Remove, Until, RecordOf;
    MentionsOne(findings);
    FindingsRead(findings, |findings|);
    TextReads(findings, StateAfter(findings, |findings|));
    forall i | 0 <= i < |findings| ensures Records(findings, |findings|)[i] == RecordOf(findings[i]) {
      RecordAt(findings, |findings|, i);
    }
    forall i | 0 <= i < |findings| { RecordIs(findings[i]); }
  }

  /** What a record says of its finding. */
  lemma RecordIs(f: Finding)
    ensures var r := RecordOf(f);
      && r.name == f.name && r.severity == Name(f.severity) && r.link == f.link && r.fixed == f.fixedBy
      && r.layer == Until(f.layer, ':')
      && r.description == (if f.description == "" then "" else Remove(f.description, '\t') + " ")
      && (r.package == f.package && r.version == f.version <==>
            '@' !in f.package && ':' !in f.package && '@' !in f.version && ':' !in f.version)
  {
    hide Name, Remove, Until;
    PackageIsRead(f);
  }

  /** The summary of a printed report fails exactly if the version of some finding is lost. */
  lemma SummaryFails(findings: seq<Finding>)
    requires findings != [] && forall i | 0 <= i < |findings| :: Fits(findings[i])
    requires !Sentinel(Text(AllLines(findings, |findings|)))
    ensures Summary(Text(AllLines(findings, |findings|))) == Failed <==>
      exists i | 0 <= i < |findings| :: ':' in findings[i].package && '@' !in Until(findings[i].package, ':')
  {
    hide Contains, Fits, AllLines, Text, Split, Patched, LevelsOf, After, Until, Records, RecordOf;
    if exists i | 0 <= i < |findings| :: LosesVersion(findings[i]) {
      MentionsOne(findings);
      FindingsPanic(findings, |findings|);
      TextReads(findings, Panic);
    } else {
      forall i | 0 <= i < |findings| ensures Readable(findings[i]) { assert !LosesVersion(findings[i]); }
      SummaryInvertsPrint(findings);
    }
  }

  lemma CleanEmpty()
    ensures Clean("")
  {
  }

  lemma CleanMeans(line: string)
    requires Clean(line)
    ensures '\n' !in line && '\r' !in line
  {
  }

  /** Package and version are read back exactly if neither has an `@` or a colon. */
  lemma PackageIsRead(f: Finding)
    ensures RecordOf(f).package == f.package && RecordOf(f).version == f.version <==>
      '@' !in f.package && ':' !in f.package && '@' !in f.version && ':' !in f.version
  {
    hide Index;
    var names := NamesOf(f);
    if '@' !in f.package && ':' !in f.package && '@' !in f.version && ':' !in f.version {
      FirstColon(f.package, f.version);
      assert f.package + "@" + f.version == f.package + ['@'] + f.version;
      SplitFirst(f.package, '@', f.version);
    } else if names[0] == f.package && |names| >= 2 && names[1] == f.version {
      PartsOf(Until(f.package + "@" + f.version, ':'), '@', ':');
    }
  }

  /** The parts of a string have no characters it does not have. */
  lemma {:induction false} PartsOf(s: string, c: char, other: char)
    requires other !in s
    ensures forall part | part in Split(s, c) :: other !in part
    decreases |s|
  {
    if c in s { PartsOf(s[Index(s, c) + 1..], c, other); }
  }

  /** A version with an epoch loses what follows its colon. */
  lemma EpochIsRead(f: Finding, epoch: string, version: string)
    requires f.version == epoch + ":" + version && ':' !in epoch && '@' !in epoch
    requires '@' !in f.package && ':' !in f.package
    ensures RecordOf(f).package == f.package && RecordOf(f).version == epoch
  {
    hide Index;
    FirstColon(f.package, f.version);
    assert f.version == epoch + [':'] + version;
    SplitFirst(epoch, ':', version);
    assert f.package + "@" + epoch == f.package + ['@'] + epoch;
    SplitFirst(f.package, '@', epoch);
  }

  /** The version `1:2` is shown as `1`. */
  lemma EpochShown(s: State, f: Finding)
    requires s.Going? && f.package == "bash" && f.version == "1:2"
    ensures Step(s, PackageOf(f)).Going? && Step(s, PackageOf(f)).current.version == "1"
  {
    hide Step, PackageOf, RecordOf;
    PackageRead(s, f);
    assert f.version == "1" + ":" + "2";
    EpochIsRead(f, "1", "2");
  }

  function Sum(l: Levels): nat {
    l.high + l.critical + l.medium + l.low + l.negligible + l.unknown
  }

  lemma BumpAddsOne(l: Levels, s: Severity)
    ensures Sum(Bump(l, s)) == Sum(l) + 1
  {
  }

  lemma NoLevels()
    ensures Sum(Levels(0, 0, 0, 0, 0, 0)) == 0
  {
  }

  /** The level counters add up to the number of findings, whatever the names are. */
  lemma {:induction false} LevelsAddUp(findings: seq<Finding>, n: nat)
    requires n <= |findings|
    ensures Sum(LevelsOf(findings, n)) == n
  {
    hide LevelOf, HeaderOf, Bump, Sum;
    if n == 0 {
      NoLevels();
    } else {
      LevelsAddUp(findings, n - 1);
      BumpAddsOne(LevelsOf(findings, n - 1), LevelOf(HeaderOf(findings[n - 1])));
    }
  }

  function Initial(s: Severity): char {
    match s
    case Unknown => 'U' case Negligible => 'N' case Low => 'L' case Medium => 'M'
    case High => 'H' case Critical => 'C' case Defcon1 => 'D'
  }

  /** A severity is a word with one capital, its first letter. */
  lemma NameLetters(s: Severity)
    ensures |Name(s)| > 0 && Name(s)[0] == Initial(s)
    ensures forall i | 0 < i < |Name(s)| :: !('A' <= Name(s)[i] <= 'Z')
    ensures forall i | 0 <= i < |Name(s)| :: Name(s)[i] !in " ()"
  {
  }

  predicate At(s: string, i: nat, w: string) {
    i <= |s| && w <= s[i..]
  }

  lemma WordAt(s: string, i: nat, w: string, k: nat)
    requires At(s, i, w) && k < |w|
    ensures i + k < |s| && s[i + k] == w[k]
  {
    assert s[i..][k] == w[k];
  }

  lemma AtOf(s: string, i: nat, w: string)
    requires i + |w| <= |s| && forall k | 0 <= k < |w| :: s[i + k] == w[k]
    ensures At(s, i, w)
  {
  }

  /** A level word occurs in a header line exactly if it is the severity, names without such words. */
  lemma WordInHeader(name: string, sev: Severity, w: Severity)
    requires !Contains(name, Name(w))
    ensures Contains(name + " (" + Name(sev) + ")", Name(w)) <==> sev == w
  {
    NameLetters(sev);
    NameLetters(w);
    hide Name;
    var line, word := name + " (" + Name(sev) + ")", Name(w);
    if sev == w {
      AtOf(line, |name| + 2, word);
      assert word <= line[|name| + 2..];
    }
    if Contains(line, word) {
      var i :| 0 <= i <= |line| && word <= line[i..];
      WordPlace(name, Name(sev), i, word);
      var k := i - |name| - 2;
      WordAt(line, i, word, 0);
      assert line[i] == Name(sev)[k];
    }
  }

  /** A word without blanks and parentheses has none where it stands. */
  lemma WordChar(s: string, i: nat, word: string, at: nat)
    requires At(s, i, word) && i <= at < i + |word| && forall k | 0 <= k < |word| :: word[k] !in " ()"
    ensures at < |s| && s[at] !in " ()"
  {
    WordAt(s, i, word, at - i);
  }

  lemma WordInFront(a: string, b: string, i: nat, word: string)
    requires At(a + b, i, word) && i + |word| <= |a|
    ensures Contains(a, word)
  {
    forall k | 0 <= k < |word| ensures a[i + k] == word[k] { WordAt(a + b, i, word, k); }
    AtOf(a, i, word);
    assert word <= a[i..];
  }

  /** Where such a word can be in a header line whose name does not have it. */
  lemma WordPlace(name: string, sev: string, i: nat, word: string)
    requires At(name + " (" + sev + ")", i, word) && !Contains(name, word) && word != ""
    requires forall k | 0 <= k < |word| :: word[k] !in " ()"
    ensures |name| + 2 <= i < |name| + 2 + |sev|
  {
    hide Contains, At;
    var line := name + " (" + sev + ")";
    assert line[|name|] == ' ' && line[|name| + 1] == '(' && line[|line| - 1] == ')';
    assert line == name + (" (" + sev + ")");
    WordChar(line, i, word, i);
    if i <= |name| < i + |word| { WordChar(line, i, word, |name|); }
    if i + |word| <= |name| { WordInFront(name, " (" + sev + ")", i, word); }
  }

  const LEVEL_WORDS: seq<string> := ["High", "Critical", "Medium", "Low", "Negligible"]

  /** A line counts for the first of these words it has anywhere, and for none of them as unknown. */
  lemma LevelIsFirst(line: string)
    ensures (forall i | 0 <= i < 5 :: !Contains(line, LEVEL_WORDS[i])) ==> LevelOf(line) == Unknown
    ensures forall i | 0 <= i < 5 && Contains(line, LEVEL_WORDS[i])
        && (forall k | 0 <= k < i :: !Contains(line, LEVEL_WORDS[k])) ::
      Name(LevelOf(line)) == LEVEL_WORDS[i]
  {
    hide Contains;
    assert LEVEL_WORDS[0] == "High" && LEVEL_WORDS[1] == "Critical" && LEVEL_WORDS[2] == "Medium";
    assert LEVEL_WORDS[3] == "Low" && LEVEL_WORDS[4] == "Negligible";
  }

  /** No level word in the name. */
  predicate PlainName(f: Finding) {
    forall w: Severity :: !Contains(f.name, Name(w))
  }

  /** Then a line counts for the severity it shows; Defcon1 counts as unknown. */
  lemma LevelIsSeverity(f: Finding)
    requires PlainName(f)
    ensures LevelOf(HeaderOf(f)) == if f.severity == Defcon1 then Unknown else f.severity
  {
    WordInHeader(f.name, f.severity, High);
    WordInHeader(f.name, f.severity, Critical);
    WordInHeader(f.name, f.severity, Medium);
    WordInHeader(f.name, f.severity, Low);
    WordInHeader(f.name, f.severity, Negligible);
    assert Name(High) == "High" && Name(Critical) == "Critical" && Name(Medium) == "Medium";
    assert Name(Low) == "Low" && Name(Negligible) == "Negligible";
    hide Contains, Name;
  }

  /** How many of the first `n` findings have the severity `s`. */
  function HowMany(findings: seq<Finding>, n: nat, s: Severity): nat
    requires n <= |findings|
  {
    if n == 0 then 0 else HowMany(findings, n - 1, s) + if findings[n - 1].severity == s then 1 else 0
  }

  /** Every counter is the number of findings of its severity; those of Defcon1 are under unknown. */
  lemma {:induction false} LevelsAreSeverities(findings: seq<Finding>, n: nat)
    requires n <= |findings| && forall i | 0 <= i < n :: PlainName(findings[i])
    ensures var l := LevelsOf(findings, n);
      && l.high == HowMany(findings, n, High) && l.critical == HowMany(findings, n, Critical)
      && l.medium == HowMany(findings, n, Medium) && l.low == HowMany(findings, n, Low)
      && l.negligible == HowMany(findings, n, Negligible)
      && l.unknown == HowMany(findings, n, Unknown) + HowMany(findings, n, Defcon1)
  {
    hide LevelOf, HeaderOf, PlainName;
    if n > 0 {
      LevelsAreSeverities(findings, n - 1);
      LevelIsSeverity(findings[n - 1]);
    }
  }

  /** So does the summary of a printed report count. */
  lemma SummaryCounts(findings: seq<Finding>)
    requires findings != [] && forall i | 0 <= i < |findings| :: Readable(findings[i]) && PlainName(findings[i])
    requires !Sentinel(Text(AllLines(findings, |findings|)))
    ensures var n, a := |findings|, Summary(Text(AllLines(findings, |findings|)));
      && a.Info? && a.total == n
      && a.levels.high == HowMany(findings, n, High) && a.levels.critical == HowMany(findings, n, Critical)
      && a.levels.medium == HowMany(findings, n, Medium) && a.levels.low == HowMany(findings, n, Low)
      && a.levels.negligible == HowMany(findings, n, Negligible)
      && a.levels.unknown == HowMany(findings, n, Unknown) + HowMany(findings, n, Defcon1)
      && a.patches == |set i | 0 <= i < n && findings[i].fixedBy != ""|
  {
    hide Summary, Text, AllLines, Readable, PlainName, LevelsOf, HowMany, Patched, Records, Sentinel;
    SummaryInvertsPrint(findings);
    LevelsAreSeverities(findings, |findings|);
    PatchedAre(findings, |findings|);
  }

  lemma {:induction false} PatchedAre(findings: seq<Finding>, n: nat)
    requires n <= |findings|
    ensures Patched(findings, n) == |set i | 0 <= i < n && findings[i].fixedBy != ""|
  {
    if n > 0 {
      PatchedAre(findings, n - 1);
      assert (set i | 0 <= i < n && findings[i].fixedBy != "")
        == (set i | 0 <= i < n - 1 && findings[i].fixedBy != "")
           + if findings[n - 1].fixedBy != "" then {n - 1} else {};
    }
  }

  /** What a line counts for in Count: nothing if it is no header or has no word it looks for. */
  datatype Weight = Neither | Heavy | Light

  function WeightOf(line: string): Weight {
    if line == "" || !IsHeader(line) then Neither
    else if Contains(line, "Low") then Light
    else if Contains(line, "Negligible") then Light
    else if Contains(line, "Medium") then Light
    else if Contains(line, "High") || Contains(line, "Critical") then Heavy
    else if Contains(line, "Unknown") then Light
    else Neither
  }

  function Weigh(lines: seq<string>, n: nat, w: Weight): nat
    requires n <= |lines|
  {
    if n == 0 then 0 else Weigh(lines, n - 1, w) + if WeightOf(DropCR(lines[n - 1])) == w then 1 else 0
  }

  /** A header line is light if it has a light word, whatever else it has; heavy if it has only heavy ones. */
  lemma WeightIs(line: string)
    ensures WeightOf(line) == Light <==>
      && IsHeader(line)
      && (Contains(line, "Low") || Contains(line, "Negligible") || Contains(line, "Medium")
          || (Contains(line, "Unknown") && !Contains(line, "High") && !Contains(line, "Critical")))
    ensures WeightOf(line) == Heavy <==>
      && IsHeader(line)
      && (Contains(line, "High") || Contains(line, "Critical"))
      && !Contains(line, "Low") && !Contains(line, "Negligible") && !Contains(line, "Medium")
  {
    hide Contains;
  }

  method Count(content: string) returns (highNum: nat, otherNum: nat)
    ensures var lines := Split(content, '\n');
      highNum == Weigh(lines, |lines|, Heavy) && otherNum == Weigh(lines, |lines|, Light)
  {
    hide Contains, IsHeader, Split, DropCR;
    highNum, otherNum := 0, 0;
    var lines := Split(content, '\n');
    for i := 0 to |lines|
      invariant highNum == Weigh(lines, i, Heavy) && otherNum == Weigh(lines, i, Light)
    {
      var line := DropCR(lines[i]);
      if line == "" {
        continue;
      }
      if IsHeader(line) {
        if Contains(line, "Low") {
          otherNum := otherNum + 1;
        } else if Contains(line, "Negligible") {
          otherNum := otherNum + 1;
        } else if Contains(line, "Medium") {
          otherNum := otherNum + 1;
        } else if Contains(line, "High") || Contains(line, "Critical") {
          highNum := highNum + 1;
        } else if Contains(line, "Unknown") {
          otherNum := otherNum + 1;
        }
      }
    }
  }

  lemma HeaderWeighs(f: Finding)
    requires Fits(f)
    ensures HeaderOf(f) != "" && IsHeader(HeaderOf(f))
  {
    hide Name, Plain, OneLine;
    var sev := "(" + Name(f.severity) + ")";
    assert HeaderOf(f) == f.name + [' '] + sev;
    HeaderLine(f.name, sev, HeaderOf(f));
  }

  lemma WeightOfHeader(f: Finding)
    requires Fits(f) && PlainName(f)
    ensures WeightOf(HeaderOf(f))
      == if f.severity in {High, Critical} then Heavy else if f.severity == Defcon1 then Neither else Light
  {
    WordInHeader(f.name, f.severity, High);
    WordInHeader(f.name, f.severity, Critical);
    WordInHeader(f.name, f.severity, Medium);
    WordInHeader(f.name, f.severity, Low);
    WordInHeader(f.name, f.severity, Negligible);
    WordInHeader(f.name, f.severity, Unknown);
    HeaderWeighs(f);
    assert Name(High) == "High" && Name(Critical) == "Critical" && Name(Medium) == "Medium";
    assert Name(Low) == "Low" && Name(Negligible) == "Negligible" && Name(Unknown) == "Unknown";
    hide Contains, Name, IsHeader, Fits;
  }

  /** How many of the first `n` findings weigh `w`. */
  function Severe(findings: seq<Finding>, n: nat, w: Weight): nat
    requires n <= |findings|
  {
    if n == 0 then 0 else
    var s := findings[n - 1].severity;
    Severe(findings, n - 1, w)
      + if w == (if s in {High, Critical} then Heavy else if s == Defcon1 then Neither else Light) then 1 else 0
  }

  lemma {:induction false} WeighAppend(a: seq<string>, b: seq<string>, n: nat, w: Weight)
    requires n <= |b|
    ensures Weigh(a + b, |a| + n, w) == Weigh(a, |a|, w) + Weigh(b, n, w)
  {
    hide WeightOf, DropCR;
    if n == 0 {
      SameWeigh(a + b, a, |a|, w);
    } else {
      WeighAppend(a, b, n - 1, w);
      assert (a + b)[|a| + n - 1] == b[n - 1];
    }
  }

  lemma {:induction false} SameWeigh(a: seq<string>, b: seq<string>, n: nat, w: Weight)
    requires n <= |a| && n <= |b| && forall i | 0 <= i < n :: a[i] == b[i]
    ensures Weigh(a, n, w) == Weigh(b, n, w)
  {
    hide WeightOf, DropCR;
    if n > 0 { SameWeigh(a, b, n - 1, w); }
  }

  lemma NoWeight(line: string)
    requires Clean(line) && (line == "" || line[0] == '\t')
    ensures WeightOf(DropCR(line)) == Neither
  {
    hide IsHeader, Contains;
    assert DropCR(line) == line;
    if line != "" { NotHeader(line); }
  }

  lemma {:induction false} Weightless(lines: seq<string>, n: nat, w: Weight)
    requires n <= |lines| && w != Neither
    requires forall line | line in lines :: Clean(line) && (line == "" || line[0] == '\t')
    ensures Weigh(lines, n, w) == 0
  {
    hide WeightOf, DropCR, Clean;
    if n > 0 {
      Weightless(lines, n - 1, w);
      assert lines[n - 1] in lines;
      NoWeight(lines[n - 1]);
    }
  }

  /** No field line looks like a header. */
  lemma FieldLinesStart(f: Finding)
    ensures PackageOf(f) != "" && PackageOf(f)[0] == '\t' && LayerOf(f) != "" && LayerOf(f)[0] == '\t'
    ensures forall line | line in DescriptionLines(f) + FixedLines(f) + LinkLines(f) :: line == "" || line[0] == '\t'
  {
    assert forall line | line in DescriptionLines(f) :: line == "" || line[0] == '\t';
    assert forall line | line in FixedLines(f) :: line == "" || line[0] == '\t';
    assert forall line | line in LinkLines(f) :: line == "" || line[0] == '\t';
    hide DescriptionLines, FixedLines, LinkLines;
  }

  lemma WeighFinding(f: Finding, w: Weight)
    requires Fits(f) && PlainName(f) && w != Neither
    ensures Weigh(LinesOf(f), |LinesOf(f)|, w) == if WeightOf(HeaderOf(f)) == w then 1 else 0
  {
    hide HeaderOf, WeightOf, Fits, PackageOf, LayerOf, DescriptionLines, FixedLines, LinkLines, Clean, PlainName;
    var head := [HeaderOf(f)];
    var rest := DescriptionLines(f) + [PackageOf(f)] + FixedLines(f) + LinkLines(f) + [LayerOf(f), ""];
    assert LinesOf(f) == head + rest;
    CleanLines(f);
    FieldLinesStart(f);
    forall line | line in rest ensures Clean(line) && (line == "" || line[0] == '\t') {
      assert line in LinesOf(f);
      assert line in DescriptionLines(f) + FixedLines(f) + LinkLines(f) || line in [PackageOf(f), LayerOf(f), ""];
    }
    Weightless(rest, |rest|, w);
    WeighAppend(head, rest, |rest|, w);
    CleanMeans(head[0]);
    assert DropCR(head[0]) == head[0];
    assert Weigh(head, 0, w) == 0;
  }

  lemma NothingWeighed(lines: seq<string>, w: Weight)
    ensures Weigh(lines, 0, w) == 0
  {
  }

  lemma {:induction false} WeighFindings(findings: seq<Finding>, n: nat, w: Weight)
    requires n <= |findings| && w != Neither && forall i | 0 <= i < n :: Fits(findings[i]) && PlainName(findings[i])
    ensures Weigh(AllLines(findings, n), |AllLines(findings, n)|, w) == Severe(findings, n, w)
  {
    hide LinesOf, Fits, PlainName, WeightOf, HeaderOf, Weigh;
    if n == 0 {
      NothingWeighed([], w);
    } else {
      var f := findings[n - 1];
      WeighFindings(findings, n - 1, w);
      WeighFinding(f, w);
      WeightOfHeader(f);
      WeighAppend(AllLines(findings, n - 1), LinesOf(f), |LinesOf(f)|, w);
    }
  }

  /** On a printed report Count returns how many findings are high or critical, and how many are of the
      lower levels. A Defcon1 finding is in neither number. */
  lemma CountOfPrint(findings: seq<Finding>)
    requires forall i | 0 <= i < |findings| :: Fits(findings[i]) && PlainName(findings[i])
    ensures var lines := Split(Text(AllLines(findings, |findings|)), '\n');
      && Weigh(lines, |lines|, Heavy) == Severe(findings, |findings|, Heavy)
      && Weigh(lines, |lines|, Light) == Severe(findings, |findings|, Light)
  {
    hide Fits, PlainName, AllLines, Text, Split, Clean, WeightOf, Weigh, Severe;
    var all := AllLines(findings, |findings|);
    AllClean(findings, |findings|);
    forall line | line in all ensures '\n' !in line { CleanMeans(line); }
    SplitText(all);
    WeighFindings(findings, |findings|, Heavy);
    WeighFindings(findings, |findings|, Light);
    WeighAppend(all, [""], 1, Heavy);
    WeighAppend(all, [""], 1, Light);
    WeighNothing(Heavy);
    WeighNothing(Light);
  }

  lemma WeighNothing(w: Weight)
    requires w != Neither
    ensures Weigh([""], 1, w) == 0
  {
    assert Weigh([""], 0, w) == 0 && DropCR("") == "";
  }
}

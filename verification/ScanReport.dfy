/** What analyzeLayer says about an image, and when the summary takes that for a safe image. */
module ScanReport {
  import opened ClairReport
  import opened Strings

  /** The place of a severity in the order from the least to the gravest. */
  function Rank(s: Severity): nat {
    match s
    case Unknown => 0 case Negligible => 1 case Low => 2 case Medium => 3
    case High => 4 case Critical => 5 case Defcon1 => 6
  }

  /** From which severity on what is shown. */
  function AtLeast(least: Severity): set<Severity> {
    match least
    case Unknown => {Unknown, Negligible, Low, Medium, High, Critical, Defcon1}
    case Negligible => {Negligible, Low, Medium, High, Critical, Defcon1}
    case Low => {Low, Medium, High, Critical, Defcon1}
    case Medium => {Medium, High, Critical, Defcon1}
    case High => {High, Critical, Defcon1}
    case Critical => {Critical, Defcon1}
    case Defcon1 => {Defcon1}
  }

  /** A finding is shown exactly if its severity is the least to show or a graver one. */
  lemma {:induction false} VisibleAre(found: seq<Finding>, least: Severity, f: Finding)
    ensures f in Visible(found, least) <==> f in found && f.severity in AtLeast(least)
  {
    if found != [] {
      VisibleAre(found[..|found| - 1], least, f);
      RankIs(least, found[|found| - 1].severity);
      hide Rank, AtLeast;
      assert found == found[..|found| - 1] + [found[|found| - 1]];
    }
  }

  lemma RankIs(least: Severity, s: Severity)
    ensures Rank(least) > Rank(s) <==> s !in AtLeast(least)
  {
  }

  /** The findings of the first `n` features. */
  function Found(features: seq<seq<Finding>>, n: nat): seq<Finding>
    requires n <= |features|
  {
    if n == 0 then [] else Found(features, n - 1) + features[n - 1]
  }

  /** Those of at least the severity `least`, in order. */
  function Visible(found: seq<Finding>, least: Severity): seq<Finding> {
    if found == [] then [] else
    var f := found[|found| - 1];
    Visible(found[..|found| - 1], least) + if Rank(least) > Rank(f.severity) then [] else [f]
  }

  lemma VisiblePush(found: seq<Finding>, f: Finding, least: Severity)
    ensures Visible(found + [f], least) == Visible(found, least) + if Rank(least) > Rank(f.severity) then [] else [f]
  {
    hide Rank;
    assert (found + [f])[..|found|] == found;
  }

  const NO_FEATURES := "NOTE:" + " No features"
    + (" have been detected in the image." + " This usually means that " + "the image isn't supported by Clair" + ".\n")
  const NONE_FOUND := "Success!" + " No vulnerabilities were detected in your image\n"
  const NONE_VISIBLE := "NOTE:" + " " + "No vulnerabilities"
    + " matching the minimum severity level were detected in your image\n"

  /** The text for an image with these features, of whose findings `shown` are shown, in that order. */
  function ReportText(features: seq<seq<Finding>>, shown: seq<Finding>): string {
    if features == [] then NO_FEATURES
    else if Found(features, |features|) == [] then NONE_FOUND
    else if shown == [] then NONE_VISIBLE
    else Text(AllLines(shown, |shown|))
  }

  /** The visible findings in the order the sorting leaves them in; nothing depends on which it is. */
  method Arrange(visible: seq<Finding>) returns (shown: seq<Finding>)
    ensures multiset(shown) == multiset(visible)
  {
    shown := [];
    var rest := visible;
    while rest != []
      invariant multiset(shown) + multiset(rest) == multiset(visible)
      decreases |rest|
    {
      var i :| 0 <= i < |rest|;
      assert rest == rest[..i] + [rest[i]] + rest[i + 1..];
      shown, rest := shown + [rest[i]], rest[..i] + rest[i + 1..];
    }
  }

  /** The findings to show, and whether there are any, shown or not. */
  method Collect(features: seq<seq<Finding>>, least: Severity)
    returns (isSafe: bool, hasVisible: bool, vulnerabilities: seq<Finding>)
    ensures isSafe <==> Found(features, |features|) == []
    ensures hasVisible <==> vulnerabilities != []
    ensures vulnerabilities == Visible(Found(features, |features|), least)
  {
    hide Rank, Visible;
    isSafe, hasVisible, vulnerabilities := true, false, [];
    VisibleNothing(least);
    ghost var found: seq<Finding> := [];
    for i := 0 to |features|
      invariant found == Found(features, i)
      invariant isSafe <==> found == []
      invariant hasVisible <==> vulnerabilities != []
      invariant vulnerabilities == Visible(found, least)
    {
      for k := 0 to |features[i]|
        invariant found == Found(features, i) + features[i][..k]
        invariant isSafe <==> found == []
        invariant hasVisible <==> vulnerabilities != []
        invariant vulnerabilities == Visible(found, least)
      {
        VisiblePush(found, features[i][k], least);
        found := found + [features[i][k]];
        isSafe := false;
        if Rank(least) > Rank(features[i][k].severity) {
          continue;
        }
        hasVisible := true;
        vulnerabilities := vulnerabilities + [features[i][k]];
      }
    }
  }

  lemma VisibleNothing(least: Severity)
    ensures Visible([], least) == []
  {
  }

  /** The report of an image: what is found in its features, and the least severity to show. `shown` are
      the findings it lists, in their order. */
  method AnalyzeLayer(features: seq<seq<Finding>>, least: Severity) returns (result: string, shown: seq<Finding>)
    ensures multiset(shown) == multiset(Visible(Found(features, |features|), least))
    ensures result == ReportText(features, shown)
  {
    hide Text, AllLines, Rank, Found, Visible;
    var isSafe, hasVisible, vulnerabilities := Collect(features, least);
    shown := Arrange(vulnerabilities);
    assert |shown| == |vulnerabilities| by { assert |multiset(shown)| == |multiset(vulnerabilities)|; }
    if features == [] {
      return NO_FEATURES, shown;
    }
    result := PrintReport(shown);
    if isSafe {
      result := NONE_FOUND;
    } else if !hasVisible {
      result := NONE_VISIBLE;
    }
  }

  /** A word within one line is in the text exactly if it is in a line. */
  lemma {:induction false} WordInText(lines: seq<string>, word: string)
    requires word != "" && '\n' !in word
    ensures Contains(Text(lines), word) <==> exists line | line in lines :: Contains(line, word)
  {
    hide Contains;
    if lines == [] {
      NotInNothing(word);
    } else {
      WordInText(lines[1..], word);
      WordInLine(lines[0], Text(lines[1..]), word);
      assert Text(lines) == lines[0] + "\n" + Text(lines[1..]);
    }
  }

  lemma NotInNothing(word: string)
    requires word != ""
    ensures !Contains("", word)
  {
  }

  lemma WordInLine(line: string, rest: string, word: string)
    requires word != "" && '\n' !in word
    ensures Contains(line + "\n" + rest, word) <==> Contains(line, word) || Contains(rest, word)
  {
    var text := line + "\n" + rest;
    if i :| 0 <= i <= |line| && word <= line[i..] {
      assert text[i..] == line[i..] + ("\n" + rest);
    }
    if i :| 0 <= i <= |rest| && word <= rest[i..] {
      assert text[|line| + 1 + i..] == rest[i..];
    }
    if i :| 0 <= i <= |text| && word <= text[i..] {
      WordPart(line, rest, word, i);
    }
  }

  lemma WordPart(line: string, rest: string, word: string, i: nat)
    requires word != "" && '\n' !in word && i <= |line + "\n" + rest| && word <= (line + "\n" + rest)[i..]
    ensures Contains(line, word) || Contains(rest, word)
  {
    var text := line + "\n" + rest;
    if i > |line| {
      assert text[i..] == rest[i - |line| - 1..];
    } else {
      assert text[|line|] == '\n';
      forall k | 0 <= k < |word| ensures word[k] == text[i + k] && i + k != |line| { assert word[k] == text[i..][k]; }
      assert word == text[i..][..|word|] == line[i..][..|word|];
    }
  }

  /** The phrases by which the summary takes a text for that of a safe image. */
  predicate SaysSafe(s: string) {
    Contains(s, "Success!") || Contains(s, "No vulnerabilities")
  }

  lemma {:induction false} LinesOfAll(findings: seq<Finding>, n: nat, line: string)
    requires n <= |findings|
    ensures line in AllLines(findings, n) <==> exists i | 0 <= i < n :: line in LinesOf(findings[i])
  {
    hide LinesOf;
    if n > 0 { LinesOfAll(findings, n - 1, line); }
  }

  /** A report is read as that of a safe image exactly if the image has features and nothing is found in
      them, nothing is shown, or some line of a shown finding has one of the two phrases. */
  lemma ReadAsSafe(features: seq<seq<Finding>>, shown: seq<Finding>)
    ensures Summary(ReportText(features, shown)) == Safe <==>
      && features != []
      && (|| Found(features, |features|) == []
          || shown == []
          || exists i | 0 <= i < |shown| :: HasPhrase(shown[i]))
  {
    hide Found, AllLines, HasPhrase, Text, Summary, SaysSafe;
    if features == [] {
      NoFeaturesRead();
    } else {
      SaysNone();
      PhraseInText(shown);
      SafeMeans(Text(AllLines(shown, |shown|)));
    }
  }

  /** One of the two phrases is in a line of the finding. */
  predicate HasPhrase(f: Finding) {
    exists line | line in LinesOf(f) :: SaysSafe(line)
  }

  lemma PhraseInText(shown: seq<Finding>)
    ensures SaysSafe(Text(AllLines(shown, |shown|))) <==> exists i | 0 <= i < |shown| :: HasPhrase(shown[i])
  {
    hide AllLines, LinesOf, Text, Contains;
    var lines := AllLines(shown, |shown|);
    WordInText(lines, "Success!");
    WordInText(lines, "No vulnerabilities");
    if i :| 0 <= i < |shown| && HasPhrase(shown[i]) {
      var line :| line in LinesOf(shown[i]) && SaysSafe(line);
      LinesOfAll(shown, |shown|, line);
    }
    if SaysSafe(Text(lines)) {
      var line :| line in lines && SaysSafe(line);
      LinesOfAll(shown, |shown|, line);
    }
  }

  lemma SafeMeans(text: string)
    ensures Summary(text) == Safe <==> SaysSafe(text)
  {
    hide Contains, After;
  }

  /** The texts for nothing found and nothing visible say so. */
  lemma SaysNone()
    ensures Summary(NONE_FOUND) == Safe && Summary(NONE_VISIBLE) == Safe
  {
    hide Contains, Summary;
    InsideMore("", "Success!", " No vulnerabilities were detected in your image\n");
    InsideMore("NOTE:" + " ", "No vulnerabilities",
               " matching the minimum severity level were detected in your image\n");
    assert "" + "Success!" == "Success!";
    SafeMeans(NONE_FOUND);
    SafeMeans(NONE_VISIBLE);
  }

  lemma InsideMore(a: string, word: string, b: string)
    ensures Contains(a + word + b, word)
  {
    assert (a + word + b)[|a|..] == word + b;
  }

  /** So a description that has such a phrase hides all the findings that are shown with it. */
  lemma DescriptionHides(features: seq<seq<Finding>>, shown: seq<Finding>, i: nat)
    requires features != [] && i < |shown| && SaysSafe(shown[i].description)
    ensures Summary(ReportText(features, shown)) == Safe
  {
    hide Contains, Summary, ReportText, Found, HeaderOf, PackageOf, LayerOf, FixedLines, LinkLines;
    var d := shown[i].description;
    NotInNothing("Success!");
    NotInNothing("No vulnerabilities");
    InsideAfter("\t", d, "Success!");
    InsideAfter("\t", d, "No vulnerabilities");
    assert DescriptionLines(shown[i])[0] == "\t" + d;
    assert "\t" + d in LinesOf(shown[i]);
    ReadAsSafe(features, shown);
  }

  lemma InsideAfter(a: string, b: string, word: string)
    ensures Contains(b, word) ==> Contains(a + b, word)
  {
    if i :| 0 <= i <= |b| && word <= b[i..] {
      assert (a + b)[|a| + i..] == b[i..];
    }
  }

  /** An image without features is read as not supported. */
  lemma NoFeaturesRead()
    ensures Summary(NO_FEATURES) == Unsupported
  {
    hide Contains, After;
    var front := " have been detected in the image." + " This usually means that ";
    var word := "the image isn't supported by Clair";
    InsideMore(front, word, ".\n");
    InsideAfter("NOTE:" + " No features", front + word + ".\n", word);
    NotSaysSafe();
  }

  lemma NotSaysSafe()
    ensures !SaysSafe(NO_FEATURES)
  {
    hide SaysSafe;
    var front := " have been detected in the image." + " This usually means that ";
    var word := "the image isn't supported by Clair";
    assert forall i | 0 <= i < |" have been detected in the image."| :: " have been detected in the image."[i] !in "SN";
    assert forall i | 0 <= i < |" This usually means that "| :: " This usually means that "[i] !in "SN";
    assert forall i | 0 <= i < |word| :: word[i] !in "SN";
    var head := "NOTE:" + " No features";
    assert forall i | 0 <= i < |head| && head[i] in "SN" :: i == 0 || i == 6;
    NoPhrase(head, front + word + ".\n");
  }

  lemma NoPhrase(head: string, tail: string)
    requires |head| >= 10 && head[0] == 'N' && head[1] == 'O' && head[6] == 'N' && head[9] == 'f'
    requires forall i | 0 <= i < |head| && head[i] in "SN" :: i == 0 || i == 6
    requires forall i | 0 <= i < |tail| :: tail[i] !in "SN"
    ensures !SaysSafe(head + tail)
  {
    forall i | 0 <= i <= |head + tail| ensures !("Success!" <= (head + tail)[i..]) {
      StartsAt(head, tail, i, "Success!");
    }
    forall i | 0 <= i <= |head + tail| ensures !("No vulnerabilities" <= (head + tail)[i..]) {
      StartsAt(head, tail, i, "No vulnerabilities");
    }
  }

  /** A word that starts with one of the two letters starts where they are. */
  lemma StartsAt(head: string, tail: string, i: nat, word: string)
    requires i <= |head + tail| && |word| >= 4 && word[0] in "SN"
    requires forall i | 0 <= i < |tail| :: tail[i] !in "SN"
    ensures word <= (head + tail)[i..] ==>
      && i < |head| && head[i] == word[0]
      && (i + 3 < |head| ==> head[i + 1] == word[1] && head[i + 3] == word[3])
  {
    if word <= (head + tail)[i..] {
      assert forall k | 0 <= k < |word| :: (head + tail)[i..][k] == word[k];
      assert (head + tail)[i..][0] == (head + tail)[i];
      assert (head + tail)[i..][1] == (head + tail)[i + 1] && (head + tail)[i..][3] == (head + tail)[i + 3];
    }
  }
}

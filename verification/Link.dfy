/** The Link header (section 5 of RFC 5988): the parser of utils/link.go. */
module Link {
  import opened Strings

  datatype Link = Link(url: string, rel: string)

  predicate Bracketed(s: string) {
    s != "" && s[0] == '<' && s[|s| - 1] == '>'
  }

  /** What one part of a link value says, on top of what the parts before it said. */
  function Absorb(link: Link, part: string): Link {
    var str := Trim(part, SPACES);
    if Bracketed(str) then link.(url := Trim(str, "<>"))
    else if '=' in str && ToLower(str[..Index(str, '=')]) == "rel"
    then link.(rel := ToLower(Trim(str[Index(str, '=') + 1..], "\"")))
    else link
  }

  function AbsorbAll(parts: seq<string>, n: nat): Link
    requires n <= |parts|
  {
    if n == 0 then Link("", "") else Absorb(AbsorbAll(parts, n - 1), parts[n - 1])
  }

  /** The link of one link value, if it has both a URL and a relation. */
  function SingleLink(raw: string): seq<Link> {
    var parts := Split(raw, ';');
    var link := AbsorbAll(parts, |parts|);
    if link.url == "" || link.rel == "" then [] else [link]
  }

  function Links(values: seq<string>, n: nat): seq<Link>
    requires n <= |values|
  {
    if n == 0 then [] else Links(values, n - 1) + SingleLink(values[n - 1])
  }

  method ParseSingleLink(raw: string) returns (link: seq<Link>)
    ensures link == SingleLink(raw)
  {
    var url, rel := "", "";
    var parts := Split(raw, ';');
    for i := 0 to |parts|
      invariant Link(url, rel) == AbsorbAll(parts, i)
    {
      var str := Trim(parts[i], SPACES);
      if Bracketed(str) {
        url := Trim(str, "<>");
        continue;
      }
      if '=' !in str {
        continue;
      }
      var at := Index(str, '=');
      if ToLower(str[..at]) != "rel" {
        continue;
      }
      rel := ToLower(Trim(str[at + 1..], "\""));
    }
    link := if url == "" || rel == "" then [] else [Link(url, rel)];
  }

  method ParseLink(raw: string) returns (links: seq<Link>)
    ensures var values := Split(raw, ','); links == Links(values, |values|)
  {
    links := [];
    var values := Split(raw, ',');
    for i := 0 to |values|
      invariant links == Links(values, i)
    {
      var link := ParseSingleLink(values[i]);
      links := links + link;
    }
  }

  /** The URL of the first link with relation `next`, or nothing. */
  method Next(links: seq<Link>) returns (next: string)
    ensures (next == "" && forall i | 0 <= i < |links| :: links[i].rel != "next")
      || exists i :: 0 <= i < |links| && links[i].rel == "next" && next == links[i].url
           && forall k | 0 <= k < i :: links[k].rel != "next"
  {
    next := "";
    for i := 0 to |links|
      invariant next == "" && forall k | 0 <= k < i :: links[k].rel != "next"
    {
      if links[i].rel == "next" {
        next := links[i].url;
        break;
      }
    }
  }

  method Prev(links: seq<Link>) returns (prev: string)
    ensures (prev == "" && forall i | 0 <= i < |links| :: ToLower(links[i].rel) != "prev")
      || exists i :: 0 <= i < |links| && ToLower(links[i].rel) == "prev" && prev == links[i].url
           && forall k | 0 <= k < i :: ToLower(links[k].rel) != "prev"
  {
    prev := "";
    for i := 0 to |links|
      invariant prev == "" && forall k | 0 <= k < i :: ToLower(links[k].rel) != "prev"
    {
      if ToLower(links[i].rel) == "prev" {
        prev := links[i].url;
        break;
      }
    }
  }

  /** A URL that can stand in the header as it is. */
  predicate Plain(url: string) {
    url != "" && forall i | 0 <= i < |url| :: url[i] !in ",;<>"
  }

  /** One link value as the server prints it. */
  function Show(url: string, rel: string): string {
    "<" + url + ">; rel=\"" + rel + "\""
  }

  predicate Word(rel: string) {
    rel != "" && forall i | 0 <= i < |rel| :: 'a' <= rel[i] <= 'z'
  }

  lemma LowerWord(rel: string)
    requires Word(rel)
    ensures ToLower(rel) == rel
  {
  }

  lemma UrlPart(link: Link, url: string, spaces: string)
    requires Plain(url) && forall i | 0 <= i < |spaces| :: spaces[i] in SPACES
    ensures Absorb(link, spaces + "<" + url + ">") == link.(url := url)
  {
    hide Trim, Index, ToLower;
    var bracketed := "<" + url + ">";
    assert spaces + "<" + url + ">" == spaces + bracketed + "";
    TrimTakesOff(spaces, bracketed, "", SPACES);
    TrimTakesOff("<", url, ">", "<>");
  }

  lemma RelPart(link: Link, rel: string)
    requires Word(rel)
    ensures Absorb(link, " rel=\"" + rel + "\"") == link.(rel := rel)
  {
    hide Trim, Index, ToLower;
    var quoted := "\"" + rel + "\"";
    var str := "rel" + ['='] + quoted;
    assert " rel=\"" + rel + "\"" == " " + str + "";
    TrimTakesOff(" ", str, "", SPACES);
    IndexAt("rel", '=', quoted);
    assert str[..3] == "rel" && str[4..] == quoted;
    TrimTakesOff("\"", rel, "\"", "\"");
    LowerWord("rel");
    LowerWord(rel);
  }

  /** The parser reads back one printed link value, with or without leading blanks. */
  lemma SingleLinkInverts(url: string, rel: string, spaces: string)
    requires Plain(url) && Word(rel) && forall i | 0 <= i < |spaces| :: spaces[i] in SPACES
    ensures SingleLink(spaces + Show(url, rel)) == [Link(url, rel)]
  {
    hide Absorb;
    var a, b := spaces + "<" + url + ">", " rel=\"" + rel + "\"";
    assert spaces + Show(url, rel) == a + [';'] + b;
    assert ';' !in a && ';' !in b;
    SplitFirst(a, ';', b);
    var parts := Split(spaces + Show(url, rel), ';');
    assert parts == [a, b];
    UrlPart(Link("", ""), url, spaces);
    RelPart(Link(url, ""), rel);
    assert AbsorbAll(parts, 1) == Absorb(AbsorbAll(parts, 0), a);
    assert AbsorbAll(parts, 2) == Absorb(AbsorbAll(parts, 1), b);
  }

  /** What a part of a link value says of its URL, if anything. */
  predicate SaysUrl(part: string, url: string) {
    var str := Trim(part, SPACES);
    str != "" && str[0] == '<' && str[|str| - 1] == '>' && url == Trim(str, "<>")
  }

  /** And of its relation: a key in letters of any case, an equals sign, and a value that may be quoted. */
  ghost predicate SaysRel(part: string, rel: string) {
    var str := Trim(part, SPACES);
    exists key, value :: str == key + "=" + value && '=' !in key && ToLower(key) == "rel"
      && rel == ToLower(Trim(value, "\""))
  }

  lemma AbsorbIs(link: Link, part: string)
    ensures forall url | SaysUrl(part, url) :: Absorb(link, part) == link.(url := url)
    ensures forall rel | SaysRel(part, rel) :: Absorb(link, part) == link.(rel := rel)
    ensures Absorb(link, part) == link
      || SaysUrl(part, Absorb(link, part).url) || SaysRel(part, Absorb(link, part).rel)
  {
    hide Trim, ToLower, Index;
    var str := Trim(part, SPACES);
    forall rel | SaysRel(part, rel) ensures Absorb(link, part) == link.(rel := rel) {
      var key, value :| str == key + "=" + value && '=' !in key && ToLower(key) == "rel"
        && rel == ToLower(Trim(value, "\""));
      assert str == key + ['='] + value;
      IndexAt(key, '=', value);
      assert str[..|key|] == key && str[|key| + 1..] == value;
    }
    if !Bracketed(str) && '=' in str && ToLower(str[..Index(str, '=')]) == "rel" {
      var i := Index(str, '=');
      assert str == str[..i] + "=" + str[i + 1..];
    }
  }

  /** Of the parts of a value the last that says a URL counts, and the last that says a relation. */
  lemma {:induction false} LastOnesCount(parts: seq<string>, n: nat)
    requires n <= |parts|
    ensures forall i, url | 0 <= i < n && SaysUrl(parts[i], url)
        && (forall k, u | i < k < n :: !SaysUrl(parts[k], u)) ::
      AbsorbAll(parts, n).url == url
    ensures forall i, rel | 0 <= i < n && SaysRel(parts[i], rel)
        && (forall k, r | i < k < n :: !SaysRel(parts[k], r)) ::
      AbsorbAll(parts, n).rel == rel
    ensures (forall i, u | 0 <= i < n :: !SaysUrl(parts[i], u)) ==> AbsorbAll(parts, n).url == ""
    ensures (forall i, r | 0 <= i < n :: !SaysRel(parts[i], r)) ==> AbsorbAll(parts, n).rel == ""
  {
    hide Absorb, SaysUrl, SaysRel;
    if n > 0 {
      LastOnesCount(parts, n - 1);
      AbsorbIs(AbsorbAll(parts, n - 1), parts[n - 1]);
      OneKind(parts[n - 1]);
    }
  }

  lemma OneKind(part: string)
    ensures forall url, rel :: !(SaysUrl(part, url) && SaysRel(part, rel))
  {
    hide Trim, ToLower;
  }

  function HeaderOf(links: seq<Link>): string {
    if links == [] then "" else if |links| == 1 then Show(links[0].url, links[0].rel)
    else Show(links[0].url, links[0].rel) + ", " + HeaderOf(links[1..])
  }

  lemma {:induction false} LinksCons(value: string, values: seq<string>, n: nat)
    requires n <= |values|
    ensures Links([value] + values, n + 1) == SingleLink(value) + Links(values, n)
  {
    hide SingleLink;
    if n > 0 {
      LinksCons(value, values, n - 1);
      assert ([value] + values)[n] == values[n - 1];
    } else {
      assert Links([value] + values, 0) == [];
    }
  }

  /** The parser reads back any header of plain URLs with lower-case relations, link by link. */
  lemma {:induction false} ParseInvertsPrint(links: seq<Link>, spaces: string)
    requires links != [] && forall i | 0 <= i < |links| :: Plain(links[i].url) && Word(links[i].rel)
    requires forall i | 0 <= i < |spaces| :: spaces[i] in SPACES
    ensures var values := Split(spaces + HeaderOf(links), ','); Links(values, |values|) == links
  {
    hide SingleLink, Plain, Word, Split, Links, Show;
    var v := spaces + Show(links[0].url, links[0].rel);
    NoComma(links[0], spaces);
    SingleLinkInverts(links[0].url, links[0].rel, spaces);
    if |links| == 1 {
      assert spaces + HeaderOf(links) == v;
      OneValue(v);
    } else {
      var rest := " " + HeaderOf(links[1..]);
      assert spaces + HeaderOf(links) == v + [','] + rest;
      SplitFirst(v, ',', rest);
      ParseInvertsPrint(links[1..], " ");
      LinksCons(v, Split(rest, ','), |Split(rest, ',')|);
      assert links == [links[0]] + links[1..];
    }
  }

  lemma OneValue(value: string)
    requires ',' !in value
    ensures Split(value, ',') == [value] && Links([value], 1) == SingleLink(value)
  {
    hide SingleLink;
    LinksCons(value, [], 0);
    assert [value] + [] == [value];
  }

  lemma NoComma(link: Link, spaces: string)
    requires Plain(link.url) && Word(link.rel) && forall i | 0 <= i < |spaces| :: spaces[i] in SPACES
    ensures ',' !in spaces + Show(link.url, link.rel)
  {
  }
}

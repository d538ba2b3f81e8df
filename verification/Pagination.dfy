/** Listing the repositories of a project page by page: the server's slice and Link header, the
    client that follows the links, and the full sync that makes one job per repository. */
module Pagination {
  import opened Strings
  import Decimal
  import L = Link

  const PAGE_SIZE: nat := 1000

  /** The part of a URL before and after its question mark. */
  function Path(url: string): string {
    if '?' in url then url[..Index(url, '?')] else url
  }

  function Params(url: string): seq<string> {
    if '?' in url then Split(url[Index(url, '?') + 1..], '&') else []
  }

  function Param(key: string, value: string): (p: string)
    ensures Has(p, key)
  {
    key + "=" + value
  }

  predicate Has(param: string, key: string) {
    key + "=" <= param
  }

  /** The key of a parameter. */
  function Key(param: string): string {
    if '=' in param then param[..Index(param, '=')] else param
  }

  /** The value of the first parameter with this key. */
  function Get(params: seq<string>, key: string): seq<string> {
    if params == [] then []
    else if Has(params[0], key) then [params[0][|key| + 1..]]
    else Get(params[1..], key)
  }

  /** The parameters without those of this key. */
  function Without(params: seq<string>, key: string): (r: seq<string>)
    ensures forall p | p in r :: p in params && !Has(p, key)
    ensures forall p | p in params && !Has(p, key) :: p in r
  {
    if params == [] then []
    else if Has(params[0], key) then Without(params[1..], key)
    else [params[0]] + Without(params[1..], key)
  }

  function InsertByKey(x: string, s: seq<string>): seq<string> {
    if s == [] then [x] else if Leq(Key(x), Key(s[0])) then [x] + s else [s[0]] + InsertByKey(x, s[1..])
  }

  /** In the order of their keys, those of one key as they were. */
  function SortByKey(s: seq<string>): seq<string> {
    if s == [] then [] else InsertByKey(s[0], SortByKey(s[1..]))
  }

  /** The same URL for another page. Parameters are encoded in the order of their keys. */
  function WithPage(url: string, page: nat): (r: string)
    ensures r != ""
  {
    Path(url) + "?" + Join(SortByKey(Without(Params(url), "page") + [Param("page", Decimal.Show(page))]), '&')
  }

  /** A number parameter: the default if it is absent or empty, nothing if it is not a positive number. */
  function Number(params: seq<string>, key: string, default: nat): seq<nat> {
    var v := Get(params, key);
    if v == [] || v[0] == "" then [default]
    else if Decimal.AllDigits(v[0]) && Decimal.Read(v[0]) > 0 then [Decimal.Read(v[0])]
    else []
  }

  /** A number parameter that has to be there. */
  function Required(params: seq<string>, key: string): seq<nat> {
    var v := Get(params, key);
    if v != [] && Decimal.AllDigits(v[0]) && Decimal.Read(v[0]) > 0 then [Decimal.Read(v[0])] else []
  }

  /** The names that have the keyword in them, all of them without a keyword. */
  function Filter(names: seq<string>, keyword: string): seq<string> {
    if names == [] then [] else
    var n := |names| - 1;
    Filter(names[..n], keyword) + if keyword != "" && !Contains(names[n], keyword) then [] else [names[n]]
  }

  function Keyword(params: seq<string>): string {
    var v := Get(params, "q");
    if v == [] then "" else v[0]
  }

  lemma {:induction false} NoKeywordKeepsAll(names: seq<string>)
    ensures Filter(names, "") == names
  {
    if names != [] { NoKeywordKeepsAll(names[..|names| - 1]); }
  }

  datatype Response = BadRequest | NotFound | Page(body: seq<string>, link: string)

  function Min(a: int, b: int): int {
    if a < b then a else b
  }

  /** The links of a page: to the page before it and to the page after it. */
  function LinksOf(url: string, total: nat, page: nat, pageSize: nat): seq<L.Link> {
    (if page > 1 && (page - 1) * pageSize <= total then [L.Link(WithPage(url, page - 1), "prev")] else [])
    + (if pageSize * page < total then [L.Link(WithPage(url, page + 1), "next")] else [])
  }

  method SetPaginationHeader(url: string, total: nat, page: nat, pageSize: nat) returns (link: string)
    requires page > 0
    ensures link == L.HeaderOf(LinksOf(url, total, page, pageSize))
  {
    hide WithPage, L.Show;
    ghost var links := LinksOf(url, total, page, pageSize);
    if |links| == 2 { assert links[1..] == [links[1]]; }
    link := "";
    if page > 1 && (page - 1) * pageSize <= total {
      link := L.Show(WithPage(url, page - 1), "prev");
      ShowsSomething(WithPage(url, page - 1), "prev");
    }
    if pageSize * page < total {
      if |link| != 0 {
        link := link + ", ";
      }
      link := link + L.Show(WithPage(url, page + 1), "next");
      assert "" + L.Show(WithPage(url, page + 1), "next") == L.Show(WithPage(url, page + 1), "next");
    }
  }

  lemma ShowsSomething(url: string, rel: string)
    ensures L.Show(url, rel) != ""
  {
  }

  lemma PageEnds(page: nat, pageSize: nat)
    requires page > 0
    ensures 0 <= (page - 1) * pageSize <= page * pageSize == (page - 1) * pageSize + pageSize
  {
  }

  /** The items of page `page`, none past the end of the list. */
  function Slice(all: seq<string>, page: nat, pageSize: nat): seq<string>
    requires page > 0
  {
    PageEnds(page, pageSize);
    all[Min((page - 1) * pageSize, |all|)..Min(page * pageSize, |all|)]
  }

  /** One page of the repositories of a project; `table` are those of each project. The page is in bounds
      for every page number, past the end it is empty. */
  method GetPage(table: map<nat, seq<string>>, url: string) returns (r: Response)
    ensures var page, size := Number(Params(url), "page", 1), Number(Params(url), "page_size", PAGE_SIZE);
      var project := Required(Params(url), "project_id");
      if project == [] || page == [] || size == [] then r == BadRequest
      else if project[0] !in table then r == NotFound
      else
        var all, p, s := Filter(table[project[0]], Keyword(Params(url))), page[0], Min(size[0], 1000);
        && p > 0 && s > 0
        && r == Page(Slice(all, p, s), L.HeaderOf(LinksOf(url, |all|, p, s)))
  {
    hide Params, Get, Slice, LinksOf, WithPage, Decimal.Read, Required, Keyword;
    var projects := Required(Params(url), "project_id");
    if projects == [] {
      return BadRequest;
    }
    var pages, sizes := Number(Params(url), "page", 1), Number(Params(url), "page_size", PAGE_SIZE);
    if pages == [] || sizes == [] {
      return BadRequest;
    }
    var page, pageSize := pages[0], sizes[0];
    if pageSize > PAGE_SIZE {
      pageSize := PAGE_SIZE;
    }
    if projects[0] !in table {
      return NotFound;
    }
    var all := GetReposByProject(table[projects[0]], Keyword(Params(url)));
    var repositories := CutPage(all, page, pageSize);
    var link := SetPaginationHeader(url, |all|, page, pageSize);
    r := Page(repositories, link);
  }

  /** The names a keyword leaves. */
  method GetReposByProject(names: seq<string>, keyword: string) returns (repositories: seq<string>)
    ensures repositories == Filter(names, keyword)
  {
    hide Contains;
    repositories := [];
    for i := 0 to |names|
      invariant repositories == Filter(names[..i], keyword)
    {
      assert names[..i + 1][..i] == names[..i];
      if keyword != "" && !Contains(names[i], keyword) {
        continue;
      }
      repositories := repositories + [names[i]];
    }
    assert names[..|names|] == names;
  }

  /** The two cuts that make a page of the list. */
  method CutPage(all: seq<string>, page: nat, pageSize: nat) returns (repositories: seq<string>)
    requires page > 0 && pageSize > 0
    ensures repositories == Slice(all, page, pageSize)
  {
    PageEnds(page, pageSize);
    var from, to := (page - 1) * pageSize, page * pageSize;
    repositories := all;
    if from > |all| {
      repositories := [];
    } else {
      repositories := repositories[from..];
    }
    if to <= |all| {
      repositories := repositories[..pageSize];
    }
  }

  lemma PathHasNoMark(url: string)
    ensures '?' !in Path(url)
  {
  }

  lemma ParamsHaveNoAmpersand(url: string, p: string)
    requires p in Params(url)
    ensures '&' !in p
  {
  }

  lemma NumberIsPlain(page: nat)
    ensures '&' !in Param("page", Decimal.Show(page))
    ensures forall i | 0 <= i < |Param("page", Decimal.Show(page))| :: Param("page", Decimal.Show(page))[i] !in ",;<>"
  {
    hide Decimal.Show;
    var s := Param("page", Decimal.Show(page));
    forall i | 0 <= i < |s| ensures s[i] != '&' && s[i] !in ",;<>" {
      assert i >= 5 ==> s[i] == Decimal.Show(page)[i - 5];
    }
  }

  lemma {:induction false} InsertByKeyAdds(x: string, s: seq<string>)
    ensures multiset(InsertByKey(x, s)) == multiset(s) + multiset{x}
  {
    hide Leq, Key;
    if s != [] {
      InsertByKeyAdds(x, s[1..]);
      assert s == [s[0]] + s[1..];
    }
  }

  lemma {:induction false} SortByKeyAdds(s: seq<string>)
    ensures multiset(SortByKey(s)) == multiset(s)
  {
    hide InsertByKey;
    if s != [] {
      SortByKeyAdds(s[1..]);
      InsertByKeyAdds(s[0], SortByKey(s[1..]));
      assert s == [s[0]] + s[1..];
    }
  }

  predicate KeysSorted(s: seq<string>) {
    forall i, k | 0 <= i < k < |s| :: Leq(Key(s[i]), Key(s[k]))
  }

  lemma {:induction false} InsertByKeySorts(x: string, s: seq<string>)
    requires KeysSorted(s)
    ensures KeysSorted(InsertByKey(x, s))
  {
    hide Leq, Key;
    if s == [] {
    } else if Leq(Key(x), Key(s[0])) {
      forall i | 0 <= i < |s| ensures Leq(Key(x), Key(s[i])) {
        LeqSame(Key(s[0]));
        LeqTrans(Key(x), Key(s[0]), Key(s[i]));
      }
    } else {
      InsertByKeySorts(x, s[1..]);
      InsertByKeyAdds(x, s[1..]);
      var r := InsertByKey(x, s[1..]);
      forall i | 0 <= i < |r| ensures Leq(Key(s[0]), Key(r[i])) {
        LeqTotal(Key(x), Key(s[0]));
        assert r[i] in multiset(r);
      }
    }
  }

  lemma {:induction false} SortByKeySorts(s: seq<string>)
    ensures KeysSorted(SortByKey(s))
  {
    hide InsertByKey, KeysSorted, Key;
    if s == [] {
      NoKeys();
    } else {
      SortByKeySorts(s[1..]);
      InsertByKeySorts(s[0], SortByKey(s[1..]));
    }
  }

  lemma NoKeys()
    ensures KeysSorted([])
  {
  }

  lemma SortKeeps(s: seq<string>, p: string)
    ensures p in SortByKey(s) <==> p in s
  {
    SortByKeyAdds(s);
    assert p in SortByKey(s) <==> p in multiset(SortByKey(s));
    assert p in s <==> p in multiset(s);
  }

  /** A parameter has a key without an equals sign exactly if that is what stands before its first one. */
  lemma HasIsKey(p: string, key: string)
    requires '=' !in key
    ensures Has(p, key) <==> '=' in p && Key(p) == key
  {
    if Has(p, key) {
      assert p[..|key| + 1] == key + "=" && p[|key|] == '=';
      assert p == key + ['='] + p[|key| + 1..];
      IndexAt(key, '=', p[|key| + 1..]);
      assert p[..|key|] == key;
    } else if '=' in p {
      assert p[..Index(p, '=') + 1] == Key(p) + "=";
    }
  }

  /** Sorting by keys does not change what is read. */
  lemma {:induction false} GetInserted(x: string, s: seq<string>, key: string)
    requires '=' !in key
    ensures Get(InsertByKey(x, s), key) == Get([x] + s, key)
  {
    if s != [] && !Leq(Key(x), Key(s[0])) {
      HasIsKey(x, key);
      HasIsKey(s[0], key);
      LeqSame(key);
      hide Key, Leq, Has;
      GetInserted(x, s[1..], key);
      assert ([x] + s[1..])[1..] == s[1..] && ([x] + s)[1..] == s;
    }
  }

  lemma {:induction false} GetSorted(s: seq<string>, key: string)
    requires '=' !in key
    ensures Get(SortByKey(s), key) == Get(s, key)
  {
    hide InsertByKey, Has;
    if s != [] {
      GetSorted(s[1..], key);
      GetInserted(s[0], SortByKey(s[1..]), key);
      assert ([s[0]] + SortByKey(s[1..]))[1..] == SortByKey(s[1..]);
    }
  }

  /** What is read with one parameter replaced by another at the end. */
  lemma {:induction false} GetReplaced(params: seq<string>, old': string, p: string, key: string)
    requires '=' !in key && '=' !in old' && Has(p, old')
    ensures Get(Without(params, old') + [p], key) == if key == old' then [p[|key| + 1..]] else Get(params, key)
  {
    if params == [] {
      HasIsKey(p, key);
      HasIsKey(p, old');
    } else {
      HasIsKey(params[0], key);
      HasIsKey(params[0], old');
      hide Has, Key;
      GetReplaced(params[1..], old', p, key);
      if !Has(params[0], old') {
        assert ([params[0]] + Without(params[1..], old') + [p])[1..] == Without(params[1..], old') + [p];
      }
    }
  }

  /** The parameters of the new URL are those of the old one but for its page, each as often as it was, and
      the page; in the order of their keys. What stands before the question mark stays. */
  lemma ParamsWithPage(url: string, page: nat)
    ensures var params := Params(WithPage(url, page));
      && multiset(params) == multiset(Without(Params(url), "page")) + multiset{Param("page", Decimal.Show(page))}
      && (forall p | p in Params(url) && !Has(p, "page") :: p in params)
      && KeysSorted(params)
    ensures Path(WithPage(url, page)) == Path(url)
  {
    hide Params, Decimal.Show, Path, SortByKey, Param, Has, Join, KeysSorted;
    var all := Without(Params(url), "page") + [Param("page", Decimal.Show(page))];
    ParamsAreSorted(url, page);
    SortByKeyAdds(all);
    SortByKeySorts(all);
    forall p | p in Params(url) && !Has(p, "page") ensures p in Params(WithPage(url, page)) { SortKeeps(all, p); }
  }

  lemma ParamsAreSorted(url: string, page: nat)
    ensures Params(WithPage(url, page)) == SortByKey(Without(Params(url), "page") + [Param("page", Decimal.Show(page))])
    ensures Path(WithPage(url, page)) == Path(url)
  {
    hide Params, Decimal.Show, Path, SortByKey, Param, Has, Join;
    var param := Param("page", Decimal.Show(page));
    var all := Without(Params(url), "page") + [param];
    assert param in all;
    NumberIsPlain(page);
    forall p ensures p in SortByKey(all) <==> p in all { SortKeeps(all, p); }
    forall i | 0 <= i < |SortByKey(all)| ensures '&' !in SortByKey(all)[i] {
      assert SortByKey(all)[i] in all;
      if SortByKey(all)[i] in Params(url) { ParamsHaveNoAmpersand(url, SortByKey(all)[i]); }
    }
    SplitJoin(SortByKey(all), '&');
    PathHasNoMark(url);
    ParamsOf(Path(url), Join(SortByKey(all), '&'));
  }

  lemma ParamsOf(path: string, query: string)
    requires '?' !in path
    ensures Params(path + "?" + query) == Split(query, '&') && Path(path + "?" + query) == path
  {
    var url := path + ['?'] + query;
    IndexAt(path, '?', query);
    assert url[|path|] == '?' && url[|path| + 1..] == query && url[..|path|] == path;
  }

  lemma {:induction false} GetNothing(params: seq<string>, key: string)
    ensures Get(params, key) == [] <==> forall p | p in params :: !Has(p, key)
  {
    hide Has;
    if params != [] {
      assert params == [params[0]] + params[1..];
      GetNothing(params[1..], key);
    }
  }

  /** The value read for a key is that of its first parameter; an absent or empty one leaves the default, and one
      that is no positive number nothing. */
  lemma NumberIs(before: seq<string>, value: string, after: seq<string>, key: string, default: nat)
    requires forall p | p in before :: !Has(p, key)
    ensures Number(before, key, default) == [default] && Required(before, key) == []
    ensures Number(before + [Param(key, value)] + after, key, default) == if value == "" then [default]
      else if Decimal.AllDigits(value) && Decimal.Read(value) != 0 then [Decimal.Read(value)] else []
    ensures Required(before + [Param(key, value)] + after, key)
      == if Decimal.AllDigits(value) && Decimal.Read(value) != 0 then [Decimal.Read(value)] else []
  {
    hide Get, Has, Decimal.Read, Decimal.AllDigits;
    GetNothing(before, key);
    GetFirst(before, value, after, key);
  }

  lemma {:induction false} GetFirst(before: seq<string>, value: string, after: seq<string>, key: string)
    requires forall p | p in before :: !Has(p, key)
    ensures Get(before + [Param(key, value)] + after, key) == [value]
  {
    hide Has;
    var all := before + [Param(key, value)] + after;
    if before == [] {
      assert all[0] == Param(key, value);
    } else {
      GetFirst(before[1..], value, after, key);
      assert all[0] == before[0] && all[1..] == before[1..] + [Param(key, value)] + after;
    }
  }

  /** The server reads back the page number it printed, and every other parameter as it was. */
  lemma WithPageReads(url: string, page: nat, key: string)
    requires page > 0 && '=' !in key
    ensures Number(Params(WithPage(url, page)), "page", 1) == [page]
    ensures key != "page" ==> Get(Params(WithPage(url, page)), key) == Get(Params(url), key)
  {
    hide Params, WithPage, Get, Decimal.Show, Decimal.Read, Has, SortByKey, Without;
    ParamsAreSorted(url, page);
    var param := Param("page", Decimal.Show(page));
    GetSorted(Without(Params(url), "page") + [param], key);
    GetSorted(Without(Params(url), "page") + [param], "page");
    GetReplaced(Params(url), "page", param, key);
    GetReplaced(Params(url), "page", param, "page");
    assert param[5..] == Decimal.Show(page);
    Decimal.ReadShow(page);
  }

  /** Where the links of a page lead: exactly if it is not the first one and not far past the end, to the one
      before; exactly if items follow, to the one after; and nowhere else. All other parameters stay. */
  lemma LinksLead(url: string, total: nat, page: nat, pageSize: nat, link: L.Link, key: string)
    requires page > 0 && link in LinksOf(url, total, page, pageSize) && '=' !in key && key != "page"
    ensures link.rel == "prev" || link.rel == "next"
    ensures link.rel == "prev" ==> Number(Params(link.url), "page", 1) == [page - 1] && page > 1
    ensures link.rel == "next" ==> Number(Params(link.url), "page", 1) == [page + 1]
    ensures Path(link.url) == Path(url) && Get(Params(link.url), key) == Get(Params(url), key)
  {
    hide Params, WithPage, Get, Number, Path;
    assert "prev"[0] != "next"[0];
    if page > 1 {
      WithPageReads(url, page - 1, key);
      ParamsWithPage(url, page - 1);
    }
    WithPageReads(url, page + 1, key);
    ParamsWithPage(url, page + 1);
  }

  lemma LinksThere(url: string, total: nat, page: nat, pageSize: nat)
    requires page > 0
    ensures var links := LinksOf(url, total, page, pageSize);
      && ((exists link :: link in links && link.rel == "prev") <==> page > 1 && (page - 1) * pageSize <= total)
      && ((exists link :: link in links && link.rel == "next") <==> pageSize * page < total)
      && |links| <= 2
  {
    hide WithPage;
    var links := LinksOf(url, total, page, pageSize);
    assert "prev"[0] != "next"[0];
    if page > 1 && (page - 1) * pageSize <= total { assert links[0] in links && links[0].rel == "prev"; }
    if pageSize * page < total { assert links[|links| - 1] in links && links[|links| - 1].rel == "next"; }
  }

  lemma {:induction false} JoinIsPlain(parts: seq<string>)
    requires forall p | p in parts :: forall i | 0 <= i < |p| :: p[i] !in ",;<>"
    ensures forall i | 0 <= i < |Join(parts, '&')| :: Join(parts, '&')[i] !in ",;<>"
  {
    if |parts| > 1 { JoinIsPlain(parts[1..]); }
  }

  lemma {:induction false} SplitIsPlain(s: string, c: char)
    requires forall i | 0 <= i < |s| :: s[i] !in ",;<>"
    ensures forall p | p in Split(s, c) :: forall i | 0 <= i < |p| :: p[i] !in ",;<>"
    decreases |s|
  {
    if c in s { SplitIsPlain(s[Index(s, c) + 1..], c); }
  }

  lemma ParamsArePlain(url: string, p: string)
    requires L.Plain(url) && p in Params(url)
    ensures forall i | 0 <= i < |p| :: p[i] !in ",;<>"
  {
    hide Split;
    SplitIsPlain(url[Index(url, '?') + 1..], '&');
  }

  lemma WithPageIsPlain(url: string, page: nat)
    requires L.Plain(url)
    ensures L.Plain(WithPage(url, page))
  {
    hide Params, Decimal.Show, SortByKey, Join, Has, Param;
    var all := Without(Params(url), "page") + [Param("page", Decimal.Show(page))];
    NumberIsPlain(page);
    forall p | p in SortByKey(all) ensures forall i | 0 <= i < |p| :: p[i] !in ",;<>" {
      SortKeeps(all, p);
      if p in Params(url) { ParamsArePlain(url, p); }
    }
    JoinIsPlain(SortByKey(all));
  }

  /** The next page starts where this one ends, and the last page reaches the end. */
  lemma NextSlice(all: seq<string>, page: nat, pageSize: nat)
    requires page > 0 && (page - 1) * pageSize <= |all|
    ensures var from := (page - 1) * pageSize;
      all[..from] + Slice(all, page, pageSize) == all[..Min(page * pageSize, |all|)]
  {
    PageEnds(page, pageSize);
  }

  /** The relative URL of the first page of a project. */
  function FirstUrl(project: nat): string {
    "/api/repositories?project_id=" + Decimal.Show(project)
  }

  /** A URL the server takes for page `page` of size PAGE_SIZE of all repositories of the project, and prints
      the links of. */
  predicate Asks(url: string, project: nat, page: nat) {
    && L.Plain(url) && Number(Params(url), "page", 1) == [page] && page > 0
    && Get(Params(url), "page_size") == [] && Get(Params(url), "q") == []
    && Required(Params(url), "project_id") == if project > 0 then [project] else []
  }

  lemma FirstIsPlain(project: nat)
    ensures L.Plain(FirstUrl(project)) && '&' !in "project_id=" + Decimal.Show(project)
  {
    hide Decimal.Show;
    PlainAppend("/api/repositories?project_id=", Decimal.Show(project));
  }

  lemma PlainAppend(a: string, digits: string)
    requires L.Plain(a) && forall i | 0 <= i < |digits| :: Decimal.IsDigit(digits[i])
    ensures L.Plain(a + digits)
  {
  }

  lemma FirstHasNeither(project: nat)
    ensures var query := "project_id=" + Decimal.Show(project);
      !Has(query, "page") && !Has(query, "page_size") && !Has(query, "q") && Has(query, "project_id")
  {
    var query := "project_id=" + Decimal.Show(project);
    assert query[1] == 'r' && ("page" + "=")[1] == 'a' && ("page_size" + "=")[1] == 'a' && ("q" + "=")[0] == 'q';
    assert query == "project_id" + "=" + Decimal.Show(project);
  }

  lemma GetOnly(query: string, key: string)
    ensures Get([query], key) == if Has(query, key) then [query[|key| + 1..]] else []
  {
    assert [query][1..] == [];
  }

  lemma FirstAsks(project: nat)
    ensures Asks(FirstUrl(project), project, 1)
  {
    hide Decimal.Show, Decimal.Read, Params, Has, Get, L.Plain;
    var query := "project_id=" + Decimal.Show(project);
    assert FirstUrl(project) == "/api/repositories" + "?" + query;
    ParamsOf("/api/repositories", query);
    FirstIsPlain(project);
    FirstHasNeither(project);
    assert Params(FirstUrl(project)) == [query];
    GetOnly(query, "page");
    GetOnly(query, "page_size");
    GetOnly(query, "q");
    GetOnly(query, "project_id");
    assert query[11..] == Decimal.Show(project);
    Decimal.ReadShow(project);
    hide FirstUrl;
  }

  lemma NextAsks(url: string, project: nat, page: nat)
    requires Asks(url, project, page)
    ensures Asks(WithPage(url, page + 1), project, page + 1)
  {
    hide Params, WithPage, Get, L.Plain;
    WithPageIsPlain(url, page + 1);
    WithPageReads(url, page + 1, "page_size");
    WithPageReads(url, page + 1, "q");
    WithPageReads(url, page + 1, "project_id");
  }

  /** What the client finds as the next URL in the header of a page. */
  lemma NextInHeader(url: string, total: nat, page: nat)
    requires L.Plain(url) && page > 0 && LinksOf(url, total, page, PAGE_SIZE) != []
    ensures var links := LinksOf(url, total, page, PAGE_SIZE);
      var values := Split(L.HeaderOf(links), ',');
      L.Links(values, |values|) == links
  {
    hide Params, WithPage, Get, Number, L.Plain, L.Links, Split, L.HeaderOf;
    var links := LinksOf(url, total, page, PAGE_SIZE);
    WithPageIsPlain(url, page + 1);
    if page > 1 { WithPageIsPlain(url, page - 1); }
    L.ParseInvertsPrint(links, "");
    assert "" + L.HeaderOf(links) == L.HeaderOf(links);
  }

  lemma NoLinksInNothing()
    ensures var values := Split("", ','); L.Links(values, |values|) == []
  {
    assert Split("", ',') == [""];
    assert Split("", ';') == [""];
    assert Trim("", SPACES) == "";
    assert L.AbsorbAll([""], 1) == L.Absorb(L.AbsorbAll([""], 0), "");
    assert L.SingleLink("") == [];
    assert L.Links([""], 1) == L.Links([""], 0) + L.SingleLink("");
  }

  /** The URL the client follows: that of the page after this one, if there is one. */
  function NextUrl(url: string, total: nat, page: nat): string {
    if PAGE_SIZE * page < total then WithPage(url, page + 1) else ""
  }

  method FollowNext(header: string, ghost url: string, ghost total: nat, ghost page: nat) returns (next: string)
    requires L.Plain(url) && page > 0 && header == L.HeaderOf(LinksOf(url, total, page, PAGE_SIZE))
    ensures next == NextUrl(url, total, page)
  {
    hide L.Plain, WithPage, L.Links, L.HeaderOf;
    ghost var expected := LinksOf(url, total, page, PAGE_SIZE);
    if expected != [] { NextInHeader(url, total, page); } else { NoLinksInNothing(); EmptyHeader(); }
    var links := L.ParseLink(header);
    assert links == expected && "prev"[0] != "next"[0];
    next := L.Next(links);
    if PAGE_SIZE * page < total {
      assert links[|links| - 1] == L.Link(WithPage(url, page + 1), "next");
      assert |links| == 2 ==> links[0].rel == "prev";
    } else {
      assert forall i | 0 <= i < |links| :: links[i].rel == "prev";
    }
  }

  lemma EmptyHeader()
    ensures L.HeaderOf([]) == ""
  {
  }

  /** Where the client is: `page` pages asked for, or the whole list read. */
  ghost predicate Following(all: seq<string>, project: nat, repositories: seq<string>, next: string, page: nat) {
    && page > 0
    && (if next == "" then repositories == all
        else
          && Asks(next, project, page)
          && (page - 1) * PAGE_SIZE <= |all| && repositories == all[..(page - 1) * PAGE_SIZE])
  }

  lemma FollowStep(all: seq<string>, project: nat, repositories: seq<string>, next: string, page: nat)
    requires Following(all, project, repositories, next, page) && next != ""
    ensures var more, url := repositories + Slice(all, page, PAGE_SIZE), NextUrl(next, |all|, page);
      && Following(all, project, more, url, page + 1) && more <= all
      && |repositories| <= |more| && (url != "" ==> |repositories| < |more|)
  {
    hide Asks, WithPage;
    NextSlice(all, page, PAGE_SIZE);
    NextAsks(next, project, page);
  }

  /** What the server has for the project. */
  function Served(table: map<nat, seq<string>>, project: nat): seq<string> {
    if project > 0 && project in table then table[project] else []
  }

  /** The client reads the whole list of the project, each name once and in order, unless there is no such
      project or a request fails; then what it has is a beginning of the list. */
  method GetRepoList(table: map<nat, seq<string>>, project: nat) returns (repositories: seq<string>, ok: bool)
    ensures repositories <= Served(table, project)
    ensures ok ==> project > 0 && project in table && repositories == table[project]
  {
    hide Following, Asks, Slice, NextUrl, L.HeaderOf, LinksOf, FirstUrl, Params, Number, Keyword, Required, L.Plain;
    repositories, ok := [], true;
    var next := FirstUrl(project);
    ghost var page := 1;
    ghost var all := Served(table, project);
    FollowStarts(all, project);
    while next != ""
      invariant ok && repositories <= all && Following(all, project, repositories, next, page)
      invariant next == "" ==> repositories == all && project > 0 && project in table
      decreases |all| - |repositories| + if next == "" then 0 else 1
    {
      var fails: bool := *;
      if fails {
        return repositories, false;
      }
      FollowStep(all, project, repositories, next, page);
      AsksIsNumber(all, project, repositories, next, page);
      var r := GetPage(table, next);
      if !r.Page? {
        return repositories, false;
      }
      NoKeywordKeepsAll(all);
      repositories := repositories + r.body;
      next := FollowNext(r.link, next, |all|, page);
      FollowEnds(all, project, repositories, next, page + 1);
      page := page + 1;
    }
  }

  lemma FollowStarts(all: seq<string>, project: nat)
    ensures Following(all, project, [], FirstUrl(project), 1) && FirstUrl(project) != ""
  {
    hide Asks;
    FirstAsks(project);
  }

  lemma AsksIsNumber(all: seq<string>, project: nat, repositories: seq<string>, next: string, page: nat)
    requires Following(all, project, repositories, next, page) && next != ""
    ensures L.Plain(next) && page > 0 && Number(Params(next), "page", 1) == [page]
    ensures Number(Params(next), "page_size", PAGE_SIZE) == [PAGE_SIZE] && Keyword(Params(next)) == ""
    ensures Required(Params(next), "project_id") == if project > 0 then [project] else []
  {
  }

  lemma FollowEnds(all: seq<string>, project: nat, repositories: seq<string>, next: string, page: nat)
    requires Following(all, project, repositories, next, page)
    ensures next == "" ==> repositories == all
  {
  }

  datatype Job = Job(repository: string, policy: int, operation: string, tags: seq<string>, status: string)

  const TRANSFER := "transfer"

  /** One job per repository, all tags. */
  function TransferJobs(repositories: seq<string>, policy: int): seq<Job> {
    if repositories == [] then [] else
    var n := |repositories| - 1;
    TransferJobs(repositories[..n], policy) + [Job(repositories[n], policy, TRANSFER, [], "pending")]
  }

  /** The job table, with the ids sent to the scheduler; a job's id is its place in the table. */
  class ReplicationJobs {
    var jobs: seq<Job>
    var scheduled: seq<nat>

    /** Adding a row can fail; then nothing is scheduled. */
    method AddJob(repository: string, policy: int, operation: string, tags: seq<string>) returns (ok: bool)
      modifies this
      ensures !ok ==> jobs == old(jobs) && scheduled == old(scheduled)
      ensures ok ==> jobs == old(jobs) + [Job(repository, policy, operation, tags, "pending")]
      ensures ok ==> scheduled == old(scheduled) + [|old(jobs)|]
    {
      ok := *;
      if ok {
        jobs := jobs + [Job(repository, policy, operation, tags, "pending")];
        scheduled := scheduled + [|jobs| - 1];
      }
    }

    /** Without a repository, a full sync: one transfer job for every repository the server has of the project,
        in order, and each job scheduled once. With a repository, one job for it. */
    method Post(policy: int, repository: string, operation: string, tags: seq<string>, table: map<nat, seq<string>>,
                project: nat)
      returns (ok: bool)
      modifies this
      ensures ok && repository == "" ==> project in table && jobs == old(jobs) + TransferJobs(table[project], policy)
      ensures ok && repository != "" ==>
        jobs == old(jobs) + [Job(repository, policy, if operation == "" then TRANSFER else operation, tags, "pending")]
      ensures !ok ==> exists n: nat | n <= |Served(table, project)| ::
        jobs == old(jobs) + TransferJobs(Served(table, project)[..n], policy)
      ensures |scheduled| == |old(scheduled)| + |jobs| - |old(jobs)| && |jobs| >= |old(jobs)|
      ensures forall i | 0 <= i < |scheduled| ::
                scheduled[i] == if i < |old(scheduled)| then old(scheduled[i]) else |old(jobs)| + i - |old(scheduled)|
    {
      ghost var all := Served(table, project);
      if repository == "" {
        var repositories;
        repositories, ok := GetRepoList(table, project);
        if !ok {
          assert all[..0] == [];
          return;
        }
        assert all[..|all|] == all;
        for i := 0 to |repositories|
          invariant ok && jobs == old(jobs) + TransferJobs(all[..i], policy)
          invariant |scheduled| == |old(scheduled)| + |jobs| - |old(jobs)| && |jobs| >= |old(jobs)|
          invariant forall k | 0 <= k < |scheduled| ::
            scheduled[k] == if k < |old(scheduled)| then old(scheduled[k]) else |old(jobs)| + k - |old(scheduled)|
        {
          assert all[..i + 1][..i] == all[..i];
          ok := AddJob(repositories[i], policy, TRANSFER, []);
          if !ok {
            return;
          }
        }
      } else {
        assert all[..0] == [];
        var op := if operation != "" then operation else TRANSFER;
        ok := AddJob(repository, policy, op, tags);
      }
    }
  }

  /** What a full sync adds: for every repository one job, under this policy, of operation `transfer`, for all
      its tags, waiting. */
  lemma {:induction false} TransferJobsAre(repositories: seq<string>, policy: int, i: nat)
    requires i < |repositories|
    ensures |TransferJobs(repositories, policy)| == |repositories|
    ensures TransferJobs(repositories, policy)[i] == Job(repositories[i], policy, "transfer", [], "pending")
  {
    var n := |repositories| - 1;
    if i < n {
      TransferJobsAre(repositories[..n], policy, i);
    } else if n > 0 {
      TransferJobsAre(repositories[..n], policy, 0);
    }
  }
}

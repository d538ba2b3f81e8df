/** Strings in byte order, as the sorting and comparing functions of the original see them, and
    the small string functions its modules share. */
module Strings {

  /** `a` does not come after `b`. */
  predicate Leq(a: string, b: string) {
    a == [] || (b != [] && (a[0] < b[0] || (a[0] == b[0] && Leq(a[1..], b[1..]))))
  }

  predicate Less(a: string, b: string) {
    Leq(a, b) && a != b
  }

  /** strings.Compare */
  function Compare(a: string, b: string): int {
    if a == b then 0 else if Leq(a, b) then -1 else 1
  }

  lemma {:induction false} LeqTotal(a: string, b: string)
    ensures Leq(a, b) || Leq(b, a)
  {
    if a != [] && b != [] { LeqTotal(a[1..], b[1..]); }
  }

  lemma {:induction false} LeqBoth(a: string, b: string)
    requires Leq(a, b) && Leq(b, a)
    ensures a == b
  {
    if a != [] {
      LeqBoth(a[1..], b[1..]);
      assert a == [a[0]] + a[1..] && b == [b[0]] + b[1..];
    }
  }

  lemma {:induction false} LeqSame(a: string)
    ensures Leq(a, a)
  {
    if a != [] { LeqSame(a[1..]); }
  }

  lemma {:induction false} LeqTrans(a: string, b: string, c: string)
    requires Leq(a, b) && Leq(b, c)
    ensures Leq(a, c)
  {
    if a != [] && a[0] == b[0] == c[0] { LeqTrans(a[1..], b[1..], c[1..]); }
  }

  /** Of two strings that are not equal exactly one comes first. */
  lemma LessOrGreater(a: string, b: string)
    ensures Leq(a, b) <==> !Less(b, a)
  {
    LeqTotal(a, b);
    LeqSame(a);
    if Leq(a, b) && Leq(b, a) { LeqBoth(a, b); }
  }

  lemma LessThenLeq(a: string, b: string, c: string)
    requires Less(a, b) && Leq(b, c)
    ensures Less(a, c)
  {
    LeqTrans(a, b, c);
    if a == c { LeqBoth(a, b); }
  }

  lemma LeqThenLess(a: string, b: string, c: string)
    requires Leq(a, b) && Less(b, c)
    ensures Less(a, c)
  {
    LeqTrans(a, b, c);
    if a == c { LeqBoth(b, c); }
  }

  predicate Sorted(s: seq<string>) {
    forall i, k | 0 <= i < k < |s| :: Leq(s[i], s[k])
  }

  function Insert(x: string, s: seq<string>): seq<string> {
    if s == [] then [x] else if Leq(x, s[0]) then [x] + s else [s[0]] + Insert(x, s[1..])
  }

  /** What sort.Strings leaves in its argument. */
  function Sort(s: seq<string>): seq<string> {
    if s == [] then [] else Insert(s[0], Sort(s[1..]))
  }

  lemma {:induction false} InsertAdds(x: string, s: seq<string>)
    ensures multiset(Insert(x, s)) == multiset(s) + multiset{x}
  {
    if s != [] {
      InsertAdds(x, s[1..]);
      assert s == [s[0]] + s[1..];
    }
  }

  lemma {:induction false} InsertSorts(x: string, s: seq<string>)
    requires Sorted(s)
    ensures Sorted(Insert(x, s))
  {
    if s == [] {
    } else if Leq(x, s[0]) {
      forall i | 0 <= i < |s| ensures Leq(x, s[i]) { LeqSame(s[0]); LeqTrans(x, s[0], s[i]); }
    } else {
      InsertSorts(x, s[1..]);
      InsertAdds(x, s[1..]);
      var r := Insert(x, s[1..]);
      forall i | 0 <= i < |r| ensures Leq(s[0], r[i]) {
        LeqTotal(x, s[0]);
        assert r[i] in multiset(r);
      }
    }
  }

  /** Sort orders its argument and neither loses nor invents anything. */
  lemma {:induction false} SortSorts(s: seq<string>)
    ensures Sorted(Sort(s)) && multiset(Sort(s)) == multiset(s)
  {
    if s != [] {
      SortSorts(s[1..]);
      InsertSorts(s[0], Sort(s[1..]));
      InsertAdds(s[0], Sort(s[1..]));
      assert s == [s[0]] + s[1..];
    }
  }

  /** strings.Contains */
  predicate Contains(s: string, sub: string) {
    exists i {:trigger s[i..]} | 0 <= i <= |s| :: sub <= s[i..]
  }

  lemma ContainsIs(s: string, sub: string)
    ensures Contains(s, sub) <==> exists a, b :: s == a + sub + b
  {
    if i :| 0 <= i <= |s| && sub <= s[i..] {
      assert s == s[..i] + sub + s[i..][|sub|..];
    }
    if a, b :| s == a + sub + b {
      assert s[|a|..] == sub + b;
    }
  }

  function TrimLeft(s: string, cutset: string): (r: string)
    ensures r == [] || r[0] !in cutset
    ensures |r| <= |s| && r == s[|s| - |r|..] && forall i | 0 <= i < |s| - |r| :: s[i] in cutset
  {
    if s != [] && s[0] in cutset then TrimLeft(s[1..], cutset) else s
  }

  function TrimRight(s: string, cutset: string): (r: string)
    ensures r == [] || r[|r| - 1] !in cutset
    ensures r <= s && forall i | |r| <= i < |s| :: s[i] in cutset
  {
    if s != [] && s[|s| - 1] in cutset then TrimRight(s[..|s| - 1], cutset) else s
  }

  /** What strings.TrimSpace trims, as far as it is ASCII. */
  const SPACES := " \t\n\r\U{000B}\U{000C}"

  /** strings.Trim */
  function Trim(s: string, cutset: string): string {
    TrimRight(TrimLeft(s, cutset), cutset)
  }

  lemma TrimKeeps(s: string, cutset: string)
    requires s == "" || (s[0] !in cutset && s[|s| - 1] !in cutset)
    ensures Trim(s, cutset) == s
  {
    assert TrimLeft(s, cutset) == s;
  }

  /** Trimming takes off what stands around a string that does not start or end with it. */
  lemma {:induction false} TrimTakesOff(left: string, s: string, right: string, cutset: string)
    requires s != "" && s[0] !in cutset && s[|s| - 1] !in cutset
    requires (forall i | 0 <= i < |left| :: left[i] in cutset) && (forall i | 0 <= i < |right| :: right[i] in cutset)
    ensures Trim(left + s + right, cutset) == s
    decreases |left| + |right|
  {
    if left != "" {
      assert (left + s + right)[1..] == left[1..] + s + right;
      TrimTakesOff(left[1..], s, right, cutset);
    } else {
      assert TrimLeft(left + s + right, cutset) == s + right;
      TrimRightTakesOff(s, right, cutset);
    }
  }

  lemma {:induction false} TrimRightTakesOff(s: string, right: string, cutset: string)
    requires s != "" && s[|s| - 1] !in cutset && forall i | 0 <= i < |right| :: right[i] in cutset
    ensures TrimRight(s + right, cutset) == s
  {
    if right == "" {
      assert s + right == s;
    } else {
      var n := |right| - 1;
      assert (s + right)[..|s + right| - 1] == s + right[..n];
      TrimRightTakesOff(s, right[..n], cutset);
    }
  }

  /** strings.LastIndex of a character that occurs. */
  function LastIndex(s: string, c: char): (i: nat)
    requires c in s
    ensures i < |s| && s[i] == c && forall k | i < k < |s| :: s[k] != c
  {
    if s[|s| - 1] == c then |s| - 1 else LastIndex(s[..|s| - 1], c)
  }

  /** strings.Index of a character that occurs. */
  function Index(s: string, c: char): (i: nat)
    requires c in s
    ensures i < |s| && s[i] == c && c !in s[..i]
  {
    if s[0] == c then 0 else 1 + Index(s[1..], c)
  }

  lemma {:induction false} IndexAt(a: string, c: char, b: string)
    requires c !in a
    ensures c in a + [c] + b && Index(a + [c] + b, c) == |a|
  {
    var s := a + [c] + b;
    assert s[|a|] == c;
    if a != "" {
      assert s[1..] == a[1..] + [c] + b && s[0] == a[0];
      IndexAt(a[1..], c, b);
    }
  }

  function Join(parts: seq<string>, c: char): string {
    if parts == [] then "" else if |parts| == 1 then parts[0] else parts[0] + [c] + Join(parts[1..], c)
  }

  /** strings.Split at a character: the parts have it no more, and joined they are the string again. */
  function Split(s: string, c: char): (parts: seq<string>)
    ensures parts != [] && forall i | 0 <= i < |parts| :: c !in parts[i]
    ensures Join(parts, c) == s
    decreases |s|
  {
    if c in s then [s[..Index(s, c)]] + Split(s[Index(s, c) + 1..], c) else [s]
  }

  lemma SplitFirst(a: string, c: char, b: string)
    requires c !in a
    ensures Split(a + [c] + b, c) == [a] + Split(b, c)
  {
    IndexAt(a, c, b);
    var s := a + [c] + b;
    assert s[|a|] == c && s[..|a|] == a && s[|a| + 1..] == b;
  }

  lemma {:induction false} SplitJoin(parts: seq<string>, c: char)
    requires parts != [] && forall i | 0 <= i < |parts| :: c !in parts[i]
    ensures Split(Join(parts, c), c) == parts
  {
    if |parts| > 1 {
      SplitJoin(parts[1..], c);
      SplitFirst(parts[0], c, Join(parts[1..], c));
      assert parts == [parts[0]] + parts[1..];
    } else {
      assert parts == [parts[0]];
    }
  }

  /** strings.ToLower on ASCII letters. */
  function ToLower(s: string): (r: string)
    ensures |r| == |s| && forall i | 0 <= i < |s| :: r[i] == if 'A' <= s[i] <= 'Z' then s[i] + 32 as char else s[i]
  {
    if s == "" then "" else [if 'A' <= s[0] <= 'Z' then s[0] + 32 as char else s[0]] + ToLower(s[1..])
  }

  /** The project part of a repository name: what stands before its last slash, leading and
      trailing slashes aside; empty if there is none. */
  function Component(repository: string): string {
    var r := Trim(repository, "/");
    if '/' in r then r[..LastIndex(r, '/')] else ""
  }

  /** The project part of a plain name of two parts. */
  lemma ComponentOfTwo(p: string, x: string)
    requires p != "" && x != "" && p[0] != '/' && '/' !in x
    ensures Component(p + "/" + x) == p
  {
    hide Trim, LastIndex;
    var r := p + "/" + x;
    TrimKeeps(r, "/");
    assert r[|p|] == '/';
    forall k | |p| < k < |r| ensures r[k] != '/' { assert r[k] == x[k - |p| - 1]; }
  }
}

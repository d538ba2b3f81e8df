/** Where the log of a job is kept: directories of at most a thousand logs, named by the groups of
    three digits of the job id. */
module LogPath {
  import opened Decimal
  import opened Sets

  /** The directories for `k`, the job id without its last three digits. */
  function Directories(k: nat): seq<string> {
    if k == 0 then [] else if k < 1000 then [Show(k)]
    else Directories(k / 1000) + [[Digit(k / 100 % 10), Digit(k / 10 % 10), Digit(k % 10)]]
  }

  function FileName(id: nat): string {
    "job_" + Show(id) + ".log"
  }

  function Concat(p: seq<string>): string {
    if p == [] then "" else Concat(p[..|p| - 1]) + p[|p| - 1]
  }

  /** A group of up to three digits, padded as the loop does it. */
  lemma PaddedGroup(m: nat)
    requires m < 1000
    ensures Show(m) == if m < 10 then [Digit(m)] else if m < 100 then [Digit(m / 10), Digit(m % 10)]
      else [Digit(m / 100), Digit(m / 10 % 10), Digit(m % 10)]
  {
    if m >= 10 {
      assert Show(m) == Show(m / 10) + [Digit(m % 10)];
      if m >= 100 {
        assert m / 10 / 10 == m / 100;
        assert Show(m / 10) == Show(m / 100) + [Digit(m / 10 % 10)];
      }
    }
  }

  lemma DigitsOfSum(q: nat, m: nat)
    requires m < 1000
    ensures (1000 * q + m) / 100 == 10 * q + m / 100
    ensures (1000 * q + m) / 10 == 100 * q + m / 10
    ensures (1000 * q + m) / 1000 == q && (1000 * q + m) % 1000 == m
  {
  }

  lemma LastOfTen(q: nat, m: nat)
    ensures (10 * q + m) % 10 == m % 10
  {
  }

  lemma DigitsOfGroup(k: nat)
    ensures var m := k % 1000; m / 100 == k / 100 % 10 && m / 10 % 10 == k / 10 % 10 && m % 10 == k % 10
  {
    var q, m := k / 1000, k % 1000;
    DigitsOfSum(q, m);
    LastOfTen(q, m / 100);
    LastOfTen(10 * q, m / 10);
    LastOfTen(100 * q, m);
  }

  /** The digits of one group, with its leading zeros. */
  lemma GroupWithZeros(k: nat, d: string)
    requires d == Show(k % 1000)
    ensures [Digit(k / 100 % 10), Digit(k / 10 % 10), Digit(k % 10)]
      == if |d| == 1 then "00" + d else if |d| == 2 then "0" + d else d
  {
    hide Show;
    var m := k % 1000;
    PaddedGroup(m);
    DigitsOfGroup(k);
    ZerosInFront(m);
  }

  lemma ZerosInFront(m: nat)
    requires m < 1000
    ensures [Digit(m / 100), Digit(m / 10 % 10), Digit(m % 10)]
      == if m < 10 then "00" + [Digit(m)] else if m < 100 then "0" + [Digit(m / 10), Digit(m % 10)]
         else [Digit(m / 100), Digit(m / 10 % 10), Digit(m % 10)]
  {
  }

  lemma NoDirectories()
    ensures Directories(0) == []
  {
  }

  /** One round of the loop takes off the last directory. */
  lemma LastDirectory(k: nat, d: string)
    requires k > 0 && d == Show(k % 1000)
    ensures Directories(k) == Directories(k / 1000)
      + [if k / 1000 > 0 && |d| == 1 then "00" + d else if k / 1000 > 0 && |d| == 2 then "0" + d else d]
  {
    hide Show;
    GroupWithZeros(k, d);
  }

  method GetJobLogPath(id: nat) returns (path: seq<string>)
    ensures path == Directories(id / 1000) + [FileName(id)]
  {
    hide Directories, Show;
    var f := "job_" + Show(id) + ".log";
    var k := id / 1000;
    var p: seq<string> := [];
    while k > 0
      invariant k >= 0 && Directories(id / 1000) == Directories(k) + p
    {
      var d := Show(k % 1000);
      LastDirectory(k, d);
      k := k / 1000;
      if k > 0 && |d| == 1 {
        d := "00" + d;
      }
      if k > 0 && |d| == 2 {
        d := "0" + d;
      }
      p := [d] + p;
    }
    assert Directories(k) == [] by { NoDirectories(); }
    path := p + [f];
  }

  /** The directories, read one after the other, are the number in decimal. */
  lemma {:induction false} DirectoriesSpell(k: nat)
    ensures Concat(Directories(k)) == if k == 0 then "" else Show(k)
  {
    if k >= 1000 {
      DirectoriesSpell(k / 1000);
      ThreeDigits(k);
      var p := Directories(k);
      assert p[..|p| - 1] == Directories(k / 1000);
    } else if k > 0 {
      assert Directories(k)[..0] == [];
    }
  }

  /** Every directory but the first has three digits, the first one to three. */
  lemma {:induction false} GroupsOfThree(k: nat)
    ensures var p := Directories(k);
      && (p == [] <==> k == 0) && (forall i | 0 < i < |p| :: |p[i]| == 3)
      && (p != [] ==> 1 <= |p[0]| <= 3 && p[0][0] != '0')
  {
    if k >= 1000 {
      GroupsOfThree(k / 1000);
    } else if k > 0 {
      hide Show;
      PaddedGroup(k);
    }
  }

  /** Two jobs log into the same directory exactly if their ids differ in the last three digits only. */
  lemma SameDirectory(a: nat, b: nat)
    ensures Directories(a / 1000) == Directories(b / 1000) <==> a / 1000 == b / 1000
  {
    DirectoriesSpell(a / 1000);
    DirectoriesSpell(b / 1000);
    if a / 1000 > 0 && b / 1000 > 0 && Show(a / 1000) == Show(b / 1000) { ShowInjective(a / 1000, b / 1000); }
  }

  /** The file is named `job_`, the number of the job in decimal, and `.log`. */
  lemma FileIsNamed(id: nat)
    ensures var f := FileName(id);
      && |f| > 8 && f[..4] == "job_" && f[|f| - 4..] == ".log"
      && AllDigits(f[4..|f| - 4]) && Read(f[4..|f| - 4]) == id
  {
    hide Show, Read;
    var f := FileName(id);
    assert f[4..|f| - 4] == Show(id);
    ReadShow(id);
  }

  lemma DifferentFiles(a: nat, b: nat)
    requires FileName(a) == FileName(b)
    ensures a == b
  {
    assert FileName(a)[4..|FileName(a)| - 4] == Show(a);
    assert FileName(b)[4..|FileName(b)| - 4] == Show(b);
    ShowInjective(a, b);
  }

  /** No directory holds more than a thousand logs. */
  lemma AtMostThousand(ids: set<nat>, directory: seq<string>)
    requires forall id | id in ids :: Directories(id / 1000) == directory
    ensures |ids| <= 1000
  {
    if ids != {} {
      var first :| first in ids;
      forall id | id in ids ensures id in Range(first / 1000 * 1000, 1000) { SameDirectory(id, first); }
      Smaller(ids, Range(first / 1000 * 1000, 1000));
    }
  }
}

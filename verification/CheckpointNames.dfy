/** Checkpoint file names: CP-0001, ..., CP-9999, CP-10000, ... in one directory per task. */
module CheckpointNames {

  function Decimal(n: nat): (s: string)
    ensures |s| >= 1
  {
    if n < 10 then [Digit(n)] else Decimal(n / 10) + [Digit(n % 10)]
  }

  function Digit(n: nat): char
    requires n < 10
  {
    n as char + '0'
  }

  function Zeros(n: nat): string {
    if n == 0 then "" else ['0'] + Zeros(n - 1)
  }

  /** The {:04d} format. */
  function Pad4(n: nat): string {
    var s := Decimal(n);
    if |s| < 4 then Zeros(4 - |s|) + s else s
  }

  function CheckpointId(revision: nat): string {
    "CP-" + Pad4(revision)
  }

  /** Reading a decimal back. */
  function Value(s: string): int {
    if s == "" then 0 else Value(s[..|s| - 1]) * 10 + (s[|s| - 1] as int - '0' as int)
  }

  lemma {:induction false} ValueOfDecimal(n: nat)
    ensures Value(Decimal(n)) == n
  {
    if n >= 10 {
      ValueOfDecimal(n / 10);
      assert Decimal(n)[..|Decimal(n)| - 1] == Decimal(n / 10);
    } else {
      assert [Digit(n)][..0] == "";
    }
  }

  lemma {:induction false} LeadingZeros(k: nat, s: string)
    ensures Value(Zeros(k) + s) == Value(s)
    decreases k + |s|
  {
    if s == "" {
      assert Zeros(k) + s == Zeros(k);
      if k > 0 {
        ZerosEnd(k);
        LeadingZeros(k - 1, "");
        assert Zeros(k - 1) + "" == Zeros(k - 1);
      }
    } else {
      assert (Zeros(k) + s)[..|Zeros(k) + s| - 1] == Zeros(k) + s[..|s| - 1];
      LeadingZeros(k, s[..|s| - 1]);
    }
  }

  lemma {:induction false} ZerosEnd(k: nat)
    requires k > 0
    ensures |Zeros(k)| == k && Zeros(k)[k - 1] == '0' && Zeros(k)[..k - 1] == Zeros(k - 1)
  {
    if k > 1 {
      ZerosEnd(k - 1);
    }
  }

  lemma Pad4Value(n: nat)
    ensures Value(Pad4(n)) == n
  {
    ValueOfDecimal(n);
    if |Decimal(n)| < 4 {
      LeadingZeros(4 - |Decimal(n)|, Decimal(n));
    }
  }

  /** Different revisions have different names, beyond four digits too. */
  lemma CheckpointIdInjective(m: nat, n: nat)
    ensures CheckpointId(m) == CheckpointId(n) <==> m == n
  {
    Pad4Value(m);
    Pad4Value(n);
    assert CheckpointId(m)[3..] == Pad4(m) && CheckpointId(n)[3..] == Pad4(n);
  }

  /** <root>[/30_Working]/.ai/checkpoints/<scope>/<id>.json */
  function TargetPath(root: string, machine: bool, scope: string, revision: nat): string {
    Directory(root, machine, scope) + "/" + (CheckpointId(revision) + ".json")
  }

  function Directory(root: string, machine: bool, scope: string): string {
    root + (if machine then "/30_Working/.ai" else "/.ai") + "/checkpoints/" + scope
  }

  lemma {:induction false} DecimalDigits(n: nat, w: nat)
    requires n < Power(w) && w >= 1
    ensures |Decimal(n)| <= w
  {
    if n >= 10 {
      DecimalDigits(n / 10, w - 1);
    }
  }

  function Power(w: nat): (p: nat)
    ensures p >= 1
  {
    if w == 0 then 1 else 10 * Power(w - 1)
  }

  /** The name of a checkpoint file reads CP-, the revision in at least four digits (four up to 9999), .json. */
  lemma NameReadsBack(root: string, machine: bool, scope: string, revision: nat)
    ensures var id := CheckpointId(revision);
            && id[..3] == "CP-" && Value(id[3..]) == revision
            && |id| >= 7 && (revision <= 9999 ==> |id| == 7)
            && TargetPath(root, machine, scope, revision)
               == root + (if machine then "/30_Working" else "") + "/.ai/checkpoints/" + scope + "/" + id + ".json"
  {
    Pad4Value(revision);
    var s := Decimal(revision);
    if |s| < 4 {
      ZerosEnd(4 - |s|);
    }
    if revision <= 9999 {
      assert Power(1) == 10 && Power(2) == 100 && Power(3) == 1000 && Power(4) == 10000;
      DecimalDigits(revision, 4);
    }
    var id := CheckpointId(revision);
    assert id[3..] == Pad4(revision);
    PathShape(root, machine, scope, id);
  }

  lemma PathShape(root: string, machine: bool, scope: string, id: string)
    ensures Directory(root, machine, scope) + "/" + (id + ".json")
            == root + (if machine then "/30_Working" else "") + "/.ai/checkpoints/" + scope + "/" + id + ".json"
  {
    var x := if machine then "/30_Working" else "";
    PathParts(machine);
    Regrouped(root, x, "/.ai", "/checkpoints/");
    Regrouped(Directory(root, machine, scope), "/", id, ".json");
  }

  lemma PathParts(machine: bool)
    ensures (if machine then "/30_Working/.ai" else "/.ai") == (if machine then "/30_Working" else "") + "/.ai"
    ensures "/.ai" + "/checkpoints/" == "/.ai/checkpoints/"
  {
  }

  lemma Regrouped(a: string, b: string, c: string, d: string)
    ensures a + (b + c) + d == a + b + (c + d) && a + b + (c + d) == a + b + c + d
  {
  }

  predicate NoSlash(s: string) {
    forall i :: 0 <= i < |s| ==> s[i] != '/'
  }

  lemma {:induction false} DecimalNoSlash(n: nat)
    ensures NoSlash(Decimal(n))
  {
    if n >= 10 {
      DecimalNoSlash(n / 10);
    }
  }

  lemma {:induction false} ZerosNoSlash(n: nat)
    ensures NoSlash(Zeros(n))
  {
    if n > 0 {
      ZerosNoSlash(n - 1);
    }
  }

  lemma FileNoSlash(revision: nat)
    ensures NoSlash(CheckpointId(revision) + ".json")
  {
    var s := Decimal(revision);
    DecimalNoSlash(revision);
    ZerosNoSlash(if |s| < 4 then 4 - |s| else 0);
    assert NoSlash("CP-") && NoSlash(".json");
    assert NoSlash(Pad4(revision));
  }

  /** The last slash splits a path in one way. */
  lemma LastSlash(a: string, x: string, b: string, y: string)
    requires a + "/" + x == b + "/" + y && NoSlash(x) && NoSlash(y)
    ensures a == b && x == y
  {
    var s := a + "/" + x;
    assert s == b + "/" + y;
    assert s[|a|] == '/' && s[|b|] == '/';
    assert forall i :: |a| < i < |s| ==> s[i] == x[i - |a| - 1];
    assert forall i :: |b| < i < |s| ==> s[i] == y[i - |b| - 1];
    assert a == s[..|a|] && b == s[..|b|];
    assert x == s[|a| + 1..] && y == s[|b| + 1..];
  }

  /** A checkpoint path determines its revision, and its directory scope when scopes have one length. */
  lemma PathDeterminesRevision(r1: string, m1: bool, s1: string, n1: nat, r2: string, m2: bool, s2: string, n2: nat)
    requires TargetPath(r1, m1, s1, n1) == TargetPath(r2, m2, s2, n2)
    ensures n1 == n2 && (|s1| == |s2| ==> s1 == s2)
  {
    FileNoSlash(n1);
    FileNoSlash(n2);
    LastSlash(Directory(r1, m1, s1), CheckpointId(n1) + ".json", Directory(r2, m2, s2), CheckpointId(n2) + ".json");
    var a, b := CheckpointId(n1) + ".json", CheckpointId(n2) + ".json";
    assert a[..|a| - 5] == CheckpointId(n1) && b[..|b| - 5] == CheckpointId(n2);
    CheckpointIdInjective(n1, n2);
    var d1, d2 := Directory(r1, m1, s1), Directory(r2, m2, s2);
    assert d1[|d1| - |s1|..] == s1 && d2[|d2| - |s2|..] == s2;
  }
}

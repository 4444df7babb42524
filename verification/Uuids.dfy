/** Identifiers, the text order the services compare them in, and the in-place
    sort that fixes the order in which rows are locked
    (backend/internal/common/db_utils.go). */
module Uuids {

  /** The 128-bit value of an identifier. */
  type Uuid = n: nat | n < 0x1_0000_0000_0000_0000_0000_0000_0000_0000

  /** Byte-wise order on strings. */
  predicate LexLess(a: string, b: string) {
    if b == [] then false
    else if a == [] then true
    else if a[0] != b[0] then a[0] < b[0]
    else LexLess(a[1..], b[1..])
  }

  function Pow16(w: nat): nat {
    if w == 0 then 1 else 16 * Pow16(w - 1)
  }

  function Digit(d: nat): char
    requires d < 16
  {
    if d < 10 then (48 + d) as char else (87 + d) as char
  }

  /** `w` lower-case hexadecimal digits, most significant first. */
  function Hex(n: nat, w: nat): (s: string)
    requires n < Pow16(w)
    ensures |s| == w
  {
    if w == 0 then "" else Hex(n / 16, w - 1) + [Digit(n % 16)]
  }

  /** Splits `s` into groups of the given sizes, a dash after each. */
  function Dashed(s: string, groups: seq<nat>): string {
    if groups == [] || |s| < groups[0] then s
    else s[..groups[0]] + "-" + Dashed(s[groups[0]..], groups[1..])
  }

  /** The canonical text of an identifier: 8-4-4-4-12 hexadecimal digits. */
  function Text(u: Uuid): string {
    Pow16Is128Bits();
    Dashed(Hex(u, 32), [8, 4, 4, 4])
  }

  lemma Pow16Is128Bits()
    ensures Pow16(32) == 0x1_0000_0000_0000_0000_0000_0000_0000_0000
  {
    assert Pow16(8) == 0x1_0000_0000;
    assert Pow16(16) == 0x1_0000_0000_0000_0000;
    assert Pow16(24) == 0x1_0000_0000_0000_0000_0000_0000;
  }

  /** What a digit counts for. */
  function DigitValue(c: char): int {
    if '0' <= c <= '9' then c as int - '0' as int else c as int - 'a' as int + 10
  }

  function HexValue(s: string): int {
    if s == [] then 0 else 16 * HexValue(s[..|s| - 1]) + DigitValue(s[|s| - 1])
  }

  lemma {:induction false} HexOfValue(n: nat, w: nat)
    requires n < Pow16(w)
    ensures HexValue(Hex(n, w)) == n
    ensures forall c :: c in Hex(n, w) ==> '0' <= c <= '9' || 'a' <= c <= 'f'
  {
    if w > 0 {
      HexOfValue(n / 16, w - 1);
      assert Hex(n, w)[..w - 1] == Hex(n / 16, w - 1);
    }
  }

  lemma DashedFirst(s: string, group: nat, groups: seq<nat>)
    requires |s| >= group
    ensures Dashed(s, [group] + groups) == s[..group] + "-" + Dashed(s[group..], groups)
  {
    assert ([group] + groups)[1..] == groups;
  }

  lemma FourDashes(s: string)
    requires |s| == 32
    ensures Dashed(s, [8, 4, 4, 4]) == s[..8] + "-" + s[8..12] + "-" + s[12..16] + "-" + s[16..20] + "-" + s[20..]
  {
    var t, u, v := s[8..], s[12..], s[16..];
    assert t[4..] == u && u[4..] == v && v[4..] == s[20..];
    assert t[..4] == s[8..12] && u[..4] == s[12..16] && v[..4] == s[16..20];
    assert [8, 4, 4, 4] == [8] + [4, 4, 4] && [4, 4, 4] == [4] + [4, 4] && [4, 4] == [4] + [4] && [4] == [4] + [];
    DashedFirst(s, 8, [4, 4, 4]);
    DashedFirst(t, 4, [4, 4]);
    DashedFirst(u, 4, [4]);
    DashedFirst(v, 4, []);
  }

  /** The text is 32 lower-case hexadecimal digits that spell the value, with dashes
      after the eighth, twelfth, sixteenth and twentieth. */
  lemma TextForm(u: Uuid) returns (digits: string)
    ensures |digits| == 32 && HexValue(digits) == u
    ensures forall c :: c in digits ==> '0' <= c <= '9' || 'a' <= c <= 'f'
    ensures Text(u) ==
            digits[..8] + "-" + digits[8..12] + "-" + digits[12..16] + "-" + digits[16..20] + "-" + digits[20..]
  {
    Pow16Is128Bits();
    digits := Hex(u, 32);
    HexOfValue(u, 32);
    FourDashes(digits);
  }

  /** Comparing concatenations whose first parts have equal length. */
  lemma {:induction false} LexConcat(a: string, b: string, x: string, y: string)
    requires |a| == |b|
    ensures LexLess(a + x, b + y) <==> LexLess(a, b) || (a == b && LexLess(x, y))
  {
    if a == [] {
      assert a + x == x && b + y == y;
    } else {
      assert (a + x)[1..] == a[1..] + x && (b + y)[1..] == b[1..] + y;
      LexConcat(a[1..], b[1..], x, y);
      assert a == [a[0]] + a[1..] && b == [b[0]] + b[1..];
    }
  }

  /** Fixed-width hexadecimal text is ordered as the numbers are. */
  lemma {:induction false} HexOrder(a: nat, b: nat, w: nat)
    requires a < Pow16(w) && b < Pow16(w)
    ensures LexLess(Hex(a, w), Hex(b, w)) <==> a < b
    ensures Hex(a, w) == Hex(b, w) <==> a == b
  {
    if w > 0 {
      HexOrder(a / 16, b / 16, w - 1);
      var p, q := Hex(a / 16, w - 1), Hex(b / 16, w - 1);
      var c, d := [Digit(a % 16)], [Digit(b % 16)];
      LexConcat(p, q, c, d);
      assert LexLess(c, d) <==> a % 16 < b % 16;
      if p + c == q + d {
        assert p == (p + c)[..w - 1] == (q + d)[..w - 1] == q;
        assert (p + c)[w - 1] == (q + d)[w - 1];
      }
    }
  }

  /** Dashes at the same places change neither order nor equality. */
  lemma {:induction false} DashedOrder(s: string, t: string, groups: seq<nat>)
    requires |s| == |t|
    ensures LexLess(Dashed(s, groups), Dashed(t, groups)) <==> LexLess(s, t)
    ensures Dashed(s, groups) == Dashed(t, groups) <==> s == t
    ensures |Dashed(s, groups)| == |Dashed(t, groups)|
  {
    if groups == [] || |s| < groups[0] {
      return;
    }
    var k := groups[0];
    var s0, s1, t0, t1 := s[..k], s[k..], t[..k], t[k..];
    var ds, dt := Dashed(s1, groups[1..]), Dashed(t1, groups[1..]);
    DashedOrder(s1, t1, groups[1..]);
    assert s == s0 + s1 && t == t0 + t1;
    LexConcat(s0, t0, s1, t1);
    LexConcat(s0 + "-", t0 + "-", ds, dt);
    LexConcat(s0, t0, "-", "-");
    if Dashed(s, groups) == Dashed(t, groups) {
      assert s0 == Dashed(s, groups)[..k] == Dashed(t, groups)[..k] == t0;
      assert ds == Dashed(s, groups)[k + 1..] == Dashed(t, groups)[k + 1..] == dt;
    }
    if s0 + "-" == t0 + "-" {
      assert s0 == (s0 + "-")[..k] == (t0 + "-")[..k] == t0;
    }
  }

  /** Comparing identifiers by their text is comparing their values. */
  lemma TextOrder(a: Uuid, b: Uuid)
    ensures LexLess(Text(a), Text(b)) <==> a < b
    ensures Text(a) == Text(b) <==> a == b
  {
    Pow16Is128Bits();
    HexOrder(a, b, 32);
    DashedOrder(Hex(a, 32), Hex(b, 32), [8, 4, 4, 4]);
  }

  ghost predicate Ascending(s: seq<int>) {
    forall i, j :: 0 <= i < j < |s| ==> s[i] <= s[j]
  }

  ghost predicate StrictlyAscending(s: seq<int>) {
    forall i, j :: 0 <= i < j < |s| ==> s[i] < s[j]
  }

  /** The comparison is of texts. */
  method TextLess(a: Uuid, b: Uuid) returns (less: bool)
    ensures less <==> a < b
  {
    TextOrder(a, b);
    return LexLess(Text(a), Text(b));
  }

  /** The exchange sort: whatever order the identifiers come in, they leave it
      ascending and none is lost or repeated. */
  method SortUuids(ids: array<Uuid>)
    modifies ids
    ensures Ascending(ids[..])
    ensures multiset(ids[..]) == multiset(old(ids[..]))
  {
    var i := 0;
    while i < ids.Length
      invariant 0 <= i <= ids.Length
      invariant forall p, q :: 0 <= p < i && p < q < ids.Length ==> ids[p] <= ids[q]
      invariant multiset(ids[..]) == multiset(old(ids[..]))
    {
      var j := i + 1;
      while j < ids.Length
        invariant i < j <= ids.Length
        invariant forall p, q :: 0 <= p < i && p < q < ids.Length ==> ids[p] <= ids[q]
        invariant forall q :: i < q < j ==> ids[i] <= ids[q]
        invariant multiset(ids[..]) == multiset(old(ids[..]))
      {
        var less := TextLess(ids[j], ids[i]);
        if less {
          ids[i], ids[j] := ids[j], ids[i];
        }
        j := j + 1;
      }
      i := i + 1;
    }
  }

  lemma TailMultiset(s: seq<int>)
    requires s != []
    ensures multiset(s[1..]) == multiset(s) - multiset{s[0]}
  {
    assert s == [s[0]] + s[1..];
  }

  /** The head of an ascending sequence is its least element. */
  lemma HeadIsLeast(a: seq<int>, x: int)
    requires Ascending(a) && x in multiset(a)
    ensures a != [] && a[0] <= x
  {
    assert x in a;
  }

  lemma SameHead(a: seq<int>, b: seq<int>)
    requires a != [] && Ascending(a) && Ascending(b) && multiset(a) == multiset(b)
    ensures b != [] && a[0] == b[0]
  {
    assert a[0] in multiset(a);
    HeadIsLeast(b, a[0]);
    assert b[0] in multiset(b);
    HeadIsLeast(a, b[0]);
  }

  lemma NothingSame(b: seq<int>)
    requires multiset(b) == multiset([])
    ensures b == []
  {
    assert |b| == |multiset(b)| == 0;
  }

  /** There is one ascending arrangement, so the order in which a map hands out
      its keys cannot show in the sorted result. */
  lemma {:induction false} AscendingUnique(a: seq<int>, b: seq<int>)
    requires Ascending(a) && Ascending(b) && multiset(a) == multiset(b)
    ensures a == b
    decreases |a|
  {
    if a == [] {
      NothingSame(b);
    } else {
      SameHead(a, b);
      TailMultiset(a);
      TailMultiset(b);
      AscendingUnique(a[1..], b[1..]);
      assert a == [a[0]] + a[1..] && b == [b[0]] + b[1..];
    }
  }

  /** Distinct identifiers come out strictly ascending. */
  lemma AscendingDistinct(a: seq<int>, b: seq<int>)
    requires Ascending(b) && multiset(a) == multiset(b)
    requires forall i, j :: 0 <= i < j < |a| ==> a[i] != a[j]
    ensures StrictlyAscending(b)
  {
    forall i, j | 0 <= i < j < |b|
      ensures b[i] < b[j]
    {
      if b[i] == b[j] {
        Repeats(b, i, j);
        NoRepeats(a, b[i]);
        assert false;
      }
    }
  }

  lemma Repeats(s: seq<int>, i: nat, j: nat)
    requires i < j < |s| && s[i] == s[j]
    ensures multiset(s)[s[i]] >= 2
  {
    assert s == s[..j] + s[j..];
    assert s[i] == s[..j][i] && s[j] == s[j..][0];
    assert s[i] in multiset(s[..j]) && s[i] in multiset(s[j..]);
  }

  lemma {:induction false} NoRepeats(s: seq<int>, x: int)
    requires forall i, j :: 0 <= i < j < |s| ==> s[i] != s[j]
    ensures multiset(s)[x] <= 1
  {
    if s != [] {
      assert s == [s[0]] + s[1..];
      NoRepeats(s[1..], x);
      if s[0] == x {
        assert x !in s[1..];
      }
    }
  }
}

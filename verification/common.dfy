// Shared vocabulary: optional values, JavaScript string helpers as the
// components use them, Math.round-based percentages and the small list
// edits the onboarding forms perform.

module Wrappers {
  datatype Option<+T> = None | Some(value: T) {
    function GetOr(default: T): T {
      match this
      case None => default
      case Some(v) => v
    }
  }

  /** JavaScript `x || null` on an optional string: the empty string is falsy. */
  function OrNull(s: Option<string>): (r: Option<string>)
    ensures r == None <==> (s == None || s == Some(""))
    ensures r.Some? ==> r == s
  {
    if s == Some("") then None else s
  }

  /** JavaScript `x || d` on an optional string. */
  function OrElse(s: Option<string>, d: string): (r: string)
    ensures s.Some? && s.value != "" ==> r == s.value
    ensures (s.None? || s.value == "") ==> r == d
  {
    if s.Some? && s.value != "" then s.value else d
  }

  /** JavaScript truthiness of an optional string. */
  predicate Truthy(s: Option<string>) {
    s.Some? && s.value != ""
  }
}

module Text {
  /** `toLowerCase` restricted to ASCII letters. */
  function LowerChar(c: char): char {
    if 'A' <= c <= 'Z' then (c as int + 32) as char else c
  }

  /** `toUpperCase` restricted to ASCII letters. */
  function UpperChar(c: char): char {
    if 'a' <= c <= 'z' then (c as int - 32) as char else c
  }

  function Lower(s: string): (r: string)
    ensures |r| == |s|
    ensures forall i :: 0 <= i < |s| ==> r[i] == LowerChar(s[i])
  {
    seq(|s|, i requires 0 <= i < |s| => LowerChar(s[i]))
  }

  function Upper(s: string): (r: string)
    ensures |r| == |s|
    ensures forall i :: 0 <= i < |s| ==> r[i] == UpperChar(s[i])
  {
    seq(|s|, i requires 0 <= i < |s| => UpperChar(s[i]))
  }

  /** The white space and line terminators that `String.prototype.trim` strips. */
  predicate IsSpace(c: char) {
    var n := c as int;
    n == 0x09 || n == 0x0A || n == 0x0B || n == 0x0C || n == 0x0D || n == 0x20
    || n == 0xA0 || n == 0x1680 || (0x2000 <= n <= 0x200A) || n == 0x2028
    || n == 0x2029 || n == 0x202F || n == 0x205F || n == 0x3000 || n == 0xFEFF
  }

  function TrimStart(s: string): (r: string)
    ensures |r| <= |s|
    ensures r == s[|s| - |r|..]
    ensures forall i :: 0 <= i < |s| - |r| ==> IsSpace(s[i])
    ensures r != [] ==> !IsSpace(r[0])
  {
    if |s| > 0 && IsSpace(s[0]) then TrimStart(s[1..]) else s
  }

  function TrimEnd(s: string): (r: string)
    ensures |r| <= |s|
    ensures r == s[..|r|]
    ensures forall i :: |r| <= i < |s| ==> IsSpace(s[i])
    ensures r != [] ==> !IsSpace(r[|r| - 1])
  {
    if |s| > 0 && IsSpace(s[|s| - 1]) then TrimEnd(s[..|s| - 1]) else s
  }

  /** `String.prototype.trim`. */
  function Trim(s: string): string {
    TrimEnd(TrimStart(s))
  }

  predicate AllSpace(s: string) {
    forall i :: 0 <= i < |s| ==> IsSpace(s[i])
  }

  /** `s.trim()` is truthy. */
  predicate NonBlank(s: string) {
    Trim(s) != ""
  }

  /** A string is blank after trimming exactly when every character is white space. */
  lemma NonBlankIff(s: string)
    ensures NonBlank(s) <==> !AllSpace(s)
  {
    if AllSpace(s) {
      AllSpaceTrims(s);
    } else {
      var k :| 0 <= k < |s| && !IsSpace(s[k]);
      TrimStartKeeps(s, k);
      TrimEndKeeps(TrimStart(s));
    }
  }

  /** Trimming the front stops at the first character that is not white space. */
  lemma TrimStartKeeps(s: string, k: int)
    requires 0 <= k < |s| && !IsSpace(s[k])
    ensures TrimStart(s) != []
  {
    var a := TrimStart(s);
    assert k >= |s| - |a|;
  }

  /** Trimming the back of a string that begins with a non-space leaves it non-empty. */
  lemma TrimEndKeeps(a: string)
    requires a != [] && !IsSpace(a[0])
    ensures TrimEnd(a) != []
  {
    var r := TrimEnd(a);
    assert IsSpace(a[0]) || |r| > 0;
  }

  lemma {:induction false} AllSpaceTrims(s: string)
    requires AllSpace(s)
    ensures TrimStart(s) == []
  {
    if |s| > 0 {
      AllSpaceTrims(s[1..]);
    }
  }

  /** The email normalisation applied throughout: `toLowerCase().trim()`. */
  function NormalizeEmail(e: string): string {
    Trim(Lower(e))
  }

  predicate StartsWith(s: string, prefix: string) {
    |prefix| <= |s| && s[..|prefix|] == prefix
  }

  predicate IsDigit(c: char) {
    '0' <= c <= '9'
  }

  /** The decimal digits of a natural number, as template literals print it. */
  function Decimal(n: nat): (r: string)
    ensures |r| >= 1 && forall i :: 0 <= i < |r| ==> IsDigit(r[i])
  {
    if n < 10 then [('0' as int + n) as char] else Decimal(n / 10) + [('0' as int + n % 10) as char]
  }

  /** An integer printed in decimal, with a leading minus sign when negative. */
  function IntString(n: int): string {
    if n < 0 then "-" + Decimal(-n) else Decimal(n)
  }
}

module Percent {
  /**
   * `Math.round(c / t * 100)` when `t > 0`, else 0. Math.round rounds half
   * up, so this is the floor of `100c/t + 1/2`; Dafny's division by a
   * positive divisor is the floor, which makes the expression exact.
   */
  function RoundPercent(c: int, t: int): (r: int)
    ensures t <= 0 ==> r == 0
    ensures t > 0 ==> 2 * t * r - t <= 200 * c < 2 * t * r + t
  {
    if t > 0 then (200 * c + t) / (2 * t) else 0
  }

  /**
   * `Math.round(c / t * 1000) / 10` kept as an integer count of tenths of a
   * percent (33.3 is 333).
   */
  function RoundTenths(c: int, t: int): (r: int)
    ensures t <= 0 ==> r == 0
    ensures t > 0 ==> 2 * t * r - t <= 2000 * c < 2 * t * r + t
  {
    if t > 0 then (2000 * c + t) / (2 * t) else 0
  }

  lemma PositiveFactor(t: int, x: int)
    requires t > 0
    ensures t * x > 0 <==> x > 0
  {
  }

  /** A share of a whole rounds to a percentage between 0 and 100. */
  lemma PercentBounds(c: int, t: int)
    requires 0 <= c <= t
    ensures 0 <= RoundPercent(c, t) <= 100
    ensures RoundPercent(c, t) == 100 <==> (t > 0 && 200 * c >= 199 * t)
  {
    if t > 0 {
      var r := RoundPercent(c, t);
      var m := t * r;
      assert 2 * m - t <= 200 * c < 2 * m + t;
      assert t * (2 * r + 1) == 2 * m + t;
      PositiveFactor(t, 2 * r + 1);
      assert t * (202 - 2 * r) == 202 * t - 2 * m;
      PositiveFactor(t, 202 - 2 * r);
      if 200 * c >= 199 * t {
        assert t * (2 * r - 198) == 2 * m - 198 * t;
        PositiveFactor(t, 2 * r - 198);
      }
    }
  }

  lemma TenthsBounds(c: int, t: int)
    requires 0 <= c <= t
    ensures 0 <= RoundTenths(c, t) <= 1000
  {
    if t > 0 {
      var r := RoundTenths(c, t);
      var m := t * r;
      assert 2 * m - t <= 2000 * c < 2 * m + t;
      assert t * (2 * r + 1) == 2 * m + t;
      PositiveFactor(t, 2 * r + 1);
      assert t * (2002 - 2 * r) == 2002 * t - 2 * m;
      PositiveFactor(t, 2002 - 2 * r);
    }
  }

  /** All of something is 100 percent; none of it is 0. */
  lemma PercentExtremes(t: int)
    requires t > 0
    ensures RoundPercent(t, t) == 100 && RoundPercent(0, t) == 0
    ensures RoundTenths(t, t) == 1000 && RoundTenths(0, t) == 0
  {
    PercentBounds(t, t);
    PercentBounds(0, t);
    TenthsBounds(0, t);
    TenthsBounds(t, t);
    var r := RoundTenths(t, t);
    var m := t * r;
    assert 2 * m - t <= 2000 * t < 2 * m + t;
    assert t * (2 * r - 1999) == 2 * m - 1999 * t;
    PositiveFactor(t, 2 * r - 1999);
  }

  /** More completed never rounds to a smaller percentage. */
  lemma PercentMonotone(c1: int, c2: int, t: int)
    requires c1 <= c2
    ensures RoundPercent(c1, t) <= RoundPercent(c2, t)
  {
    if t > 0 {
      var a := RoundPercent(c1, t);
      var b := RoundPercent(c2, t);
      var ma := t * a;
      var mb := t * b;
      assert 2 * ma - t <= 200 * c1 <= 200 * c2 < 2 * mb + t;
      assert t * (2 * b - 2 * a + 2) == 2 * mb - 2 * ma + 2 * t;
      PositiveFactor(t, 2 * b - 2 * a + 2);
    }
  }
}

module ListOps {
  /** `list.filter(x => x !== v)`: every copy of `v` goes. */
  function RemoveAll(s: seq<string>, v: string): (r: seq<string>)
    ensures v !in r
    ensures forall x :: x in r <==> x in s && x != v
    ensures |r| <= |s|
    ensures v !in s ==> r == s
  {
    if s == [] then []
    else if s[0] == v then RemoveAll(s[1..], v)
    else [s[0]] + RemoveAll(s[1..], v)
  }

  /** The checkbox toggle: `list.includes(v) ? list.filter(x => x !== v) : [...list, v]`. */
  function Toggle(s: seq<string>, v: string): (r: seq<string>)
    ensures v in r <==> v !in s
    ensures forall x :: x != v ==> (x in r <==> x in s)
  {
    if v in s then RemoveAll(s, v) else s + [v]
  }

  /** Ticking a box and unticking it again restores the list. */
  lemma ToggleTwice(s: seq<string>, v: string)
    requires v !in s
    ensures Toggle(Toggle(s, v), v) == s
  {
    RemoveAppended(s, v);
  }

  lemma {:induction false} RemoveAppended(s: seq<string>, v: string)
    requires v !in s
    ensures RemoveAll(s + [v], v) == s
  {
    if s == [] {
      assert [v][1..] == [];
    } else {
      assert (s + [v])[1..] == s[1..] + [v];
      RemoveAppended(s[1..], v);
    }
  }

  /** `list.map((x, j) => j === i ? v : x)`. */
  function ReplaceAt<T>(s: seq<T>, i: int, v: T): (r: seq<T>)
    ensures |r| == |s|
    ensures forall j :: 0 <= j < |s| ==> r[j] == (if j == i then v else s[j])
  {
    if 0 <= i < |s| then s[i := v] else s
  }

  /** `list.filter((_, j) => j !== i)`. */
  function RemoveAt<T>(s: seq<T>, i: int): (r: seq<T>)
    ensures 0 <= i < |s| ==> |r| == |s| - 1
    ensures !(0 <= i < |s|) ==> r == s
    ensures 0 <= i < |s| ==> forall j :: 0 <= j < |r| ==> r[j] == (if j < i then s[j] else s[j + 1])
  {
    if 0 <= i < |s| then s[..i] + s[i + 1..] else s
  }

  /** `list.filter(p)`: the entries satisfying `p`, in their original order. */
  function Filter<T(!new)>(s: seq<T>, p: T -> bool): (r: seq<T>)
    ensures |r| <= |s|
    ensures forall x :: x in r <==> x in s && p(x)
    ensures (forall i :: 0 <= i < |s| ==> p(s[i])) ==> r == s
    ensures (forall i :: 0 <= i < |s| ==> !p(s[i])) ==> r == []
  {
    if s == [] then []
    else if p(s[0]) then [s[0]] + Filter(s[1..], p)
    else Filter(s[1..], p)
  }

  /**
   * Filtering a concatenation filters each part and keeps them in order; with
   * `FilterOne` this fixes the result as the kept entries in their order.
   */
  lemma {:induction false} FilterAppend<T(!new)>(a: seq<T>, b: seq<T>, p: T -> bool)
    ensures Filter(a + b, p) == Filter(a, p) + Filter(b, p)
  {
    if a == [] {
      assert a + b == b;
    } else {
      var ab := a + b;
      assert ab[0] == a[0];
      assert ab[1..] == a[1..] + b;
      FilterAppend(a[1..], b, p);
      if p(a[0]) {
        calc {
          Filter(ab, p);
          [a[0]] + Filter(a[1..] + b, p);
          [a[0]] + (Filter(a[1..], p) + Filter(b, p));
          ([a[0]] + Filter(a[1..], p)) + Filter(b, p);
        }
      }
    }
  }

  /** The first entry satisfying the predicate heads the filtered list. */
  lemma {:induction false} FilterHead<T(!new)>(s: seq<T>, p: T -> bool, k: int)
    requires 0 <= k < |s| && p(s[k]) && forall j :: 0 <= j < k ==> !p(s[j])
    ensures Filter(s, p) != [] && Filter(s, p)[0] == s[k]
  {
    if k > 0 {
      assert s[1..][k - 1] == s[k];
      assert forall j :: 0 <= j < k - 1 ==> s[1..][j] == s[j + 1];
      FilterHead(s[1..], p, k - 1);
    }
  }

  /** A single entry is kept exactly when it satisfies the predicate. */
  lemma FilterOne<T(!new)>(x: T, p: T -> bool)
    ensures Filter([x], p) == if p(x) then [x] else []
  {
    assert [x][1..] == [];
  }

  /** Number of `true` entries. */
  function CountTrue(bs: seq<bool>): (n: nat)
    ensures n <= |bs|
    ensures n == |bs| <==> (forall i :: 0 <= i < |bs| ==> bs[i])
  {
    if bs == [] then 0 else (if bs[0] then 1 else 0) + CountTrue(bs[1..])
  }

  /** No `true` entry counts nothing. */
  lemma {:induction false} CountTrueNone(bs: seq<bool>)
    requires forall i :: 0 <= i < |bs| ==> !bs[i]
    ensures CountTrue(bs) == 0
  {
    if bs != [] {
      assert forall i :: 0 <= i < |bs| - 1 ==> bs[1..][i] == bs[i + 1];
      CountTrueNone(bs[1..]);
    }
  }
}

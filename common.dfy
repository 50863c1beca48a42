/** Small value types and string helpers shared by the modules of the shop backend model. */
module Common {

  datatype Option<T> = None | Some(value: T)

  /** Document identifiers (Mongo ObjectIds) are opaque strings here. */
  type UserId = string
  type StoreId = string
  type ProductId = string

  /** The value when present, the default otherwise. */
  function Or<T>(o: Option<T>, d: T): (v: T)
    ensures o.Some? ==> v == o.value
    ensures o.None? ==> v == d
  {
    if o.Some? then o.value else d
  }

  /** JavaScript truthiness of an optional string: present and non-empty. */
  predicate Truthy(s: Option<string>)
  {
    s.Some? && s.value != ""
  }

  predicate IsDigit(c: char)
  {
    '0' <= c <= '9'
  }

  predicate AllDigits(s: string)
  {
    forall i :: 0 <= i < |s| ==> IsDigit(s[i])
  }

  predicate IsLowerAlnum(c: char)
  {
    'a' <= c <= 'z' || IsDigit(c)
  }

  /** ASCII case mapping, the part of `toLowerCase` the model keeps. */
  function ToLowerChar(c: char): (d: char)
    ensures 'A' <= c <= 'Z' ==> 'a' <= d <= 'z'
    ensures !('A' <= c <= 'Z') ==> d == c
  {
    if 'A' <= c <= 'Z' then (c as int + 32) as char else c
  }

  function ToLower(s: string): (r: string)
    ensures |r| == |s|
    ensures forall i :: 0 <= i < |s| ==> r[i] == ToLowerChar(s[i])
  {
    if s == [] then [] else [ToLowerChar(s[0])] + ToLower(s[1..])
  }

  predicate StartsWith(s: string, prefix: string)
  {
    |prefix| <= |s| && s[..|prefix|] == prefix
  }

  /** `s.includes(p)`, which is also what an unanchored regular-expression alternative tests. */
  predicate Contains(s: string, p: string)
  {
    exists i | 0 <= i <= |s| - |p| :: OccursAt(s, p, i)
  }

  predicate OccursAt(s: string, p: string, i: int)
  {
    0 <= i <= |s| - |p| && s[i..i + |p|] == p
  }

  /**
   * Whitespace removed by `String.prototype.trim`: the ECMAScript WhiteSpace characters
   * (tab, vertical tab, form feed, space, no-break space, the byte-order mark and the
   * other space separators of Unicode category Zs) and the LineTerminator characters.
   */
  predicate IsSpace(c: char)
  {
    c == '\t' || c == '\U{B}' || c == '\U{C}' || c == ' ' || c == '\U{A0}' || c == '\U{FEFF}'
    || c == '\U{1680}' || ('\U{2000}' <= c <= '\U{200A}') || c == '\U{202F}' || c == '\U{205F}'
    || c == '\U{3000}' || c == '\n' || c == '\r' || c == '\U{2028}' || c == '\U{2029}'
  }

  /** `trimStart()`: the longest prefix of whitespace is removed and nothing else. */
  function TrimStart(s: string): (r: string)
    ensures |r| <= |s| && r == s[|s| - |r|..]
    ensures forall i :: 0 <= i < |s| - |r| ==> IsSpace(s[i])
    ensures r != [] ==> !IsSpace(r[0])
  {
    if s != [] && IsSpace(s[0]) then TrimStart(s[1..]) else s
  }

  /** `trimEnd()`: the longest suffix of whitespace is removed and nothing else. */
  function TrimEnd(s: string): (r: string)
    ensures |r| <= |s| && r == s[..|r|]
    ensures forall i :: |r| <= i < |s| ==> IsSpace(s[i])
    ensures r != [] ==> !IsSpace(r[|r| - 1])
  {
    if s != [] && IsSpace(s[|s| - 1]) then TrimEnd(s[..|s| - 1]) else s
  }

  /** `r` is the slice of `s` at `k` with only whitespace before and after it. */
  predicate SpaceAround(s: string, r: string, k: int)
  {
    0 <= k <= |s| - |r| && r == s[k..k + |r|]
    && (forall i :: 0 <= i < k ==> IsSpace(s[i]))
    && (forall i :: k + |r| <= i < |s| ==> IsSpace(s[i]))
  }

  /** `trim()`: whitespace is removed from both ends, and only whitespace. */
  function Trim(s: string): (r: string)
    ensures |r| <= |s|
    ensures exists k :: SpaceAround(s, r, k)
    ensures r != [] ==> !IsSpace(r[0]) && !IsSpace(r[|r| - 1])
  {
    var t := TrimStart(s);
    var r := TrimEnd(t);
    assert SpaceAround(s, r, |s| - |t|) by {
      forall i | |s| - |t| + |r| <= i < |s| ensures IsSpace(s[i]) {
        assert s[i] == t[i - (|s| - |t|)];
      }
    }
    r
  }

  // ---------------------------------------------------------------- filtering

  /** `idx` picks the elements of `r` out of `s`, at strictly ascending positions. */
  ghost predicate PicksAt<T>(r: seq<T>, s: seq<T>, idx: seq<int>)
  {
    |idx| == |r|
    && (forall k :: 0 <= k < |idx| ==> 0 <= idx[k] < |s| && r[k] == s[idx[k]])
    && (forall k, l :: 0 <= k < l < |idx| ==> idx[k] < idx[l])
  }

  /** `idx` holds exactly the positions of `s` whose element `keep` accepts. */
  ghost predicate KeptAt<T>(s: seq<T>, keep: T -> bool, idx: seq<int>)
  {
    (forall k :: 0 <= k < |idx| && 0 <= idx[k] < |s| ==> keep(s[idx[k]]))
    && (forall i :: 0 <= i < |s| && keep(s[i]) ==> i in idx)
  }

  /**
   * `s.filter(keep)`: the elements `keep` accepts, every occurrence once, in their
   * original order.
   */
  ghost predicate IsFilter<T>(r: seq<T>, s: seq<T>, keep: T -> bool)
  {
    exists idx :: PicksAt(r, s, idx) && KeptAt(s, keep, idx)
  }

  lemma FilterNil<T>(keep: T -> bool)
    ensures IsFilter([], [], keep)
  {
    var none: seq<T> := [];
    assert PicksAt(none, none, []) && KeptAt(none, keep, []);
  }

  /** Filtering one more element at the end appends it when it is kept. */
  lemma FilterSnoc<T>(r: seq<T>, s: seq<T>, keep: T -> bool, x: T)
    requires IsFilter(r, s, keep)
    ensures IsFilter(if keep(x) then r + [x] else r, s + [x], keep)
  {
    var idx :| PicksAt(r, s, idx) && KeptAt(s, keep, idx);
    if keep(x) {
      PicksSnoc(r, s, idx, x);
      KeptSnoc(s, keep, idx, x);
    } else {
      PicksExtend(r, s, idx, x);
      KeptSkip(s, keep, idx, x);
    }
  }

  lemma PicksSnoc<T>(r: seq<T>, s: seq<T>, idx: seq<int>, x: T)
    requires PicksAt(r, s, idx)
    ensures PicksAt(r + [x], s + [x], idx + [|s|])
  {
    var s', r', idx' := s + [x], r + [x], idx + [|s|];
    forall k | 0 <= k < |idx| ensures 0 <= idx'[k] < |s'| && r'[k] == s'[idx'[k]] {
      assert idx'[k] == idx[k] && r'[k] == r[k] && s'[idx[k]] == s[idx[k]];
    }
  }

  lemma PicksExtend<T>(r: seq<T>, s: seq<T>, idx: seq<int>, x: T)
    requires PicksAt(r, s, idx)
    ensures PicksAt(r, s + [x], idx)
  {
    forall k | 0 <= k < |idx| ensures (s + [x])[idx[k]] == s[idx[k]] {
    }
  }

  lemma KeptSnoc<T>(s: seq<T>, keep: T -> bool, idx: seq<int>, x: T)
    requires KeptAt(s, keep, idx) && keep(x)
    requires forall k :: 0 <= k < |idx| ==> 0 <= idx[k] < |s|
    ensures KeptAt(s + [x], keep, idx + [|s|])
  {
    var s', idx' := s + [x], idx + [|s|];
    forall k | 0 <= k < |idx'| && 0 <= idx'[k] < |s'| ensures keep(s'[idx'[k]]) {
      if k < |idx| {
        assert idx'[k] == idx[k] && s'[idx[k]] == s[idx[k]];
      }
    }
    forall i | 0 <= i < |s'| && keep(s'[i]) ensures i in idx' {
      if i < |s| {
        assert s'[i] == s[i] && i in idx;
      }
    }
  }

  lemma KeptSkip<T>(s: seq<T>, keep: T -> bool, idx: seq<int>, x: T)
    requires KeptAt(s, keep, idx) && !keep(x)
    requires forall k :: 0 <= k < |idx| ==> 0 <= idx[k] < |s|
    ensures KeptAt(s + [x], keep, idx)
  {
    var s' := s + [x];
    forall k | 0 <= k < |idx| ensures keep(s'[idx[k]]) {
      assert s'[idx[k]] == s[idx[k]];
    }
    forall i | 0 <= i < |s'| && keep(s'[i]) ensures i in idx {
      if i < |s| {
        assert s'[i] == s[i];
      }
    }
  }

  /** Filtering one more element at the front prepends it when it is kept. */
  lemma FilterCons<T>(r: seq<T>, s: seq<T>, keep: T -> bool, x: T)
    requires IsFilter(r, s, keep)
    ensures IsFilter(if keep(x) then [x] + r else r, [x] + s, keep)
  {
    var idx :| PicksAt(r, s, idx) && KeptAt(s, keep, idx);
    var shifted := Shift(idx);
    PicksShift(r, s, idx, x);
    KeptShift(s, keep, idx, x);
    if keep(x) {
      PicksCons(r, [x] + s, shifted, x);
      KeptCons([x] + s, keep, shifted);
    }
  }

  /** Every position moved one place on. */
  function Shift(idx: seq<int>): (r: seq<int>)
    ensures |r| == |idx| && forall k :: 0 <= k < |idx| ==> r[k] == idx[k] + 1
  {
    seq(|idx|, k requires 0 <= k < |idx| => idx[k] + 1)
  }

  lemma PicksShift<T>(r: seq<T>, s: seq<T>, idx: seq<int>, x: T)
    requires PicksAt(r, s, idx)
    ensures PicksAt(r, [x] + s, Shift(idx))
  {
    var s' := [x] + s;
    forall k | 0 <= k < |idx| ensures s'[idx[k] + 1] == s[idx[k]] {
    }
  }

  lemma KeptShift<T>(s: seq<T>, keep: T -> bool, idx: seq<int>, x: T)
    requires KeptAt(s, keep, idx)
    requires forall k :: 0 <= k < |idx| ==> 0 <= idx[k] < |s|
    ensures forall k :: 0 <= k < |idx| ==> keep(([x] + s)[Shift(idx)[k]])
    ensures forall i :: 1 <= i <= |s| && keep(([x] + s)[i]) ==> i in Shift(idx)
  {
    var s', sh := [x] + s, Shift(idx);
    forall k | 0 <= k < |idx| ensures keep(s'[sh[k]]) {
      assert s'[sh[k]] == s[idx[k]];
    }
    forall i | 1 <= i <= |s| && keep(s'[i]) ensures i in sh {
      assert s'[i] == s[i - 1] && i - 1 in idx;
      var k :| 0 <= k < |idx| && idx[k] == i - 1;
      assert sh[k] == i;
    }
  }

  lemma PicksCons<T>(r: seq<T>, s: seq<T>, sh: seq<int>, x: T)
    requires PicksAt(r, s, sh) && s != [] && s[0] == x
    requires forall k :: 0 <= k < |sh| ==> sh[k] >= 1
    ensures PicksAt([x] + r, s, [0] + sh)
  {
    var r', idx' := [x] + r, [0] + sh;
    forall k | 1 <= k < |idx'| ensures 0 <= idx'[k] < |s| && r'[k] == s[idx'[k]] {
      assert idx'[k] == sh[k - 1] && r'[k] == r[k - 1];
    }
    forall k, l | 0 <= k < l < |idx'| ensures idx'[k] < idx'[l] {
      assert idx'[l] == sh[l - 1];
      if k > 0 {
        assert idx'[k] == sh[k - 1];
      }
    }
  }

  lemma KeptCons<T>(s: seq<T>, keep: T -> bool, sh: seq<int>)
    requires s != [] && keep(s[0])
    requires forall k :: 0 <= k < |sh| ==> 1 <= sh[k] < |s|
    requires forall k :: 0 <= k < |sh| ==> keep(s[sh[k]])
    requires forall i :: 1 <= i < |s| && keep(s[i]) ==> i in sh
    ensures KeptAt(s, keep, [0] + sh)
  {
    var idx' := [0] + sh;
    forall k | 0 <= k < |idx'| && 0 <= idx'[k] < |s| ensures keep(s[idx'[k]]) {
      if k > 0 {
        assert idx'[k] == sh[k - 1];
      }
    }
    forall i | 0 <= i < |s| && keep(s[i]) ensures i in idx' {
      if i > 0 {
        assert i in sh;
      }
    }
  }

  function DigitChar(d: nat): (c: char)
    requires d < 10
    ensures IsDigit(c)
  {
    ('0' as int + d) as char
  }

  function DigitValue(c: char): nat
    requires IsDigit(c)
  {
    c as int - '0' as int
  }

  /** `Number.prototype.toString()` of a non-negative integer: its decimal digits. */
  function NatToDecimal(n: nat): (r: string)
    ensures |r| >= 1 && AllDigits(r)
  {
    if n < 10 then [DigitChar(n)] else NatToDecimal(n / 10) + [DigitChar(n % 10)]
  }

  /** Decimal rendering of any integer, with a leading `-` for negatives. */
  function IntToDecimal(i: int): (r: string)
    ensures |r| >= 1
    ensures i >= 0 ==> AllDigits(r)
    ensures i < 0 ==> r[0] == '-'
  {
    if i < 0 then "-" + NatToDecimal(-i) else NatToDecimal(i)
  }

  /** The value of a string of decimal digits, the inverse of NatToDecimal. */
  function DecimalValue(s: string): nat
    requires AllDigits(s)
  {
    if s == [] then 0 else DecimalValue(s[..|s| - 1]) * 10 + DigitValue(s[|s| - 1])
  }

  lemma {:induction false} DecimalRoundTrip(n: nat)
    ensures DecimalValue(NatToDecimal(n)) == n
  {
    if n >= 10 {
      var s := NatToDecimal(n);
      assert s[..|s| - 1] == NatToDecimal(n / 10);
      DecimalRoundTrip(n / 10);
    }
  }
}

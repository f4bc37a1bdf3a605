/**
 * Shared helpers: the shapes random draws take once they are passed in as
 * parameters (a permutation chosen by a code, a 16-bit random integer), and
 * the few string and list operations of Python's standard library that the
 * modelled code relies on.
 */
module Oracles {

  /** No element occurs twice. */
  predicate Distinct<T(==)>(s: seq<T>) {
    forall i, j :: 0 <= i < j < |s| ==> s[i] != s[j]
  }

  /**
   * The permutation of `s` selected by `code` (a Lehmer code: the first
   * element is `s[code % |s|]`, the rest is chosen from what remains by
   * `code / |s|`). Every permutation of `s` has a code, so a call to
   * `random.sample(s, len(s))` is `Shuffle(s, code)` for some code, and
   * `random.sample(s, k)` is a prefix of length k of one.
   */
  function Shuffle<T>(s: seq<T>, code: nat): (r: seq<T>)
    ensures |r| == |s|
    decreases |s|
  {
    if |s| == 0 then []
    else
      var i := code % |s|;
      [s[i]] + Shuffle(s[..i] + s[i + 1..], code / |s|)
  }

  /** A shuffle is a permutation. */
  lemma {:induction false} ShufflePermutes<T>(s: seq<T>, code: nat)
    ensures multiset(Shuffle(s, code)) == multiset(s)
    decreases |s|
  {
    if |s| == 0 {
    } else {
      var i := code % |s|;
      var rest := s[..i] + s[i + 1..];
      RemoveAtMultiset(s, i);
      ShufflePermutes(rest, code / |s|);
      assert Shuffle(s, code) == [s[i]] + Shuffle(rest, code / |s|);
      assert multiset(Shuffle(s, code)) == multiset(s);
    }
  }

  /** Removing the element at `i` takes exactly one occurrence of it out of the multiset. */
  lemma RemoveAtMultiset<T>(s: seq<T>, i: nat)
    requires i < |s|
    ensures multiset(s) == multiset{s[i]} + multiset(s[..i] + s[i + 1..])
  {
    assert s == s[..i] + [s[i]] + s[i + 1..];
  }

  lemma {:induction false} ShuffleDistinct<T>(s: seq<T>, code: nat)
    requires Distinct(s)
    ensures Distinct(Shuffle(s, code))
    decreases |s|
  {
    if |s| > 0 {
      var i := code % |s|;
      var rest := s[..i] + s[i + 1..];
      RemoveAtDistinct(s, i);
      ShuffleDistinct(rest, code / |s|);
      var tail := Shuffle(rest, code / |s|);
      ShufflePermutes(rest, code / |s|);
      assert s[i] !in multiset(tail);
      ConsDistinct(s[i], tail);
    }
  }

  /** Removing one element keeps a list duplicate-free, and the element is then absent. */
  lemma RemoveAtDistinct<T>(s: seq<T>, i: nat)
    requires Distinct(s) && i < |s|
    ensures Distinct(s[..i] + s[i + 1..])
    ensures s[i] !in s[..i] + s[i + 1..]
  {
    var rest := s[..i] + s[i + 1..];
    forall k | 0 <= k < |rest|
      ensures rest[k] == s[if k < i then k else k + 1]
    {
    }
  }

  lemma ConsDistinct<T>(x: T, s: seq<T>)
    requires Distinct(s) && x !in s
    ensures Distinct([x] + s)
  {
    var r := [x] + s;
    forall a, b | 0 <= a < b < |r| ensures r[a] != r[b] {
      assert r[b] == s[b - 1];
      if a > 0 {
        assert r[a] == s[a - 1];
      }
    }
  }

  lemma AppendDistinct<T>(a: seq<T>, b: seq<T>)
    requires Distinct(a) && Distinct(b)
    requires forall x :: x in a ==> x !in b
    ensures Distinct(a + b)
  {
    var r := a + b;
    forall i, j | 0 <= i < j < |r| ensures r[i] != r[j] {
      if j >= |a| {
        assert r[j] == b[j - |a|];
        if i >= |a| {
          assert r[i] == b[i - |a|];
        } else {
          assert r[i] == a[i] && a[i] in a;
        }
      }
    }
  }

  /** The two halves of a duplicate-free concatenation share no element. */
  lemma DistinctSplit<T>(a: seq<T>, b: seq<T>)
    requires Distinct(a + b)
    ensures forall x :: x in a ==> x !in b
  {
    forall i, j | 0 <= i < |a| && 0 <= j < |b| ensures a[i] != b[j] {
      assert (a + b)[i] == a[i] && (a + b)[|a| + j] == b[j];
    }
  }

  lemma DistinctPrefix<T>(s: seq<T>, k: nat)
    requires Distinct(s) && k <= |s|
    ensures Distinct(s[..k])
  {
    assert forall i :: 0 <= i < k ==> s[..k][i] == s[i];
  }

  /** Extending a prefix by one element. */
  lemma PrefixSnoc<T>(s: seq<T>, i: nat)
    requires i < |s|
    ensures s[..i + 1] == s[..i] + [s[i]]
  {
  }

  /** A duplicate-free list with the members of a set has its size. */
  lemma DistinctMembers<T>(s: seq<T>, members: set<T>)
    requires Distinct(s)
    requires forall x :: x in s <==> x in members
    ensures |s| == |members|
  {
    DistinctCard(s);
    assert (set x | x in s) == members;
  }

  /** A duplicate-free list has as many members as elements. */
  lemma {:induction false} DistinctCard<T>(s: seq<T>)
    requires Distinct(s)
    ensures |set x | x in s| == |s|
  {
    if s != [] {
      var init := s[..|s| - 1];
      assert Distinct(init);
      DistinctCard(init);
      var last := s[|s| - 1];
      assert last !in init;
      assert (set x | x in s) == (set x | x in init) + {last} by {
        assert s == init + [last];
      }
    }
  }

  /**
   * The dictionary `m` after assigning `vals[i]` to `keys[i]` in order, so
   * that a later assignment to the same key overwrites an earlier one.
   */
  function Update<K, V>(m: map<K, V>, keys: seq<K>, vals: seq<V>): map<K, V>
    requires |keys| == |vals|
  {
    if keys == [] then m
    else Update(m, keys[..|keys| - 1], vals[..|vals| - 1])[keys[|keys| - 1] := vals[|vals| - 1]]
  }

  /** A dictionary built from scratch by assigning `vals[i]` to `keys[i]` in order. */
  function Assign<K, V>(keys: seq<K>, vals: seq<V>): map<K, V>
    requires |keys| == |vals|
  {
    Update(map[], keys, vals)
  }

  lemma UpdateStep<K, V>(m: map<K, V>, keys: seq<K>, vals: seq<V>, i: nat)
    requires i < |keys| && i < |vals|
    ensures Update(m, keys[..i + 1], vals[..i + 1]) == Update(m, keys[..i], vals[..i])[keys[i] := vals[i]]
  {
    assert keys[..i + 1][..i] == keys[..i];
    assert vals[..i + 1][..i] == vals[..i];
  }

  lemma AssignStep<K, V>(keys: seq<K>, vals: seq<V>, i: nat)
    requires i < |keys| && i < |vals|
    ensures Assign(keys[..i + 1], vals[..i + 1]) == Assign(keys[..i], vals[..i])[keys[i] := vals[i]]
  {
    UpdateStep(map[], keys, vals, i);
  }

  /** The keys of `m` and every assigned key, and no other. */
  lemma {:induction false} UpdateKeys<K, V>(m: map<K, V>, keys: seq<K>, vals: seq<V>)
    requires |keys| == |vals|
    ensures Update(m, keys, vals).Keys == m.Keys + set k | k in keys
  {
    if keys != [] {
      var init := keys[..|keys| - 1];
      UpdateKeys(m, init, vals[..|vals| - 1]);
      assert keys == init + [keys[|keys| - 1]];
    }
  }

  /** A key holds the value of its last assignment. */
  lemma {:induction false} UpdateLast<K, V>(m: map<K, V>, keys: seq<K>, vals: seq<V>, i: nat)
    requires i < |keys| == |vals| && keys[i] !in keys[i + 1..]
    ensures keys[i] in Update(m, keys, vals) && Update(m, keys, vals)[keys[i]] == vals[i]
  {
    var n := |keys| - 1;
    if i < n {
      var init := keys[..n];
      assert keys[n] in keys[i + 1..];
      assert init[i + 1..] == keys[i + 1..n];
      UpdateLast(m, init, vals[..n], i);
    }
  }

  /** A key never assigned keeps its value. */
  lemma {:induction false} UpdateElsewhere<K, V>(m: map<K, V>, keys: seq<K>, vals: seq<V>, k: K)
    requires |keys| == |vals| && k in m && k !in keys
    ensures k in Update(m, keys, vals) && Update(m, keys, vals)[k] == m[k]
  {
    if keys != [] {
      var n := |keys| - 1;
      assert keys[n] != k;
      assert forall x :: x in keys[..n] ==> x in keys;
      UpdateElsewhere(m, keys[..n], vals[..n], k);
    }
  }

  /** Every key is assigned, and no other. */
  lemma AssignKeys<K, V>(keys: seq<K>, vals: seq<V>)
    requires |keys| == |vals|
    ensures Assign(keys, vals).Keys == set k | k in keys
  {
    UpdateKeys(map[], keys, vals);
  }

  /** A key holds the value of its last assignment. */
  lemma AssignLast<K, V>(keys: seq<K>, vals: seq<V>, i: nat)
    requires i < |keys| == |vals| && keys[i] !in keys[i + 1..]
    ensures keys[i] in Assign(keys, vals) && Assign(keys, vals)[keys[i]] == vals[i]
  {
    UpdateLast(map[], keys, vals, i);
  }

  /** The first element drawn is the one the code picks. */
  lemma ShuffleHead<T>(s: seq<T>, code: nat)
    requires |s| > 0
    ensures Shuffle(s, code)[0] == s[code % |s|]
  {
  }

  lemma ShuffleMembers<T>(s: seq<T>, code: nat, x: T)
    ensures x in Shuffle(s, code) <==> x in s
  {
    ShufflePermutes(s, code);
    assert x in Shuffle(s, code) <==> x in multiset(Shuffle(s, code));
  }

  /** The distinct elements of `s`, in order of first occurrence. */
  function Dedup<T(==, !new)>(s: seq<T>): (r: seq<T>)
    ensures Distinct(r)
    ensures forall x :: x in r <==> x in s
    ensures |r| <= |s|
  {
    if s == [] then []
    else
      var d := Dedup(s[..|s| - 1]);
      var last := s[|s| - 1];
      assert s == s[..|s| - 1] + [last];
      if last in d then d else d + [last]
  }

  // ---------------------------------------------------------------------
  // Hexadecimal suffixes: hex(random.randint(0, 0xFFFF))[2:].zfill(4)
  // ---------------------------------------------------------------------

  /** A value of `random.random()`, which lies in `[0, 1)`. */
  type UnitDraw = r: real | 0.0 <= r < 1.0

  /** The result of `random.randint(0, 0xFFFF)`. */
  type Word16 = n: int | 0 <= n <= 0xFFFF

  /**
   * The draws behind one generated id: `datetime.now().strftime(...)` and
   * the random 16-bit suffix.
   */
  datatype IdDraw = IdDraw(timestamp: string, suffix: Word16)

  predicate IsLowerHexChar(c: char) {
    '0' <= c <= '9' || 'a' <= c <= 'f'
  }

  function HexChar(d: nat): (c: char)
    requires d < 16
    ensures IsLowerHexChar(c)
  {
    if d < 10 then ('0' as int + d) as char else ('a' as int + d - 10) as char
  }

  function HexValue(c: char): nat {
    if '0' <= c <= '9' then c as int - '0' as int
    else if 'a' <= c <= 'f' then c as int - 'a' as int + 10
    else 0
  }

  /** Python's `hex(n)[2:]`: lower-case digits, no leading zeros, "0" for zero. */
  function HexDigits(n: nat): string
    decreases n
  {
    if n < 16 then [HexChar(n)] else HexDigits(n / 16) + [HexChar(n % 16)]
  }

  /** Python's `s.zfill(width)` for a string without a sign. */
  function ZFill(s: string, width: nat): string {
    if |s| >= width then s else seq(width - |s|, _ => '0') + s
  }

  /** The value of a string of lower-case hex digits. */
  function ParseHex(s: string): nat {
    if s == [] then 0 else ParseHex(s[..|s| - 1]) * 16 + HexValue(s[|s| - 1])
  }

  /** `hex(n)[2:].zfill(4)`, the random suffix of every generated id. */
  function HexSuffix(n: Word16): (r: string)
    ensures |r| == 4
    ensures forall c :: c in r ==> IsLowerHexChar(c)
  {
    HexDigitsShape(n, 4);
    ZFill(HexDigits(n), 4)
  }

  lemma {:induction false} HexDigitsShape(n: nat, k: nat)
    requires n < Pow16(k)
    ensures 1 <= |HexDigits(n)| <= if k == 0 then 1 else k
    ensures forall c :: c in HexDigits(n) ==> IsLowerHexChar(c)
    decreases n
  {
    if n >= 16 {
      assert Pow16(1) == 16;
      assert k >= 2;
      assert n / 16 < Pow16(k - 1);
      HexDigitsShape(n / 16, k - 1);
    }
  }

  function Pow16(k: nat): nat {
    if k == 0 then 1 else 16 * Pow16(k - 1)
  }

  lemma {:induction false} ParseHexDigits(n: nat)
    ensures ParseHex(HexDigits(n)) == n
    decreases n
  {
    if n >= 16 {
      var s := HexDigits(n);
      assert s[..|s| - 1] == HexDigits(n / 16);
      ParseHexDigits(n / 16);
    }
  }

  lemma {:induction false} ParseHexLeadingZeros(z: nat, s: string)
    ensures ParseHex(seq(z, _ => '0') + s) == ParseHex(s)
    decreases |s|
  {
    var zeros := seq(z, _ => '0');
    if s == [] {
      assert zeros + s == zeros;
      ParseHexZeros(z);
    } else {
      var init := s[..|s| - 1];
      assert (zeros + s)[..|zeros + s| - 1] == zeros + init;
      ParseHexLeadingZeros(z, init);
    }
  }

  lemma {:induction false} ParseHexZeros(z: nat)
    ensures ParseHex(seq(z, _ => '0')) == 0
  {
    if z > 0 {
      assert seq(z, _ => '0')[..z - 1] == seq(z - 1, _ => '0');
      ParseHexZeros(z - 1);
    }
  }

  /** The suffix reads back as the number it was made from. */
  lemma HexSuffixRoundTrip(n: Word16)
    ensures ParseHex(HexSuffix(n)) == n
  {
    var d := HexDigits(n);
    HexDigitsShape(n, 4);
    ParseHexDigits(n);
    if |d| < 4 {
      ParseHexLeadingZeros(4 - |d|, d);
    }
  }

  lemma HexSuffixInjective(m: Word16, n: Word16)
    ensures HexSuffix(m) == HexSuffix(n) ==> m == n
  {
    HexSuffixRoundTrip(m);
    HexSuffixRoundTrip(n);
  }

  // ---------------------------------------------------------------------
  // Strings and numbers
  // ---------------------------------------------------------------------

  function LowerChar(c: char): char {
    if 'A' <= c <= 'Z' then (c as int - 'A' as int + 'a' as int) as char else c
  }

  /** `s.lower()` restricted to ASCII letters. */
  function Lower(s: string): (r: string)
    ensures |r| == |s|
    ensures forall i :: 0 <= i < |s| ==> r[i] == LowerChar(s[i])
  {
    if s == [] then [] else [LowerChar(s[0])] + Lower(s[1..])
  }

  lemma LowerConcat(a: string, b: string)
    ensures Lower(a + b) == Lower(a) + Lower(b)
  {
    var l, r := Lower(a + b), Lower(a) + Lower(b);
    forall i | 0 <= i < |l| ensures l[i] == r[i] {
      if i < |a| {
        assert (a + b)[i] == a[i];
      } else {
        assert (a + b)[i] == b[i - |a|];
      }
    }
    assert l == r;
  }

  /** Lower-casing a string without capital letters leaves it as it is. */
  lemma LowerUnchanged(s: string)
    requires forall i :: 0 <= i < |s| ==> !('A' <= s[i] <= 'Z')
    ensures Lower(s) == s
  {
  }

  /** Python's `needle in haystack` on strings. */
  predicate IsSubstring(needle: string, haystack: string)
    decreases |haystack|
  {
    |needle| <= |haystack| &&
    (haystack[..|needle|] == needle || IsSubstring(needle, haystack[1..]))
  }

  /** `needle` occurs in `haystack` starting at position `i`. */
  predicate OccursAt(needle: string, haystack: string, i: int) {
    0 <= i <= |haystack| - |needle| && haystack[i..i + |needle|] == needle
  }

  /** A string occurs at the end of any string it ends. */
  lemma SuffixOccurs(a: string, b: string)
    ensures IsSubstring(b, a + b)
  {
    assert OccursAt(b, a + b, |a|);
    IsSubstringAt(b, a + b);
  }

  /** The recursive definition agrees with "occurs at some position". */
  lemma {:induction false} IsSubstringAt(needle: string, haystack: string)
    ensures IsSubstring(needle, haystack) <==> exists i :: OccursAt(needle, haystack, i)
    decreases |haystack|
  {
    if |needle| <= |haystack| {
      if haystack[..|needle|] == needle {
        assert OccursAt(needle, haystack, 0);
      } else {
        var tail := haystack[1..];
        IsSubstringAt(needle, tail);
        if IsSubstring(needle, tail) {
          var i :| OccursAt(needle, tail, i);
          assert OccursAt(needle, haystack, i + 1) by {
            assert haystack[i + 1..i + 1 + |needle|] == tail[i..i + |needle|];
          }
        }
        if exists i :: OccursAt(needle, haystack, i) {
          var i :| OccursAt(needle, haystack, i);
          assert i != 0;
          assert OccursAt(needle, tail, i - 1) by {
            assert tail[i - 1..i - 1 + |needle|] == haystack[i..i + |needle|];
          }
        }
      }
    }
  }

  function Sum(s: seq<real>): real {
    if s == [] then 0.0 else Sum(s[..|s| - 1]) + s[|s| - 1]
  }

  /** `sum(v) / len(v)`. */
  function Mean(s: seq<real>): real
    requires |s| > 0
  {
    Sum(s) / (|s| as real)
  }

  lemma {:induction false} MeanOfConstant(s: seq<real>, c: real)
    requires |s| > 0
    requires forall i :: 0 <= i < |s| ==> s[i] == c
    ensures Mean(s) == c
  {
    SumOfConstant(s, c);
  }

  lemma {:induction false} SumOfConstant(s: seq<real>, c: real)
    requires forall i :: 0 <= i < |s| ==> s[i] == c
    ensures Sum(s) == (|s| as real) * c
  {
    if s != [] {
      SumOfConstant(s[..|s| - 1], c);
    }
  }

  /** A sum of values in `[lo, hi]` lies between `|s|·lo` and `|s|·hi`. */
  lemma {:induction false} SumBounds(s: seq<real>, lo: real, hi: real)
    requires forall i :: 0 <= i < |s| ==> lo <= s[i] <= hi
    ensures (|s| as real) * lo <= Sum(s) <= (|s| as real) * hi
  {
    if s != [] {
      SumBounds(s[..|s| - 1], lo, hi);
    }
  }

  /** The mean of values in `[lo, hi]` lies in `[lo, hi]`. */
  lemma MeanBounds(s: seq<real>, lo: real, hi: real)
    requires |s| > 0
    requires forall i :: 0 <= i < |s| ==> lo <= s[i] <= hi
    ensures lo <= Mean(s) <= hi
  {
    SumBounds(s, lo, hi);
    var n := |s| as real;
    assert Mean(s) * n == Sum(s);
  }

  /** Every permutation of `s` is the shuffle of some code: `Shuffle` reaches them all. */
  lemma {:induction false} ShuffleReaches<T>(s: seq<T>, r: seq<T>) returns (code: nat)
    requires multiset(r) == multiset(s)
    ensures Shuffle(s, code) == r
    decreases |s|
  {
    assert |r| == |multiset(r)| == |multiset(s)| == |s|;
    if |s| == 0 {
      code := 0;
    } else {
      var i := RemoveMatching(s, r);
      var c := ShuffleReaches(s[..i] + s[i + 1..], r[1..]);
      code := ShuffleCode(s, i, c);
      assert r == [r[0]] + r[1..];
    }
  }

  /** The code `i + |s|·c` takes `s[i]` first and shuffles the rest with `c`. */
  lemma ShuffleCode<T>(s: seq<T>, i: nat, c: nat) returns (code: nat)
    requires i < |s|
    ensures code == i + |s| * c
    ensures Shuffle(s, code) == [s[i]] + Shuffle(s[..i] + s[i + 1..], c)
  {
    CodeDigits(i, |s|, c);
    code := i + |s| * c;
  }

  /** The first element of a permutation `r` of `s` sits somewhere in `s`; without it, both are still permutations of each other. */
  lemma RemoveMatching<T>(s: seq<T>, r: seq<T>) returns (i: nat)
    requires multiset(r) == multiset(s) && r != []
    ensures i < |s| && s[i] == r[0]
    ensures multiset(r[1..]) == multiset(s[..i] + s[i + 1..])
  {
    assert r[0] in multiset(s);
    i :| 0 <= i < |s| && s[i] == r[0];
    assert s == s[..i] + [s[i]] + s[i + 1..];
    assert r == [r[0]] + r[1..];
    assert multiset(s[..i] + s[i + 1..]) == multiset(s) - multiset{s[i]};
  }

  lemma CodeDigits(i: nat, n: nat, c: nat)
    requires i < n
    ensures (i + n * c) % n == i && (i + n * c) / n == c
  {
    var x := i + n * c;
    var q, r := x / n, x % n;
    assert x == n * q + r && 0 <= r < n;
    SameDigits(n, q, r, c, i);
  }

  /** Quotient and remainder by `n` are unique. */
  lemma SameDigits(n: int, q: int, r: int, c: int, i: int)
    requires 0 <= r < n && 0 <= i < n && n * q + r == n * c + i
    ensures q == c && r == i
  {
    if q > c {
      ScaleAtLeast(n, q - c);
    } else if q < c {
      ScaleAtLeast(n, c - q);
    }
  }

  lemma ScaleAtLeast(n: int, k: int)
    requires n >= 0 && k >= 1
    ensures n * k >= n
  {
    assert n * k == n * (k - 1) + n;
  }
}

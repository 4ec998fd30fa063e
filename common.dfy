/** Shared vocabulary of the simulator: process ids, bits, the three shapes the
    decision field `y` takes across the repository, and the small pure helpers
    (substring test on one character, decimal rendering, dict-from-list) that
    several source files rely on. */
module Common {

  /** Process ids are strings such as "P1". */
  type Pid = string

  type Bit = b: int | 0 <= b <= 1

  datatype Option<T> = None | Some(value: T)

  /** The decision field `y`. Every process starts at 'b' (Blank); the Ben-Or
      handler and the toy protocols write the text '0'/'1' (TextBit), while
      the base configuration queries look for the integers 0/1 (IntBit). */
  datatype YValue = Blank | TextBit(t: Bit) | IntBit(i: Bit)

  /** Python's `"c" in s` for a one-character needle. */
  predicate Contains(s: string, c: char) {
    c in s
  }

  predicate Distinct<T(==)>(s: seq<T>) {
    forall i, j :: 0 <= i < j < |s| ==> s[i] != s[j]
  }

  /** A distinct sequence is a distinct prefix and a last element not in it;
      x is in it when it is in the prefix or is the last element. */
  lemma DistinctSplit<T>(s: seq<T>, x: T)
    requires Distinct(s) && s != []
    ensures Distinct(s[..|s| - 1]) && s[|s| - 1] !in s[..|s| - 1]
    ensures x in s <==> x in s[..|s| - 1] || x == s[|s| - 1]
  {
    var n := |s| - 1;
    assert s == s[..n] + [s[n]];
    forall i | 0 <= i < n ensures s[..n][i] != s[n] {
      assert s[i] != s[n];
    }
  }

  function Digit(d: nat): (c: char)
    requires d < 10
    ensures '0' <= c <= '9' && c as int - '0' as int == d
  {
    (d + '0' as int) as char
  }

  /** Python's `str(n)` / `f"{n}"` for a natural number. */
  function NatToString(n: nat): (s: string)
    ensures 1 <= |s|
    ensures forall i :: 0 <= i < |s| ==> '0' <= s[i] <= '9'
    ensures n < 10 <==> |s| == 1
    decreases n
  {
    if n < 10 then [Digit(n)] else NatToString(n / 10) + [Digit(n % 10)]
  }

  /** The number a string of decimal digits denotes, most significant first. */
  function DigitsValue(s: string): nat
    requires forall i :: 0 <= i < |s| ==> '0' <= s[i] <= '9'
    decreases |s|
  {
    if s == [] then 0 else DigitsValue(s[..|s| - 1]) * 10 + (s[|s| - 1] as int - '0' as int)
  }

  /** Reading the decimal text of n back gives n. */
  lemma {:induction false} NatToStringValue(n: nat)
    ensures DigitsValue(NatToString(n)) == n
    decreases n
  {
    if n >= 10 {
      NatToStringValue(n / 10);
      var s := NatToString(n);
      assert s[..|s| - 1] == NatToString(n / 10);
    }
  }

  /** Python's `f"{i}"` for an integer: a minus sign before a negative one. */
  function IntToString(i: int): (s: string)
    ensures 1 <= |s|
    ensures i >= 0 ==> s == NatToString(i)
    ensures i < 0 ==> s[0] == '-' && s[1..] == NatToString(-i)
  {
    if i >= 0 then NatToString(i) else "-" + NatToString(-i)
  }

  /** Decimal rendering is injective, so ids built from distinct counters differ. */
  lemma {:induction false} NatToStringInjective(a: nat, b: nat)
    requires NatToString(a) == NatToString(b)
    ensures a == b
  {
    var s, t := NatToString(a), NatToString(b);
    if a >= 10 && b >= 10 {
      assert s[..|s| - 1] == NatToString(a / 10);
      assert t[..|t| - 1] == NatToString(b / 10);
      NatToStringInjective(a / 10, b / 10);
      assert Digit(a % 10) == s[|s| - 1] == Digit(b % 10);
    } else if a < 10 && b < 10 {
      assert Digit(a) == s[0] == Digit(b);
    }
  }

  /** `{k: v for (k, v) in pairs}`: a later duplicate key replaces an earlier
      value. */
  function ZipByKey<T>(ks: seq<Pid>, vs: seq<T>): map<Pid, T>
    requires |ks| == |vs|
    decreases |ks|
  {
    if ks == [] then map[]
    else ZipByKey(ks[..|ks| - 1], vs[..|vs| - 1])[ks[|ks| - 1] := vs[|vs| - 1]]
  }

  /** The key order of that dict: each key at the position of its first
      occurrence. */
  function FirstOccurrences(ks: seq<Pid>): seq<Pid>
    decreases |ks|
  {
    if ks == [] then []
    else
      var rest := FirstOccurrences(ks[..|ks| - 1]);
      if ks[|ks| - 1] in ks[..|ks| - 1] then rest else rest + [ks[|ks| - 1]]
  }

  /** The dict has one key per distinct input key, and each key holds the
      value paired with its LAST occurrence. */
  lemma {:induction false} ZipByKeyLast<T>(ks: seq<Pid>, vs: seq<T>)
    requires |ks| == |vs|
    ensures ZipByKey(ks, vs).Keys == set k | k in ks
    ensures forall i :: 0 <= i < |ks| && ks[i] !in ks[i + 1..] ==> ZipByKey(ks, vs)[ks[i]] == vs[i]
  {
    if ks != [] {
      var n := |ks| - 1;
      ZipByKeyLast(ks[..n], vs[..n]);
      var prev := ZipByKey(ks[..n], vs[..n]);
      assert ZipByKey(ks, vs) == prev[ks[n] := vs[n]];
      assert ks == ks[..n] + [ks[n]];
      forall i | 0 <= i < |ks| && ks[i] !in ks[i + 1..]
        ensures ZipByKey(ks, vs)[ks[i]] == vs[i]
      {
        if i < n {
          assert ks[n] in ks[i + 1..];
          assert ks[i] != ks[n];
          assert ks[..n][i + 1..] == ks[i + 1..n];
          assert ks[..n][i] == ks[i] && vs[..n][i] == vs[i];
          assert prev[ks[i]] == vs[i];
        }
      }
    }
  }

  /** Every value of the dict is one of the paired values, at the index of
      one of its key's occurrences. */
  lemma {:induction false} ZipByKeyFrom<T>(ks: seq<Pid>, vs: seq<T>)
    requires |ks| == |vs|
    ensures forall k :: k in ZipByKey(ks, vs) ==> exists j :: 0 <= j < |ks| && ks[j] == k && ZipByKey(ks, vs)[k] == vs[j]
    decreases |ks|
  {
    if ks != [] {
      var n := |ks| - 1;
      ZipByKeyFrom(ks[..n], vs[..n]);
      assert ZipByKey(ks, vs) == ZipByKey(ks[..n], vs[..n])[ks[n] := vs[n]];
      forall k | k in ZipByKey(ks, vs)
        ensures exists j :: 0 <= j < |ks| && ks[j] == k && ZipByKey(ks, vs)[k] == vs[j]
      {
        if k == ks[n] {
          assert ZipByKey(ks, vs)[k] == vs[n];
        } else {
          var j :| 0 <= j < n && ks[..n][j] == k && ZipByKey(ks[..n], vs[..n])[k] == vs[..n][j];
          assert ks[j] == k && vs[j] == vs[..n][j];
        }
      }
    }
  }

  /** Two dicts built from one key list pick their values at the same index. */
  lemma {:induction false} ZipByKeySameIndex<A, B>(ks: seq<Pid>, xs: seq<A>, ys: seq<B>)
    requires |ks| == |xs| == |ys|
    ensures ZipByKey(ks, xs).Keys == ZipByKey(ks, ys).Keys
    ensures forall k :: k in ZipByKey(ks, xs) ==>
      exists j :: 0 <= j < |ks| && ZipByKey(ks, xs)[k] == xs[j] && ZipByKey(ks, ys)[k] == ys[j]
    decreases |ks|
  {
    if ks != [] {
      var n := |ks| - 1;
      ZipByKeySameIndex(ks[..n], xs[..n], ys[..n]);
      forall k | k in ZipByKey(ks, xs)
        ensures exists j :: 0 <= j < |ks| && ZipByKey(ks, xs)[k] == xs[j] && ZipByKey(ks, ys)[k] == ys[j]
      {
        if k == ks[n] {
          assert ZipByKey(ks, xs)[k] == xs[n] && ZipByKey(ks, ys)[k] == ys[n];
        } else {
          var j :| 0 <= j < n && ZipByKey(ks[..n], xs[..n])[k] == xs[..n][j] && ZipByKey(ks[..n], ys[..n])[k] == ys[..n][j];
          assert xs[j] == xs[..n][j] && ys[j] == ys[..n][j];
        }
      }
    }
  }

  /** The key order lists every key exactly once. */
  lemma {:induction false} FirstOccurrencesKeys(ks: seq<Pid>)
    ensures Distinct(FirstOccurrences(ks))
    ensures forall k :: k in FirstOccurrences(ks) <==> k in ks
  {
    if ks != [] {
      var n := |ks| - 1;
      FirstOccurrencesKeys(ks[..n]);
      assert ks == ks[..n] + [ks[n]];
    }
  }

  /** Extending the input list by one element, as a loop over it does. */
  lemma PrefixStep<T>(ks: seq<Pid>, vs: seq<T>, i: nat)
    requires |ks| == |vs| && i < |ks|
    ensures ZipByKey(ks[..i + 1], vs[..i + 1]) == ZipByKey(ks[..i], vs[..i])[ks[i] := vs[i]]
    ensures FirstOccurrences(ks[..i + 1]) ==
      if ks[i] in FirstOccurrences(ks[..i]) then FirstOccurrences(ks[..i])
      else FirstOccurrences(ks[..i]) + [ks[i]]
  {
    assert ks[..i + 1][..i] == ks[..i] && vs[..i + 1][..i] == vs[..i];
    FirstOccurrencesKeys(ks[..i]);
  }

  /** The loop that builds `{k: v for (k, v) in pairs}` and its key order. */
  method KeyBy<T>(ks: seq<Pid>, vs: seq<T>) returns (m: map<Pid, T>, o: seq<Pid>)
    requires |ks| == |vs|
    ensures m == ZipByKey(ks, vs) && o == FirstOccurrences(ks)
    ensures Distinct(o) && m.Keys == (set k | k in o) && m.Keys == (set k | k in ks)
    ensures forall k :: k in m ==> exists j :: 0 <= j < |ks| && ks[j] == k && vs[j] == m[k]
  {
    m, o := map[], [];
    var i := 0;
    while i < |ks|
      invariant 0 <= i <= |ks|
      invariant m == ZipByKey(ks[..i], vs[..i]) && o == FirstOccurrences(ks[..i])
      invariant forall k :: k in m ==> exists j :: 0 <= j < i && ks[j] == k && vs[j] == m[k]
    {
      PrefixStep(ks, vs, i);
      m := m[ks[i] := vs[i]];
      if ks[i] !in o {
        o := o + [ks[i]];
      }
      i := i + 1;
    }
    assert ks[..i] == ks && vs[..i] == vs;
    FirstOccurrencesKeys(ks);
    ZipByKeyLast(ks, vs);
  }
}

/** Small vocabulary shared by every module: options, text tests and sequence functions. */
module Prelude {

  datatype Option<+T> = None | Some(value: T)

  /** The characters Python's str.strip() removes. */
  predicate IsSpace(c: char) {
    || '\U{9}' <= c <= '\U{D}'
    || '\U{1C}' <= c <= '\U{20}'
    || c in {'\U{85}', '\U{A0}', '\U{1680}', '\U{2028}', '\U{2029}', '\U{202F}', '\U{205F}', '\U{3000}'}
    || '\U{2000}' <= c <= '\U{200A}'
  }

  /** The text that strip() reduces to the empty string. */
  predicate IsBlank(s: string) {
    forall i | 0 <= i < |s| :: IsSpace(s[i])
  }

  function StripLeft(s: string): (r: string)
    ensures r == "" || !IsSpace(r[0])
    ensures |r| <= |s| && r == s[|s| - |r|..]
  {
    if s != "" && IsSpace(s[0]) then StripLeft(s[1..]) else s
  }

  function StripRight(s: string): (r: string)
    ensures r == "" || !IsSpace(r[|r| - 1])
    ensures |r| <= |s| && r == s[..|r|]
  {
    if s != "" && IsSpace(s[|s| - 1]) then StripRight(s[..|s| - 1]) else s
  }

  function Strip(s: string): string {
    StripRight(StripLeft(s))
  }

  lemma {:induction false} StripLeftOfBlank(s: string)
    ensures IsBlank(s) <==> StripLeft(s) == ""
  {
    if s != "" && IsSpace(s[0]) {
      StripLeftOfBlank(s[1..]);
      assert IsBlank(s) <==> IsBlank(s[1..]) by {
        assert s == [s[0]] + s[1..];
        assert forall i | 1 <= i < |s| :: s[i] == s[1..][i - 1];
      }
    }
  }

  lemma {:induction false} StripRightKeeps(s: string)
    requires s != "" && !IsSpace(s[0])
    ensures StripRight(s) != ""
  {
    if IsSpace(s[|s| - 1]) {
      StripRightKeeps(s[..|s| - 1]);
    }
  }

  lemma StripOfBlank(s: string)
    ensures IsBlank(s) <==> Strip(s) == ""
  {
    StripLeftOfBlank(s);
    if StripLeft(s) != "" {
      StripRightKeeps(StripLeft(s));
    }
  }

  /** r is what is left of s, from position i on, without the spaces around it. */
  predicate StrippedAt(s: string, r: string, i: int) {
    && 0 <= i <= |s| - |r| && s[i..i + |r|] == r && IsBlank(s[..i]) && IsBlank(s[i + |r|..])
    && (r != "" ==> !IsSpace(r[0]) && !IsSpace(r[|r| - 1]))
  }

  lemma {:induction false} StripLeftMeaning(s: string)
    ensures IsBlank(s[..|s| - |StripLeft(s)|])
  {
    if s != "" && IsSpace(s[0]) {
      StripLeftMeaning(s[1..]);
      var n := |s| - |StripLeft(s)|;
      assert s[..n] == [s[0]] + s[1..][..n - 1];
    }
  }

  lemma {:induction false} StripRightMeaning(s: string)
    ensures IsBlank(s[|StripRight(s)|..])
  {
    if s != "" && IsSpace(s[|s| - 1]) {
      StripRightMeaning(s[..|s| - 1]);
      var n := |StripRight(s)|;
      assert s[n..] == s[..|s| - 1][n..] + [s[|s| - 1]];
    }
  }

  lemma StrippedWithin(s: string, left: string, r: string)
    requires |left| <= |s| && s[|s| - |left|..] == left && IsBlank(s[..|s| - |left|])
    requires |r| <= |left| && left[..|r|] == r && IsBlank(left[|r|..])
    requires r != "" ==> !IsSpace(r[0]) && !IsSpace(r[|r| - 1])
    ensures StrippedAt(s, r, |s| - |left|)
  {
    var i := |s| - |left|;
    assert s[i..i + |r|] == left[..|r|];
    assert s[i + |r|..] == left[|r|..];
  }

  lemma StripMeaning(s: string)
    ensures exists i :: StrippedAt(s, Strip(s), i)
  {
    var left := StripLeft(s);
    StripLeftMeaning(s);
    StripRightMeaning(left);
    StrippedWithin(s, left, Strip(s));
  }

  function Concat<T>(parts: seq<seq<T>>): seq<T> {
    if parts == [] then [] else parts[0] + Concat(parts[1..])
  }

  lemma {:induction false} ConcatSnoc<T>(parts: seq<seq<T>>, last: seq<T>)
    ensures Concat(parts + [last]) == Concat(parts) + last
  {
    if parts == [] {
      assert Concat([last]) == last + Concat([]);
    } else {
      assert (parts + [last])[1..] == parts[1..] + [last];
      ConcatSnoc(parts[1..], last);
    }
  }

  lemma {:induction false} ConcatAppend<T>(a: seq<seq<T>>, b: seq<seq<T>>)
    ensures Concat(a + b) == Concat(a) + Concat(b)
  {
    if a == [] {
      assert a + b == b;
    } else {
      assert (a + b)[1..] == a[1..] + b;
      ConcatAppend(a[1..], b);
    }
  }

  /** Python's sep.join(parts). */
  function Join(parts: seq<string>, sep: string): string {
    if parts == [] then ""
    else if |parts| == 1 then parts[0]
    else parts[0] + sep + Join(parts[1..], sep)
  }

  function Digits(n: nat): string {
    if n < 10 then ["0123456789"[n]] else Digits(n / 10) + ["0123456789"[n % 10]]
  }

  /** Python's str(i) for an integer. */
  function Decimal(i: int): string {
    if i < 0 then "-" + Digits(-i) else Digits(i)
  }

  function ValueOf(digits: string): int {
    if digits == "" then 0 else 10 * ValueOf(digits[..|digits| - 1]) + (digits[|digits| - 1] as int - '0' as int)
  }

  lemma {:induction false} DigitsValue(n: nat)
    ensures Digits(n) != "" && '0' <= Digits(n)[0] <= '9' && ValueOf(Digits(n)) == n
  {
    if n >= 10 {
      DigitsValue(n / 10);
      assert Digits(n)[..|Digits(n)| - 1] == Digits(n / 10);
    } else {
      assert Digits(n)[..0] == "";
    }
  }

  /** Its digits stand for the integer, so different integers are written differently. */
  lemma DecimalMeaning(i: int)
    ensures if i < 0 then Decimal(i)[..1] == "-" && ValueOf(Decimal(i)[1..]) == -i else Decimal(i)[..1] != "-" && ValueOf(Decimal(i)) == i
  {
    DigitsValue(if i < 0 then -i else i);
    if i < 0 {
      assert Decimal(i)[1..] == Digits(-i);
    }
  }

  predicate Distinct<T(==)>(s: seq<T>) {
    forall i, j | 0 <= i < j < |s| :: s[i] != s[j]
  }

  ghost function Elements<T>(s: seq<T>): set<T> {
    set x | x in s
  }

  lemma {:induction false} ElementsCount<T>(s: seq<T>)
    ensures |Elements(s)| <= |s|
    ensures |Elements(s)| == |s| <==> Distinct(s)
  {
    if s != [] {
      var front, last := s[..|s| - 1], s[|s| - 1];
      ElementsCount(front);
      assert s == front + [last];
      assert Elements(s) == Elements(front) + {last};
    }
  }

  /** Distinct values drawn from a set are no more than it has. */
  lemma FitsIn<T>(s: seq<T>, all: set<T>)
    requires Distinct(s) && (forall x | x in s :: x in all)
    ensures |s| <= |all|
  {
    ElementsCount(s);
    assert all == Elements(s) + (all - Elements(s));
  }

  lemma {:induction false} CountOfDistinct<T>(s: seq<T>, x: T)
    requires Distinct(s)
    ensures multiset(s)[x] == if x in s then 1 else 0
  {
    if s != [] {
      assert s == [s[0]] + s[1..];
      CountOfDistinct(s[1..], x);
      assert s[0] !in s[1..];
    }
  }

  lemma SameMultiset<T>(a: seq<T>, b: seq<T>)
    requires Distinct(a) && Distinct(b)
    requires forall x :: x in a <==> x in b
    ensures multiset(a) == multiset(b)
  {
    forall x: T
      ensures multiset(a)[x] == multiset(b)[x] {
      CountOfDistinct(a, x);
      CountOfDistinct(b, x);
    }
  }

  lemma DistinctByCount<T>(s: seq<T>)
    requires forall x :: multiset(s)[x] <= 1
    ensures Distinct(s)
  {
    forall i, j | 0 <= i < j < |s|
      ensures s[i] != s[j] {
      assert s == s[..j] + s[j..];
      assert s[i] in s[..j] && s[j] in s[j..];
      assert multiset(s)[s[i]] == multiset(s[..j])[s[i]] + multiset(s[j..])[s[i]];
    }
  }

  lemma DistinctPermutation<T>(a: seq<T>, b: seq<T>)
    requires Distinct(b) && multiset(a) == multiset(b)
    ensures Distinct(a) && forall x :: x in a <==> x in b
  {
    forall x
      ensures multiset(a)[x] <= 1 {
      CountOfDistinct(b, x);
    }
    DistinctByCount(a);
    forall x
      ensures x in a <==> x in b {
      assert x in multiset(a) <==> x in multiset(b);
    }
  }

  ghost predicate OccursAt(s: string, t: string, k: int) {
    0 <= k <= |s| - |t| && s[k..k + |t|] == t
  }

  ghost predicate Contains(s: string, t: string) {
    exists k :: OccursAt(s, t, k)
  }

  /** Python's s.find(t): the first occurrence, or -1. */
  function Find(s: string, t: string): (k: int)
    ensures -1 <= k
    ensures k >= 0 ==> OccursAt(s, t, k)
    decreases |s|
  {
    if |t| <= |s| && s[..|t|] == t then
      assert OccursAt(s, t, 0);
      0
    else if s == "" then -1
    else
      var k := Find(s[1..], t);
      assert k >= 0 ==> s[k + 1..k + 1 + |t|] == s[1..][k..k + |t|];
      if k == -1 then -1 else k + 1
  }

  lemma OccursLater(s: string, t: string, j: int)
    requires s != "" && 1 <= j
    ensures OccursAt(s, t, j) <==> OccursAt(s[1..], t, j - 1)
  {
    if j + |t| <= |s| {
      var here, there := s[j..j + |t|], s[1..][j - 1..j - 1 + |t|];
      assert |here| == |there|;
      forall k | 0 <= k < |t|
        ensures here[k] == there[k] {
        assert here[k] == s[j + k];
        assert there[k] == s[1..][j - 1 + k];
      }
      assert here == there;
    }
  }

  /** The occurrence found is the first. */
  lemma {:induction false} FindFirst(s: string, t: string)
    ensures forall j | 0 <= j && (Find(s, t) == -1 || j < Find(s, t)) :: !OccursAt(s, t, j)
    decreases |s|
  {
    if !(|t| <= |s| && s[..|t|] == t) && s != "" {
      FindFirst(s[1..], t);
      forall j | 0 <= j && (Find(s, t) == -1 || j < Find(s, t))
        ensures !OccursAt(s, t, j) {
        if j > 0 {
          OccursLater(s, t, j);
        }
      }
    }
  }

  /** Extensionality for the integer-keyed tables below, spelled out for the solver. */
  lemma SameSet(s: set<int>, t: set<int>)
    requires forall i :: i in s <==> i in t
    ensures s == t
  {
    forall i ensures i in s <==> i in t {
    }
  }

  lemma SameMap<V>(m: map<int, V>, k: map<int, V>)
    requires forall i :: i in m <==> i in k
    requires forall i | i in m :: m[i] == k[i]
    ensures m == k
  {
    SameSet(m.Keys, k.Keys);
    forall i | i in m.Keys ensures m[i] == k[i] {
    }
  }
}

/** A stable sort by a comparator, as Rust's `sort_by` provides it, and what determines its result. */
module StableSort {
  import Text

  ghost predicate TotalPreorder<T(!new)>(le: (T, T) -> bool) {
    && (forall a, b :: le(a, b) || le(b, a))
    && (forall a, b, c :: le(a, b) && le(b, c) ==> le(a, c))
  }

  /** Puts `x` before the first element it need not follow. */
  function Insert<T>(x: T, s: seq<T>, le: (T, T) -> bool): seq<T> {
    if s == [] then [x]
    else if le(x, s[0]) then [x] + s
    else [s[0]] + Insert(x, s[1..], le)
  }

  function Sort<T>(s: seq<T>, le: (T, T) -> bool): seq<T> {
    if s == [] then [] else Insert(s[0], Sort(s[1..], le), le)
  }

  lemma {:induction false} SortInsert<T>(x: T, s: seq<T>, le: (T, T) -> bool)
    ensures multiset(Insert(x, s, le)) == multiset([x]) + multiset(s)
    ensures |Insert(x, s, le)| == 1 + |s|
  {
    if s != [] && !le(x, s[0]) {
      SortInsert(x, s[1..], le);
      assert s == [s[0]] + s[1..];
    }
  }

  /** Sorting rearranges: nothing is lost or repeated. */
  lemma {:induction false} SortPermutes<T>(s: seq<T>, le: (T, T) -> bool)
    ensures multiset(Sort(s, le)) == multiset(s) && |Sort(s, le)| == |s|
  {
    if s != [] {
      SortPermutes(s[1..], le);
      SortInsert(s[0], Sort(s[1..], le), le);
      assert s == [s[0]] + s[1..];
    }
  }

  ghost predicate Sorted<T>(s: seq<T>, le: (T, T) -> bool) {
    forall i, j :: 0 <= i < j < |s| ==> le(s[i], s[j])
  }

  lemma {:induction false} InsertSorted<T(!new)>(x: T, s: seq<T>, le: (T, T) -> bool)
    requires TotalPreorder(le) && Sorted(s, le)
    ensures Sorted(Insert(x, s, le), le)
  {
    if s != [] && !le(x, s[0]) {
      InsertSorted(x, s[1..], le);
      var rest := Insert(x, s[1..], le);
      SortInsert(x, s[1..], le);
      forall j | 0 <= j < |rest| ensures le(s[0], rest[j]) {
        assert rest[j] in multiset(rest);
        assert rest[j] == x || rest[j] in s[1..];
      }
    }
  }

  lemma {:induction false} SortSorted<T(!new)>(s: seq<T>, le: (T, T) -> bool)
    requires TotalPreorder(le)
    ensures Sorted(Sort(s, le), le)
  {
    if s != [] {
      SortSorted(s[1..], le);
      InsertSorted(s[0], Sort(s[1..], le), le);
    }
  }

  predicate Tied<T>(x: T, y: T, le: (T, T) -> bool) {
    le(x, y) && le(y, x)
  }

  /** The elements the comparator cannot tell from `y`, in their order. */
  function Ties<T>(s: seq<T>, y: T, le: (T, T) -> bool): seq<T> {
    if s == [] then [] else (if Tied(s[0], y, le) then [s[0]] else []) + Ties(s[1..], y, le)
  }

  lemma {:induction false} TiesAppend<T>(a: seq<T>, b: seq<T>, y: T, le: (T, T) -> bool)
    ensures Ties(a + b, y, le) == Ties(a, y, le) + Ties(b, y, le)
  {
    if a == [] {
      assert a + b == b;
    } else {
      var head := if Tied(a[0], y, le) then [a[0]] else [];
      assert (a + b)[1..] == a[1..] + b;
      TiesAppend(a[1..], b, y, le);
      Text.Reassociate(head, Ties(a[1..], y, le), Ties(b, y, le));
    }
  }

  lemma {:induction false} TiesInsert<T(!new)>(x: T, s: seq<T>, y: T, le: (T, T) -> bool)
    requires TotalPreorder(le)
    ensures Ties(Insert(x, s, le), y, le) == Ties([x] + s, y, le)
  {
    assert ([x] + s)[1..] == s;
    if s != [] && !le(x, s[0]) {
      TiesInsert(x, s[1..], y, le);
      assert ([x] + s[1..])[1..] == s[1..];
      assert Insert(x, s, le)[1..] == Insert(x, s[1..], le);
    }
  }

  /** Stability: tied elements keep the order they came in. */
  lemma {:induction false} SortKeepsTies<T(!new)>(s: seq<T>, y: T, le: (T, T) -> bool)
    requires TotalPreorder(le)
    ensures Ties(Sort(s, le), y, le) == Ties(s, y, le)
  {
    if s != [] {
      SortKeepsTies(s[1..], y, le);
      TiesInsert(s[0], Sort(s[1..], le), y, le);
      assert ([s[0]] + Sort(s[1..], le))[1..] == Sort(s[1..], le);
    }
  }

  lemma {:induction false} TiesMember<T>(s: seq<T>, y: T, le: (T, T) -> bool)
    ensures forall x :: x in Ties(s, y, le) ==> x in s && Tied(x, y, le)
    ensures forall x :: x in s && Tied(x, y, le) ==> x in Ties(s, y, le)
  {
    if s != [] {
      TiesMember(s[1..], y, le);
      assert s == [s[0]] + s[1..];
    }
  }

  lemma {:induction false} NoTies<T>(s: seq<T>, y: T, le: (T, T) -> bool)
    requires forall x :: x in s ==> !Tied(x, y, le)
    ensures Ties(s, y, le) == []
  {
    if s != [] {
      NoTies(s[1..], y, le);
    }
  }

  lemma {:induction false} HeadIsTied<T(!new)>(s: seq<T>, le: (T, T) -> bool)
    requires TotalPreorder(le) && s != []
    ensures Ties(s, s[0], le) != []
  {
    assert Tied(s[0], s[0], le);
  }

  lemma {:induction false} HeadIsLeast<T(!new)>(a: seq<T>, b: seq<T>, le: (T, T) -> bool)
    requires TotalPreorder(le) && Sorted(a, le) && a != []
    requires forall y :: Ties(a, y, le) == Ties(b, y, le)
    ensures b != [] && forall x :: x in b ==> le(a[0], x)
  {
    TiesMember(a, a[0], le);
    TiesMember(b, a[0], le);
    assert a[0] in Ties(a, a[0], le);
    forall x | x in b ensures le(a[0], x) {
      TiesMember(b, x, le);
      TiesMember(a, x, le);
      assert x in Ties(a, x, le);
    }
  }

  /** A sorted sequence is determined by its order within each class of ties. */
  lemma {:induction false} SortedByTies<T(!new)>(a: seq<T>, b: seq<T>, le: (T, T) -> bool)
    requires TotalPreorder(le) && Sorted(a, le) && Sorted(b, le)
    requires forall y :: Ties(a, y, le) == Ties(b, y, le)
    ensures a == b
  {
    if a == [] {
      if b != [] {
        HeadIsTied(b, le);
      }
    } else {
      HeadIsLeast(a, b, le);
      HeadIsLeast(b, a, le);
      assert Tied(a[0], a[0], le) && Tied(b[0], a[0], le);
      assert Ties(a, a[0], le)[0] == a[0] && Ties(b, a[0], le)[0] == b[0];
      forall y ensures Ties(a[1..], y, le) == Ties(b[1..], y, le) {
        assert Ties(a, y, le) == Ties(b, y, le);
        var k := if Tied(a[0], y, le) then 1 else 0;
        assert Ties(a[1..], y, le) == Ties(a, y, le)[k..];
        assert Ties(b[1..], y, le) == Ties(b, y, le)[k..];
      }
      SortedByTies(a[1..], b[1..], le);
    }
  }

  /** Two inputs that agree on the order of tied elements sort alike. */
  lemma {:induction false} SortDependsOnTies<T(!new)>(s: seq<T>, t: seq<T>, le: (T, T) -> bool)
    requires TotalPreorder(le)
    requires forall y :: Ties(s, y, le) == Ties(t, y, le)
    ensures Sort(s, le) == Sort(t, le)
  {
    SortSorted(s, le);
    SortSorted(t, le);
    forall y ensures Ties(Sort(s, le), y, le) == Ties(Sort(t, le), y, le) {
      SortKeepsTies(s, y, le);
      SortKeepsTies(t, y, le);
    }
    SortedByTies(Sort(s, le), Sort(t, le), le);
  }

  /** Tied elements at the head show which of them came first. */
  lemma {:induction false} TiedHeadsShow<T(!new)>(s: seq<T>, t: seq<T>, le: (T, T) -> bool)
    requires TotalPreorder(le) && s != [] && t != [] && s[0] != t[0] && Tied(t[0], s[0], le)
    ensures Sort(s, le) != Sort(t, le)
  {
    SortKeepsTies(s, s[0], le);
    SortKeepsTies(t, s[0], le);
    assert Tied(s[0], s[0], le);
    assert Ties(s, s[0], le)[0] == s[0] && Ties(t, s[0], le)[0] == t[0];
  }

  lemma {:induction false} LeastHeadStays<T>(s: seq<T>, le: (T, T) -> bool)
    requires s != [] && forall x :: x in s ==> le(s[0], x)
    ensures Sort(s, le) != [] && Sort(s, le)[0] == s[0]
  {
    var rest := Sort(s[1..], le);
    if rest != [] {
      SortMember(s[1..], le, rest[0]);
      assert rest[0] in s;
    }
  }

  /** No two positions hold elements the comparator ties. */
  ghost predicate Separated<T>(s: seq<T>, le: (T, T) -> bool) {
    forall i, j :: 0 <= i < j < |s| ==> !Tied(s[i], s[j], le)
  }

  lemma {:induction false} SeparatedTies<T(!new)>(s: seq<T>, y: T, le: (T, T) -> bool)
    requires TotalPreorder(le) && Separated(s, le)
    ensures |Ties(s, y, le)| <= 1
  {
    if s != [] {
      SeparatedTies(s[1..], y, le);
      TiesMember(s[1..], y, le);
      forall x | x in s[1..] ensures !Tied(s[0], x, le) {
        var k :| 0 <= k < |s[1..]| && s[1..][k] == x;
        assert s[k + 1] == x;
      }
      assert Ties(s[1..], y, le) != [] ==> !Tied(s[0], y, le) by {
        if Ties(s[1..], y, le) != [] {
          assert Ties(s[1..], y, le)[0] in s[1..];
        }
      }
    }
  }

  /** Without ties the sort forgets the input order altogether. */
  lemma {:induction false} SortSeparated<T(!new)>(s: seq<T>, t: seq<T>, le: (T, T) -> bool)
    requires TotalPreorder(le) && Separated(s, le) && Separated(t, le)
    requires forall x :: x in s <==> x in t
    ensures Sort(s, le) == Sort(t, le)
  {
    forall y ensures Ties(s, y, le) == Ties(t, y, le) {
      SeparatedTies(s, y, le);
      SeparatedTies(t, y, le);
      TiesMember(s, y, le);
      TiesMember(t, y, le);
      var a, b := Ties(s, y, le), Ties(t, y, le);
      if a != [] {
        assert a[0] in b;
      }
      if b != [] {
        assert b[0] in a;
      }
    }
    SortDependsOnTies(s, t, le);
  }

  lemma {:induction false} SortMember<T>(s: seq<T>, le: (T, T) -> bool, x: T)
    ensures x in Sort(s, le) <==> x in s
  {
    SortPermutes(s, le);
    assert x in multiset(Sort(s, le)) <==> x in multiset(s);
  }

  function Map<A, B>(s: seq<A>, f: A -> B): (r: seq<B>)
    ensures |r| == |s| && forall i :: 0 <= i < |s| ==> r[i] == f(s[i])
  {
    seq(|s|, i requires 0 <= i < |s| => f(s[i]))
  }

  lemma {:induction false} InsertMap<A, B>(x: A, s: seq<A>, f: A -> B, leA: (A, A) -> bool, leB: (B, B) -> bool)
    requires forall y :: y in s ==> leB(f(x), f(y)) == leA(x, y)
    ensures Map(Insert(x, s, leA), f) == Insert(f(x), Map(s, f), leB)
  {
    if s != [] && !leA(x, s[0]) {
      InsertMap(x, s[1..], f, leA, leB);
      assert Map(s, f)[1..] == Map(s[1..], f);
    }
  }

  /** A projection that the comparator cannot see commutes with sorting. */
  lemma {:induction false} SortMap<A, B>(s: seq<A>, f: A -> B, leA: (A, A) -> bool, leB: (B, B) -> bool)
    requires forall x, y :: x in s && y in s ==> leB(f(x), f(y)) == leA(x, y)
    ensures Map(Sort(s, leA), f) == Sort(Map(s, f), leB)
  {
    if s != [] {
      var tail := s[1..];
      assert forall x :: x in tail ==> x in s;
      SortMap(tail, f, leA, leB);
      forall y | y in Sort(tail, leA) ensures leB(f(s[0]), f(y)) == leA(s[0], y) {
        SortMember(tail, leA, y);
      }
      InsertMap(s[0], Sort(tail, leA), f, leA, leB);
      assert Map(s, f) == [f(s[0])] + Map(tail, f);
    }
  }

  lemma {:induction false} SeparatedBefore<A, B>(s: seq<A>, f: A -> B, leA: (A, A) -> bool, leB: (B, B) -> bool)
    requires forall x, y :: x in s && y in s ==> leB(f(x), f(y)) == leA(x, y)
    requires Separated(Map(s, f), leB)
    ensures Separated(s, leA)
  {
    forall i, j | 0 <= i < j < |s| ensures !Tied(s[i], s[j], leA) {
      assert !Tied(Map(s, f)[i], Map(s, f)[j], leB);
    }
  }

  // ---------------------------------------------------------------------------------------------
  // Strings
  // ---------------------------------------------------------------------------------------------

  /** Lexicographic order by code point, which is also the byte order of UTF-8. */
  predicate StringLe(a: string, b: string) {
    a == [] || (b != [] && (a[0] < b[0] || (a[0] == b[0] && StringLe(a[1..], b[1..]))))
  }

  /** One text comes no later than another when it is a beginning of it, or smaller where they first differ. */
  ghost predicate SmallerAt(a: string, b: string, k: int) {
    0 <= k <= |a| && k <= |b| && a[..k] == b[..k] && (k == |a| || (k < |b| && a[k] < b[k]))
  }

  lemma {:induction false} HeadsAgree(a: string, b: string, k: int)
    requires SmallerAt(a, b, k)
    ensures k == 0 || (a != [] && b != [] && a[0] == b[0])
  {
    if k > 0 {
      assert a[..k][0] == a[0] && b[..k][0] == b[0];
    }
  }

  lemma {:induction false} StringLeExactly(a: string, b: string)
    ensures StringLe(a, b) <==> exists k :: SmallerAt(a, b, k)
  {
    if a == [] {
      assert SmallerAt(a, b, 0);
    } else if b == [] || a[0] != b[0] {
      if StringLe(a, b) {
        assert SmallerAt(a, b, 0);
      }
      forall k | SmallerAt(a, b, k) ensures k == 0 {
        HeadsAgree(a, b, k);
      }
    } else {
      StringLeExactly(a[1..], b[1..]);
      if k :| SmallerAt(a[1..], b[1..], k) {
        assert a[..k + 1] == [a[0]] + a[1..][..k] && b[..k + 1] == [b[0]] + b[1..][..k];
        assert SmallerAt(a, b, k + 1);
      }
      if k :| SmallerAt(a, b, k) {
        assert k > 0 && a[1..][..k - 1] == a[..k][1..] && b[1..][..k - 1] == b[..k][1..];
        assert SmallerAt(a[1..], b[1..], k - 1);
      }
    }
  }

  lemma {:induction false} StringTotal(a: string, b: string)
    ensures StringLe(a, b) || StringLe(b, a)
    ensures StringLe(a, b) && StringLe(b, a) ==> a == b
  {
    if a != [] && b != [] && a[0] == b[0] {
      StringTotal(a[1..], b[1..]);
      assert a == [a[0]] + a[1..] && b == [b[0]] + b[1..];
    }
  }

  lemma {:induction false} StringTransitive(a: string, b: string, c: string)
    requires StringLe(a, b) && StringLe(b, c)
    ensures StringLe(a, c)
  {
    if a != [] && a[0] == b[0] && b[0] == c[0] {
      StringTransitive(a[1..], b[1..], c[1..]);
    }
  }

  lemma {:induction false} StringOrder()
    ensures forall a, b :: StringLe(a, b) || StringLe(b, a)
    ensures forall a, b :: StringLe(a, b) && StringLe(b, a) ==> a == b
    ensures forall a, b, c :: StringLe(a, b) && StringLe(b, c) ==> StringLe(a, c)
  {
    forall a, b ensures (StringLe(a, b) || StringLe(b, a)) && (StringLe(a, b) && StringLe(b, a) ==> a == b) {
      StringTotal(a, b);
    }
    forall a, b, c | StringLe(a, b) && StringLe(b, c) ensures StringLe(a, c) {
      StringTransitive(a, b, c);
    }
  }
}

/** Facts about sequences shared by the models: replacing a slice, flattening, filtering and ordering. */
module Sequences {

  /** `s` with the `removed` elements at `pos` replaced by `ins`. */
  function Splice<T>(s: seq<T>, pos: nat, removed: nat, ins: seq<T>): seq<T>
    requires pos + removed <= |s|
  {
    s[..pos] + ins + s[pos + removed..]
  }

  function Flatten<T>(ss: seq<seq<T>>): seq<T>
  {
    if ss == [] then [] else ss[0] + Flatten(ss[1..])
  }

  /** The position in the flattened list at which part `i` starts. */
  function Start<T>(ss: seq<seq<T>>, i: nat): nat
    requires i <= |ss|
  {
    |Flatten(ss[..i])|
  }

  lemma Associative<T>(a: seq<T>, b: seq<T>, c: seq<T>)
    ensures a + (b + c) == (a + b) + c
  {
  }

  lemma {:induction false} FlattenConcat<T>(a: seq<seq<T>>, b: seq<seq<T>>)
    ensures Flatten(a + b) == Flatten(a) + Flatten(b)
  {
    if a == [] {
      assert a + b == b;
    } else {
      FlattenConcat(a[1..], b);
      assert (a + b)[0] == a[0] && (a + b)[1..] == a[1..] + b;
      Associative(a[0], Flatten(a[1..]), Flatten(b));
    }
  }

  /** A flattened list cut around one of its parts. */
  lemma FlattenAround<T>(ss: seq<seq<T>>, i: nat)
    requires i < |ss|
    ensures Flatten(ss) == Flatten(ss[..i]) + ss[i] + Flatten(ss[i + 1..])
    ensures Start(ss, i) + |ss[i]| <= |Flatten(ss)|
  {
    assert ss == ss[..i] + ss[i..];
    FlattenConcat(ss[..i], ss[i..]);
    assert ss[i..][1..] == ss[i + 1..];
  }

  lemma FlattenReplaced<T>(ss: seq<seq<T>>, i: nat, part: seq<T>)
    requires i < |ss|
    ensures Flatten(ss[i := part]) == Flatten(ss[..i]) + part + Flatten(ss[i + 1..])
  {
    var after := ss[i := part];
    FlattenAround(after, i);
    assert after[..i] == ss[..i] && after[i + 1..] == ss[i + 1..];
  }

  lemma SpliceMiddle<T>(a: seq<T>, c: seq<T>, z: seq<T>, pos: nat, removed: nat, ins: seq<T>)
    requires pos + removed <= |c|
    ensures a + Splice(c, pos, removed, ins) + z == Splice(a + c + z, |a| + pos, removed, ins)
  {
    assert (a + c + z)[..|a| + pos] == a + c[..pos];
    assert (a + c + z)[|a| + pos + removed..] == c[pos + removed..] + z;
  }

  /** One more removal, or one more insertion in front, at the place of a splice. */
  lemma SpliceGrows<T>(s: seq<T>, pos: nat, removed: nat, ins: seq<T>, x: T)
    requires pos + removed <= |s|
    ensures Splice(Splice(s, pos, removed, ins), pos, 0, [x]) == Splice(s, pos, removed, [x] + ins)
    ensures pos + removed < |s| ==> Splice(Splice(s, pos, removed, []), pos, 1, []) == Splice(s, pos, removed + 1, [])
  {
  }

  /** A splice of one part is the same splice of the flattened list, moved by the start of the part. */
  lemma FlattenSplice<T>(ss: seq<seq<T>>, i: nat, pos: nat, removed: nat, ins: seq<T>)
    requires i < |ss| && pos + removed <= |ss[i]|
    ensures Start(ss, i) + pos + removed <= |Flatten(ss)|
    ensures Flatten(ss[i := Splice(ss[i], pos, removed, ins)])
         == Splice(Flatten(ss), Start(ss, i) + pos, removed, ins)
  {
    FlattenAround(ss, i);
    FlattenReplaced(ss, i, Splice(ss[i], pos, removed, ins));
    SpliceMiddle(Flatten(ss[..i]), ss[i], Flatten(ss[i + 1..]), pos, removed, ins);
  }

  /** Replacing a part moves the starts of the later parts only. */
  lemma StartReplaced<T>(ss: seq<seq<T>>, i: nat, part: seq<T>, j: nat)
    requires i < |ss| && j <= |ss|
    ensures Start(ss[i := part], j) == Start(ss, j) + (if i < j then |part| - |ss[i]| else 0)
  {
    if i < j {
      assert ss[i := part][..j] == ss[..j][i := part];
      FlattenReplaced(ss[..j], i, part);
      FlattenAround(ss[..j], i);
    } else {
      assert ss[i := part][..j] == ss[..j];
    }
  }

  /** Appending a part appends its elements, and its start is the previous total length. */
  lemma FlattenAppended<T>(ss: seq<seq<T>>, part: seq<T>)
    ensures Flatten(ss + [part]) == Flatten(ss) + part
    ensures forall j :: 0 <= j <= |ss| ==> Start(ss + [part], j) == Start(ss, j)
    ensures Start(ss, |ss|) == |Flatten(ss)|
  {
    FlattenConcat(ss, [part]);
    assert Flatten([part]) == part;
    assert ss[..|ss|] == ss;
    forall j | 0 <= j <= |ss| ensures (ss + [part])[..j] == ss[..j] {}
  }

  /** Dropping a part cuts its elements out of the flattened list. */
  lemma FlattenDropped<T>(ss: seq<seq<T>>, k: nat)
    requires k < |ss|
    ensures Start(ss, k) + |ss[k]| <= |Flatten(ss)|
    ensures Flatten(ss[..k] + ss[k + 1..]) == Splice(Flatten(ss), Start(ss, k), |ss[k]|, [])
  {
    FlattenAround(ss, k);
    FlattenConcat(ss[..k], ss[k + 1..]);
  }

  /** Dropping a part moves the starts of the later parts forward by its length. */
  lemma StartDropped<T>(ss: seq<seq<T>>, k: nat, j: nat)
    requires k < |ss| && j < |ss|
    ensures Start(ss[..k] + ss[k + 1..], j) == if j < k then Start(ss, j) else Start(ss, j + 1) - |ss[k]|
  {
    var rest := ss[..k] + ss[k + 1..];
    if j < k {
      assert rest[..j] == ss[..j];
    } else {
      assert rest[..j] == ss[..j + 1][..k] + ss[..j + 1][k + 1..];
      FlattenDropped(ss[..j + 1], k);
    }
  }

  /** The elements of `s` other than `x`, in order. */
  function Without<T(==)>(s: seq<T>, x: T): (r: seq<T>)
  {
    if s == [] then [] else (if s[0] == x then [] else [s[0]]) + Without(s[1..], x)
  }

  lemma {:induction false} WithoutConcat<T>(a: seq<T>, b: seq<T>, x: T)
    ensures Without(a + b, x) == Without(a, x) + Without(b, x)
  {
    if a == [] {
      assert a + b == b;
    } else {
      WithoutConcat(a[1..], b, x);
      assert (a + b)[0] == a[0] && (a + b)[1..] == a[1..] + b;
      Associative(if a[0] == x then [] else [a[0]], Without(a[1..], x), Without(b, x));
    }
  }

  /** One step of a loop that removes `x` from back to front. */
  lemma WithoutBackwards<T>(s: seq<T>, i: nat, x: T)
    requires i < |s|
    ensures var t := s[..i + 1] + Without(s[i + 1..], x);
      s[..i] + Without(s[i..], x) == if s[i] == x then Splice(t, i, 1, []) else t
  {
    assert s[i..][1..] == s[i + 1..];
  }

  lemma {:induction false} WithoutIsFilter<T>(s: seq<T>, x: T)
    ensures forall y :: multiset(Without(s, x))[y] == if y == x then 0 else multiset(s)[y]
  {
    if s != [] {
      WithoutIsFilter(s[1..], x);
      assert s == [s[0]] + s[1..];
    }
  }

  lemma {:induction false} WithoutAbsent<T>(s: seq<T>, x: T)
    requires x !in s
    ensures Without(s, x) == s
  {
    if s != [] {
      WithoutAbsent(s[1..], x);
    }
  }

  ghost predicate Distinct<T>(s: seq<T>) {
    forall i, j :: 0 <= i < j < |s| ==> s[i] != s[j]
  }

  /** What stands at two positions is counted at least twice. */
  lemma CountedTwice<T>(s: seq<T>, i: nat, j: nat)
    requires i < j < |s| && s[i] == s[j]
    ensures multiset(s)[s[i]] >= 2
  {
    assert s == s[..i] + [s[i]] + s[i + 1..j] + [s[j]] + s[j + 1..];
  }

  lemma WithoutFirst<T>(x: T, s: seq<T>)
    ensures Without([x] + s, x) == Without(s, x)
  {
  }

  /** In a list without repetitions, removing an element cuts out its one position. */
  lemma WithoutDistinct<T>(s: seq<T>, k: nat)
    requires k < |s| && Distinct(s)
    ensures Without(s, s[k]) == s[..k] + s[k + 1..]
  {
    hide Without;
    var left, right, x := s[..k], s[k + 1..], s[k];
    assert s == left + ([x] + right);
    WithoutConcat(left, [x] + right, x);
    WithoutFirst(x, right);
    WithoutAbsent(left, x);
    WithoutAbsent(right, x);
  }

  lemma WithoutDistinctMembers<T>(s: seq<T>, x: T)
    requires Distinct(s)
    ensures Distinct(Without(s, x)) && forall y :: y in Without(s, x) <==> y in s && y != x
  {
    if x in s {
      var k :| 0 <= k < |s| && s[k] == x;
      WithoutDistinct(s, k);
      assert s == s[..k] + [x] + s[k + 1..];
    } else {
      WithoutAbsent(s, x);
    }
  }

  /** A strict order whose incomparable elements form classes, as std::sort and ordered insertion ask for. */
  ghost predicate StrictWeakOrder<T(!new)>(less: (T, T) -> bool)
  {
    && (forall a :: !less(a, a))
    && (forall a, b, c :: less(a, b) && less(b, c) ==> less(a, c))
    && (forall a, b, c :: less(a, b) ==> less(a, c) || less(c, b))
  }

  ghost predicate Sorted<T>(less: (T, T) -> bool, s: seq<T>)
  {
    forall i, j :: 0 <= i < j < |s| ==> !less(s[j], s[i])
  }

  /** The first position whose element goes after `x`, or the end. */
  function InsertionPoint<T>(less: (T, T) -> bool, s: seq<T>, x: T): (r: nat)
    ensures r <= |s|
    ensures forall i :: 0 <= i < r ==> !less(x, s[i])
    ensures r < |s| ==> less(x, s[r])
  {
    if s == [] || less(x, s[0]) then 0 else 1 + InsertionPoint(less, s[1..], x)
  }

  function InsertInOrder<T>(less: (T, T) -> bool, s: seq<T>, x: T): seq<T>
  {
    Splice(s, InsertionPoint(less, s, x), 0, [x])
  }

  /** What goes before `b` also goes before everything that does not go before `b`. */
  lemma LessThrough<T(!new)>(less: (T, T) -> bool, a: T, b: T, c: T)
    requires StrictWeakOrder(less) && less(a, b) && !less(c, b)
    ensures less(a, c) && !less(c, a)
  {
  }

  lemma InsertedSorted<T>(less: (T, T) -> bool, s: seq<T>, p: nat, x: T)
    requires Sorted(less, s) && p <= |s|
    requires (forall i :: 0 <= i < p ==> !less(x, s[i])) && forall i :: p <= i < |s| ==> !less(s[i], x)
    ensures Sorted(less, Splice(s, p, 0, [x]))
  {
    var r := Splice(s, p, 0, [x]);
    forall i, j | 0 <= i < j < |r| ensures !less(r[j], r[i]) {
      assert r[i] == if i < p then s[i] else if i == p then x else s[i - 1];
      assert r[j] == if j < p then s[j] else if j == p then x else s[j - 1];
    }
  }

  /** Ordered insertion keeps a sorted list sorted, and puts `x` behind all elements that do not go after it. */
  lemma InsertInOrderSorted<T(!new)>(less: (T, T) -> bool, s: seq<T>, x: T)
    requires StrictWeakOrder(less) && Sorted(less, s)
    ensures Sorted(less, InsertInOrder(less, s, x))
    ensures forall i :: 0 <= i < |s| ==> (less(x, s[i]) <==> InsertionPoint(less, s, x) <= i)
  {
    var p := InsertionPoint(less, s, x);
    forall i | p <= i < |s| ensures less(x, s[i]) && !less(s[i], x) {
      assert i > p ==> !less(s[i], s[p]);
      LessThrough(less, x, s[p], s[i]);
    }
    InsertedSorted(less, s, p, x);
  }

  lemma InsertInOrderElements<T>(less: (T, T) -> bool, s: seq<T>, x: T)
    ensures multiset(InsertInOrder(less, s, x)) == multiset(s) + multiset{x}
  {
    var p := InsertionPoint(less, s, x);
    assert s == s[..p] + s[p..];
  }

  /** Removing elements keeps a list sorted. */
  lemma {:induction false} WithoutSorted<T>(less: (T, T) -> bool, s: seq<T>, x: T)
    requires Sorted(less, s)
    ensures Sorted(less, Without(s, x)) && forall y <- Without(s, x) :: y in s
  {
    if s != [] {
      WithoutSorted(less, s[1..], x);
      assert forall y <- Without(s[1..], x) :: !less(y, s[0]);
    }
  }

  /** Lexicographic order of strings by character, the order of QString::operator<. */
  predicate StringLess(a: string, b: string)
  {
    b != [] && (a == [] || a[0] < b[0] || (a[0] == b[0] && StringLess(a[1..], b[1..])))
  }

  /** One string goes before another if it ends first, or has the smaller character, where the two part. */
  lemma {:induction false} StringLessMeans(a: string, b: string)
    ensures StringLess(a, b) <==>
            exists k :: 0 <= k <= |a| && k < |b| && a[..k] == b[..k] && (k == |a| || a[k] < b[k])
  {
    if a != [] && b != [] {
      StringLessMeans(a[1..], b[1..]);
    }
    if StringLess(a, b) {
      if a == [] || a[0] < b[0] {
        assert a[..0] == b[..0];
      } else {
        var k :| 0 <= k <= |a| - 1 && k < |b| - 1 && a[1..][..k] == b[1..][..k] && (k == |a| - 1 || a[1..][k] < b[1..][k]);
        assert a[..k + 1] == [a[0]] + a[1..][..k] && b[..k + 1] == [b[0]] + b[1..][..k];
      }
    }
    if k :| 0 < k <= |a| && k < |b| && a[..k] == b[..k] && (k == |a| || a[k] < b[k]) {
      assert a[0] == a[..k][0] == b[..k][0] == b[0];
      assert a[1..][..k - 1] == a[..k][1..] == b[..k][1..] == b[1..][..k - 1];
    }
  }

  /** What does not go after another string is its beginning, or has the smaller character where the two part. */
  lemma NotLessMeans(a: string, b: string)
    requires !StringLess(b, a)
    ensures exists k :: 0 <= k <= |a| && k <= |b| && a[..k] == b[..k] && (k == |a| || (k < |b| && a[k] < b[k]))
  {
    StringLessTrichotomy(a, b);
    StringLessMeans(a, b);
    if a == b {
      assert a[..|a|] == b[..|a|];
    }
  }

  /** Exactly one of less, equal and greater holds. */
  lemma {:induction false} StringLessTrichotomy(a: string, b: string)
    ensures StringLess(a, b) || StringLess(b, a) || a == b
    ensures !(StringLess(a, b) && StringLess(b, a))
    ensures !StringLess(a, a)
  {
    if a != [] {
      StringLessTrichotomy(a[1..], a[1..]);
    }
    if a != [] && b != [] && a[0] == b[0] {
      StringLessTrichotomy(a[1..], b[1..]);
      assert a == [a[0]] + a[1..] && b == [b[0]] + b[1..];
    }
  }

  lemma {:induction false} StringLessTransitive(a: string, b: string, c: string)
    requires StringLess(a, b) && StringLess(b, c)
    ensures StringLess(a, c)
  {
    if a != [] && a[0] == b[0] && b[0] == c[0] {
      StringLessTransitive(a[1..], b[1..], c[1..]);
    }
  }
}

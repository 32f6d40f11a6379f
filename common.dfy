/**
 * Helpers shared by the stores and pages: optional values, order-preserving
 * filtering, counting and summing over lists, id-keyed update and removal
 * (the `map`/`filter` idiom every store action is written in), membership
 * toggles, the "show the first k, then +n" overflow idiom, the
 * case-insensitive search every list page uses, and `Math.round` on a
 * percentage.
 */
module Common {

  datatype Option<T> = None | Some(value: T) {
    /** `x || fallback` / `x ?? fallback` on an optional value. */
    function GetOr(fallback: T): T {
      match this
      case Some(v) => v
      case None => fallback
    }
  }

  function Min(a: int, b: int): int { if a <= b then a else b }
  function Max(a: int, b: int): int { if a <= b then b else a }

  // ---------------------------------------------------------------------
  // Order-preserving subsequences and filtering
  // ---------------------------------------------------------------------

  /** `a` is what remains of `b` after deleting some elements, in order. */
  predicate Subsequence<T(==)>(a: seq<T>, b: seq<T>)
    decreases |b|
  {
    |a| == 0 ||
    (|b| > 0 && ((a[0] == b[0] && Subsequence(a[1..], b[1..])) || Subsequence(a, b[1..])))
  }

  lemma {:induction false} SubsequenceOfItself<T(!new)>(s: seq<T>)
    ensures Subsequence(s, s)
    decreases |s|
  {
    if |s| > 0 {
      SubsequenceOfItself(s[1..]);
    }
  }

  lemma {:induction false} SubsequenceMembers<T(!new)>(a: seq<T>, b: seq<T>)
    requires Subsequence(a, b)
    ensures forall x | x in a :: x in b
    decreases |b|
  {
    if |a| > 0 {
      if a[0] == b[0] && Subsequence(a[1..], b[1..]) {
        SubsequenceMembers(a[1..], b[1..]);
        forall x | x in a ensures x in b {
          if x != a[0] {
            assert x in a[1..];
          }
        }
      } else {
        SubsequenceMembers(a, b[1..]);
      }
    }
  }

  /** Deleting entries from a list whose ids are unique leaves them unique. */
  lemma {:induction false} SubsequenceKeepsIdsUnique<T(!new)>(a: seq<T>, b: seq<T>, idOf: T -> string)
    requires Subsequence(a, b) && UniqueIds(b, idOf)
    ensures UniqueIds(a, idOf)
    decreases |b|
  {
    if |a| > 0 {
      assert UniqueIds(b[1..], idOf) by {
        forall i, j | 0 <= i < j < |b[1..]| ensures idOf(b[1..][i]) != idOf(b[1..][j]) {
          assert idOf(b[i + 1]) != idOf(b[j + 1]);
        }
      }
      if a[0] == b[0] && Subsequence(a[1..], b[1..]) {
        SubsequenceKeepsIdsUnique(a[1..], b[1..], idOf);
        SubsequenceMembers(a[1..], b[1..]);
        forall i, j | 0 <= i < j < |a| ensures idOf(a[i]) != idOf(a[j]) {
          if i == 0 {
            assert a[j] in b[1..] by { assert a[j] == a[1..][j - 1]; }
            var k :| 0 <= k < |b[1..]| && b[1..][k] == a[j];
            assert idOf(b[0]) != idOf(b[k + 1]);
          } else {
            assert idOf(a[1..][i - 1]) != idOf(a[1..][j - 1]);
          }
        }
      } else {
        SubsequenceKeepsIdsUnique(a, b[1..], idOf);
      }
    }
  }

  /** `Array.prototype.filter`: the elements satisfying `p`, in their order. */
  function KeepIf<T(==,!new)>(s: seq<T>, p: T -> bool): (r: seq<T>)
    ensures |r| <= |s|
    ensures forall x :: multiset(r)[x] == if p(x) then multiset(s)[x] else 0
    ensures Subsequence(r, s)
    ensures (forall i | 0 <= i < |s| :: p(s[i])) ==> r == s
    decreases |s|
  {
    if |s| == 0 then []
    else
      var rest := KeepIf(s[1..], p);
      assert s == [s[0]] + s[1..];
      if p(s[0]) then
        assert ([s[0]] + rest)[1..] == rest;
        [s[0]] + rest
      else
        rest
  }

  lemma KeepIfMembers<T(!new)>(s: seq<T>, p: T -> bool)
    ensures forall x | x in KeepIf(s, p) :: x in s && p(x)
    ensures forall x | x in s && p(x) :: x in KeepIf(s, p)
  {
    var r := KeepIf(s, p);
    forall x | x in r ensures x in s && p(x) {
      assert multiset(r)[x] > 0;
    }
    forall x | x in s && p(x) ensures x in r {
      assert multiset(s)[x] > 0;
    }
  }

  lemma KeepIfCons<T(!new)>(x: T, s: seq<T>, p: T -> bool)
    ensures KeepIf([x] + s, p) == if p(x) then [x] + KeepIf(s, p) else KeepIf(s, p)
  {
    assert ([x] + s)[1..] == s;
  }

  /** Filtering by a weaker test first changes nothing. */
  lemma {:induction false} KeepIfNarrower<T(!new)>(s: seq<T>, p: T -> bool, q: T -> bool)
    requires forall x :: p(x) ==> q(x)
    ensures KeepIf(KeepIf(s, q), p) == KeepIf(s, p)
    decreases |s|
  {
    if |s| > 0 {
      KeepIfNarrower(s[1..], p, q);
      assert [s[0]] + s[1..] == s;
      KeepIfCons(s[0], s[1..], q);
      KeepIfCons(s[0], s[1..], p);
      KeepIfCons(s[0], KeepIf(s[1..], q), p);
    }
  }

  lemma {:induction false} KeepIfAppend<T(!new)>(a: seq<T>, b: seq<T>, p: T -> bool)
    ensures KeepIf(a + b, p) == KeepIf(a, p) + KeepIf(b, p)
    decreases |a|
  {
    if |a| > 0 {
      assert (a + b)[1..] == a[1..] + b;
      KeepIfAppend(a[1..], b, p);
    } else {
      assert a + b == b;
    }
  }

  /** Number of elements satisfying `p`: `s.filter(p).length`. */
  function CountIf<T(==,!new)>(s: seq<T>, p: T -> bool): nat
  {
    |KeepIf(s, p)|
  }

  /** The count of a non-empty list: its head, then the count of the rest. */
  lemma CountIfFirst<T(!new)>(s: seq<T>, p: T -> bool)
    requires |s| > 0
    ensures CountIf(s, p) == (if p(s[0]) then 1 else 0) + CountIf(s[1..], p)
  {
  }

  /** A prefix followed by the next slice is the longer prefix. */
  lemma PrefixThenSlice<T>(s: seq<T>, a: nat, b: nat)
    requires a <= b <= |s|
    ensures s[..a] + s[a..b] == s[..b]
  {
  }

  lemma CountIfCons<T(!new)>(x: T, s: seq<T>, p: T -> bool)
    ensures CountIf([x] + s, p) == (if p(x) then 1 else 0) + CountIf(s, p)
  {
    assert ([x] + s)[1..] == s;
  }

  /** Every element kept satisfies `p`. */
  lemma {:induction false} KeepIfSatisfies<T(!new)>(s: seq<T>, p: T -> bool)
    ensures forall i | 0 <= i < |KeepIf(s, p)| :: p(KeepIf(s, p)[i])
    decreases |s|
  {
    if |s| > 0 {
      KeepIfSatisfies(s[1..], p);
    }
  }

  /** Nothing is counted exactly when no element satisfies `p`. */
  lemma {:induction false} CountIfZero<T(!new)>(s: seq<T>, p: T -> bool)
    ensures CountIf(s, p) == 0 <==> forall i | 0 <= i < |s| :: !p(s[i])
    decreases |s|
  {
    if |s| > 0 {
      CountIfZero(s[1..], p);
      assert forall i | 1 <= i < |s| :: s[i] == s[1..][i - 1];
    }
  }

  lemma {:induction false} CountIfAppend<T(!new)>(a: seq<T>, b: seq<T>, p: T -> bool)
    ensures CountIf(a + b, p) == CountIf(a, p) + CountIf(b, p)
  {
    KeepIfAppend(a, b, p);
  }

  /** Two predicates that split every element between them split the count. */
  lemma {:induction false} CountIfComplement<T(!new)>(s: seq<T>, p: T -> bool, q: T -> bool)
    requires forall x :: p(x) != q(x)
    ensures CountIf(s, p) + CountIf(s, q) == |s|
    decreases |s|
  {
    if |s| > 0 {
      CountIfComplement(s[1..], p, q);
    }
  }

  /** Counts of two predicates that never hold together add up to at most the length. */
  lemma {:induction false} CountIfDisjoint<T(!new)>(s: seq<T>, p: T -> bool, q: T -> bool)
    requires forall x :: !(p(x) && q(x))
    ensures CountIf(s, p) + CountIf(s, q) <= |s|
    decreases |s|
  {
    if |s| > 0 {
      CountIfDisjoint(s[1..], p, q);
    }
  }

  /** `s.reduce((sum, x) => sum + f(x), 0)`. */
  function SumOf<T>(s: seq<T>, f: T -> int): int
    decreases |s|
  {
    if |s| == 0 then 0 else f(s[0]) + SumOf(s[1..], f)
  }

  lemma {:induction false} SumOfAppend<T(!new)>(a: seq<T>, b: seq<T>, f: T -> int)
    ensures SumOf(a + b, f) == SumOf(a, f) + SumOf(b, f)
    decreases |a|
  {
    if |a| > 0 {
      assert (a + b)[1..] == a[1..] + b;
      SumOfAppend(a[1..], b, f);
    } else {
      assert a + b == b;
    }
  }

  lemma {:induction false} SumOfNonNegative<T(!new)>(s: seq<T>, f: T -> int)
    requires forall i | 0 <= i < |s| :: f(s[i]) >= 0
    ensures SumOf(s, f) >= 0
    decreases |s|
  {
    if |s| > 0 {
      SumOfNonNegative(s[1..], f);
    }
  }

  // ---------------------------------------------------------------------
  // Id-keyed updates: `list.map(x => x.id === id ? f(x) : x)` and
  // `list.filter(x => x.id !== id)`
  // ---------------------------------------------------------------------

  function UpdateById<T>(s: seq<T>, idOf: T -> string, id: string, f: T -> T): (r: seq<T>)
    ensures |r| == |s|
    ensures forall i | 0 <= i < |s| :: r[i] == if idOf(s[i]) == id then f(s[i]) else s[i]
    decreases |s|
  {
    if |s| == 0 then []
    else [if idOf(s[0]) == id then f(s[0]) else s[0]] + UpdateById(s[1..], idOf, id, f)
  }

  /** Applying an involution twice to the same entries restores the list. */
  lemma UpdateByIdTwice<T(!new)>(s: seq<T>, idOf: T -> string, id: string, f: T -> T)
    requires forall x :: idOf(f(x)) == idOf(x) && f(f(x)) == x
    ensures UpdateById(UpdateById(s, idOf, id, f), idOf, id, f) == s
  {
    var r := UpdateById(UpdateById(s, idOf, id, f), idOf, id, f);
    assert |r| == |s|;
    forall i | 0 <= i < |s| ensures r[i] == s[i] {
      var once := UpdateById(s, idOf, id, f);
      assert idOf(once[i]) == idOf(s[i]);
    }
  }

  function RemoveById<T(==,!new)>(s: seq<T>, idOf: T -> string, id: string): (r: seq<T>)
    ensures forall x :: multiset(r)[x] == if idOf(x) != id then multiset(s)[x] else 0
    ensures Subsequence(r, s)
    ensures (forall i | 0 <= i < |s| :: idOf(s[i]) != id) ==> r == s
    decreases |s|
  {
    if |s| == 0 then []
    else
      var rest := RemoveById(s[1..], idOf, id);
      assert s == [s[0]] + s[1..];
      if idOf(s[0]) != id then
        assert ([s[0]] + rest)[1..] == rest;
        [s[0]] + rest
      else
        rest
  }

  lemma RemoveByIdMembers<T(!new)>(s: seq<T>, idOf: T -> string, id: string)
    ensures forall x | x in RemoveById(s, idOf, id) :: x in s && idOf(x) != id
    ensures forall x | x in s && idOf(x) != id :: x in RemoveById(s, idOf, id)
  {
    var r := RemoveById(s, idOf, id);
    forall x | x in r ensures x in s && idOf(x) != id {
      assert multiset(r)[x] > 0;
    }
    forall x | x in s && idOf(x) != id ensures x in r {
      assert multiset(s)[x] > 0;
    }
  }

  /** Position of the first entry with that id (`findIndex`). */
  function FirstIndexOf<T>(s: seq<T>, idOf: T -> string, id: string): (r: Option<nat>)
    ensures r.None? <==> forall i | 0 <= i < |s| :: idOf(s[i]) != id
    ensures r.Some? ==> r.value < |s| && idOf(s[r.value]) == id &&
                        forall j | 0 <= j < r.value :: idOf(s[j]) != id
    decreases |s|
  {
    if |s| == 0 then None
    else if idOf(s[0]) == id then Some(0)
    else
      match FirstIndexOf(s[1..], idOf, id)
      case None => None
      case Some(k) => Some(k + 1)
  }

  /** `list.find(x => x.id === id)`: the first entry with that id. */
  function FindById<T>(s: seq<T>, idOf: T -> string, id: string): Option<T>
  {
    match FirstIndexOf(s, idOf, id)
    case None => None
    case Some(k) => Some(s[k])
  }

  /** No two entries share an id. */
  predicate UniqueIds<T>(s: seq<T>, idOf: T -> string)
  {
    forall i, j | 0 <= i < j < |s| :: idOf(s[i]) != idOf(s[j])
  }

  lemma UniqueIdsTail<T>(s: seq<T>, idOf: T -> string)
    requires |s| > 0 && UniqueIds(s, idOf)
    ensures UniqueIds(s[1..], idOf)
    ensures forall i | 0 <= i < |s[1..]| :: idOf(s[1..][i]) != idOf(s[0])
  {
    forall i, j | 0 <= i < j < |s[1..]| ensures idOf(s[1..][i]) != idOf(s[1..][j]) {
      assert idOf(s[i + 1]) != idOf(s[j + 1]);
    }
    forall i | 0 <= i < |s[1..]| ensures idOf(s[1..][i]) != idOf(s[0]) {
      assert idOf(s[0]) != idOf(s[i + 1]);
    }
  }

  /** A map that never changes an entry's id keeps ids unique. */
  lemma UpdateByIdKeepsIdsUnique<T>(s: seq<T>, idOf: T -> string, id: string, f: T -> T)
    requires UniqueIds(s, idOf)
    requires forall x :: idOf(f(x)) == idOf(x)
    ensures UniqueIds(UpdateById(s, idOf, id, f), idOf)
  {
    var r := UpdateById(s, idOf, id, f);
    forall i, j | 0 <= i < j < |r| ensures idOf(r[i]) != idOf(r[j]) {
      assert idOf(r[i]) == idOf(s[i]) && idOf(r[j]) == idOf(s[j]);
    }
  }

  // ---------------------------------------------------------------------
  // Membership toggles
  // ---------------------------------------------------------------------

  /** `prev.filter(i => i !== x)`. */
  function RemoveAll<T(==,!new)>(s: seq<T>, x: T): (r: seq<T>)
    ensures forall y :: y in r <==> y in s && y != x
    ensures x !in s ==> r == s
    decreases |s|
  {
    if |s| == 0 then []
    else if s[0] == x then RemoveAll(s[1..], x)
    else [s[0]] + RemoveAll(s[1..], x)
  }

  /** `prev.includes(x) ? prev.filter(i => i !== x) : [...prev, x]`. */
  function ToggleMember<T(==,!new)>(s: seq<T>, x: T): (r: seq<T>)
    ensures x in r <==> x !in s
    ensures forall y | y != x :: y in r <==> y in s
  {
    if x in s then RemoveAll(s, x) else s + [x]
  }

  /** Toggling twice restores membership, and the very list when `x` was absent. */
  lemma ToggleMemberTwice<T(!new)>(s: seq<T>, x: T)
    ensures forall y :: y in ToggleMember(ToggleMember(s, x), x) <==> y in s
    ensures x !in s ==> ToggleMember(ToggleMember(s, x), x) == s
  {
    if x !in s {
      RemoveAllAppended(s, x);
    }
  }

  lemma {:induction false} RemoveAllAppended<T(!new)>(s: seq<T>, x: T)
    requires x !in s
    ensures RemoveAll(s + [x], x) == s
    decreases |s|
  {
    if |s| == 0 {
      assert s + [x] == [x];
    } else {
      assert (s + [x])[1..] == s[1..] + [x];
      RemoveAllAppended(s[1..], x);
    }
  }

  /** No element occurs twice. */
  predicate Distinct<T(==)>(s: seq<T>)
  {
    forall i, j | 0 <= i < j < |s| :: s[i] != s[j]
  }

  lemma {:induction false} RemoveAllKeepsDistinct<T(!new)>(s: seq<T>, x: T)
    requires Distinct(s)
    ensures Distinct(RemoveAll(s, x))
    decreases |s|
  {
    if |s| > 0 {
      var tail := s[1..];
      assert Distinct(tail) by {
        forall i, j | 0 <= i < j < |tail| ensures tail[i] != tail[j] {
          assert s[i + 1] != s[j + 1];
        }
      }
      RemoveAllKeepsDistinct(tail, x);
      if s[0] != x {
        var rest := RemoveAll(tail, x);
        var r := [s[0]] + rest;
        assert s[0] !in tail by {
          forall k | 0 <= k < |tail| ensures tail[k] != s[0] {
            assert s[0] != s[k + 1];
          }
        }
        forall i, j | 0 <= i < j < |r| ensures r[i] != r[j] {
          if i == 0 {
            assert r[j] == rest[j - 1];
            assert r[j] in rest;
          } else {
            assert r[i] == rest[i - 1] && r[j] == rest[j - 1];
          }
        }
      }
    }
  }

  /** A toggle never introduces a duplicate. */
  lemma ToggleMemberKeepsDistinct<T(!new)>(s: seq<T>, x: T)
    requires Distinct(s)
    ensures Distinct(ToggleMember(s, x))
  {
    if x in s {
      RemoveAllKeepsDistinct(s, x);
    } else {
      var r := s + [x];
      forall i, j | 0 <= i < j < |r| ensures r[i] != r[j] {
        if j == |s| {
          assert r[i] == s[i];
        }
      }
    }
  }

  /** `open === id ? null : id`: the single open actions menu. */
  function ToggleMenu(open: Option<string>, id: string): (r: Option<string>)
    ensures r == Some(id) <==> open != Some(id)
    ensures r.Some? ==> r == Some(id)
  {
    if open == Some(id) then None else Some(id)
  }

  /** Clicking the same row twice restores a closed or own menu, and closes any
      other menu that was open before. */
  lemma ToggleMenuTwice(open: Option<string>, id: string)
    ensures open == None || open == Some(id) ==> ToggleMenu(ToggleMenu(open, id), id) == open
    ensures open.Some? && open != Some(id) ==> ToggleMenu(ToggleMenu(open, id), id) == None
  {
  }

  // ---------------------------------------------------------------------
  // "First k items, then +n more"
  // ---------------------------------------------------------------------

  datatype Overflow<T> = Overflow(shown: seq<T>, hidden: nat)

  /** `s.slice(0, limit)` plus the count in the `+{s.length - limit}` badge,
      which is rendered only when `s.length > limit` (hidden > 0). */
  function Truncate<T>(s: seq<T>, limit: nat): (r: Overflow<T>)
    ensures |r.shown| == Min(limit, |s|)
    ensures r.shown + s[|r.shown|..] == s
    ensures r.hidden == |s| - |r.shown|
    ensures r.hidden > 0 <==> |s| > limit
  {
    if |s| > limit then Overflow(s[..limit], |s| - limit) else Overflow(s, 0)
  }

  // ---------------------------------------------------------------------
  // Case-insensitive search: `field.toLowerCase().includes(q.toLowerCase())`
  // ---------------------------------------------------------------------

  /** Lower-casing of the ASCII letters. */
  function Lower(c: char): char
  {
    if 'A' <= c <= 'Z' then (c as int + 32) as char else c
  }

  function LowerStr(s: string): string
  {
    seq(|s|, i requires 0 <= i < |s| => Lower(s[i]))
  }

  /** `hay.includes(needle)`. */
  predicate Contains(hay: string, needle: string)
  {
    exists i | 0 <= i <= |hay| :: OccursAt(hay, needle, i)
  }

  predicate OccursAt(hay: string, needle: string, i: int)
  {
    0 <= i <= |hay| - |needle| && hay[i..i + |needle|] == needle
  }

  predicate SearchMatches(field: string, query: string)
  {
    Contains(LowerStr(field), LowerStr(query))
  }

  lemma ContainsAt(hay: string, needle: string, i: int)
    requires 0 <= i <= |hay| - |needle| && hay[i..i + |needle|] == needle
    ensures Contains(hay, needle)
  {
    assert OccursAt(hay, needle, i);
  }

  /** An empty search box filters nothing out. */
  lemma EmptyQueryMatches(field: string)
    ensures SearchMatches(field, "")
  {
    var h, n := LowerStr(field), LowerStr("");
    assert |n| == 0;
    ContainsAt(h, n, 0);
  }

  /** A field always matches its own text, in any letter case. */
  lemma FieldMatchesItself(field: string, query: string)
    requires LowerStr(query) == LowerStr(field)
    ensures SearchMatches(field, query)
  {
    var h, n := LowerStr(field), LowerStr(query);
    ContainsAt(h, n, 0);
  }

  /** A match needs the query to be no longer than the field. */
  lemma MatchNotLonger(field: string, query: string)
    requires SearchMatches(field, query)
    ensures |query| <= |field|
  {
  }

  // ---------------------------------------------------------------------
  // Math.round(value / max * 100) on integers
  // ---------------------------------------------------------------------

  /** The integer nearest to `100 * value / max`, halves rounded up
      (`Math.round`); the contract says `r - 1/2 <= 100 * value / max < r + 1/2`. */
  function RoundedPercent(value: int, max: int): (r: int)
    requires max > 0
    ensures 2 * max * r <= 200 * value + max < 2 * max * (r + 1)
  {
    (200 * value + max) / (2 * max)
  }

  /** `Math.round(total / count)`. */
  function RoundedMean(total: int, count: int): (r: int)
    requires count > 0
    ensures 2 * count * r <= 2 * total + count < 2 * count * (r + 1)
  {
    (2 * total + count) / (2 * count)
  }

  lemma RoundedPercentMonotone(v1: int, v2: int, max: int)
    requires max > 0 && v1 <= v2
    ensures RoundedPercent(v1, max) <= RoundedPercent(v2, max)
  {
    var a, b := RoundedPercent(v1, max), RoundedPercent(v2, max);
    if a > b {
      assert 2 * max * b + 2 * max <= 2 * max * a by {
        assert b + 1 <= a;
        MulMonotone(2 * max, b + 1, a);
      }
    }
  }

  lemma MulMonotone(k: int, x: int, y: int)
    requires k >= 0 && x <= y
    ensures k * x <= k * y
  {
  }

  /** With `max` 100, a value in 0..100 is its own percentage. */
  lemma RoundedPercentOfHundred(value: int)
    requires 0 <= value <= 100
    ensures RoundedPercent(value, 100) == value
  {
  }
}

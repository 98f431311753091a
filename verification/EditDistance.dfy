/** The edit distance behind fuzzy key matching in the learnings store.
    `Distance` is the textbook recursion; `Levenshtein` is the one-row dynamic program.
    Both are tied to the meaning of the word: the cheapest script of single-character edits. */
module EditDistance {

  function Min(x: nat, y: nat): nat {
    if x <= y then x else y
  }

  function Max(x: nat, y: nat): nat {
    if x <= y then y else x
  }

  function Cost(x: char, y: char): nat {
    if x == y then 0 else 1
  }

  function Init(s: string): string
    requires s != []
  {
    s[..|s| - 1]
  }

  function Last(s: string): char
    requires s != []
  {
    s[|s| - 1]
  }

  function Distance(a: string, b: string): nat
    decreases |a| + |b|
  {
    if a == [] then |b|
    else if b == [] then |a|
    else
      Min(Distance(a, Init(b)) + 1,
          Min(Distance(Init(a), Init(b)) + Cost(Last(a), Last(b)), Distance(Init(a), b) + 1))
  }

  /** Entry (i, j) of the table of prefix distances. */
  ghost function Cell(a: string, b: string, i: nat, j: nat): nat
    requires i <= |a| && j <= |b|
  {
    if i == 0 then j
    else if j == 0 then i
    else
      Min(Cell(a, b, i, j - 1) + 1, Min(Cell(a, b, i - 1, j - 1) + Cost(a[i - 1], b[j - 1]), Cell(a, b, i - 1, j) + 1))
  }

  lemma {:induction false} CellIsDistance(a: string, b: string, i: nat, j: nat)
    requires i <= |a| && j <= |b|
    ensures Cell(a, b, i, j) == Distance(a[..i], b[..j])
  {
    if i > 0 && j > 0 {
      CellIsDistance(a, b, i, j - 1);
      CellIsDistance(a, b, i - 1, j - 1);
      CellIsDistance(a, b, i - 1, j);
      assert Init(a[..i]) == a[..i - 1] && Init(b[..j]) == b[..j - 1];
      assert Last(a[..i]) == a[i - 1] && Last(b[..j]) == b[j - 1];
    } else if j == 0 {
      EmptyRight(a[..i]);
    }
  }

  /** `cache` holds one row of the table: entry j is the distance from the characters of `a`
      consumed so far to the first j + 1 characters of `b`. */
  method Levenshtein(a: string, b: string) returns (result: nat)
    ensures result == Distance(a, b)
  {
    var bLen := |b|;
    if bLen == 0 {
      EmptyRight(a);
      return |a|;
    }
    var cache: seq<nat> := seq(bLen, j => j + 1);
    result := bLen;
    for i := 0 to |a|
      invariant |cache| == bLen
      invariant forall j :: 0 <= j < bLen ==> cache[j] == Cell(a, b, i, j + 1)
      invariant result == Cell(a, b, i, bLen)
    {
      result := i + 1;
      var distanceB := i;
      for j := 0 to bLen
        invariant |cache| == bLen
        invariant forall k :: 0 <= k < j ==> cache[k] == Cell(a, b, i + 1, k + 1)
        invariant forall k :: j <= k < bLen ==> cache[k] == Cell(a, b, i, k + 1)
        invariant distanceB == Cell(a, b, i, j)
        invariant result == Cell(a, b, i + 1, j)
      {
        var cost := Cost(a[i], b[j]);
        var distanceA := distanceB + cost;
        distanceB := cache[j];
        result := Min(result + 1, Min(distanceA, distanceB + 1));
        assert result == Cell(a, b, i + 1, j + 1);
        cache := cache[j := result];
      }
    }
    assert result == Distance(a, b) by {
      CellIsDistance(a, b, |a|, |b|);
      assert a[..|a|] == a && b[..|b|] == b;
    }
  }

  // ----- meaning: the cheapest edit script

  datatype Edit = Keep(c: char) | Change(from: char, to: char) | Remove(c: char) | Insert(c: char)

  function Before(s: seq<Edit>): string {
    if s == [] then [] else
      Before(s[..|s| - 1]) +
      (match s[|s| - 1] case Keep(c) => [c] case Change(x, _) => [x] case Remove(c) => [c] case Insert(_) => [])
  }

  function After(s: seq<Edit>): string {
    if s == [] then [] else
      After(s[..|s| - 1]) +
      (match s[|s| - 1] case Keep(c) => [c] case Change(_, y) => [y] case Remove(_) => [] case Insert(c) => [c])
  }

  function Edits(s: seq<Edit>): nat {
    if s == [] then 0 else Edits(s[..|s| - 1]) + if s[|s| - 1].Keep? then 0 else 1
  }

  lemma {:induction false} EmptyRight(a: string)
    ensures Distance(a, []) == |a|
  {
  }

  lemma {:induction false} RemoveLast(a: string, b: string, x: char)
    ensures Distance(a + [x], b) <= Distance(a, b) + 1
  {
    assert Init(a + [x]) == a;
    if b == [] {
      EmptyRight(a);
    }
  }

  lemma {:induction false} InsertLast(a: string, b: string, y: char)
    ensures Distance(a, b + [y]) <= Distance(a, b) + 1
  {
    assert Init(b + [y]) == b;
    if b == [] {
      EmptyRight(a);
    }
  }

  lemma {:induction false} ChangeLast(a: string, b: string, x: char, y: char)
    ensures Distance(a + [x], b + [y]) <= Distance(a, b) + Cost(x, y)
  {
    assert Init(a + [x]) == a && Init(b + [y]) == b;
  }

  /** No script is cheaper than `Distance`. */
  lemma {:induction false} DistanceIsLowerBound(s: seq<Edit>)
    ensures Distance(Before(s), After(s)) <= Edits(s)
    decreases |s|
  {
    if s != [] {
      var p, e := s[..|s| - 1], s[|s| - 1];
      DistanceIsLowerBound(p);
      assert p + [e] == s;
      LastEdit(Before(p), After(p), e, Before(s), After(s));
    }
  }

  lemma {:induction false} LastEdit(a: string, b: string, e: Edit, a': string, b': string)
    requires a' == a + if e.Insert? then [] else [if e.Change? then e.from else e.c]
    requires b' == b + if e.Remove? then [] else [if e.Change? then e.to else e.c]
    ensures Distance(a', b') <= Distance(a, b) + if e.Keep? then 0 else 1
  {
    match e
    case Keep(c) => ChangeLast(a, b, c, c);
    case Change(x, y) => ChangeLast(a, b, x, y);
    case Remove(c) => assert b' == b; RemoveLast(a, b, c);
    case Insert(c) => assert a' == a; InsertLast(a, b, c);
  }

  /** The last step of a cheapest way from `a` to `b`. */
  lemma {:induction false} CheapestEdit(a: string, b: string) returns (a': string, b': string, e: Edit)
    requires a != [] || b != []
    ensures a == a' + if e.Insert? then [] else [if e.Change? then e.from else e.c]
    ensures b == b' + if e.Remove? then [] else [if e.Change? then e.to else e.c]
    ensures Distance(a, b) == Distance(a', b') + if e.Keep? then 0 else 1
    ensures |a'| + |b'| < |a| + |b|
  {
    if b == [] {
      EmptyRight(a);
      EmptyRight(Init(a));
      InitLast(a);
      return Init(a), b, Remove(Last(a));
    }
    InitLast(b);
    if a == [] {
      return a, Init(b), Insert(Last(b));
    }
    InitLast(a);
    if Distance(a, b) == Distance(Init(a), b) + 1 {
      return Init(a), b, Remove(Last(a));
    }
    if Distance(a, b) == Distance(a, Init(b)) + 1 {
      return a, Init(b), Insert(Last(b));
    }
    return Init(a), Init(b), if Last(a) == Last(b) then Keep(Last(a)) else Change(Last(a), Last(b));
  }

  lemma {:induction false} InitLast(a: string)
    requires a != []
    ensures Init(a) + [Last(a)] == a
  {
  }

  /** Some script costs exactly `Distance`. */
  lemma {:induction false} DistanceIsAttained(a: string, b: string) returns (s: seq<Edit>)
    ensures Before(s) == a && After(s) == b && Edits(s) == Distance(a, b)
    decreases |a| + |b|
  {
    if a == [] && b == [] {
      s := [];
    } else {
      var a', b', e := CheapestEdit(a, b);
      s := DistanceIsAttained(a', b');
      s := s + [e];
    }
  }

  // ----- the distance is a metric

  lemma {:induction false} ZeroIffEqual(a: string, b: string)
    ensures Distance(a, b) == 0 <==> a == b
    decreases |a| + |b|
  {
    if a != [] && b != [] {
      ZeroIffEqual(Init(a), Init(b));
      assert Init(a) + [Last(a)] == a && Init(b) + [Last(b)] == b;
    }
  }

  lemma {:induction false} Symmetric(a: string, b: string)
    ensures Distance(a, b) == Distance(b, a)
    decreases |a| + |b|
  {
    if a != [] && b != [] {
      Symmetric(a, Init(b));
      Symmetric(Init(a), Init(b));
      Symmetric(Init(a), b);
    }
  }

  lemma {:induction false} Triangle(a: string, b: string, c: string)
    ensures Distance(a, c) <= Distance(a, b) + Distance(b, c)
    decreases |a| + |b| + |c|
  {
    if a == [] {
      LengthBounds(b, c);
    } else if c == [] {
      LengthBounds(a, b);
      EmptyRight(a);
      EmptyRight(b);
    } else if b == [] {
      LengthBounds(a, c);
    } else if Distance(a, b) == Distance(Init(a), b) + 1 {
      Triangle(Init(a), b, c);
    } else if Distance(b, c) == Distance(b, Init(c)) + 1 {
      Triangle(a, b, Init(c));
    } else if Distance(a, b) == Distance(a, Init(b)) + 1 {
      if Distance(b, c) == Distance(Init(b), c) + 1 {
        Triangle(a, Init(b), c);
      } else {
        Triangle(a, Init(b), Init(c));
      }
    } else if Distance(b, c) == Distance(Init(b), c) + 1 {
      Triangle(Init(a), Init(b), c);
    } else {
      Triangle(Init(a), Init(b), Init(c));
    }
  }

  lemma {:induction false} LengthBounds(a: string, b: string)
    ensures |a| - |b| <= Distance(a, b)
    ensures |b| - |a| <= Distance(a, b)
    ensures Distance(a, b) <= Max(|a|, |b|)
    decreases |a| + |b|
  {
    if a != [] && b != [] {
      LengthBounds(a, Init(b));
      LengthBounds(Init(a), Init(b));
      LengthBounds(Init(a), b);
    }
  }
}

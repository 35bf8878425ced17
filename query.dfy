/** What the listings' SQL does with the rows a filter selects: list them,
    ORDER BY a key ascending or descending, then OFFSET/LIMIT, and the
    case-insensitive `ILIKE '%needle%'` test the filters use. */
module Query {
  import opened Wrappers
  import opened Schemas

  // ---- Listing a selected set of keys ----

  /** The members of `s` below `n`, in increasing order. */
  function IdsBelow(s: set<nat>, n: nat): (r: seq<nat>)
    ensures forall i :: 0 <= i < |r| ==> r[i] in s && r[i] < n
    ensures forall i, j :: 0 <= i < j < |r| ==> r[i] < r[j]
    ensures forall x :: x in s && x < n ==> x in r
  {
    if n == 0 then [] else IdsBelow(s, n - 1) + (if n - 1 in s then [n - 1] else [])
  }

  /** The listing has one entry per selected key: its length is the number of
      keys the filter selects. */
  lemma {:induction false} IdsBelowCount(s: set<nat>, n: nat)
    ensures |IdsBelow(s, n)| == |Selected(s, n)|
  {
    if n == 0 {
      assert Selected(s, n) == {};
    } else {
      IdsBelowCount(s, n - 1);
      SelectedStep(s, n);
    }
  }

  /** Raising the bound by one adds at most the new key. */
  lemma SelectedStep(s: set<nat>, n: nat)
    requires n > 0
    ensures |Selected(s, n)| == |Selected(s, n - 1)| + (if n - 1 in s then 1 else 0)
  {
    var below := Selected(s, n - 1);
    if n - 1 in s {
      assert Selected(s, n) == below + {n - 1};
      assert n - 1 !in below;
    } else {
      assert Selected(s, n) == below;
    }
  }

  /** The keys of `s` below `n`. */
  function Selected(s: set<nat>, n: nat): set<nat>
  {
    set x | x in s && x < n
  }

  /** When every key is below the bound, the listing covers the whole set. */
  lemma ListingCount(s: set<nat>, n: nat)
    requires forall x :: x in s ==> x < n
    ensures |IdsBelow(s, n)| == |s|
  {
    IdsBelowCount(s, n);
    assert Selected(s, n) == s;
  }

  // ---- ORDER BY ----

  /** Lexicographic order on keys (times, enum positions, character codes). */
  predicate LexLe(a: seq<int>, b: seq<int>)
    decreases |a|
  {
    |a| == 0 || (|b| > 0 && (a[0] < b[0] || (a[0] == b[0] && LexLe(a[1..], b[1..]))))
  }

  lemma {:induction false} LexTotal(a: seq<int>, b: seq<int>)
    ensures LexLe(a, b) || LexLe(b, a)
    decreases |a|
  {
    if |a| > 0 && |b| > 0 && a[0] == b[0] {
      LexTotal(a[1..], b[1..]);
    }
  }

  lemma {:induction false} LexTrans(a: seq<int>, b: seq<int>, c: seq<int>)
    requires LexLe(a, b) && LexLe(b, c)
    ensures LexLe(a, c)
    decreases |a|
  {
    if |a| > 0 && a[0] == b[0] && b[0] == c[0] {
      LexTrans(a[1..], b[1..], c[1..]);
    }
  }

  /** On one-column keys the order is the column's order. */
  lemma LexLeSingle(x: int, y: int)
    ensures LexLe([x], [y]) <==> x <= y
  {
    assert [x][1..] == [];
  }

  /** `a` may come before `b` under `ORDER BY key ASC` (or `DESC`). */
  predicate Precedes(a: seq<int>, b: seq<int>, desc: bool)
  {
    if desc then LexLe(b, a) else LexLe(a, b)
  }

  /** Neighbouring rows are in order. */
  predicate SortedBy<T>(s: seq<T>, key: T -> seq<int>, desc: bool)
  {
    forall i :: 0 < i < |s| ==> Precedes(key(s[i - 1]), key(s[i]), desc)
  }

  function Insert<T>(x: T, s: seq<T>, key: T -> seq<int>, desc: bool): (r: seq<T>)
    requires SortedBy(s, key, desc)
    ensures SortedBy(r, key, desc)
    ensures multiset(r) == multiset(s) + multiset{x}
    ensures |r| == |s| + 1 && (r[0] == x || (|s| > 0 && r[0] == s[0]))
  {
    if s == [] then [x]
    else if Precedes(key(x), key(s[0]), desc) then [x] + s
    else
      LexTotal(key(x), key(s[0]));
      var tail := Insert(x, s[1..], key, desc);
      assert s == [s[0]] + s[1..];
      [s[0]] + tail
  }

  /** A stable insertion sort; rows with equal keys keep their listing order
      (the database leaves that order unspecified). */
  function SortBy<T>(s: seq<T>, key: T -> seq<int>, desc: bool): (r: seq<T>)
    ensures SortedBy(r, key, desc)
    ensures multiset(r) == multiset(s)
    ensures |r| == |s|
  {
    if s == [] then []
    else
      assert s == [s[0]] + s[1..];
      Insert(s[0], SortBy(s[1..], key, desc), key, desc)
  }

  /** Sorting neither adds nor drops a row. */
  lemma SortKeepsMembers<T>(s: seq<T>, key: T -> seq<int>, desc: bool)
    ensures forall x :: x in SortBy(s, key, desc) <==> x in s
  {
    var r := SortBy(s, key, desc);
    forall x ensures x in r <==> x in s {
      assert x in r <==> x in multiset(r);
      assert x in s <==> x in multiset(s);
    }
  }

  /** Neighbour order extends to every pair of rows. */
  lemma {:induction false} SortedPairwise<T>(s: seq<T>, key: T -> seq<int>, desc: bool, i: nat, j: nat)
    requires SortedBy(s, key, desc)
    requires i <= j < |s|
    ensures Precedes(key(s[i]), key(s[j]), desc)
    decreases j - i
  {
    if i == j {
      if desc { LexRefl(key(s[i])); } else { LexRefl(key(s[i])); }
    } else {
      SortedPairwise(s, key, desc, i + 1, j);
      if desc {
        LexTrans(key(s[j]), key(s[i + 1]), key(s[i]));
      } else {
        LexTrans(key(s[i]), key(s[i + 1]), key(s[j]));
      }
    }
  }

  /** The sorted rows are ordered pairwise, not only as neighbours. */
  lemma SortedAllPairs<T>(s: seq<T>, key: T -> seq<int>, desc: bool)
    ensures var r := SortBy(s, key, desc);
            forall i, j :: 0 <= i <= j < |r| ==> Precedes(key(r[i]), key(r[j]), desc)
  {
    var r := SortBy(s, key, desc);
    forall i, j | 0 <= i <= j < |r| ensures Precedes(key(r[i]), key(r[j]), desc) {
      SortedPairwise(r, key, desc, i, j);
    }
  }

  lemma {:induction false} LexRefl(a: seq<int>)
    ensures LexLe(a, a)
    decreases |a|
  {
    if |a| > 0 { LexRefl(a[1..]); }
  }

  // ---- OFFSET / LIMIT ----

  /** `(page - 1) * size`. */
  function Offset(page: int, size: int): int
  {
    (page - 1) * size
  }

  /** PostgreSQL refuses a negative LIMIT or OFFSET. */
  predicate BadPage(page: int, size: int)
  {
    size < 0 || Offset(page, size) < 0
  }

  /** `.offset((page-1)*size).limit(size)`: at most `size` rows, starting at the
      offset, fewer (or none) near the end. */
  function Page<T>(s: seq<T>, page: int, size: int): (r: seq<T>)
    requires !BadPage(page, size)
    ensures |r| <= size
    ensures Offset(page, size) + |r| <= |s| || r == []
    ensures |r| == if Offset(page, size) >= |s| then 0
                   else if |s| - Offset(page, size) < size then |s| - Offset(page, size)
                   else size
    ensures forall i :: 0 <= i < |r| ==> r[i] == s[Offset(page, size) + i]
  {
    var off := Offset(page, size);
    if off >= |s| then []
    else if off + size <= |s| then s[off..off + size]
    else s[off..]
  }

  /** The routers' default `page` and `size` query parameters. */
  const DEFAULT_PAGE: int := 1
  const DEFAULT_SIZE: int := 10

  /** With the default parameters a listing shows its first ten rows. */
  lemma DefaultPage<T>(s: seq<T>)
    ensures !BadPage(DEFAULT_PAGE, DEFAULT_SIZE)
    ensures Page(s, DEFAULT_PAGE, DEFAULT_SIZE) == s[..if |s| < DEFAULT_SIZE then |s| else DEFAULT_SIZE]
  {
    assert Offset(DEFAULT_PAGE, DEFAULT_SIZE) == 0;
  }

  // ---- ILIKE '%needle%' ----

  function LowerChar(c: char): char
  {
    if IsUpper(c) then (c as int + 32) as char else c
  }

  function Lower(s: string): (r: string)
    ensures |r| == |s| && forall i :: 0 <= i < |s| ==> r[i] == LowerChar(s[i])
  {
    if s == [] then [] else [LowerChar(s[0])] + Lower(s[1..])
  }

  /** `s LIKE p`: `%` matches any run of characters, `_` any one character,
      and the escape character `\` makes the next character literal. (A
      pattern that ends in a lone escape is refused by the database; the
      patterns `%...%` the filters build never do, since the closing `%` is
      either a wildcard or escaped.) */
  predicate LikeMatch(s: string, p: string)
    decreases |p|, |s|
  {
    if p == [] then s == []
    else if p[0] == '%' then LikeMatch(s, p[1..]) || (|s| > 0 && LikeMatch(s[1..], p))
    else if p[0] == '_' then |s| > 0 && LikeMatch(s[1..], p[1..])
    else if p[0] == '\\' && |p| > 1 then |s| > 0 && s[0] == p[1] && LikeMatch(s[1..], p[2..])
    else |s| > 0 && s[0] == p[0] && LikeMatch(s[1..], p[1..])
  }

  /** `column ILIKE '%' || needle || '%'`: the needle is spliced into the
      pattern as it is, so its own `%`, `_` and `\` keep their pattern meaning. */
  predicate ILike(column: string, needle: string)
  {
    LikeMatch(Lower(column), "%" + Lower(needle) + "%")
  }

  /** `needle` occurs as a contiguous part of `hay`. */
  predicate Occurs(needle: string, hay: string)
    decreases |hay|
  {
    needle <= hay || (|hay| > 0 && Occurs(needle, hay[1..]))
  }

  /** Occurrence means an infix at some position. */
  lemma {:induction false} OccursAt(needle: string, hay: string, k: nat)
    requires k + |needle| <= |hay| && hay[k..k + |needle|] == needle
    ensures Occurs(needle, hay)
    decreases k
  {
    if k > 0 {
      assert hay[1..][k - 1..k - 1 + |needle|] == hay[k..k + |needle|];
      OccursAt(needle, hay[1..], k - 1);
    } else {
      assert needle <= hay;
    }
  }

  /** A needle holding none of the pattern characters `%`, `_`, `\`. */
  predicate Literal(q: string)
  {
    forall i :: 0 <= i < |q| ==> q[i] != '%' && q[i] != '_' && q[i] != '\\'
  }

  /** A lone `%` matches every string. */
  lemma {:induction false} LikeAnything(s: string)
    ensures LikeMatch(s, "%")
    decreases |s|
  {
    assert "%"[1..] == [];
    if |s| > 0 {
      LikeAnything(s[1..]);
    }
  }

  /** A literal pattern followed by `%` matches exactly the strings it
      starts. */
  lemma {:induction false} LikePrefix(s: string, q: string)
    requires Literal(q)
    ensures LikeMatch(s, q + "%") <==> q <= s
    decreases |q|
  {
    if q == [] {
      assert q + "%" == "%";
      LikeAnything(s);
    } else {
      var p := q + "%";
      assert p[0] == q[0] && p[1..] == q[1..] + "%";
      assert q[0] != '%' && q[0] != '_' && q[0] != '\\';
      assert Literal(q[1..]) by {
        forall i | 0 <= i < |q[1..]| ensures q[1..][i] != '%' && q[1..][i] != '_' && q[1..][i] != '\\' {
          assert q[1..][i] == q[i + 1];
        }
      }
      if |s| > 0 {
        LikePrefix(s[1..], q[1..]);
        assert q <= s <==> s[0] == q[0] && q[1..] <= s[1..];
      }
    }
  }

  /** `%q%` with a literal `q` is the substring test. */
  lemma {:induction false} LikeInfix(s: string, q: string)
    requires Literal(q)
    ensures LikeMatch(s, "%" + q + "%") <==> Occurs(q, s)
    decreases |s|
  {
    var p := "%" + q + "%";
    assert p[0] == '%' && p[1..] == q + "%";
    LikePrefix(s, q);
    if |s| > 0 {
      LikeInfix(s[1..], q);
    }
  }

  /** For a needle free of pattern characters, ILIKE is the case-insensitive
      substring test. */
  lemma ILikeLiteral(column: string, needle: string)
    requires Literal(needle)
    ensures ILike(column, needle) <==> Occurs(Lower(needle), Lower(column))
  {
    var q := Lower(needle);
    assert Literal(q);
    LikeInfix(Lower(column), q);
  }

  /** `_` in the filter text stands for any one character. */
  lemma WildcardExample()
    ensures ILike("abc", "a_c")
  {
    assert Lower("abc") == "abc" && Lower("a_c") == "a_c";
    LikeAnything("");
    var w := "%a_c%";
    assert "%" + "a_c" + "%" == w && w[1..] == "a_c%" && w[1..][1..] == "_c%" && w[1..][2..] == "c%";
    assert "c%"[1..] == "%" && "abc"[1..] == "bc" && "bc"[1..] == "c" && "c"[1..] == "";
    assert LikeMatch("c", "c%");
    assert LikeMatch("bc", "_c%");
    assert LikeMatch("abc", "a_c%");
  }

  /** `\` in the filter text takes the next character literally, so `a\b`
      looks for "ab": it matches "cab" but not the text `a\b` itself. */
  lemma EscapeExamples()
    ensures !ILike("a\\b", "a\\b") && ILike("cab", "a\\b")
  {
    assert Lower("a\\b") == "a\\b" && Lower("cab") == "cab";
    LikeAnything("");
    var e, e1 := "%a\\b%", "a\\b%";
    assert "%" + "a\\b" + "%" == e && e[1..] == e1 && e1[1..] == "\\b%" && e1[1..][2..] == "%";
    assert "a\\b"[1..] == "\\b" && "\\b"[1..] == "b" && "b"[1..] == "" && "cab"[1..] == "ab" && "ab"[1..] == "b";
    assert !LikeMatch("", e1) && !LikeMatch("", e);
    assert !LikeMatch("b", e1) && !LikeMatch("b", e);
    assert !LikeMatch("\\b", e1) && !LikeMatch("\\b", e);
    assert !LikeMatch("a\\b", e1);
    assert LikeMatch("ab", e1);
  }

  /** An optional text filter; `None` and `""` (falsy in the source) select
      everything. */
  predicate TextFilter(needle: Option<string>, column: string)
  {
    needle.None? || needle.value == "" || ILike(column, needle.value)
  }

  /** Case does not matter to a filter. */
  lemma ILikeCaseInsensitive(column: string, needle: string)
    ensures ILike(column, needle) <==> ILike(Lower(column), Lower(needle))
  {
    LowerIdempotent(column);
    LowerIdempotent(needle);
  }

  lemma LowerIdempotent(s: string)
    ensures Lower(Lower(s)) == Lower(s)
  {
    var l := Lower(s);
    assert forall i :: 0 <= i < |s| ==> LowerChar(l[i]) == l[i];
  }
}

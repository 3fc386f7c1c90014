/** The `schemes` table as the backend queries it: one row per government scheme with
    its text in English, Telugu and Hindi. A table is a sequence of rows in storage order;
    SQL `NULL` text is represented by the empty string, which Python and JavaScript
    treat the same way (falsy). */
module SchemeData {
  import opened Text
  import opened Sorting

  /** A text column present in the three supported languages. */
  datatype Trilingual = Trilingual(en: string, te: string, hi: string)

  /** The selection rule used throughout the frontend: `en` and `te` pick their own
      column and every other language code falls through to Hindi. */
  function Select(t: Trilingual, language: string): (r: string)
    ensures language == "en" ==> r == t.en
    ensures language == "te" ==> r == t.te
    ensures language != "en" && language != "te" ==> r == t.hi
  {
    if language == "en" then t.en else if language == "te" then t.te else t.hi
  }

  datatype Scheme = Scheme(
    id: int,
    name: Trilingual,
    description: Trilingual,
    eligibility: Trilingual,
    benefits: Trilingual,
    applicationProcess: Trilingual,
    officialLink: string,
    beneficiaryTags: string,
    schemeType: string,
    category: string)

  /** `text ILIKE pattern` for the patterns the backend builds: `%x%` is a
      case-insensitive substring test, anything else a case-insensitive equality
      (wildcards inside `x` are not interpreted). */
  predicate ILike(text: string, pattern: string) {
    if 2 <= |pattern| && pattern[0] == '%' && pattern[|pattern| - 1] == '%'
    then Contains(Lower(text), Lower(pattern[1..|pattern| - 1]))
    else Lower(text) == Lower(pattern)
  }

  lemma ILikeWrapped(text: string, x: string)
    ensures ILike(text, "%" + x + "%") <==> Contains(Lower(text), Lower(x))
  {
    assert ("%" + x + "%")[1..|x| + 1] == x;
  }

  function Id(row: Scheme): int { row.id }

  function NegId(row: Scheme): int { -row.id }

  /** SQL `ORDER BY id`. */
  function ById(rows: seq<Scheme>): seq<Scheme> {
    SortDesc(rows, NegId)
  }

  lemma ByIdOrdered(rows: seq<Scheme>)
    ensures Ascending(ById(rows), Id)
    ensures multiset(ById(rows)) == multiset(rows)
    ensures |ById(rows)| == |rows|
  {
    SortSorted(rows, NegId);
    SortPermutes(rows, NegId);
    NegatedAscending(ById(rows), Id, NegId);
  }

  /** SQL `WHERE p`: the rows satisfying `p`, in table order. */
  function Where(rows: seq<Scheme>, p: Scheme -> bool): (r: seq<Scheme>)
    ensures |r| <= |rows|
    ensures forall x :: x in r ==> x in rows && p(x)
    ensures forall x :: x in rows && p(x) ==> x in r
    decreases |rows|
  {
    if rows == [] then []
    else
      var init := Where(rows[..|rows| - 1], p);
      var last := rows[|rows| - 1];
      assert forall x :: x in rows ==> x in rows[..|rows| - 1] || x == last;
      if p(last) then init + [last] else init
  }

  lemma {:induction false} WhereExt(rows: seq<Scheme>, p: Scheme -> bool, q: Scheme -> bool)
    requires forall x :: p(x) == q(x)
    ensures Where(rows, p) == Where(rows, q)
    decreases |rows|
  {
    if rows != [] {
      WhereExt(rows[..|rows| - 1], p, q);
    }
  }

  /** Every row is counted by exactly one of `WHERE p` and `WHERE NOT p`. */
  lemma {:induction false} WhereSplit(rows: seq<Scheme>, p: Scheme -> bool, q: Scheme -> bool)
    requires forall x :: q(x) == !p(x)
    ensures |Where(rows, p)| + |Where(rows, q)| == |rows|
    decreases |rows|
  {
    if rows != [] {
      WhereSplit(rows[..|rows| - 1], p, q);
    }
  }

  lemma WhereEmpty(rows: seq<Scheme>, p: Scheme -> bool)
    ensures Where(rows, p) == [] <==> forall x :: x in rows ==> !p(x)
  {
    if Where(rows, p) != [] {
      assert Where(rows, p)[0] in Where(rows, p);
    }
  }
}

/** The database address (backend/database/connection.py): the environment value or a
    fixed local default, with the `postgres://` scheme rewritten to `postgresql://`. */
module Connection {
  import opened Wrappers
  import opened Text

  const DefaultUrl := "postgresql://praneeth@localhost:5432/sahayataaifinal"
  const ShortScheme := "postgres://"
  const LongScheme := "postgresql://"

  /** The index of the first occurrence of `p` in `s`, if any. */
  function FirstIndex(s: string, p: string): (r: Option<nat>)
    ensures r.Some? ==> OccursAt(s, p, r.value) && forall j :: 0 <= j < r.value ==> !OccursAt(s, p, j)
    ensures r.None? ==> !Contains(s, p)
  {
    FirstIndexFrom(s, p, 0)
  }

  function FirstIndexFrom(s: string, p: string, from: nat): (r: Option<nat>)
    requires forall j :: 0 <= j < from ==> !OccursAt(s, p, j)
    ensures r.Some? ==> from <= r.value && OccursAt(s, p, r.value) && forall j :: 0 <= j < r.value ==> !OccursAt(s, p, j)
    ensures r.None? ==> !Contains(s, p)
    decreases |s| - from
  {
    if from + |p| > |s| then None
    else if OccursAt(s, p, from) then Some(from)
    else FirstIndexFrom(s, p, from + 1)
  }

  /** Python `s.replace(p, q, 1)`: the first occurrence of `p` replaced by `q`. */
  function ReplaceFirst(s: string, p: string, q: string): (r: string)
    ensures !Contains(s, p) ==> r == s
    ensures Contains(s, p) ==>
      exists i :: (OccursAt(s, p, i) && (forall j :: 0 <= j < i ==> !OccursAt(s, p, j))
                   && r == s[..i] + q + s[i + |p|..])
  {
    match FirstIndex(s, p)
    case None => s
    case Some(i) => s[..i] + q + s[i + |p|..]
  }

  /** The rewrite applied to the configured address. */
  function Rewrite(url: string): (r: string)
    ensures StartsWith(url, ShortScheme) ==> r == LongScheme + url[|ShortScheme|..]
    ensures !StartsWith(url, ShortScheme) ==> r == url
  {
    if StartsWith(url, ShortScheme) then
      assert OccursAt(url, ShortScheme, 0);
      ReplaceFirst(url, ShortScheme, LongScheme)
    else url
  }

  /** `DATABASE_URL`: the environment value when set (even when empty), otherwise the
      local default; then rewritten. */
  function DatabaseUrl(env: Option<string>): string {
    Rewrite(env.GetOr(DefaultUrl))
  }

  /** With nothing in the environment the address is the local default. */
  lemma DefaultUsed()
    ensures DatabaseUrl(None) == DefaultUrl
  {
    assert DefaultUrl[8] != ShortScheme[8];
  }

  /** A rewritten address no longer starts with the short scheme, so rewriting twice is
      rewriting once. */
  lemma RewriteIdempotent(url: string)
    ensures Rewrite(Rewrite(url)) == Rewrite(url)
  {
    var r := Rewrite(url);
    if StartsWith(url, ShortScheme) {
      assert r[8] == 'q' && ShortScheme[8] == ':';
    }
  }

  /** The rewrite keeps everything after the scheme. */
  lemma RewriteKeepsRest(url: string)
    requires StartsWith(url, ShortScheme)
    ensures StartsWith(Rewrite(url), LongScheme)
    ensures Rewrite(url)[|LongScheme|..] == url[|ShortScheme|..]
  {
  }
}

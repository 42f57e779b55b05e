/** Customer search: the pattern built from a query, SQLite's LIKE with an escape character, and the bounded answer. */
module CustomerSearch {
  import opened Text
  import opened Wrappers

  const PERCENT: Unit := 37
  const UNDERSCORE: Unit := 95
  const BACKSLASH: Unit := 92

  const CUSTOMER_SEARCH_MAX := 10

  /** LIKE ignores the case of ASCII letters and of nothing else. */
  function Fold(u: Unit): Unit { if 65 <= u <= 90 then u + 32 else u }

  /** `s LIKE p ESCAPE '\'`: `%` is any run, `_` any one character, and an escaped character is itself. */
  predicate Like(p: Text, s: Text)
    decreases |p| + |s|
  {
    if p == [] then s == []
    else if p[0] == PERCENT then Like(p[1..], s) || (s != [] && Like(p, s[1..]))
    else if p[0] == UNDERSCORE then s != [] && Like(p[1..], s[1..])
    else if p[0] == BACKSLASH then |p| > 1 && s != [] && Fold(p[1]) == Fold(s[0]) && Like(p[2..], s[1..])
    else s != [] && Fold(p[0]) == Fold(s[0]) && Like(p[1..], s[1..])
  }

  predicate IsSpecial(u: Unit) { u == BACKSLASH || u == PERCENT || u == UNDERSCORE }

  /** The query with every character that LIKE would interpret escaped. */
  function Escaped(query: Text): Text {
    if query == [] then []
    else (if IsSpecial(query[0]) then [BACKSLASH, query[0]] else [query[0]]) + Escaped(query[1..])
  }

  function Pattern(query: Text): Text { [PERCENT] + Escaped(query) + [PERCENT] }

  /** The same character, or one ASCII letter in both cases. */
  predicate SameLetter(a: Unit, b: Unit) {
    a == b || ('A' as int <= a <= 'Z' as int && b - a == 32) || ('A' as int <= b <= 'Z' as int && a - b == 32)
  }

  /** The query occurs at this place. */
  predicate OccursAt(query: Text, s: Text, i: nat) {
    i + |query| <= |s| && forall j :: 0 <= j < |query| ==> SameLetter(query[j], s[i + j])
  }

  ghost predicate Occurs(query: Text, s: Text) { exists i: nat :: OccursAt(query, s, i) }

  lemma {:induction false} AnythingMatches(s: Text)
    ensures Like([PERCENT], s)
    decreases |s|
  {
    if s == [] {
      assert Like([PERCENT][1..], s);
    } else {
      AnythingMatches(s[1..]);
    }
  }

  /** An escaped query matches exactly itself, and leaves the rest to the rest of the pattern. */
  lemma {:induction false} EscapedMatches(query: Text, rest: Text, s: Text)
    ensures Like(Escaped(query) + rest, s) <==> OccursAt(query, s, 0) && Like(rest, s[|query|..])
    decreases |query|
  {
    if query == [] {
      assert Escaped(query) + rest == rest && s[0..] == s;
    } else {
      var p := Escaped(query) + rest;
      var tail := Escaped(query[1..]) + rest;
      if IsSpecial(query[0]) {
        assert p[0] == BACKSLASH && p[1] == query[0] && p[2..] == tail;
      } else {
        assert p[0] == query[0] && p[1..] == tail;
      }
      if s != [] {
        EscapedMatches(query[1..], rest, s[1..]);
        FirstThenRest(query, s);
        if |query| <= |s| { assert s[1..][|query| - 1..] == s[|query|..]; }
      }
    }
  }

  lemma FirstThenRest(query: Text, s: Text)
    requires query != [] && s != []
    ensures OccursAt(query, s, 0) <==> Fold(query[0]) == Fold(s[0]) && OccursAt(query[1..], s[1..], 0)
  {
    if OccursAt(query, s, 0) {
      forall j | 0 <= j < |query| - 1 ensures SameLetter(query[1..][j], s[1..][j]) { assert SameLetter(query[j + 1], s[0 + (j + 1)]); }
    }
    if SameLetter(query[0], s[0]) && OccursAt(query[1..], s[1..], 0) {
      forall j | 0 <= j < |query| ensures SameLetter(query[j], s[j]) {
        if j > 0 { assert SameLetter(query[1..][j - 1], s[1..][0 + (j - 1)]); }
      }
    }
  }

  /** A leading `%` tries every place. */
  lemma {:induction false} PercentTries(rest: Text, s: Text)
    ensures Like([PERCENT] + rest, s) <==> exists i :: 0 <= i <= |s| && Like(rest, s[i..])
    decreases |s|
  {
    var p := [PERCENT] + rest;
    assert p[1..] == rest && s[0..] == s;
    if s != [] {
      PercentTries(rest, s[1..]);
      if i :| 0 <= i <= |s[1..]| && Like(rest, s[1..][i..]) { assert s[1..][i..] == s[i + 1..]; }
      if i :| 0 < i <= |s| && Like(rest, s[i..]) { assert s[i..] == s[1..][i - 1..]; }
    }
  }

  /**
   A search is literal: the pattern matches exactly the strings the query occurs
   in, whatever percent signs, underscores and backslashes it is made of.
   */
  lemma LiteralSearch(query: Text, s: Text)
    ensures Like(Pattern(query), s) <==> Occurs(query, s)
  {
    var rest := Escaped(query) + [PERCENT];
    assert Pattern(query) == [PERCENT] + rest;
    PercentTries(rest, s);
    forall i | 0 <= i <= |s| ensures Like(rest, s[i..]) <==> OccursAt(query, s, i) {
      EscapedMatches(query, [PERCENT], s[i..]);
      if |query| <= |s[i..]| {
        AnythingMatches(s[i..][|query|..]);
        forall j | 0 <= j < |query| ensures s[i..][j] == s[i + j] { }
      }
    }
  }

  /** Escaping is what stops a one-character query from listing every customer. */
  lemma PercentIsLiteral(s: Text)
    ensures Like(Ascii("%%%"), s)
    ensures Like(Pattern(Ascii("%")), s) <==> PERCENT in s
  {
    assert Ascii("%%%") == [PERCENT] + [PERCENT] + [PERCENT] && Ascii("%") == [PERCENT];
    AnythingMatches(s);
    PercentTries([PERCENT], s);
    PercentTries([PERCENT, PERCENT], s);
    assert [PERCENT] + [PERCENT] + [PERCENT] == [PERCENT] + [PERCENT, PERCENT] && [PERCENT] + [PERCENT] == [PERCENT, PERCENT];
    assert s[0..] == s;
    LiteralSearch([PERCENT], s);
    if Occurs([PERCENT], s) {
      var i: nat :| OccursAt([PERCENT], s, i);
      assert SameLetter([PERCENT][0], s[i + 0]);
    }
    if PERCENT in s {
      var i :| 0 <= i < |s| && s[i] == PERCENT;
      assert OccursAt([PERCENT], s, i);
    }
  }

  /* -------------------------------------------------------------------------- the answer -- */

  datatype Row = Row(slug: Option<Text>, internal: bool)

  function Bounded(limit: int): nat {
    var atLeast := if limit < 1 then 1 else limit;
    if atLeast < CUSTOMER_SEARCH_MAX then atLeast else CUSTOMER_SEARCH_MAX
  }

  predicate Selected(r: Row, query: Text) { r.slug.Some? && !r.internal && Like(Pattern(query), r.slug.value) }

  /** GROUP BY and ORDER BY: a slug takes its place among the others, once. */
  function Place(slug: Text, out: seq<Text>): seq<Text> {
    if out == [] then [slug]
    else if slug == out[0] then out
    else if Less(slug, out[0]) then [slug] + out
    else [out[0]] + Place(slug, out[1..])
  }

  function Grouped(rows: seq<Row>, query: Text): seq<Text> {
    if rows == [] then []
    else if Selected(rows[0], query) then Place(rows[0].slug.value, Grouped(rows[1..], query))
    else Grouped(rows[1..], query)
  }

  function SearchCustomers(rows: seq<Row>, query: Text, limit: int): seq<Text> {
    var all := Grouped(rows, query);
    if |all| <= Bounded(limit) then all else all[..Bounded(limit)]
  }

  predicate Ascending(out: seq<Text>) { forall i, j :: 0 <= i < j < |out| ==> Less(out[i], out[j]) }

  lemma ConsAscending(x: Text, out: seq<Text>)
    requires Ascending(out) && forall o :: o in out ==> Less(x, o)
    ensures Ascending([x] + out)
  {
    var all := [x] + out;
    forall i, j | 0 <= i < j < |all| ensures Less(all[i], all[j]) { assert all[j] == out[j - 1] && out[j - 1] in out; }
  }

  lemma HeadIsLeast(out: seq<Text>)
    requires Ascending(out) && out != []
    ensures Ascending(out[1..]) && forall o :: o in out[1..] ==> Less(out[0], o)
  {
    forall o | o in out[1..] ensures Less(out[0], o) {
      var k :| 0 <= k < |out| - 1 && out[1..][k] == o;
      assert out[k + 1] == o;
    }
  }

  lemma {:induction false} PlaceOrders(slug: Text, out: seq<Text>)
    requires Ascending(out)
    ensures Ascending(Place(slug, out)) && forall o :: o in Place(slug, out) <==> o == slug || o in out
  {
    if out != [] {
      assert out == [out[0]] + out[1..];
      HeadIsLeast(out);
      LessTrichotomy(slug, out[0]);
      if Less(slug, out[0]) {
        forall o | o in out ensures Less(slug, o) {
          if o != out[0] { LessTrans(slug, out[0], o); }
        }
        ConsAscending(slug, out);
      } else if slug != out[0] {
        PlaceOrders(slug, out[1..]);
        ConsAscending(out[0], Place(slug, out[1..]));
      }
    }
  }

  /** The slugs the query occurs in, of channels that are not internal. */
  ghost predicate Matches(rows: seq<Row>, query: Text, slug: Text) {
    Occurs(query, slug) && Row(Some(slug), false) in rows
  }

  lemma {:induction false} GroupedIs(rows: seq<Row>, query: Text)
    ensures Ascending(Grouped(rows, query))
    ensures forall slug :: slug in Grouped(rows, query) <==> Matches(rows, query, slug)
  {
    if rows != [] {
      assert rows == [rows[0]] + rows[1..];
      GroupedIs(rows[1..], query);
      if rows[0].slug.Some? { LiteralSearch(query, rows[0].slug.value); }
      if Selected(rows[0], query) { PlaceOrders(rows[0].slug.value, Grouped(rows[1..], query)); }
    }
  }

  /** The customers that match and come before a slug. */
  function Ahead(rows: seq<Row>, query: Text, slug: Text): set<Text> { Below(Grouped(rows, query), slug) }

  function Below(out: seq<Text>, slug: Text): set<Text> { set m | m in out && Less(m, slug) }

  lemma {:induction false} AheadSize(out: seq<Text>, k: nat)
    requires Ascending(out) && k < |out|
    ensures |Below(out, out[k])| == k
    decreases k
  {
    var here := Below(out, out[k]);
    if k == 0 {
      forall m | m in out ensures !Less(m, out[0]) {
        var i :| 0 <= i < |out| && out[i] == m;
        LessTrichotomy(m, out[0]);
      }
      assert here == {};
    } else {
      var before := Below(out, out[k - 1]);
      AheadSize(out, k - 1);
      forall m | m in out ensures Less(m, out[k]) <==> Less(m, out[k - 1]) || m == out[k - 1] {
        var i :| 0 <= i < |out| && out[i] == m;
        LessTrichotomy(m, out[k]);
        LessTrichotomy(m, out[k - 1]);
      }
      LessTrichotomy(out[k - 1], out[k - 1]);
      assert here == before + {out[k - 1]};
    }
  }

  /**
   A customer is answered exactly when the query occurs in its slug, some channel
   that is not internal carries it, and it is among the first ten such customers
   and the first `limit`, of which there is always one. The answer lists each once,
   in order.
   */
  lemma AnswerIff(rows: seq<Row>, query: Text, limit: int, slug: Text)
    ensures Ascending(SearchCustomers(rows, query, limit))
    ensures var ahead := |Ahead(rows, query, slug)|;
      slug in SearchCustomers(rows, query, limit) <==> Matches(rows, query, slug) && ahead < 10 && (ahead == 0 || ahead < limit)
    ensures forall m :: m in Ahead(rows, query, slug) <==> Matches(rows, query, m) && Less(m, slug)
  {
    var all, out := Grouped(rows, query), SearchCustomers(rows, query, limit);
    GroupedIs(rows, query);
    if slug in all {
      var k :| 0 <= k < |all| && all[k] == slug;
      AheadSize(all, k);
      PrefixHas(all, |out|, k);
      assert out == all[..|out|];
    }
  }

  /** Of an ascending list, a prefix holds exactly the items at its places. */
  lemma PrefixHas(all: seq<Text>, n: nat, k: nat)
    requires Ascending(all) && n <= |all| && k < |all|
    ensures all[k] in all[..n] <==> k < n
  {
    if all[k] in all[..n] {
      var i :| 0 <= i < n && all[i] == all[k];
      LessTrichotomy(all[k], all[k]);
    }
    if k < n { assert all[..n][k] == all[k]; }
  }
}

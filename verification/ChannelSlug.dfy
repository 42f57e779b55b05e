/** Slugs: how registration makes one out of a channel's name, and the shape a human may set one to. */
module ChannelSlug {
  import opened Text

  const DASH: Unit := 45

  predicate IsWord(u: Unit) { 97 <= u <= 122 || 48 <= u <= 57 }

  /* --------------------------------------------------------------------- the derivation -- */

  /** The text after its leading units that are not of a word. */
  function SkipOthers(s: Text): (r: Text)
    ensures |r| <= |s|
  {
    if s == [] || IsWord(s[0]) then s else SkipOthers(s[1..])
  }

  /** Every run of other units becomes one dash. */
  function Dashed(s: Text): Text
    decreases |s|
  {
    if s == [] then []
    else if IsWord(s[0]) then [s[0]] + Dashed(s[1..])
    else [DASH] + Dashed(SkipOthers(s[1..]))
  }

  function TrimStart(s: Text): Text {
    if s != [] && s[0] == DASH then TrimStart(s[1..]) else s
  }

  function TrimEnd(s: Text): Text {
    if s != [] && s[|s| - 1] == DASH then TrimEnd(s[..|s| - 1]) else s
  }

  /** `lower` is `String.prototype.toLowerCase`. */
  function Slugged(lower: Text -> Text, name: Text): Text {
    TrimEnd(TrimStart(Dashed(lower(name))))
  }

  function DeriveSlug(lower: Text -> Text, name: Text, channelId: Text): Text {
    var slug := Slugged(lower, name);
    if slug == [] then lower(channelId) else slug
  }

  /* --------------------------------------------------------------------------- the shape -- */

  const MAX_SLUG_CHARS := 100

  /** Matches `^[a-z0-9]+(-[a-z0-9]+)*$`. */
  predicate IsSlug(s: Text)
    decreases |s|
  {
    s != [] && IsWord(s[0]) && (|s| == 1 || IsSlug(s[1..]) || (s[1] == DASH && IsSlug(s[2..])))
  }

  predicate NoDoubleDash(s: Text) { forall i :: 0 < i < |s| ==> s[i - 1] != '-' as int || s[i] != '-' as int }

  predicate IsLetterOrDigit(u: Unit) { 'a' as int <= u <= 'z' as int || '0' as int <= u <= '9' as int }

  predicate WordsAndDashes(s: Text) { forall i :: 0 <= i < |s| ==> IsLetterOrDigit(s[i]) || s[i] == '-' as int }

  /** The pattern's language, said without the pattern: words and single dashes, with no dash at either end. */
  lemma {:induction false} ShapeIff(s: Text)
    ensures IsSlug(s) <==> s != [] && WordsAndDashes(s) && NoDoubleDash(s) && s[0] != DASH && s[|s| - 1] != DASH
    decreases |s|
  {
    if |s| > 1 {
      ShapeIff(s[1..]);
      ShapeIff(s[2..]);
      Extended(s, 1);
      Extended(s, 2);
      assert s[1..][0] == s[1] && s[1..][|s| - 2] == s[|s| - 1];
    }
  }

  /** The shape of a tail, unit by unit. */
  lemma Extended(s: Text, k: nat)
    requires k <= |s|
    ensures WordsAndDashes(s[k..]) <==> forall i :: k <= i < |s| ==> IsWord(s[i]) || s[i] == DASH
    ensures NoDoubleDash(s[k..]) <==> forall i :: k < i < |s| ==> s[i - 1] != DASH || s[i] != DASH
  {
    var t := s[k..];
    if WordsAndDashes(t) {
      forall i | k <= i < |s| ensures IsWord(s[i]) || s[i] == DASH { assert t[i - k] == s[i]; }
    }
    if NoDoubleDash(t) {
      forall i | k < i < |s| ensures s[i - 1] != DASH || s[i] != DASH { assert t[i - k] == s[i] && t[i - k - 1] == s[i - 1]; }
    }
  }

  lemma {:induction false} DashedShape(s: Text)
    ensures WordsAndDashes(Dashed(s)) && NoDoubleDash(Dashed(s))
    ensures s != [] && IsWord(s[0]) ==> Dashed(s) != [] && IsWord(Dashed(s)[0])
    decreases |s|
  {
    if s != [] {
      if IsWord(s[0]) {
        DashedShape(s[1..]);
      } else {
        Skipped(s[1..]);
        DashedShape(SkipOthers(s[1..]));
      }
    }
  }

  lemma {:induction false} Skipped(s: Text)
    ensures SkipOthers(s) != [] ==> IsWord(SkipOthers(s)[0])
  {
    if s != [] && !IsWord(s[0]) { Skipped(s[1..]); }
  }

  lemma {:induction false} StartTrimmed(s: Text)
    ensures var r := TrimStart(s); |r| <= |s| && r == s[|s| - |r|..] && (r != [] ==> r[0] != DASH)
  {
    if s != [] && s[0] == DASH { StartTrimmed(s[1..]); }
  }

  lemma {:induction false} EndTrimmed(s: Text)
    ensures var r := TrimEnd(s); r <= s && (r != [] ==> r[|r| - 1] != DASH)
  {
    if s != [] && s[|s| - 1] == DASH { EndTrimmed(s[..|s| - 1]); }
  }

  lemma TrimStartShape(s: Text)
    requires WordsAndDashes(s) && NoDoubleDash(s)
    ensures WordsAndDashes(TrimStart(s)) && NoDoubleDash(TrimStart(s)) && (TrimStart(s) != [] ==> TrimStart(s)[0] != DASH)
  {
    StartTrimmed(s);
    Extended(s, |s| - |TrimStart(s)|);
  }

  lemma TrimEndShape(s: Text)
    requires WordsAndDashes(s) && NoDoubleDash(s)
    ensures var u := TrimEnd(s); WordsAndDashes(u) && NoDoubleDash(u) && (u != [] ==> s != [] && u[0] == s[0] && u[|u| - 1] != DASH)
  {
    EndTrimmed(s);
    var u := TrimEnd(s);
    forall i | 0 <= i < |u| ensures u[i] == s[i] { }
  }

  /** A name that leaves anything at all leaves a slug of the shape PATCH accepts. */
  lemma DerivedShape(lower: Text -> Text, name: Text)
    requires Slugged(lower, name) != []
    ensures IsSlug(Slugged(lower, name))
  {
    DashedShape(lower(name));
    TrimStartShape(Dashed(lower(name)));
    TrimEndShape(TrimStart(Dashed(lower(name))));
    ShapeIff(Slugged(lower, name));
  }

  /* -------------------------------------------------------------- what is derived -- */

  /** The text with the words `ws` in it, between and around them the gaps. */
  function Woven(gaps: seq<Text>, ws: seq<Text>): Text
    requires |gaps| == |ws| + 1
    decreases |ws|
  {
    gaps[0] + if ws == [] then [] else ws[0] + Woven(gaps[1..], ws[1..])
  }

  predicate AllWord(s: Text) { forall i :: 0 <= i < |s| ==> IsLetterOrDigit(s[i]) }

  predicate AllOther(s: Text) { forall i :: 0 <= i < |s| ==> !IsLetterOrDigit(s[i]) }

  /** `ws` are the words of the text: its runs of lower-case letters and digits, none of which touches the next. */
  ghost predicate Spells(s: Text, gaps: seq<Text>, ws: seq<Text>) {
    && |gaps| == |ws| + 1 && s == Woven(gaps, ws)
    && (forall i :: 0 <= i < |ws| ==> ws[i] != [] && AllWord(ws[i]))
    && (forall i :: 0 <= i < |gaps| ==> AllOther(gaps[i]) && (0 < i < |ws| ==> gaps[i] != []))
  }

  function Joined(ws: seq<Text>): Text {
    if ws == [] then [] else if |ws| == 1 then ws[0] else ws[0] + ['-' as int] + Joined(ws[1..])
  }

  /** Every text has its words. */
  lemma {:induction false} Spelled(s: Text) returns (gaps: seq<Text>, ws: seq<Text>)
    ensures Spells(s, gaps, ws)
    decreases |s|
  {
    if s == [] { return [[]], []; }
    var g, v := Spelled(s[1..]);
    var c := [s[0]];
    assert s == c + s[1..] && AllWord(c) == !AllOther(c);
    if !IsLetterOrDigit(s[0]) {
      gaps, ws := [c + g[0]] + g[1..], v;
      assert gaps[1..] == g[1..];
    } else if g[0] == [] && v != [] {
      gaps, ws := g, [c + v[0]] + v[1..];
      assert ws[1..] == v[1..];
    } else {
      gaps, ws := [[]] + g, [c] + v;
      assert gaps[1..] == g && ws[1..] == v;
    }
  }

  lemma {:induction false} SkipGap(gap: Text, rest: Text)
    requires AllOther(gap) && (rest == [] || IsLetterOrDigit(rest[0]))
    ensures SkipOthers(gap + rest) == rest
    decreases |gap|
  {
    if gap == [] {
      assert gap + rest == rest;
    } else {
      SkipGap(gap[1..], rest);
      assert (gap + rest)[1..] == gap[1..] + rest;
    }
  }

  function Dash(gap: Text): Text { if gap == [] then [] else [DASH] }

  lemma DashedGap(gap: Text, rest: Text)
    requires AllOther(gap) && (rest == [] || IsLetterOrDigit(rest[0]))
    ensures Dashed(gap + rest) == Dash(gap) + Dashed(rest)
  {
    if gap == [] {
      assert gap + rest == rest;
    } else {
      assert (gap + rest)[1..] == gap[1..] + rest;
      SkipGap(gap[1..], rest);
    }
  }

  lemma {:induction false} DashedWord(w: Text, rest: Text)
    requires AllWord(w)
    ensures Dashed(w + rest) == w + Dashed(rest)
    decreases |w|
  {
    if w == [] {
      assert w + rest == rest;
    } else {
      DashedWord(w[1..], rest);
      assert (w + rest)[1..] == w[1..] + rest;
    }
  }

  lemma SpellsTail(s: Text, gaps: seq<Text>, ws: seq<Text>)
    requires Spells(s, gaps, ws) && ws != []
    ensures Spells(Woven(gaps[1..], ws[1..]), gaps[1..], ws[1..])
  {
  }

  lemma {:induction false} DashedWoven(s: Text, gaps: seq<Text>, ws: seq<Text>)
    requires Spells(s, gaps, ws)
    ensures Dashed(s) == Dash(gaps[0]) + if ws == [] then [] else Joined(ws) + Dash(gaps[|ws|])
    decreases |ws|
  {
    if ws == [] {
      DashedGap(gaps[0], []);
    } else {
      var rest := Woven(gaps[1..], ws[1..]);
      DashedGap(gaps[0], ws[0] + rest);
      DashedWord(ws[0], rest);
      SpellsTail(s, gaps, ws);
      DashedWoven(rest, gaps[1..], ws[1..]);
      assert gaps[1..][|ws| - 1] == gaps[|ws|];
      Regroup(ws[0], Dash(gaps[1]), Joined(ws[1..]), Dash(gaps[|ws|]));
    }
  }

  lemma Regroup(a: Text, b: Text, c: Text, d: Text)
    ensures a + (b + (c + d)) == (a + b + c) + d && a + (b + []) == a + b
  {
  }

  lemma {:induction false} JoinedEnds(s: Text, gaps: seq<Text>, ws: seq<Text>)
    requires Spells(s, gaps, ws) && ws != []
    ensures var j := Joined(ws); j != [] && IsLetterOrDigit(j[0]) && IsLetterOrDigit(j[|j| - 1])
    decreases |ws|
  {
    if |ws| > 1 {
      SpellsTail(s, gaps, ws);
      JoinedEnds(Woven(gaps[1..], ws[1..]), gaps[1..], ws[1..]);
    }
  }

  lemma TrimmedStart(lead: Text, t: Text)
    requires (lead == [] || lead == [DASH]) && (t != [] ==> t[0] != DASH)
    ensures TrimStart(lead + t) == t
  {
    assert TrimStart(t) == t;
    if lead == [] { assert lead + t == t; } else { assert (lead + t)[1..] == t; }
  }

  lemma TrimmedEnd(j: Text, trail: Text)
    requires (trail == [] || trail == [DASH]) && (j != [] ==> j[|j| - 1] != DASH)
    ensures TrimEnd(j + trail) == j
  {
    assert TrimEnd(j) == j;
    if trail == [] { assert j + trail == j; } else { assert (j + trail)[..|j|] == j; }
  }

  /**
   The slug derived from a name is the words of the lower-cased name with a dash
   between one and the next, and the lower-cased channel id when it has no words.
   */
  lemma DerivedIsItsWords(lower: Text -> Text, name: Text, channelId: Text, gaps: seq<Text>, ws: seq<Text>)
    requires Spells(lower(name), gaps, ws)
    ensures DeriveSlug(lower, name, channelId) == if ws == [] then lower(channelId) else Joined(ws)
  {
    var j, trail := Joined(ws), if ws == [] then [] else Dash(gaps[|ws|]);
    DashedWoven(lower(name), gaps, ws);
    if ws != [] { JoinedEnds(lower(name), gaps, ws); }
    TrimmedStart(Dash(gaps[0]), j + trail);
    TrimmedEnd(j, trail);
    assert Dashed(lower(name)) == Dash(gaps[0]) + (j + trail);
  }

  /* ------------------------------------------------------------- deriving again -- */

  lemma {:induction false} DashedStays(s: Text)
    requires IsSlug(s)
    ensures Dashed(s) == s
    decreases |s|
  {
    if |s| == 1 {
      assert Dashed(s[1..]) == [];
    } else if IsSlug(s[1..]) {
      DashedStays(s[1..]);
    } else {
      DashedStays(s[2..]);
      assert s[1..][1..] == s[2..] && SkipOthers(s[2..]) == s[2..];
      assert Dashed(s[1..]) == [DASH] + s[2..] == s[1..];
    }
  }

  /** A slug has nothing to replace and nothing to trim. */
  lemma SlugStays(s: Text)
    requires IsSlug(s)
    ensures Dashed(s) == s && TrimStart(s) == s && TrimEnd(s) == s
  {
    DashedStays(s);
    ShapeIff(s);
  }

  /** `lower` leaves text that has no upper case alone. */
  predicate LowerKeeps(lower: Text -> Text, s: Text) { lower(s) == s }

  /** Deriving a slug leaves it alone exactly when it has the shape: derivation is idempotent, and its fixed points are the shape. */
  lemma DerivedFixed(lower: Text -> Text, s: Text)
    requires LowerKeeps(lower, s) && s != []
    ensures Slugged(lower, s) == s <==> IsSlug(s)
  {
    if IsSlug(s) { SlugStays(s); }
    if Slugged(lower, s) == s { DerivedShape(lower, s); }
  }

  lemma DeriveIdempotent(lower: Text -> Text, name: Text, channelId: Text, other: Text)
    requires forall s :: IsSlug(s) ==> LowerKeeps(lower, s)
    requires Slugged(lower, name) != []
    ensures var slug := DeriveSlug(lower, name, channelId); IsSlug(slug) && DeriveSlug(lower, slug, other) == slug
  {
    DerivedShape(lower, name);
    SlugStays(Slugged(lower, name));
  }

  /* ---------------------------------------------------------------------- PATCH's parser -- */

  /** What PATCH accepts as a slug. */
  predicate Acceptable(s: Text) { IsSlug(s) && |s| <= MAX_SLUG_CHARS }

  /** The shape is not the whole test: a long name derives a slug that PATCH refuses. */
  lemma LongNameRefused(lower: Text -> Text, name: Text, channelId: Text)
    requires Slugged(lower, name) != []
    ensures Acceptable(DeriveSlug(lower, name, channelId)) <==> |Slugged(lower, name)| <= 100
  {
    DerivedShape(lower, name);
  }

  /** Such a name exists: a hundred and one letters. */
  lemma OverlongName(lower: Text -> Text, channelId: Text)
    requires forall s :: IsSlug(s) ==> LowerKeeps(lower, s)
    ensures exists name :: IsSlug(DeriveSlug(lower, name, channelId)) && !Acceptable(DeriveSlug(lower, name, channelId))
  {
    var name: Text := seq(MAX_SLUG_CHARS + 1, i => 97);
    ShapeIff(name);
    SlugStays(name);
    assert DeriveSlug(lower, name, channelId) == name;
  }
}

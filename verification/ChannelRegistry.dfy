/** The channel table: the registrars that only add rows, the PATCH that alone may confirm a tenant key, and their races. */
module ChannelRegistry {
  import opened ChannelSlug
  import opened Text
  import opened Wrappers

  type ChannelId = Text

  datatype Mode = Observe | Live | Internal

  datatype Source = Derived | Human

  datatype Row = Row(name: Text, slug: Option<Text>, mode: Mode, source: Source)

  type Table = map<ChannelId, Row>

  /** An unmapped channel gets the row nobody may post to, marked unknown. */
  datatype Policy = Policy(row: Row, known: bool)

  function PolicyOf(t: Table, id: ChannelId): Policy {
    if id in t then Policy(t[id], true) else Policy(Row(id, None, Observe, Derived), false)
  }

  predicate IsTenantKeyTrusted(p: Policy) { p.known && p.row.slug.Some? && p.row.source.Human? }

  /** A missing field is None; `slug` may be set to null. */
  datatype Patch = Patch(mode: Option<Mode>, slug: Option<Option<Text>>)

  /** The two statements that write the table. Reads between them are how writers race. */
  datatype Move = Insert(id: ChannelId, name: Text) | Update(id: ChannelId, patch: Patch)

  function Registered(lower: Text -> Text, id: ChannelId, name: Text): Row {
    Row(name, Some(DeriveSlug(lower, name, id)), Live, Derived)
  }

  /** The slug and its provenance move together. */
  function Patched(r: Row, p: Patch): Row {
    Row(r.name,
      if p.slug.Some? then p.slug.value else r.slug,
      if p.mode.Some? then p.mode.value else r.mode,
      if p.slug.Some? then (if p.slug.value.None? then Derived else Human) else r.source)
  }

  function Step(lower: Text -> Text, t: Table, m: Move): Table {
    match m
    case Insert(id, name) => if id in t then t else t[id := Registered(lower, id, name)]
    case Update(id, p) => if id in t then t[id := Patched(t[id], p)] else t
  }

  function Run(lower: Text -> Text, t: Table, moves: seq<Move>): Table
    decreases |moves|
  {
    if moves == [] then t else Step(lower, Run(lower, t, moves[..|moves| - 1]), moves[|moves| - 1])
  }

  lemma {:induction false} RunConcat(lower: Text -> Text, t: Table, a: seq<Move>, b: seq<Move>)
    ensures Run(lower, t, a + b) == Run(lower, Run(lower, t, a), b)
    decreases |b|
  {
    if b == [] {
      assert a + b == a;
    } else {
      var front, last := b[..|b| - 1], b[|b| - 1];
      RunConcat(lower, t, a, front);
      assert a + b == (a + front) + [last] && b == front + [last];
      RunSnoc(lower, t, a + front, last);
      RunSnoc(lower, Run(lower, t, a), front, last);
    }
  }

  lemma RunSnoc(lower: Text -> Text, t: Table, moves: seq<Move>, last: Move)
    ensures Run(lower, t, moves + [last]) == Step(lower, Run(lower, t, moves), last)
  {
    assert (moves + [last])[..|moves|] == moves;
  }

  lemma RunOne(lower: Text -> Text, t: Table, m: Move)
    ensures Run(lower, t, [m]) == Step(lower, t, m)
  {
    RunSnoc(lower, t, [], m);
    assert [] + [m] == [m];
  }

  /* -------------------------------------------------------------------------- provenance -- */

  /** What PATCH's parser lets through. */
  predicate IsPatch(p: Patch) {
    (p.mode.Some? || p.slug.Some?) && (p.slug.Some? && p.slug.value.Some? ==> Acceptable(p.slug.value.value))
  }

  predicate AllPatches(moves: seq<Move>) { forall i :: 0 <= i < |moves| && moves[i].Update? ==> IsPatch(moves[i].patch) }

  /** A table as the migration that adds the provenance column leaves it: nothing is confirmed, whatever the slugs. */
  predicate Unconfirmed(t: Table) { forall id :: id in t ==> t[id].source == Derived }

  /** The latest customerSlug PATCH that found a row. */
  function LastSlugPatch(lower: Text -> Text, t: Table, moves: seq<Move>, id: ChannelId): Option<Option<Text>>
    decreases |moves|
  {
    if moves == [] then None
    else
      var front, last := moves[..|moves| - 1], moves[|moves| - 1];
      if last.Update? && last.id == id && last.patch.slug.Some? && id in Run(lower, t, front) then last.patch.slug
      else LastSlugPatch(lower, t, front, id)
  }

  /** The latest mode PATCH that found a row. */
  function LastModePatch(lower: Text -> Text, t: Table, moves: seq<Move>, id: ChannelId): Option<Mode>
    decreases |moves|
  {
    if moves == [] then None
    else
      var front, last := moves[..|moves| - 1], moves[|moves| - 1];
      if last.Update? && last.id == id && last.patch.mode.Some? && id in Run(lower, t, front) then last.patch.mode
      else LastModePatch(lower, t, front, id)
  }

  /** The name of the first registration. */
  function FirstName(moves: seq<Move>, id: ChannelId): Option<Text>
    decreases |moves|
  {
    if moves == [] then None
    else
      var earlier, last := FirstName(moves[..|moves| - 1], id), moves[|moves| - 1];
      if earlier.None? && last.Insert? && last.id == id then Some(last.name) else earlier
  }

  /** Which row there is, its name and its mode, in a table grown from `start`. */
  predicate Registers(start: Table, t: Table, id: ChannelId, first: Option<Text>, mode: Option<Mode>) {
    && (id in t <==> id in start || first.Some?)
    && (id !in t ==> mode.None?)
    && (id in t ==> t[id].name == if id in start then start[id].name else first.value)
    && (id in t ==> t[id].mode == if mode.Some? then mode.value else if id in start then start[id].mode else Live)
  }

  lemma StepRegisters(lower: Text -> Text, start: Table, t: Table, m: Move, id: ChannelId, first: Option<Text>, mode: Option<Mode>)
    requires Registers(start, t, id, first, mode)
    ensures var sets := m.Update? && m.id == id && m.patch.mode.Some? && id in t;
      Registers(start, Step(lower, t, m), id,
        if first.None? && m.Insert? && m.id == id then Some(m.name) else first, if sets then m.patch.mode else mode)
  {
  }

  /**
   Which channels have a row, whatever the writers' order: those that had one and
   those registered since. A registered row bears the name of its first
   registration and is live until a PATCH sets another mode.
   */
  lemma {:induction false} RegisteredExactly(lower: Text -> Text, start: Table, moves: seq<Move>, id: ChannelId)
    ensures Registers(start, Run(lower, start, moves), id, FirstName(moves, id), LastModePatch(lower, start, moves, id))
    decreases |moves|
  {
    if moves != [] {
      var front := moves[..|moves| - 1];
      RegisteredExactly(lower, start, front, id);
      StepRegisters(lower, start, Run(lower, start, front), moves[|moves| - 1], id, FirstName(front, id), LastModePatch(lower, start, front, id));
    }
  }

  /** What a row holds in a table grown from `start`, given its latest customerSlug PATCH. */
  predicate Settled(lower: Text -> Text, start: Table, t: Table, id: ChannelId, last: Option<Option<Text>>) {
    if id !in t then last.None? && id !in start
    else match last
      case None => t[id].slug == (if id in start then start[id].slug else Some(DeriveSlug(lower, t[id].name, id))) && t[id].source == Derived
      case Some(None) => t[id].slug == None && t[id].source == Derived
      case Some(Some(slug)) => t[id].slug == Some(slug) && t[id].source == Human
  }

  lemma StepSettles(lower: Text -> Text, start: Table, t: Table, m: Move, id: ChannelId, last: Option<Option<Text>>)
    requires Settled(lower, start, t, id, last)
    ensures var sets := m.Update? && m.id == id && m.patch.slug.Some? && id in t;
      Settled(lower, start, Step(lower, t, m), id, if sets then m.patch.slug else last)
  {
  }

  /**
   What a row holds is settled by where it came from and its latest customerSlug
   PATCH, whatever the writers' order: a row that was there before keeps its slug,
   a registered one the slug derived from its name, until a PATCH sets another.
   */
  lemma {:induction false} RowExactly(lower: Text -> Text, start: Table, moves: seq<Move>, id: ChannelId)
    requires Unconfirmed(start)
    ensures Settled(lower, start, Run(lower, start, moves), id, LastSlugPatch(lower, start, moves, id))
    decreases |moves|
  {
    if moves != [] {
      var front := moves[..|moves| - 1];
      RowExactly(lower, start, front, id);
      StepSettles(lower, start, Run(lower, start, front), moves[|moves| - 1], id, LastSlugPatch(lower, start, front, id));
    }
  }

  lemma {:induction false} LastIsPatch(lower: Text -> Text, start: Table, moves: seq<Move>, id: ChannelId)
    requires AllPatches(moves)
    ensures var last := LastSlugPatch(lower, start, moves, id); last.Some? && last.value.Some? ==> Acceptable(last.value.value)
    decreases |moves|
  {
    if moves != [] { LastIsPatch(lower, start, moves[..|moves| - 1], id); }
  }

  /**
   In every interleaving of registration, sweep and PATCH, from any table in which
   nothing is confirmed yet, a tenant key is trusted exactly when the latest
   customerSlug PATCH of the channel set one, and it is then that slug, well formed
   and of bounded length.
   */
  lemma {:induction false} TrustIff(lower: Text -> Text, start: Table, moves: seq<Move>, id: ChannelId)
    requires Unconfirmed(start) && AllPatches(moves)
    ensures var p, last := PolicyOf(Run(lower, start, moves), id), LastSlugPatch(lower, start, moves, id);
      && (IsTenantKeyTrusted(p) <==> last.Some? && last.value.Some?)
      && (IsTenantKeyTrusted(p) ==> p.row.slug == last.value && Acceptable(p.row.slug.value))
  {
    RowExactly(lower, start, moves, id);
    LastIsPatch(lower, start, moves, id);
  }

  /** No registrar ever changes an existing row: without a PATCH of the channel the row stays. */
  lemma {:induction false} RegistrarsOnlyAdd(lower: Text -> Text, t: Table, moves: seq<Move>, id: ChannelId)
    requires id in t && forall i :: 0 <= i < |moves| && moves[i].Update? ==> moves[i].id != id
    ensures id in Run(lower, t, moves) && Run(lower, t, moves)[id] == t[id]
    decreases |moves|
  {
    if moves != [] { RegistrarsOnlyAdd(lower, t, moves[..|moves| - 1], id); }
  }

  lemma {:induction false} RowsStay(lower: Text -> Text, t: Table, moves: seq<Move>)
    ensures t.Keys <= Run(lower, t, moves).Keys
    decreases |moves|
  {
    if moves != [] { RowsStay(lower, t, moves[..|moves| - 1]); }
  }

  /* ----------------------------------------------------------------------- PATCH's parser -- */

  datatype Field = JString(s: Text) | JNullValue | JOther

  /** A request body: not an object, or an object with or without each field. */
  datatype Body = NotRecord | Record(mode: Option<Field>, customerSlug: Option<Field>)

  function ModeNamed(s: Text): Option<Mode> {
    if s == Ascii("observe") then Some(Observe)
    else if s == Ascii("live") then Some(Live)
    else if s == Ascii("internal") then Some(Internal)
    else None
  }

  /** The word a request uses for a mode. */
  function NameOf(mode: Mode): Text {
    match mode case Observe => Ascii("observe") case Live => Ascii("live") case Internal => Ascii("internal")
  }

  lemma NamedIff(s: Text, mode: Mode)
    ensures ModeNamed(s) == Some(mode) <==> s == NameOf(mode)
  {
    assert Ascii("observe")[0] == 111 && Ascii("live")[0] == 108 && Ascii("internal")[0] == 105;
  }

  ghost predicate GoodMode(f: Option<Field>) { f.Some? ==> f.value.JString? && exists mode :: f.value.s == NameOf(mode) }

  predicate GoodSlug(f: Option<Field>) { f.Some? ==> f.value.JNullValue? || (f.value.JString? && IsSlug(f.value.s) && |f.value.s| <= 100) }

  /** A body is a patch exactly when it carries at least one field and each field it carries is good. */
  method ParsePatch(body: Body) returns (patch: Option<Patch>)
    ensures patch.Some? <==> body.Record? && (body.mode.Some? || body.customerSlug.Some?) && GoodMode(body.mode) && GoodSlug(body.customerSlug)
    ensures patch.Some? ==> IsPatch(patch.value)
    ensures patch.Some? ==> (patch.value.mode.Some? <==> body.mode.Some?) && (patch.value.slug.Some? <==> body.customerSlug.Some?)
    ensures patch.Some? && body.mode.Some? ==> body.mode.value.s == NameOf(patch.value.mode.value)
    ensures patch.Some? && body.customerSlug.Some? ==>
      patch.value.slug.value == if body.customerSlug.value.JString? then Some(body.customerSlug.value.s) else None
  {
    if body.NotRecord? { return None; }
    forall s, mode ensures ModeNamed(s) == Some(mode) <==> s == NameOf(mode) { NamedIff(s, mode); }
    var built := Patch(None, None);
    if body.mode.Some? {
      var mode := body.mode.value;
      if !mode.JString? || ModeNamed(mode.s).None? { return None; }
      built := built.(mode := ModeNamed(mode.s));
    }
    if body.customerSlug.Some? {
      var slug := body.customerSlug.value;
      if slug.JNullValue? {
        built := built.(slug := Some(None));
      } else if slug.JString? && IsSlug(slug.s) && |slug.s| <= MAX_SLUG_CHARS {
        built := built.(slug := Some(Some(slug.s)));
      } else {
        return None;
      }
    }
    return if built.mode.None? && built.slug.None? then None else Some(built);
  }

  /* -------------------------------------------------------------------------- the writers -- */

  /** What Slack says of a channel. */
  datatype Info = Info(id: ChannelId, name: Text)

  /** The moves others make during the n-th await. */
  type World = nat -> seq<Move>

  function Ids(listed: seq<Info>): set<ChannelId> {
    set i | 0 <= i < |listed| :: listed[i].id
  }

  lemma IdsSnoc(listed: seq<Info>, i: nat)
    requires i < |listed|
    ensures Ids(listed[..i + 1]) == Ids(listed[..i]) + {listed[i].id}
  {
    var a, b := listed[..i], listed[..i + 1];
    forall x | x in Ids(a) ensures x in Ids(b) {
      var k :| 0 <= k < |a| && a[k].id == x;
      assert b[k].id == x;
    }
    assert b[i] == listed[i];
  }

  /** The first row a registrar writes: named as Slack says, its slug derived and unconfirmed, and live. */
  predicate NewRow(lower: Text -> Text, id: ChannelId, name: Text, r: Row) {
    r.name == name && r.slug == Some(DeriveSlug(lower, name, id)) && r.mode == Live && r.source == Derived
  }

  /** The rows a list of channels calls for: each channel live and unconfirmed, under the name it is first listed with. */
  function FirstRows(lower: Text -> Text, listed: seq<Info>): Table
    decreases |listed|
  {
    if listed == [] then map[]
    else
      var earlier, last := FirstRows(lower, listed[..|listed| - 1]), listed[|listed| - 1];
      if last.id in earlier then earlier else earlier[last.id := Row(last.name, Some(DeriveSlug(lower, last.name, last.id)), Live, Derived)]
  }

  /** A sweep without interference: the rows called for beneath those that were there, and the number of new ones. */
  ghost predicate Swept<K, R>(before: map<K, R>, rows: map<K, R>, after: map<K, R>, registered: nat) {
    after == rows + before && registered == |rows.Keys - before.Keys|
  }

  lemma OneMore<K>(before: set<K>, seen: set<K>, id: K)
    requires id !in seen
    ensures |seen + {id} - before| == |seen - before| + if id in before then 0 else 1
  {
    if id in before {
      assert seen + {id} - before == seen - before;
    } else {
      assert seen + {id} - before == (seen - before) + {id};
    }
  }

  /** The merged table, and its new keys, with one more row beneath. */
  lemma Beneath<K, R>(before: map<K, R>, rows: map<K, R>, id: K, r: R)
    requires id !in rows
    ensures id in before ==> rows[id := r] + before == rows + before
    ensures id !in before ==> rows[id := r] + before == (rows + before)[id := r]
  {
  }

  lemma KeysBeneath<K, R>(before: map<K, R>, rows: map<K, R>, id: K, r: R)
    requires id !in rows
    ensures |rows[id := r].Keys - before.Keys| == |rows.Keys - before.Keys| + if id in before then 0 else 1
  {
    OneMore(before.Keys, rows.Keys, id);
    assert rows[id := r].Keys == rows.Keys + {id};
  }

  lemma SweptNext<K, R>(before: map<K, R>, rows: map<K, R>, after: map<K, R>, registered: nat, id: K, r: R)
    requires Swept(before, rows, after, registered)
    ensures var more := if id in rows then rows else rows[id := r];
      if id in after then Swept(before, more, after, registered) else Swept(before, more, after[id := r], registered + 1)
  {
    if id !in rows {
      Beneath(before, rows, id, r);
      KeysBeneath(before, rows, id, r);
    }
  }

  /** One more listed channel: left alone if it has a row, and registered if not. */
  lemma SweptOne(lower: Text -> Text, before: Table, listed: seq<Info>, i: nat, t: Table, registered: nat)
    requires i < |listed| && Swept(before, FirstRows(lower, listed[..i]), t, registered)
    ensures var id, more := listed[i].id, FirstRows(lower, listed[..i + 1]);
      if id in t then Swept(before, more, t, registered)
      else Swept(before, more, t[id := Registered(lower, id, listed[i].name)], registered + 1)
  {
    assert listed[..i + 1][..i] == listed[..i];
    SweptNext(before, FirstRows(lower, listed[..i]), t, registered, listed[i].id, Registered(lower, listed[i].id, listed[i].name));
  }

  class Registry {
    const lower: Text -> Text
    const start: Table
    var rows: Table
    ghost var history: seq<Move>

    constructor (lower: Text -> Text, start: Table)
      ensures this.lower == lower && this.start == rows == start && history == []
    {
      this.lower, this.start := lower, start;
      rows, history := start, [];
    }

    /** The table is where the statements since it was opened lead. */
    ghost predicate Valid()
      reads this
    {
      rows == Run(lower, start, history)
    }

    method Await(others: seq<Move>)
      requires Valid()
      modifies this
      ensures Valid() && history == old(history) + others
      ensures rows == Run(lower, old(rows), others) && old(rows).Keys <= rows.Keys
    {
      RunConcat(lower, start, history, others);
      RowsStay(lower, rows, others);
      rows, history := Run(lower, rows, others), history + others;
    }

    method GetChannelPolicy(id: ChannelId) returns (p: Policy)
      ensures p == PolicyOf(rows, id) && (p.known <==> id in rows)
      ensures id in rows ==> p.row == rows[id]
      ensures id !in rows ==> p.row.mode == Observe && p.row.slug == None && !IsTenantKeyTrusted(p)
    {
      if id !in rows { return Policy(Row(id, None, Observe, Derived), false); }
      return Policy(rows[id], true);
    }

    /** INSERT .. ON CONFLICT DO NOTHING: the row that won is the one that stays. */
    method InsertChannel(id: ChannelId, name: Text)
      requires Valid()
      modifies this
      ensures Valid() && history == old(history) + [Insert(id, name)]
      ensures rows == if id in old(rows) then old(rows) else old(rows)[id := Registered(lower, id, name)]
    {
      RunConcat(lower, start, history, [Insert(id, name)]);
      RunOne(lower, rows, Insert(id, name));
      if id !in rows {
        var slug := DeriveSlug(lower, name, id);
        rows := rows[id := Row(name, Some(slug), Live, Derived)];
      }
      history := history + [Insert(id, name)];
    }

    /**
     Registration on the ingest path, with other writers at every await: it
     answers the row in the table, and none only when Slack could not identify
     the channel or named another.
     */
    method RegisterChannel(id: ChannelId, info: Option<Info>, w: World) returns (r: Option<Policy>)
      requires Valid()
      modifies this
      ensures Valid() && old(history) <= history
      ensures r.Some? ==> r.value == PolicyOf(rows, id) && r.value.known
      ensures info.Some? ==> (r.Some? <==> id in rows) && (info.value.id == id ==> r.Some?)
      ensures w(0) == [] && w(1) == [] && w(2) == [] && (id in old(rows) || info.None? || info.value.id in old(rows)) ==> rows == old(rows)
      ensures w(0) == [] && w(1) == [] && w(2) == [] && id !in old(rows) && info.Some? && info.value.id !in old(rows) ==>
        && info.value.id in rows && NewRow(lower, info.value.id, info.value.name, rows[info.value.id])
        && rows == old(rows)[info.value.id := rows[info.value.id]]
    {
      Await(w(0));
      var existing := GetChannelPolicy(id);
      if existing.known { return Some(existing); }
      Await(w(1));
      if info.None? { return None; }
      InsertChannel(info.value.id, info.value.name);
      Await(w(2));
      var registered := GetChannelPolicy(id);
      return if registered.known then Some(registered) else None;
    }

    /** One turn of the sweep. */
    method RegisterUnknown(channel: Info, w: World, n: nat) returns (added: bool)
      requires Valid()
      modifies this
      ensures Valid() && old(history) <= history && old(rows).Keys + {channel.id} <= rows.Keys
      ensures history == old(history) + w(n) + if added then w(n + 1) + [Insert(channel.id, channel.name)] else []
      ensures w(n) == [] && w(n + 1) == [] ==>
        && added == (channel.id !in old(rows))
        && rows == if channel.id in old(rows) then old(rows) else old(rows)[channel.id := Registered(lower, channel.id, channel.name)]
    {
      Await(w(n));
      var policy := GetChannelPolicy(channel.id);
      if policy.known { return false; }
      Await(w(n + 1));
      InsertChannel(channel.id, channel.name);
      return true;
    }

    /**
     The sweep, with other writers at every await: every listed channel ends up
     with a row, and alone it registers each new channel once.
     */
    method SweepChannelMembership(listed: seq<Info>, w: World) returns (registered: nat)
      requires Valid()
      modifies this
      ensures Valid() && old(history) <= history
      ensures Ids(listed) + old(rows).Keys <= rows.Keys && registered <= |listed|
      ensures (forall n: nat :: w(n) == []) ==> Swept(old(rows), FirstRows(lower, listed), rows, registered)
    {
      registered := 0;
      ghost var alone, before := forall n: nat :: w(n) == [], rows;
      for i := 0 to |listed|
        invariant Valid() && old(history) <= history && registered <= i
        invariant Ids(listed[..i]) + before.Keys <= rows.Keys
        invariant alone ==> Swept(before, FirstRows(lower, listed[..i]), rows, registered)
      {
        IdsSnoc(listed, i);
        if alone { SweptOne(lower, before, listed, i, rows, registered); }
        var added := RegisterUnknown(listed[i], w, 2 * i);
        if added { registered := registered + 1; }
      }
      assert listed[..|listed|] == listed;
    }

    /** The one UPDATE: the slug moves with its provenance, and a channel without a row is not created. */
    method PatchChannel(id: ChannelId, patch: Patch) returns (updated: Option<Row>)
      requires Valid() && IsPatch(patch)
      modifies this
      ensures Valid() && history == old(history) + [Update(id, patch)]
      ensures updated.Some? <==> id in old(rows)
      ensures updated.None? ==> rows == old(rows)
      ensures updated.Some? ==> rows == old(rows)[id := updated.value]
      ensures updated.Some? && patch.slug.Some? ==> (IsTenantKeyTrusted(PolicyOf(rows, id)) <==> patch.slug.value.Some?)
      ensures updated.Some? && patch.slug.Some? ==> updated.value.slug == patch.slug.value
      ensures updated.Some? && patch.slug.None? ==> updated.value.slug == old(rows)[id].slug && updated.value.source == old(rows)[id].source
      ensures updated.Some? ==> updated.value.name == old(rows)[id].name
      ensures updated.Some? ==> updated.value.mode == if patch.mode.Some? then patch.mode.value else old(rows)[id].mode
    {
      RunConcat(lower, start, history, [Update(id, patch)]);
      RunOne(lower, rows, Update(id, patch));
      history := history + [Update(id, patch)];
      if id !in rows { return None; }
      var row := rows[id];
      if patch.mode.Some? { row := row.(mode := patch.mode.value); }
      if patch.slug.Some? {
        row := row.(slug := patch.slug.value, source := if patch.slug.value.None? then Derived else Human);
      }
      rows := rows[id := row];
      return Some(row);
    }
  }
}

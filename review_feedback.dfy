/** The feedback review script: `list` shows the newest unaddressed rows of
    the feedback table, `address <id>` marks one row addressed (an id of
    fewer than 36 characters is resolved as a case-insensitive prefix among
    the unaddressed rows), and `stats` counts thumbs up and down per entity,
    most thumbs down first. The table is held in memory; the Supabase
    client's queries become operations on it. */
module ReviewFeedback {
  import opened Js
  import opened JsString
  import opened PgPattern
  import ArraySort

  /** A row of the feedback table. */
  datatype FeedbackRow = FeedbackRow(
    id: string,
    entityType: string,
    entityId: string,
    contextId: Option<string>,
    rating: bool,
    feedbackText: Option<string>,
    userRole: Option<string>,
    userId: Option<string>,
    addressedAt: Option<string>,
    createdAt: string)

  /** The table to join for a display name: its select expression, the key
      the joined record appears under, and the column to show. */
  datatype EntityJoin = EntityJoin(select: string, table: string, column: string)

  datatype FeedbackConfig = FeedbackConfig(tableName: string, entityJoin: Option<EntityJoin>, listLimit: nat)

  /** The configuration the script ships with: no join, fifty rows. */
  const CONFIG := FeedbackConfig("cb_feedback", None, 50)

  /** The full length of a UUID, below which an id is a prefix. */
  const FULL_ID_LENGTH := 36

  predicate Unaddressed(r: FeedbackRow)
  {
    r.addressedAt.None?
  }

  /** `.is('addressed_at', null)`: the unaddressed rows, in table order. */
  function UnaddressedRows(rows: seq<FeedbackRow>): (r: seq<FeedbackRow>)
    ensures |r| <= |rows|
    ensures forall x :: x in r <==> x in rows && Unaddressed(x)
  {
    if rows == [] then []
    else
      var rest := UnaddressedRows(rows[..|rows| - 1]);
      var last := rows[|rows| - 1];
      assert rows == rows[..|rows| - 1] + [last];
      if Unaddressed(last) then rest + [last] else rest
  }

  // ---- list ----

  /** `.order('created_at', { ascending: false })` */
  function NewestFirst(): (FeedbackRow, FeedbackRow) -> int
  {
    (a: FeedbackRow, b: FeedbackRow) => LocaleCompare(b.createdAt, a.createdAt)
  }

  lemma NewestFirstConsistent()
    ensures ArraySort.Consistent(NewestFirst())
  {
    var cmp := NewestFirst();
    forall a, b ensures cmp(a, b) <= 0 || cmp(b, a) <= 0 {
      LocaleCompareAntisymmetric(a.createdAt, b.createdAt);
    }
    forall a, b, c | cmp(a, b) <= 0 && cmp(b, c) <= 0 ensures cmp(a, c) <= 0 {
      LocaleCompareTransitive(c.createdAt, b.createdAt, a.createdAt);
    }
  }

  /** The rows `list` shows: at most `listLimit` unaddressed rows, newest
      first, and no unaddressed row left out is newer than one shown. */
  function ListedRows(rows: seq<FeedbackRow>, config: FeedbackConfig): (r: seq<FeedbackRow>)
    ensures |r| == if |UnaddressedRows(rows)| <= config.listLimit then |UnaddressedRows(rows)| else config.listLimit
    ensures forall x :: x in r ==> x in rows && Unaddressed(x)
    ensures forall i, j :: 0 <= i < j < |r| ==> LocaleCompare(r[j].createdAt, r[i].createdAt) <= 0
    ensures r <= ArraySort.SortWith(UnaddressedRows(rows), NewestFirst())
  {
    var all := UnaddressedRows(rows);
    var sorted := ArraySort.SortWith(all, NewestFirst());
    NewestFirstConsistent();
    ArraySort.SortWithSorted(all, NewestFirst());
    assert |sorted| == |multiset(sorted)| == |all|;
    forall x | x in sorted ensures x in all {
      assert x in multiset(sorted);
    }
    Take(sorted, config.listLimit)
  }

  /** Every unaddressed row left off the list is no newer than each row on it. */
  lemma ListedRowsAreTheNewest(rows: seq<FeedbackRow>, config: FeedbackConfig)
    ensures var sorted := ArraySort.SortWith(UnaddressedRows(rows), NewestFirst());
      var shown := ListedRows(rows, config);
      forall i, j :: 0 <= i < |shown| <= j < |sorted| ==> LocaleCompare(sorted[j].createdAt, shown[i].createdAt) <= 0
  {
    var sorted := ArraySort.SortWith(UnaddressedRows(rows), NewestFirst());
    NewestFirstConsistent();
    ArraySort.SortWithSorted(UnaddressedRows(rows), NewestFirst());
    var shown := ListedRows(rows, config);
    forall i, j | 0 <= i < |shown| <= j < |sorted| ensures LocaleCompare(sorted[j].createdAt, shown[i].createdAt) <= 0 {
      assert shown[i] == sorted[i];
      assert NewestFirst()(sorted[i], sorted[j]) <= 0;
    }
  }

  const THUMBS_UP: char := '\U{1F44D}'
  const THUMBS_DOWN: char := '\U{1F44E}'

  function RatingMark(rating: bool): (c: char)
    ensures c == THUMBS_UP <==> rating
  {
    if rating then THUMBS_UP else THUMBS_DOWN
  }

  /** The entity's display name: with a join configured, the joined record's
      column (`joined` is that value, None when the record or column is
      missing or null), falling back to the entity id. */
  function EntityLabel(row: FeedbackRow, config: FeedbackConfig, joined: Option<string>): (name: string)
    ensures config.entityJoin.None? || joined.None? ==> name == row.entityId
    ensures config.entityJoin.Some? && joined.Some? ==> name == joined.value
  {
    if config.entityJoin.Some? && joined.Some? then joined.value else row.entityId
  }

  /** ` [role]` when a role is present. */
  function RolePart(row: FeedbackRow): (s: string)
    ensures s == "" <==> !Present(row.userRole)
    ensures Present(row.userRole) ==> s == " [" + row.userRole.value + "]"
  {
    if Present(row.userRole) then " [" + row.userRole.value + "]" else ""
  }

  /** ` — "text"` when text is present. */
  function TextPart(row: FeedbackRow): (s: string)
    ensures s == "" <==> !Present(row.feedbackText)
    ensures Present(row.feedbackText) ==> s == " \U{2014} \"" + row.feedbackText.value + "\""
  {
    if Present(row.feedbackText) then " \U{2014} \"" + row.feedbackText.value + "\"" else ""
  }

  /** The start of a list line, up to the entity label. */
  function LineHead(row: FeedbackRow, name: string): string
  {
    "  " + Take(row.id, 8) + "  " + [RatingMark(row.rating)] + "  " + row.entityType + ":" + name
  }

  /** One line of `list`. `date` is the row's creation date as the locale
      prints it. */
  function ListLine(row: FeedbackRow, name: string, date: string): (line: string)
    ensures var head := LineHead(row, name);
      && |line| == |head| + |RolePart(row)| + |TextPart(row)| + |date| + 4
      && line[..|head|] == head
      && line[|line| - |date| - 4..] == "  (" + date + ")"
  {
    var head := LineHead(row, name);
    var line := head + RolePart(row) + TextPart(row) + "  (" + date + ")";
    assert line[..|head|] == head;
    line
  }

  /** A line starts with the first eight characters of the id (all of a
      shorter one), and its thumb is up exactly when the rating is. */
  lemma ListLineShowsIdAndRating(row: FeedbackRow, name: string, date: string)
    ensures var line := ListLine(row, name, date);
      var k := if |row.id| <= 8 then |row.id| else 8;
      && line[2..2 + k] == row.id[..k]
      && (line[4 + k] == THUMBS_UP <==> row.rating)
  {
    var line := ListLine(row, name, date);
    var head := LineHead(row, name);
    var k := if |row.id| <= 8 then |row.id| else 8;
    assert head[2..2 + k] == Take(row.id, 8);
    assert head[4 + k] == RatingMark(row.rating);
    assert line[..|head|] == head;
    assert line[2..2 + k] == head[2..2 + k];
    assert line[4 + k] == head[4 + k];
  }

  /** After the entity label a line shows the role part, then the text
      part, then the date: the role comes before the text. */
  lemma ListLineShowsRoleThenText(row: FeedbackRow, name: string, date: string)
    ensures var line := ListLine(row, name, date);
      var h := |LineHead(row, name)|;
      var m := h + |RolePart(row)|;
      && line[h..m] == RolePart(row)
      && line[m..m + |TextPart(row)|] == TextPart(row)
  {
    var head := LineHead(row, name);
    var tail := "  (" + date + ")";
    var line := ListLine(row, name, date);
    assert line == head + RolePart(row) + TextPart(row) + tail;
    var h := |head|;
    var m := h + |RolePart(row)|;
    assert line[h..m] == RolePart(row);
    assert line[m..m + |TextPart(row)|] == TextPart(row);
  }

  /** The shipped configuration labels every row with its entity id. */
  lemma ShippedConfigShowsEntityId(row: FeedbackRow, joined: Option<string>)
    ensures EntityLabel(row, CONFIG, joined) == row.entityId
  {
  }

  // ---- address ----

  /** How a short id resolves. */
  datatype Resolution = NoMatch | Ambiguous(count: nat) | Resolved(id: string)

  /** `.ilike('id', prefix + '%').is('addressed_at', null)`: the ids of the
      unaddressed rows the prefix matches, in table order. */
  function MatchingIds(rows: seq<FeedbackRow>, prefix: string): (ids: seq<string>)
    ensures |ids| <= |rows|
    ensures forall id :: id in ids <==>
      exists r :: r in rows && Unaddressed(r) && ILike(r.id, prefix + "%") && r.id == id
  {
    if rows == [] then []
    else
      var rest := MatchingIds(rows[..|rows| - 1], prefix);
      var last := rows[|rows| - 1];
      assert rows == rows[..|rows| - 1] + [last];
      if Unaddressed(last) && ILike(last.id, prefix + "%") then rest + [last.id] else rest
  }

  /** The id `addressFeedback` goes on to update: a full-length id as given,
      a shorter one only when exactly one unaddressed row matches it. */
  function Resolve(rows: seq<FeedbackRow>, idPrefix: string): (r: Resolution)
    ensures |idPrefix| >= FULL_ID_LENGTH ==> r == Resolved(idPrefix)
    ensures |idPrefix| < FULL_ID_LENGTH ==>
      var ids := MatchingIds(rows, idPrefix);
      && (r == NoMatch <==> ids == [])
      && (r.Ambiguous? <==> |ids| > 1)
      && (r.Ambiguous? ==> r.count == |ids|)
      && (r.Resolved? ==> ids == [r.id])
  {
    if |idPrefix| >= FULL_ID_LENGTH then Resolved(idPrefix)
    else
      var ids := MatchingIds(rows, idPrefix);
      if |ids| == 0 then NoMatch
      else if |ids| > 1 then Ambiguous(|ids|)
      else Resolved(ids[0])
  }

  /** A short id made of ordinary characters resolves to the one unaddressed
      row whose id starts with it (ignoring case), if there is exactly one. */
  lemma ShortIdResolvesToTheMatchingRow(rows: seq<FeedbackRow>, idPrefix: string, k: nat)
    requires |idPrefix| < FULL_ID_LENGTH
    requires forall i :: 0 <= i < |idPrefix| ==> Plain(idPrefix[i])
    requires k < |rows| && Unaddressed(rows[k]) && SameStartIgnoringCase(rows[k].id, idPrefix)
    requires forall j :: 0 <= j < |rows| && j != k && Unaddressed(rows[j]) ==> !SameStartIgnoringCase(rows[j].id, idPrefix)
    ensures Resolve(rows, idPrefix) == Resolved(rows[k].id)
  {
    OnlyRowKMatches(rows, idPrefix, k);
  }

  /** A short id made of ordinary characters that no unaddressed row's id
      starts with resolves to nothing. */
  lemma ShortIdWithoutMatchResolvesToNothing(rows: seq<FeedbackRow>, idPrefix: string)
    requires |idPrefix| < FULL_ID_LENGTH
    requires forall i :: 0 <= i < |idPrefix| ==> Plain(idPrefix[i])
    requires forall j :: 0 <= j < |rows| && Unaddressed(rows[j]) ==> !SameStartIgnoringCase(rows[j].id, idPrefix)
    ensures Resolve(rows, idPrefix) == NoMatch
  {
    NothingMatches(rows, idPrefix);
  }

  lemma {:induction false} NothingMatches(rows: seq<FeedbackRow>, idPrefix: string)
    requires forall i :: 0 <= i < |idPrefix| ==> Plain(idPrefix[i])
    requires forall j :: 0 <= j < |rows| && Unaddressed(rows[j]) ==> !SameStartIgnoringCase(rows[j].id, idPrefix)
    ensures MatchingIds(rows, idPrefix) == []
  {
    if rows != [] {
      var init := rows[..|rows| - 1];
      var last := rows[|rows| - 1];
      assert forall j :: 0 <= j < |init| ==> init[j] == rows[j];
      NothingMatches(init, idPrefix);
      PrefixPatternMatchesPrefixes(last.id, idPrefix);
    }
  }

  lemma {:induction false} OnlyRowKMatches(rows: seq<FeedbackRow>, idPrefix: string, k: nat)
    requires forall i :: 0 <= i < |idPrefix| ==> Plain(idPrefix[i])
    requires k < |rows| && Unaddressed(rows[k]) && SameStartIgnoringCase(rows[k].id, idPrefix)
    requires forall j :: 0 <= j < |rows| && j != k && Unaddressed(rows[j]) ==> !SameStartIgnoringCase(rows[j].id, idPrefix)
    ensures MatchingIds(rows, idPrefix) == [rows[k].id]
  {
    var init := rows[..|rows| - 1];
    var last := rows[|rows| - 1];
    assert forall j :: 0 <= j < |init| ==> init[j] == rows[j];
    PrefixPatternMatchesPrefixes(last.id, idPrefix);
    if k == |rows| - 1 {
      NothingMatches(init, idPrefix);
    } else {
      OnlyRowKMatches(init, idPrefix, k);
    }
  }

  /** `update({ addressed_at: now }).eq('id', id)`: every row with that id
      gets the timestamp; nothing else changes. */
  function MarkAddressed(rows: seq<FeedbackRow>, id: string, now: string): (r: seq<FeedbackRow>)
    ensures |r| == |rows|
    ensures forall i :: 0 <= i < |rows| ==>
      r[i] == if rows[i].id == id then rows[i].(addressedAt := Some(now)) else rows[i]
  {
    if rows == [] then []
    else
      [if rows[0].id == id then rows[0].(addressedAt := Some(now)) else rows[0]]
        + MarkAddressed(rows[1..], id, now)
  }

  // ---- stats ----

  datatype Counts = Counts(up: nat, down: nat)

  datatype Entry = Entry(entity: string, counts: Counts)

  /** The key rows are counted under. */
  function EntityKey(row: FeedbackRow): string
  {
    row.entityType + ":" + row.entityId
  }

  /** The counts after one more row: its thumb adds to up or to down. */
  function Bump(c: Counts, rating: bool): Counts
  {
    if rating then c.(up := c.up + 1) else c.(down := c.down + 1)
  }

  /** The keys in order of first appearance, as a `Map` iterates them. */
  function KeysInOrder(data: seq<FeedbackRow>): seq<string>
  {
    if data == [] then []
    else
      var keys := KeysInOrder(data[..|data| - 1]);
      var k := EntityKey(data[|data| - 1]);
      if k in keys then keys else keys + [k]
  }

  /** The map the loop builds. */
  function Tally(data: seq<FeedbackRow>): map<string, Counts>
  {
    if data == [] then map[]
    else
      var m := Tally(data[..|data| - 1]);
      var last := data[|data| - 1];
      var k := EntityKey(last);
      m[k := Bump(if k in m then m[k] else Counts(0, 0), last.rating)]
  }

  /** Rows under `key` with thumb `rating`: the reference count. */
  function CountOf(data: seq<FeedbackRow>, key: string, rating: bool): nat
  {
    if data == [] then 0
    else CountOf(data[..|data| - 1], key, rating)
         + (if EntityKey(data[|data| - 1]) == key && data[|data| - 1].rating == rating then 1 else 0)
  }

  lemma CountOfAppend(init: seq<FeedbackRow>, last: FeedbackRow, key: string, rating: bool)
    ensures CountOf(init + [last], key, rating)
      == CountOf(init, key, rating) + (if EntityKey(last) == key && last.rating == rating then 1 else 0)
  {
    assert (init + [last])[..|init|] == init;
  }

  /** The map has a key exactly for each key listed, and each is the key of
      some row. */
  lemma {:induction false} TallyDomain(data: seq<FeedbackRow>)
    ensures forall k :: k in Tally(data) <==> k in KeysInOrder(data)
    ensures forall k :: k in KeysInOrder(data) ==> exists i :: 0 <= i < |data| && EntityKey(data[i]) == k
    ensures forall i :: 0 <= i < |data| ==> EntityKey(data[i]) in KeysInOrder(data)
  {
    if data != [] {
      var init := data[..|data| - 1];
      TallyDomain(init);
      forall k | k in KeysInOrder(data) ensures exists i :: 0 <= i < |data| && EntityKey(data[i]) == k {
        if k in KeysInOrder(init) {
          var i :| 0 <= i < |init| && EntityKey(init[i]) == k;
          assert data[i] == init[i];
        } else {
          assert EntityKey(data[|data| - 1]) == k;
        }
      }
      forall i | 0 <= i < |data| ensures EntityKey(data[i]) in KeysInOrder(data) {
        if i < |init| {
          assert data[i] == init[i];
        }
      }
    }
  }

  /** Each entry of the map holds the reference counts for its key. */
  lemma {:induction false} TallyCounts(data: seq<FeedbackRow>)
    ensures forall k :: k in Tally(data) ==> Tally(data)[k] == Counts(CountOf(data, k, true), CountOf(data, k, false))
  {
    if data != [] {
      var init := data[..|data| - 1];
      var last := data[|data| - 1];
      TallyCounts(init);
      TallyDomain(init);
      assert data == init + [last];
      forall k | k in Tally(data) ensures Tally(data)[k] == Counts(CountOf(data, k, true), CountOf(data, k, false)) {
        CountOfAppend(init, last, k, true);
        CountOfAppend(init, last, k, false);
        if k != EntityKey(last) {
          assert k in Tally(init);
        } else if k !in Tally(init) {
          NoRowsUnderNewKey(init, k, true);
          NoRowsUnderNewKey(init, k, false);
        }
      }
    }
  }

  lemma NoRowsUnderNewKey(data: seq<FeedbackRow>, k: string, rating: bool)
    requires k !in KeysInOrder(data)
    ensures CountOf(data, k, rating) == 0
  {
    TallyDomain(data);
    NoRowsCountZero(data, k, rating);
  }

  lemma {:induction false} NoRowsCountZero(data: seq<FeedbackRow>, k: string, rating: bool)
    requires forall i :: 0 <= i < |data| ==> EntityKey(data[i]) != k
    ensures CountOf(data, k, rating) == 0
  {
    if data != [] {
      var init := data[..|data| - 1];
      assert forall i :: 0 <= i < |init| ==> init[i] == data[i];
      NoRowsCountZero(init, k, rating);
    }
  }

  function EntriesOf(keys: seq<string>, m: map<string, Counts>): (es: seq<Entry>)
    requires forall k :: k in keys ==> k in m
    ensures |es| == |keys|
    ensures forall i :: 0 <= i < |keys| ==> es[i] == Entry(keys[i], m[keys[i]])
  {
    if keys == [] then [] else [Entry(keys[0], m[keys[0]])] + EntriesOf(keys[1..], m)
  }

  /** `[...byEntity.entries()]` once every row is counted: one entry per
      key in order of first appearance, holding that key's counts. */
  function Entries(data: seq<FeedbackRow>): (es: seq<Entry>)
    ensures |es| == |KeysInOrder(data)|
    ensures forall i :: 0 <= i < |es| ==>
      es[i] == Entry(KeysInOrder(data)[i], Counts(CountOf(data, KeysInOrder(data)[i], true),
                                                   CountOf(data, KeysInOrder(data)[i], false)))
  {
    TallyDomain(data);
    TallyCounts(data);
    EntriesOf(KeysInOrder(data), Tally(data))
  }

  /** `([, a], [, b]) => b.down - a.down` */
  function MostDownFirst(): (Entry, Entry) -> int
  {
    (a: Entry, b: Entry) => b.counts.down - a.counts.down
  }

  lemma MostDownFirstConsistent()
    ensures ArraySort.Consistent(MostDownFirst())
  {
  }

  /** Each entity appears once in the stats. */
  lemma {:induction false} KeysAreDistinct(data: seq<FeedbackRow>)
    ensures forall i, j :: 0 <= i < j < |KeysInOrder(data)| ==> KeysInOrder(data)[i] != KeysInOrder(data)[j]
  {
    if data != [] {
      KeysAreDistinct(data[..|data| - 1]);
    }
  }

  function Weight(e: Entry): nat
  {
    e.counts.up + e.counts.down
  }

  function SumCounts(es: seq<Entry>): nat
  {
    if es == [] then 0 else Weight(es[0]) + SumCounts(es[1..])
  }

  /** Summed over the entities, up and down count every row exactly once. */
  lemma {:induction false} StatsCountEveryRowOnce(data: seq<FeedbackRow>)
    ensures SumCounts(Entries(data)) == |data|
  {
    if data != [] {
      var init := data[..|data| - 1];
      var last := data[|data| - 1];
      StatsCountEveryRowOnce(init);
      assert init + [last] == data;
      SumAfterOneMoreRow(init, last);
    }
  }

  lemma SumAfterOneMoreRow(init: seq<FeedbackRow>, last: FeedbackRow)
    ensures SumCounts(Entries(init + [last])) == SumCounts(Entries(init)) + 1
  {
    var data := init + [last];
    assert data[..|data| - 1] == init;
    var keys := KeysInOrder(init);
    var k := EntityKey(last);
    KeysAreDistinct(init);
    WeightsAfterOneMoreRow(init, last);
    if k in keys {
      var p :| 0 <= p < |keys| && keys[p] == k;
      SumShiftsAt(Entries(init), Entries(data), p);
    } else {
      NewKeyWeighsOne(init, last);
      SumAppend(Entries(init), Entries(data));
    }
  }

  /** Each earlier entry gains one exactly when it is the new row's key. */
  lemma WeightsAfterOneMoreRow(init: seq<FeedbackRow>, last: FeedbackRow)
    ensures var a := Entries(init);
      var b := Entries(init + [last]);
      |a| <= |b| &&
      forall i :: 0 <= i < |a| ==> Weight(b[i]) == Weight(a[i]) + (if a[i].entity == EntityKey(last) then 1 else 0)
  {
    var data := init + [last];
    assert data[..|data| - 1] == init;
    var a := Entries(init);
    var b := Entries(data);
    forall i | 0 <= i < |a|
      ensures Weight(b[i]) == Weight(a[i]) + (if a[i].entity == EntityKey(last) then 1 else 0)
    {
      CountOfAppend(init, last, a[i].entity, true);
      CountOfAppend(init, last, a[i].entity, false);
    }
  }

  /** A row under a new key adds an entry at the end with that one row. */
  lemma NewKeyWeighsOne(init: seq<FeedbackRow>, last: FeedbackRow)
    requires EntityKey(last) !in KeysInOrder(init)
    ensures |Entries(init + [last])| == |Entries(init)| + 1
    ensures Weight(Entries(init + [last])[|Entries(init)|]) == 1
  {
    var data := init + [last];
    var k := EntityKey(last);
    assert data[..|data| - 1] == init;
    NoRowsUnderNewKey(init, k, true);
    NoRowsUnderNewKey(init, k, false);
    CountOfAppend(init, last, k, true);
    CountOfAppend(init, last, k, false);
  }

  /** Two lists that differ only at `p`, by one more row there. */
  lemma {:induction false} SumShiftsAt(a: seq<Entry>, b: seq<Entry>, p: nat)
    requires |a| == |b| && p < |a|
    requires Weight(b[p]) == Weight(a[p]) + 1
    requires forall i :: 0 <= i < |a| && i != p ==> Weight(b[i]) == Weight(a[i])
    ensures SumCounts(b) == SumCounts(a) + 1
  {
    if p > 0 {
      SumShiftsAt(a[1..], b[1..], p - 1);
    } else {
      SumSame(a[1..], b[1..]);
    }
  }

  lemma {:induction false} SumSame(a: seq<Entry>, b: seq<Entry>)
    requires |a| == |b|
    requires forall i :: 0 <= i < |a| ==> Weight(b[i]) == Weight(a[i])
    ensures SumCounts(b) == SumCounts(a)
  {
    if a != [] {
      SumSame(a[1..], b[1..]);
    }
  }

  /** A list with one entry of weight one appended. */
  lemma {:induction false} SumAppend(a: seq<Entry>, b: seq<Entry>)
    requires |b| == |a| + 1 && Weight(b[|a|]) == 1
    requires forall i :: 0 <= i < |a| ==> Weight(b[i]) == Weight(a[i])
    ensures SumCounts(b) == SumCounts(a) + 1
  {
    if a == [] {
      assert b[1..] == [];
    } else {
      SumAppend(a[1..], b[1..]);
    }
  }

  /** `listUnaddressed`'s lines for the rows shown; `joined` gives a row's
      joined display value and `localDate` the locale's date. */
  function ListLines(shown: seq<FeedbackRow>, config: FeedbackConfig, joined: FeedbackRow -> Option<string>,
                     localDate: string -> string): (lines: seq<string>)
    ensures |lines| == |shown|
    ensures forall i :: 0 <= i < |shown| ==>
      lines[i] == ListLine(shown[i], EntityLabel(shown[i], config, joined(shown[i])), localDate(shown[i].createdAt))
  {
    if shown == [] then []
    else [ListLine(shown[0], EntityLabel(shown[0], config, joined(shown[0])), localDate(shown[0].createdAt))]
         + ListLines(shown[1..], config, joined, localDate)
  }

  /** One more row: its key's counts are bumped, and a new key joins the end. */
  lemma TallyStep(data: seq<FeedbackRow>, i: nat)
    requires i < |data|
    ensures var k := EntityKey(data[i]);
      var m := Tally(data[..i]);
      && Tally(data[..i + 1]) == m[k := Bump(if k in m then m[k] else Counts(0, 0), data[i].rating)]
      && KeysInOrder(data[..i + 1]) == if k in m then KeysInOrder(data[..i]) else KeysInOrder(data[..i]) + [k]
  {
    assert data[..i + 1][..i] == data[..i];
    TallyDomain(data[..i]);
  }

  /** The counting loop of `showStats`: the map of counts per key, and its
      keys in insertion order. */
  method CountByEntity(data: seq<FeedbackRow>) returns (byEntity: map<string, Counts>, keys: seq<string>)
    ensures byEntity == Tally(data) && keys == KeysInOrder(data)
  {
    byEntity := map[];
    keys := [];
    for i := 0 to |data|
      invariant byEntity == Tally(data[..i])
      invariant keys == KeysInOrder(data[..i])
    {
      var row := data[i];
      TallyStep(data, i);
      var key := EntityKey(row);
      var existing := if key in byEntity then byEntity[key] else Counts(0, 0);
      if row.rating {
        existing := existing.(up := existing.up + 1);
      } else {
        existing := existing.(down := existing.down + 1);
      }
      if key !in byEntity {
        keys := keys + [key];
      }
      byEntity := byEntity[key := existing];
    }
    assert data[..|data|] == data;
  }

  /** The in-memory feedback table the script queries and updates. */
  class FeedbackTable {
    var rows: seq<FeedbackRow>

    constructor (initial: seq<FeedbackRow>)
      ensures rows == initial
    {
      rows := initial;
    }

    /** `showStats`: one entry per entity with unaddressed feedback, its
        thumbs counted from those rows, most thumbs down first and ties in
        order of first appearance. */
    method ShowStats() returns (sorted: seq<Entry>)
      ensures sorted == ArraySort.SortWith(Entries(UnaddressedRows(rows)), MostDownFirst())
      ensures multiset(sorted) == multiset(Entries(UnaddressedRows(rows)))
      ensures ArraySort.SortedBy(sorted, MostDownFirst())
    {
      var data := UnaddressedRows(rows);
      var byEntity, keys := CountByEntity(data);
      TallyDomain(data);
      var entries := EntriesOf(keys, byEntity);
      assert entries == Entries(data);
      MostDownFirstConsistent();
      ArraySort.SortWithSorted(entries, MostDownFirst());
      sorted := ArraySort.SortWith(entries, MostDownFirst());
    }

    /** `addressFeedback`: resolve the id, then stamp every row carrying it.
        An unresolved prefix changes nothing. */
    method AddressFeedback(idPrefix: string, now: string) returns (r: Resolution)
      modifies this
      ensures r == Resolve(old(rows), idPrefix)
      ensures r.Resolved? ==> rows == MarkAddressed(old(rows), r.id, now)
      ensures !r.Resolved? ==> rows == old(rows)
    {
      r := Resolve(rows, idPrefix);
      if r.Resolved? {
        rows := MarkAddressed(rows, r.id, now);
      }
    }
  }

  /** Addressing touches only the rows with the resolved id, and after it no
      row with that id is unaddressed. */
  lemma AddressingStampsOnlyTheResolvedRow(rows: seq<FeedbackRow>, id: string, now: string)
    ensures var after := MarkAddressed(rows, id, now);
      && (forall i :: 0 <= i < |rows| && rows[i].id != id ==> after[i] == rows[i])
      && (forall i :: 0 <= i < |rows| && rows[i].id == id ==> !Unaddressed(after[i]))
      && (forall i :: 0 <= i < |rows| ==> after[i].(addressedAt := rows[i].addressedAt) == rows[i])
  {
  }

  /** Addressed rows play no part: adding one changes neither the list, nor
      the stats, nor how a prefix resolves. */
  lemma AddressedRowsAreIgnored(rows: seq<FeedbackRow>, x: FeedbackRow, idPrefix: string)
    requires !Unaddressed(x)
    ensures UnaddressedRows(rows + [x]) == UnaddressedRows(rows)
    ensures MatchingIds(rows + [x], idPrefix) == MatchingIds(rows, idPrefix)
    ensures Resolve(rows + [x], idPrefix) == Resolve(rows, idPrefix)
  {
    assert (rows + [x])[..|rows + [x]| - 1] == rows;
  }
}

/** Importing a settings file's sources: the guarded upsert and the preview before it. */
module SourceImport {
  import opened Common
  import opened Sources

  type User = string

  /** A row of the sources table, which is keyed by source id alone. */
  datatype Row = Row(owner: User, source: Source)

  type Table = map<SourceKey, Row>

  predicate Owns(table: Table, user: User, id: SourceKey) {
    id in table && table[id].owner == user
  }

  /** The id belongs to somebody else. */
  predicate Foreign(table: Table, user: User, id: SourceKey) {
    id in table && table[id].owner != user
  }

  /** One user's sources by id. */
  function Mine(table: Table, user: User): (mine: map<SourceKey, Source>)
    ensures forall id :: id in mine <==> Owns(table, user, id)
    ensures forall id :: id in mine ==> id in table && mine[id] == table[id].source
  {
    var own := table - (set id | id in table && table[id].owner != user);
    map id | id in own :: own[id].source
  }

  /** What other users commit between the ownership check and the upsert of one source:
      they write and delete rows, but none of the importing user's. */
  datatype Meanwhile = Meanwhile(written: Table, deleted: set<SourceKey>)

  const NOTHING := Meanwhile(map[], {})

  function Others(table: Table, user: User, m: Meanwhile): (after: Table)
    ensures forall id :: id in after <==> Owns(table, user, id) || Foreign(m.written, user, id)
                                          || (id in table && id !in m.deleted)
    ensures forall id :: id in after ==>
              if Foreign(m.written, user, id) && !Owns(table, user, id) then after[id] == m.written[id]
              else id in table && after[id] == table[id]
  {
    (table - (set id | id in m.deleted && Foreign(table, user, id)))
    + (m.written - (set id | id in m.written && (m.written[id].owner == user || Owns(table, user, id))))
  }

  /** The id a source is stored under: a fresh one when the check finds its id taken. */
  function StoredAs(table: Table, user: User, source: Source, fresh': SourceKey): Source {
    if Foreign(table, user, source.id) then source.(id := fresh') else source
  }

  /** `INSERT ... ON CONFLICT(id) DO UPDATE ... WHERE sources.user_id = excluded.user_id`. */
  function Upsert(table: Table, user: User, s: Source): Table {
    if Foreign(table, user, s.id) then table else table[s.id := Row(user, s)]
  }

  /** One source of the file, with the fresh id it would be given and what happens meanwhile. */
  datatype Item = Item(source: Source, spareId: SourceKey, meanwhile: Meanwhile)

  /** The source one item upserts, or none when the guard stops it. */
  function Took(table: Table, user: User, item: Item): (r: seq<Source>)
    ensures |r| <= 1
  {
    var s := StoredAs(table, user, item.source, item.spareId);
    if Foreign(Others(table, user, item.meanwhile), user, s.id) then [] else [s]
  }

  function ImportOne(table: Table, user: User, item: Item): Table {
    Upsert(Others(table, user, item.meanwhile), user, StoredAs(table, user, item.source, item.spareId))
  }

  /** The table after importing `items`, in order. */
  function Imported(table: Table, user: User, items: seq<Item>): Table {
    if items == [] then table
    else
      var n := |items| - 1;
      ImportOne(Imported(table, user, items[..n]), user, items[n])
  }

  /** The upserts that took effect, in order. */
  function Effective(table: Table, user: User, items: seq<Item>): (r: seq<Source>)
    ensures |r| <= |items|
  {
    if items == [] then []
    else
      var n := |items| - 1;
      Effective(table, user, items[..n]) + Took(Imported(table, user, items[..n]), user, items[n])
  }

  /** A map with sources written over it in order, the last of an id staying. */
  function WrittenOver(m: map<SourceKey, Source>, sources: seq<Source>): map<SourceKey, Source> {
    if sources == [] then m
    else
      var n := |sources| - 1;
      WrittenOver(m, sources[..n])[sources[n].id := sources[n]]
  }

  /** `{s.id: s for s in sources}`. */
  function ById(sources: seq<Source>): map<SourceKey, Source> {
    WrittenOver(map[], sources)
  }

  /** The sources table. */
  class SourceStore {
    var rows: Table

    constructor ()
      ensures rows == map[]
    {
      rows := map[];
    }

    /** Returns how many upserts took effect. */
    method ImportSources(user: User, items: seq<Item>) returns (count: nat)
      modifies this
      ensures rows == Imported(old(rows), user, items)
      ensures count == |Effective(old(rows), user, items)|
      ensures Mine(rows, user) == WrittenOver(Mine(old(rows), user), Effective(old(rows), user, items))
      ensures FreshSpares(old(rows), items) && Undisturbed(items) ==>
                count == |items| && AllStored(old(rows), user, items, |items|, rows)
    {
      ImportedMine(rows, user, items);
      if FreshSpares(rows, items) && Undisturbed(items) {
        EveryEntryStored(rows, user, items);
      }
      rows, count := UpsertAll(rows, user, items);
    }

    static method UpsertAll(table: Table, user: User, items: seq<Item>) returns (after: Table, count: nat)
      ensures after == Imported(table, user, items)
      ensures count == |Effective(table, user, items)|
    {
      after, count := table, 0;
      for i := 0 to |items|
        invariant after == Imported(table, user, items[..i])
        invariant count == |Effective(table, user, items[..i])|
      {
        var rowcount;
        after, rowcount := UpsertOne(after, user, items[i]);
        count := count + rowcount;
        assert items[..i + 1][..i] == items[..i];
      }
      assert items[..|items|] == items;
    }

    static method UpsertOne(table: Table, user: User, item: Item) returns (after: Table, rowcount: nat)
      ensures after == ImportOne(table, user, item)
      ensures rowcount == |Took(table, user, item)|
    {
      var source := item.source;
      if source.id in table && table[source.id].owner != user {
        source := source.(id := item.spareId);
      }
      after := Others(table, user, item.meanwhile);
      if source.id in after && after[source.id].owner != user {
        return after, 0;
      }
      return after[source.id := Row(user, source)], 1;
    }
  }

  // ---- the guard: for any file and any interference --------------------------------

  lemma OthersKeepMine(table: Table, user: User, m: Meanwhile)
    ensures Mine(Others(table, user, m), user) == Mine(table, user)
  {
  }

  lemma UpsertMine(table: Table, user: User, s: Source)
    ensures Mine(Upsert(table, user, s), user)
         == if Foreign(table, user, s.id) then Mine(table, user) else Mine(table, user)[s.id := s]
  {
  }

  lemma ImportOneMine(table: Table, user: User, item: Item)
    ensures Mine(ImportOne(table, user, item), user) == WrittenOver(Mine(table, user), Took(table, user, item))
  {
    var s := StoredAs(table, user, item.source, item.spareId);
    OthersKeepMine(table, user, item.meanwhile);
    UpsertMine(Others(table, user, item.meanwhile), user, s);
    assert [s][..0] == [];
  }

  lemma {:induction false} WrittenOverConcat(m: map<SourceKey, Source>, a: seq<Source>, b: seq<Source>)
    ensures WrittenOver(m, a + b) == WrittenOver(WrittenOver(m, a), b)
  {
    if b == [] {
      assert a + b == a;
    } else {
      var n := |b| - 1;
      WrittenOverConcat(m, a, b[..n]);
      assert (a + b)[..|a + b| - 1] == a + b[..n];
    }
  }

  /** The importer's own sources are the old ones, overridden by the upserts that took effect. */
  lemma {:induction false} ImportedMine(table: Table, user: User, items: seq<Item>)
    ensures Mine(Imported(table, user, items), user)
         == WrittenOver(Mine(table, user), Effective(table, user, items))
  {
    if items != [] {
      var n := |items| - 1;
      ImportedMine(table, user, items[..n]);
      var before := Imported(table, user, items[..n]);
      ImportOneMine(before, user, items[n]);
      WrittenOverConcat(Mine(table, user), Effective(table, user, items[..n]), Took(before, user, items[n]));
    }
  }

  predicate Touches(m: Meanwhile, user: User, id: SourceKey) {
    Foreign(m.written, user, id) || id in m.deleted
  }

  /** No import changes another user's source: a row that its owner leaves alone is still
      there afterwards, unchanged, whatever ids the file carries, whatever fresh ids are
      drawn and whatever is claimed between check and upsert. */
  lemma {:induction false} OtherUsersKeepTheirs(table: Table, user: User, items: seq<Item>, id: SourceKey)
    requires Foreign(table, user, id)
    requires forall i :: 0 <= i < |items| ==> !Touches(items[i].meanwhile, user, id)
    ensures id in Imported(table, user, items) && Imported(table, user, items)[id] == table[id]
  {
    if items != [] {
      OtherUsersKeepTheirs(table, user, items[..|items| - 1], id);
    }
  }

  /** Nor does it write one: another user's row that is there afterwards was there before
      or was written by its owner while the import ran. */
  lemma {:induction false} OtherUsersWroteTheirs(table: Table, user: User, items: seq<Item>, id: SourceKey)
    requires Foreign(Imported(table, user, items), user, id)
    ensures (id in table && table[id] == Imported(table, user, items)[id])
         || exists i :: 0 <= i < |items| && id in items[i].meanwhile.written
                        && items[i].meanwhile.written[id] == Imported(table, user, items)[id]
  {
    if items != [] {
      var n := |items| - 1;
      var before := Imported(table, user, items[..n]);
      if !(id in items[n].meanwhile.written && items[n].meanwhile.written[id] == Imported(table, user, items)[id]) {
        OtherUsersWroteTheirs(table, user, items[..n], id);
        if !(id in table && table[id] == before[id]) {
          var i :| 0 <= i < |items[..n]| && id in items[..n][i].meanwhile.written
                   && items[..n][i].meanwhile.written[id] == before[id];
          assert items[..n][i] == items[i];
        }
      }
    }
  }

  // ---- every entry takes effect ------------------------------------------------------

  /** Nobody else writes while the import runs. */
  predicate Undisturbed(items: seq<Item>) {
    forall i :: 0 <= i < |items| ==> items[i].meanwhile == Meanwhile(map[], {})
  }

  /** The ids drawn are new: not in the table, not in the file, and no two alike. */
  predicate FreshSpares(table: Table, items: seq<Item>) {
    && (forall i :: 0 <= i < |items| ==> items[i].spareId !in table)
    && (forall i, j :: 0 <= i < j < |items| ==> items[i].spareId != items[j].spareId)
    && (forall i, j :: 0 <= i < |items| && 0 <= j < |items| ==> items[i].spareId != items[j].source.id)
  }

  /** Where an entry is to be found afterwards: under its own id, unless that was somebody
      else's before the import. */
  function Target(table: Table, user: User, item: Item): SourceKey {
    if item.source.id in table && table[item.source.id].owner != user then item.spareId else item.source.id
  }

  /** One of the first `n` entries goes there. */
  predicate Targeted(table: Table, user: User, items: seq<Item>, n: nat, id: SourceKey)
    requires n <= |items|
  {
    exists i :: 0 <= i < n && Target(table, user, items[i]) == id
  }

  /** No later one of the first `n` entries goes to the same place. */
  predicate LastThere(table: Table, user: User, items: seq<Item>, n: nat, i: nat)
    requires i < n <= |items|
  {
    forall k :: i < k < n ==> Target(table, user, items[k]) != Target(table, user, items[i])
  }

  predicate StoredThere(table: Table, user: User, item: Item, after: Table) {
    var id := Target(table, user, item);
    id in after && after[id] == Row(user, item.source.(id := id))
  }

  predicate KeysStored(table: Table, user: User, items: seq<Item>, n: nat, after: Table)
    requires n <= |items|
  {
    && (forall id :: id in table ==> id in after)
    && (forall i :: 0 <= i < n ==> Target(table, user, items[i]) in after)
    && (forall id :: id in after && id !in table ==> Targeted(table, user, items, n, id))
  }

  predicate RestKept(table: Table, user: User, items: seq<Item>, n: nat, after: Table)
    requires n <= |items|
  {
    forall id :: id in table && !Targeted(table, user, items, n, id) ==> id in after && after[id] == table[id]
  }

  predicate LastsStored(table: Table, user: User, items: seq<Item>, n: nat, after: Table)
    requires n <= |items|
  {
    forall i :: 0 <= i < n && LastThere(table, user, items, n, i) ==> StoredThere(table, user, items[i], after)
  }

  /** The table after an import of which the first `n` entries took effect. */
  predicate AllStored(table: Table, user: User, items: seq<Item>, n: nat, after: Table)
    requires n <= |items|
  {
    && KeysStored(table, user, items, n, after) && RestKept(table, user, items, n, after)
    && LastsStored(table, user, items, n, after)
  }

  lemma LastTarget(table: Table, user: User, items: seq<Item>, n: nat, id: SourceKey) returns (i: nat)
    requires n <= |items| && Targeted(table, user, items, n, id)
    ensures i < n && Target(table, user, items[i]) == id && LastThere(table, user, items, n, i)
  {
    if Target(table, user, items[n - 1]) == id {
      i := n - 1;
    } else {
      i := LastTarget(table, user, items, n - 1, id);
    }
  }

  /** Rows of others are as before; whatever is new is the importer's. */
  lemma OwnersAfter(table: Table, user: User, items: seq<Item>, n: nat, after: Table, id: SourceKey)
    requires n <= |items| && FreshSpares(table, items) && AllStored(table, user, items, n, after) && id in after
    ensures after[id].owner != user <==> id in table && table[id].owner != user
  {
    if Targeted(table, user, items, n, id) {
      var i := LastTarget(table, user, items, n, id);
      assert StoredThere(table, user, items[i], after);
    }
  }

  /** A new id is still free when its turn comes. */
  lemma SpareStillFree(table: Table, user: User, items: seq<Item>, n: nat, after: Table)
    requires n < |items| && FreshSpares(table, items) && AllStored(table, user, items, n, after)
    ensures items[n].spareId !in after
  {
    forall i | 0 <= i < n ensures Target(table, user, items[i]) != items[n].spareId {
      assert items[i].spareId != items[n].spareId;
    }
  }

  lemma StoredStep(table: Table, user: User, items: seq<Item>, n: nat, before: Table)
    requires n < |items| && FreshSpares(table, items) && Undisturbed(items)
    requires AllStored(table, user, items, n, before)
    ensures var id := Target(table, user, items[n]);
            && Took(before, user, items[n]) == [items[n].source.(id := id)]
            && ImportOne(before, user, items[n]) == With(table, user, items[n], before)
  {
    OthersNothing(before, user);
    SpareStillFree(table, user, items, n, before);
    if items[n].source.id in before {
      OwnersAfter(table, user, items, n, before, items[n].source.id);
    }
  }

  lemma TargetedSnoc(table: Table, user: User, items: seq<Item>, n: nat, id: SourceKey)
    requires n < |items|
    ensures Targeted(table, user, items, n + 1, id)
       <==> Targeted(table, user, items, n, id) || id == Target(table, user, items[n])
  {
  }

  function With(table: Table, user: User, item: Item, before: Table): Table {
    var id := Target(table, user, item);
    before[id := Row(user, item.source.(id := id))]
  }

  lemma KeysSnoc(table: Table, user: User, items: seq<Item>, n: nat, before: Table)
    requires n < |items| && KeysStored(table, user, items, n, before)
    ensures KeysStored(table, user, items, n + 1, With(table, user, items[n], before))
  {
    var after := With(table, user, items[n], before);
    forall id | id in after && id !in table ensures Targeted(table, user, items, n + 1, id) {
      TargetedSnoc(table, user, items, n, id);
    }
  }

  lemma RestSnoc(table: Table, user: User, items: seq<Item>, n: nat, before: Table)
    requires n < |items| && RestKept(table, user, items, n, before)
    ensures RestKept(table, user, items, n + 1, With(table, user, items[n], before))
  {
    var after := With(table, user, items[n], before);
    forall id | id in table && !Targeted(table, user, items, n + 1, id) ensures id in after && after[id] == table[id] {
      TargetedSnoc(table, user, items, n, id);
    }
  }

  lemma LastsSnoc(table: Table, user: User, items: seq<Item>, n: nat, before: Table)
    requires n < |items| && LastsStored(table, user, items, n, before)
    ensures LastsStored(table, user, items, n + 1, With(table, user, items[n], before))
  {
    var after := With(table, user, items[n], before);
    forall i | 0 <= i < n + 1 && LastThere(table, user, items, n + 1, i)
      ensures StoredThere(table, user, items[i], after)
    {
      if i < n {
        assert LastThere(table, user, items, n, i);
      }
    }
  }

  lemma ImportedSnoc(table: Table, user: User, items: seq<Item>, n: nat)
    requires n < |items|
    ensures Imported(table, user, items[..n + 1]) == ImportOne(Imported(table, user, items[..n]), user, items[n])
    ensures Effective(table, user, items[..n + 1])
         == Effective(table, user, items[..n]) + Took(Imported(table, user, items[..n]), user, items[n])
  {
    assert items[..n + 1][..n] == items[..n] && items[..n + 1][n] == items[n];
  }

  lemma {:induction false} StoredUpTo(table: Table, user: User, items: seq<Item>, n: nat)
    requires n <= |items| && FreshSpares(table, items) && Undisturbed(items)
    ensures AllStored(table, user, items, n, Imported(table, user, items[..n]))
    ensures |Effective(table, user, items[..n])| == n
  {
    if n > 0 {
      var before := Imported(table, user, items[..n - 1]);
      StoredUpTo(table, user, items, n - 1);
      ImportedSnoc(table, user, items, n - 1);
      StoredStep(table, user, items, n - 1, before);
      KeysSnoc(table, user, items, n - 1, before);
      RestSnoc(table, user, items, n - 1, before);
      LastsSnoc(table, user, items, n - 1, before);
    }
  }

  /** Undisturbed, and with ids drawn that are new, every entry of the file takes effect:
      one whose id is somebody else's is afterwards the importer's own source under its new
      id, equal to the entry but for that; any other is stored under its id, the last of an
      id staying; every row that no entry goes to is as it was; and all are counted. */
  lemma EveryEntryStored(table: Table, user: User, items: seq<Item>)
    requires FreshSpares(table, items) && Undisturbed(items)
    ensures AllStored(table, user, items, |items|, Imported(table, user, items))
    ensures |Effective(table, user, items)| == |items|
  {
    StoredUpTo(table, user, items, |items|);
    assert items[..|items|] == items;
  }

  /** With others writing meanwhile, an entry is dropped exactly when the id that it is to
      be stored under, its own or, if that is somebody else's at the check, the one drawn, is
      somebody else's at the upsert: taken before and not deleted, or taken meanwhile. What
      is not dropped is stored under that id, and nothing else changes but by the others. */
  lemma DroppedIff(table: Table, user: User, item: Item)
    ensures var id, m := Target(table, user, item), item.meanwhile;
            var taken := !(id in table && table[id].owner == user)
                         && ((id in table && id !in m.deleted) || (id in m.written && m.written[id].owner != user));
            && (Took(table, user, item) == [] <==> taken)
            && ImportOne(table, user, item)
               == (if taken then Others(table, user, m)
                   else Others(table, user, m)[id := Row(user, item.source.(id := id))])
  {
  }

  // ---- the preview -----------------------------------------------------------------

  datatype Diff = Diff(added: seq<Source>, updated: seq<(Source, Source)>, same: seq<Source>)

  function DiffOf(mine: map<SourceKey, Source>, file: seq<Source>): Diff {
    if file == [] then Diff([], [], [])
    else
      var n := |file| - 1;
      var s := file[n];
      var d := DiffOf(mine, file[..n]);
      if s.id !in mine then d.(added := d.added + [s])
      else if mine[s.id] == s then d.(same := d.same + [s])
      else d.(updated := d.updated + [(mine[s.id], s)])
  }

  method DiffImport(existing: seq<Source>, file: seq<Source>) returns (d: Diff)
    ensures d == DiffOf(ById(existing), file)
  {
    var existingById: map<SourceKey, Source> := map[];
    for i := 0 to |existing|
      invariant existingById == ById(existing[..i])
    {
      existingById := existingById[existing[i].id := existing[i]];
      assert existing[..i + 1][..i] == existing[..i];
    }
    assert existing[..|existing|] == existing;
    d := Diff([], [], []);
    for i := 0 to |file|
      invariant d == DiffOf(existingById, file[..i])
    {
      var source := file[i];
      if source.id !in existingById {
        d := d.(added := d.added + [source]);
      } else if existingById[source.id] == source {
        d := d.(same := d.same + [source]);
      } else {
        d := d.(updated := d.updated + [(existingById[source.id], source)]);
      }
      assert file[..i + 1][..i] == file[..i];
    }
    assert file[..|file|] == file;
  }

  /** The three lists classify the file's sources, each with its old version. */
  lemma {:induction false} DiffClassifies(mine: map<SourceKey, Source>, file: seq<Source>, s: Source)
    ensures s in DiffOf(mine, file).added <==> s in file && s.id !in mine
    ensures s in DiffOf(mine, file).same <==> s in file && s.id in mine && mine[s.id] == s
    ensures forall o :: (o, s) in DiffOf(mine, file).updated
                        <==> s in file && s.id in mine && mine[s.id] == o && o != s
  {
    if file != [] {
      var n := |file| - 1;
      DiffClassifies(mine, file[..n], s);
      assert file == file[..n] + [file[n]];
    }
  }

  lemma {:induction false} DiffIsAPartition(mine: map<SourceKey, Source>, file: seq<Source>)
    ensures var d := DiffOf(mine, file); |d.added| + |d.updated| + |d.same| == |file|
  {
    if file != [] {
      DiffIsAPartition(mine, file[..|file| - 1]);
    }
  }

  function Quiet(file: seq<Source>, spareIds: seq<SourceKey>): (items: seq<Item>)
    requires |spareIds| == |file|
    ensures |items| == |file|
  {
    seq(|file|, i requires 0 <= i < |file| => Item(file[i], spareIds[i], NOTHING))
  }

  ghost predicate NoneForeign(table: Table, user: User, file: seq<Source>) {
    forall i :: 0 <= i < |file| ==> !Foreign(table, user, file[i].id)
  }

  /** No two sources of the file share an id and differ. */
  ghost predicate Consistent(file: seq<Source>) {
    forall i, j :: 0 <= i < j < |file| && file[i].id == file[j].id ==> file[i] == file[j]
  }

  lemma OthersNothing(table: Table, user: User)
    ensures Others(table, user, NOTHING) == table
  {
  }

  lemma QuietOne(table: Table, user: User, s: Source, spareId: SourceKey, id: SourceKey)
    ensures var item := Item(s, spareId, NOTHING);
            && (Foreign(ImportOne(table, user, item), user, id) <==> Foreign(table, user, id))
            && (!Foreign(table, user, s.id) ==> Took(table, user, item) == [s])
  {
    OthersNothing(table, user);
  }

  /** Undisturbed, the import changes nobody else's ids. */
  lemma {:induction false} QuietForeign(table: Table, user: User, file: seq<Source>, spareIds: seq<SourceKey>,
                                        id: SourceKey)
    requires |spareIds| == |file|
    ensures Foreign(Imported(table, user, Quiet(file, spareIds)), user, id) <==> Foreign(table, user, id)
  {
    if file != [] {
      var n := |file| - 1;
      QuietForeign(table, user, file[..n], spareIds[..n], id);
      assert Quiet(file, spareIds)[..n] == Quiet(file[..n], spareIds[..n]);
      QuietOne(Imported(table, user, Quiet(file[..n], spareIds[..n])), user, file[n], spareIds[n], id);
    }
  }

  lemma EffectiveSnoc(table: Table, user: User, items: seq<Item>, item: Item)
    ensures Effective(table, user, items + [item])
         == Effective(table, user, items) + Took(Imported(table, user, items), user, item)
  {
    assert (items + [item])[..|items|] == items;
  }

  lemma QuietSnoc(file: seq<Source>, spareIds: seq<SourceKey>, s: Source, spareId: SourceKey)
    requires |spareIds| == |file|
    ensures Quiet(file + [s], spareIds + [spareId]) == Quiet(file, spareIds) + [Item(s, spareId, NOTHING)]
  {
  }

  /** A file without foreign ids takes effect whole and under its own ids. */
  lemma {:induction false} QuietEffective(table: Table, user: User, file: seq<Source>, spareIds: seq<SourceKey>)
    requires |spareIds| == |file| && NoneForeign(table, user, file)
    ensures Effective(table, user, Quiet(file, spareIds)) == file
  {
    if file != [] {
      var n := |file| - 1;
      var front, spare, s := file[..n], spareIds[..n], file[n];
      assert file == front + [s] && spareIds == spare + [spareIds[n]];
      QuietEffective(table, user, front, spare);
      QuietForeign(table, user, front, spare, s.id);
      QuietSnoc(front, spare, s, spareIds[n]);
      EffectiveSnoc(table, user, Quiet(front, spare), Item(s, spareIds[n], NOTHING));
      QuietOne(Imported(table, user, Quiet(front, spare)), user, s, spareIds[n], s.id);
    }
  }

  /** Where the preview comes true: what it lists is what is stored afterwards. */
  ghost predicate ComesTrue(mine: map<SourceKey, Source>, file: seq<Source>, after: map<SourceKey, Source>) {
    var d := DiffOf(mine, file);
    && (forall s :: s in d.added ==> s.id in after && after[s.id] == s)
    && (forall s :: s in d.same ==> s.id in after && after[s.id] == s)
    && (forall o, s :: (o, s) in d.updated ==> s.id in after && after[s.id] == s)
  }

  /** Every source of the file is in one of the three lists. */
  lemma Listed(mine: map<SourceKey, Source>, file: seq<Source>, s: Source)
    ensures var d := DiffOf(mine, file);
            s in file <==> s in d.added || s in d.same || (s.id in mine && (mine[s.id], s) in d.updated)
    ensures forall o :: (o, s) in DiffOf(mine, file).updated ==> s in file
  {
    DiffClassifies(mine, file, s);
  }

  ghost predicate Stored(file: seq<Source>, after: map<SourceKey, Source>) {
    forall s :: s in file ==> s.id in after && after[s.id] == s
  }

  lemma ComesTrueMeans(mine: map<SourceKey, Source>, file: seq<Source>, after: map<SourceKey, Source>)
    ensures ComesTrue(mine, file, after) <==> Stored(file, after)
  {
    forall s ensures s in file ==> ComesTrue(mine, file, after) ==> s.id in after && after[s.id] == s {
      Listed(mine, file, s);
    }
    if Stored(file, after) {
      forall s { Listed(mine, file, s); }
    }
  }

  /** The last source of an id stays. */
  lemma {:induction false} LastStays(m: map<SourceKey, Source>, file: seq<Source>, id: SourceKey)
    ensures (forall s :: s in file ==> s.id != id)
            ==> (var w := WrittenOver(m, file); (id in w <==> id in m) && (id in m ==> w[id] == m[id]))
    ensures (exists s :: s in file && s.id == id)
            ==> (var w := WrittenOver(m, file); id in w && w[id] in file && w[id].id == id)
  {
    if file != [] {
      var n := |file| - 1;
      LastStays(m, file[..n], id);
      assert file == file[..n] + [file[n]];
      if file[n].id == id {
        assert WrittenOver(m, file)[id] == file[n];
      }
    }
  }

  lemma ConsistentMembers(file: seq<Source>)
    ensures Consistent(file) <==> forall s, t :: s in file && t in file && s.id == t.id ==> s == t
  {
    if Consistent(file) {
      forall s, t | s in file && t in file && s.id == t.id ensures s == t {
        var i :| 0 <= i < |file| && file[i] == s;
        var j :| 0 <= j < |file| && file[j] == t;
        assert i < j || j < i || i == j;
      }
    } else {
      var i, j :| 0 <= i < j < |file| && file[i].id == file[j].id && file[i] != file[j];
      assert file[i] in file && file[j] in file;
    }
  }

  lemma StoredIffConsistent(m: map<SourceKey, Source>, file: seq<Source>)
    ensures Consistent(file) <==> Stored(file, WrittenOver(m, file))
  {
    ConsistentMembers(file);
    forall s | s in file
      ensures s.id in WrittenOver(m, file) && WrittenOver(m, file)[s.id] in file
              && WrittenOver(m, file)[s.id].id == s.id
    {
      LastStays(m, file, s.id);
    }
  }

  /** The preview is exact, undisturbed: everything it lists is stored as listed if and
      only if no file id belongs to somebody else and no two of the file's sources share
      an id and differ. */
  lemma PreviewExact(table: Table, user: User, file: seq<Source>, spareIds: seq<SourceKey>)
    requires |spareIds| == |file|
    ensures ComesTrue(Mine(table, user), file, Mine(Imported(table, user, Quiet(file, spareIds)), user))
       <==> NoneForeign(table, user, file) && Consistent(file)
  {
    var mine, after := Mine(table, user), Mine(Imported(table, user, Quiet(file, spareIds)), user);
    ComesTrueMeans(mine, file, after);
    if NoneForeign(table, user, file) {
      ImportedMine(table, user, Quiet(file, spareIds));
      QuietEffective(table, user, file, spareIds);
      StoredIffConsistent(mine, file);
    } else {
      var i :| 0 <= i < |file| && Foreign(table, user, file[i].id);
      assert file[i] in file;
      QuietForeign(table, user, file, spareIds, file[i].id);
    }
  }

  /** Writing over a map is merging with the file's own map. */
  lemma {:induction false} WrittenOverMerges(m: map<SourceKey, Source>, file: seq<Source>)
    ensures WrittenOver(m, file) == m + ById(file)
  {
    if file != [] {
      WrittenOverMerges(m, file[..|file| - 1]);
    }
  }

  /** The file's map holds exactly the file's sources, when their ids are distinct. */
  lemma ByIdHolds(file: seq<Source>, s: Source)
    requires DistinctIds(file)
    ensures s in file <==> s.id in ById(file) && ById(file)[s.id] == s
  {
    LastStays(map[], file, s.id);
    if s in file {
      var i :| 0 <= i < |file| && file[i] == s;
      assert file[i].id == s.id;
    }
  }

  /** What happened to an id, and the preview's three predictions. */
  ghost predicate Appears(before: map<SourceKey, Source>, after: map<SourceKey, Source>, id: SourceKey) {
    id in after && id !in before
  }

  ghost predicate Changes(before: map<SourceKey, Source>, after: map<SourceKey, Source>, id: SourceKey) {
    id in after && id in before && after[id] != before[id]
  }

  /** With distinct ids, each source of the file is listed where it belongs, as the source
      that its id's row turns from and into. */
  lemma ListedWhereItBelongs(before: map<SourceKey, Source>, file: seq<Source>, s: Source)
    requires DistinctIds(file)
    ensures var after, d := before + ById(file), DiffOf(before, file);
            && (s in d.added <==> Appears(before, after, s.id) && after[s.id] == s)
            && (forall o :: (o, s) in d.updated
                            <==> Changes(before, after, s.id) && before[s.id] == o && after[s.id] == s)
            && (s in d.same <==> s.id in ById(file) && s.id in before && after[s.id] == before[s.id] == s)
  {
    DiffClassifies(before, file, s);
    ByIdHolds(file, s);
  }

  /** A file of distinct ids, none of them somebody else's: undisturbed, the user's sources
      become the old ones overridden by the file, every upsert counts, and the preview
      lists exactly the ids that appear, that change and that the file leaves equal. */
  lemma ImportMatchesPreview(table: Table, user: User, file: seq<Source>, spareIds: seq<SourceKey>, s: Source)
    requires |spareIds| == |file| && DistinctIds(file) && NoneForeign(table, user, file)
    ensures var items := Quiet(file, spareIds);
            var before, after := Mine(table, user), Mine(Imported(table, user, items), user);
            var d := DiffOf(before, file);
            && after == before + ById(file)
            && |Effective(table, user, items)| == |file|
            && |d.added| + |d.updated| + |d.same| == |file|
            && (s in d.added <==> Appears(before, after, s.id) && after[s.id] == s)
            && (forall o :: (o, s) in d.updated
                            <==> Changes(before, after, s.id) && before[s.id] == o && after[s.id] == s)
            && (s in d.same <==> s.id in ById(file) && s.id in before && after[s.id] == before[s.id] == s)
  {
    ImportedMine(table, user, Quiet(file, spareIds));
    QuietEffective(table, user, file, spareIds);
    WrittenOverMerges(Mine(table, user), file);
    DiffIsAPartition(Mine(table, user), file);
    ListedWhereItBelongs(Mine(table, user), file, s);
  }

  /** Two versions of one id in a file: the preview announces two additions, the import
      stores one. */
  lemma PreviewCountsTwice(s: Source, other: Source, spareIds: seq<SourceKey>, user: User)
    requires s.id == other.id && s != other && |spareIds| == 2
    ensures DiffOf(map[], [s, other]).added == [s, other]
    ensures Mine(Imported(map[], user, Quiet([s, other], spareIds)), user) == map[s.id := other]
  {
    TwoAdded(s, other);
    ImportedMine(map[], user, Quiet([s, other], spareIds));
    QuietEffective(map[], user, [s, other], spareIds);
    OneStored(s, other);
    assert Mine(map[], user) == map[];
  }

  lemma TwoAdded(s: Source, other: Source)
    ensures DiffOf(map[], [s, other]).added == [s, other]
  {
    assert [s, other][..1] == [s] && [s][..0] == [];
    assert DiffOf(map[], [s]).added == [s];
  }

  lemma OneStored(s: Source, other: Source)
    requires s.id == other.id
    ensures WrittenOver(map[], [s, other]) == map[s.id := other]
  {
    assert [s, other][..1] == [s] && [s][..0] == [];
    assert WrittenOver(map[], [s]) == map[s.id := s];
  }
}

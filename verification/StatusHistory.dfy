/** The append-only status history and the order in which it is read back. */
module StatusHistory {
  import opened Common
  import opened Jobs
  import opened JobTable

  datatype Entry = Entry(id: nat, user: User, key: Key, status: Option<Status>, at: Time)

  /** `job_status_history` and the identity counter that numbers its rows. */
  datatype History = History(nextId: nat, entries: seq<Entry>)

  const EMPTY := History(0, [])

  predicate Of(e: Entry, id: RowId) {
    e.user == id.user && e.key == id.key
  }

  predicate Later(a: Entry, b: Entry) {
    a.at > b.at || (a.at == b.at && a.id >= b.id)
  }

  /** The first entry of one job under `ORDER BY changed_at DESC, id DESC`. */
  function Newest(entries: seq<Entry>, id: RowId): (n: Option<Entry>)
    ensures n.Some? ==> n.value in entries && Of(n.value, id)
    ensures n.Some? ==> forall e :: e in entries && Of(e, id) ==> Later(n.value, e)
    ensures n.None? ==> forall e :: e in entries ==> !Of(e, id)
  {
    if entries == [] then None
    else
      var last := entries[|entries| - 1];
      var rest := Newest(entries[..|entries| - 1], id);
      if Of(last, id) && (rest.None? || Later(last, rest.value)) then Some(last) else rest
  }

  /** The inserts that follow an update of `keys`, numbered in insertion order. */
  function Append(h: History, u: User, keys: seq<Key>, status: Option<Status>, now: Time): (r: History)
    ensures r.nextId == h.nextId + |keys|
    ensures |r.entries| == |h.entries| + |keys|
  {
    if keys == [] then h
    else
      var n := |keys| - 1;
      var front := Append(h, u, keys[..n], status, now);
      History(front.nextId + 1, front.entries + [Entry(front.nextId, u, keys[n], status, now)])
  }

  function NotOf(u: User): Entry -> bool {
    (e: Entry) => e.user != u
  }

  function Forget(h: History, u: User): History {
    h.(entries := Filter(h.entries, NotOf(u)))
  }

  /** Status shown for a job according to its history. */
  function StatusFrom(h: History, id: RowId): Option<Status> {
    match Newest(h.entries, id)
    case None => None
    case Some(e) => e.status
  }

  /** All entries are numbered below the counter and no later than `clock`. */
  predicate Stamped(h: History, clock: Time) {
    forall e :: e in h.entries ==> e.id < h.nextId && e.at <= clock
  }

  lemma NewestSnoc(h: History, e: Entry, id: RowId, clock: Time)
    requires Stamped(h, clock) && clock <= e.at && h.nextId <= e.id
    ensures Newest(h.entries + [e], id) == if Of(e, id) then Some(e) else Newest(h.entries, id)
  {
    assert (h.entries + [e])[..|h.entries|] == h.entries;
  }

  lemma NewestStep(h: History, u: User, k: Key, status: Option<Status>, now: Time, id: RowId)
    requires Stamped(h, now)
    ensures var next := History(h.nextId + 1, h.entries + [Entry(h.nextId, u, k, status, now)]);
            && Stamped(next, now) && StatusFrom(next, id) == (if id == RowId(u, k) then status else StatusFrom(h, id))
            && (Newest(next.entries, id).Some? <==> Newest(h.entries, id).Some? || id == RowId(u, k))
  {
    NewestSnoc(h, Entry(h.nextId, u, k, status, now), id, now);
  }

  lemma {:induction false} NewestAppend(h: History, u: User, keys: seq<Key>, status: Option<Status>, now: Time,
                                        id: RowId)
    requires Stamped(h, now)
    ensures Stamped(Append(h, u, keys, status, now), now)
    ensures StatusFrom(Append(h, u, keys, status, now), id)
            == if id.user == u && id.key in keys then status else StatusFrom(h, id)
    ensures Newest(Append(h, u, keys, status, now).entries, id).Some?
            <==> Newest(h.entries, id).Some? || (id.user == u && id.key in keys)
  {
    if keys != [] {
      var n := |keys| - 1;
      var front := Append(h, u, keys[..n], status, now);
      NewestAppend(h, u, keys[..n], status, now, id);
      NewestStep(front, u, keys[n], status, now, id);
      assert id.key in keys <==> id.key in keys[..n] || id.key == keys[n];
    }
  }

  lemma NewestLast(entries: seq<Entry>, e: Entry, id: RowId)
    ensures var rest := Newest(entries, id);
            Newest(entries + [e], id) == if Of(e, id) && (rest.None? || Later(e, rest.value)) then Some(e) else rest
  {
    assert (entries + [e])[..|entries|] == entries;
  }

  /** All entries are numbered below the counter. */
  predicate Numbered(h: History) {
    forall e :: e in h.entries ==> e.id < h.nextId
  }

  lemma NewerStep(h: History, e: Entry, id: RowId)
    requires Numbered(h) && e.id == h.nextId
    ensures Numbered(History(h.nextId + 1, h.entries + [e]))
    ensures var was := Newest(h.entries, id);
            Newest(h.entries + [e], id) == if Of(e, id) && (was.None? || was.value.at <= e.at) then Some(e) else was
  {
    NewestLast(h.entries, e, id);
  }

  /** Whatever the clock: the first entry of a changed job is a new one, unless the one that
      was first carries a later time. */
  lemma {:induction false} NewerAppend(h: History, u: User, keys: seq<Key>, status: Option<Status>, now: Time,
                                       id: RowId)
    requires Numbered(h)
    ensures Numbered(Append(h, u, keys, status, now))
    ensures var was, first := Newest(h.entries, id), Newest(Append(h, u, keys, status, now).entries, id);
            if id.user == u && id.key in keys && (was.None? || was.value.at <= now)
            then first.Some? && first.value.at == now && first.value.status == status
            else first == was
  {
    if keys != [] {
      var n := |keys| - 1;
      var front := Append(h, u, keys[..n], status, now);
      NewerAppend(h, u, keys[..n], status, now, id);
      NewerStep(front, Entry(front.nextId, u, keys[n], status, now), id);
      assert id.key in keys <==> id.key in keys[..n] || id.key == keys[n];
    }
  }

  lemma FilterOne(entries: seq<Entry>, e: Entry, p: Entry -> bool)
    ensures Filter(entries + [e], p) == if p(e) then Filter(entries, p) + [e] else Filter(entries, p)
  {
    assert (entries + [e])[..|entries|] == entries;
  }

  lemma ForgetOne(entries: seq<Entry>, u: User, e: Entry, id: RowId)
    requires Newest(Filter(entries, NotOf(u)), id) == if id.user == u then None else Newest(entries, id)
    ensures Newest(Filter(entries + [e], NotOf(u)), id) == if id.user == u then None else Newest(entries + [e], id)
  {
    FilterOne(entries, e, NotOf(u));
    NewestLast(entries, e, id);
    NewestLast(Filter(entries, NotOf(u)), e, id);
  }

  lemma {:induction false} NewestForget(entries: seq<Entry>, u: User, id: RowId)
    ensures Newest(Filter(entries, NotOf(u)), id) == if id.user == u then None else Newest(entries, id)
  {
    if entries != [] {
      var n := |entries| - 1;
      var front, e := entries[..n], entries[n];
      NewestForget(front, u, id);
      assert entries == front + [e];
      ForgetOne(front, u, e, id);
    }
  }
}

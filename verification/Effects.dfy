/** Everything that commits to the job tables, one value per transaction, plus
    the delivery of a digest. A run of the system is a sequence of these. */
module Effects {
  import opened Common
  import opened Jobs
  import opened JobTable
  import opened StatusHistory

  datatype Effect =
    | Saved(user: User, jobs: seq<Job>, now: Time)                                      // save_jobs
    | Healed(user: User, jobs: seq<Job>)                                                // refresh_job_urls
    | Settled(user: User, remove: set<Key>, reactivate: set<Key>, now: Time)            // reconcile_jobs
    | Checked(gone: set<RowId>, now: Time)                                              // check_job_urls
    | Mailed(user: User, keys: set<Key>, present: set<Key>)                             // send_email succeeded
    | Marked(user: User, keys: set<Key>, now: Time)                                     // mark_emailed
    | Cleared(user: User)                                                               // clear_jobs
    | Removed(user: User, key: Key, now: Time)                                          // mark_job_removed
    | StatusSet(user: User, targets: seq<Key>, status: Option<Status>, now: Time)    // set_job_status, bulk_set_status
    | DuplicateSet(user: User, key: Key, flag: bool, of: Option<Key>)                   // set/clear_job_duplicate
    | NotesSet(user: User, key: Key, notes: Option<string>)                             // set_job_notes
  {
    /** The user whose rows it is about; a URL check is about those it names. */
    function Owner(id: RowId): User {
      if Checked? then id.user else user
    }
  }

  function Write(rows: Table, e: Effect): Table {
    match e
    case Saved(u, jobs, now) => Insert(rows, u, jobs, now)
    case Healed(u, jobs) => Heal(rows, u, jobs)
    case Settled(u, remove, reactivate, now) => Settle(rows, u, remove, reactivate, now)
    case Checked(gone, now) => SetRemoved(rows, gone, now)
    case Mailed(_, _, _) => rows
    case Marked(u, keys, now) => MarkEmailed(rows, u, keys, now)
    case Cleared(u) => Clear(rows, u)
    case Removed(u, k, now) => SetRemoved(rows, ActiveIds(rows, u, k), now)
    case StatusSet(u, keys, status, now) => SetStatus(rows, u, (set k | k in keys), status)
    case DuplicateSet(u, k, flag, of) => SetDuplicate(rows, u, k, flag, of)
    case NotesSet(u, k, notes) => Update(rows, Ids(u, {k}), (r: Row) => r.(notes := notes))
  }

  function ActiveIds(rows: Table, u: User, k: Key): set<RowId> {
    if RowId(u, k) in rows && rows[RowId(u, k)].Active() then {RowId(u, k)} else {}
  }

  /** Keys of a status update that exist, in the order their history rows are inserted. */
  function Present(rows: Table, u: User, keys: seq<Key>): seq<Key> {
    Filter(keys, (k: Key) => RowId(u, k) in rows)
  }

  function Record(h: History, rows: Table, e: Effect): History {
    match e
    case Cleared(u) => Forget(h, u)
    case StatusSet(u, keys, status, now) => Append(h, u, Present(rows, u, keys), status, now)
    case _ => h
  }

  /** State of the job tables after a sequence of transactions from an empty database. */
  function Replay(log: seq<Effect>): (Table, History) {
    if log == [] then (map[], EMPTY)
    else
      var n := |log| - 1;
      var (rows, h) := Replay(log[..n]);
      (Write(rows, log[n]), Record(h, rows, log[n]))
  }

  /** What a transaction makes of a stored row, column by column; only a clear takes rows
      away, and only `save_jobs` adds any. */
  lemma RowWritten(rows: Table, e: Effect, id: RowId)
    requires id in rows
    ensures var own, row, after := id.user == e.Owner(id), rows[id], Write(rows, e);
            match e
            case Saved(_, _, _) => id in after && after[id] == row
            case Healed(_, jobs) =>
              id in after && after[id] == (if own then row.(job := row.job.(url := after[id].job.url)) else row)
            case Settled(_, remove, reactivate, now) =>
              id in after
              && after[id] == (if own && id.key in reactivate then row.(removedAt := None, emailedAt := None)
                               else if own && id.key in remove then row.(removedAt := Some(now)) else row)
            case Checked(gone, now) =>
              id in after && after[id] == (if id in gone then row.(removedAt := Some(now)) else row)
            case Mailed(_, _, _) => id in after && after[id] == row
            case Marked(_, keys, now) =>
              id in after && after[id] == (if own && id.key in keys then row.(emailedAt := Some(now)) else row)
            case Cleared(_) => if own then id !in after else id in after && after[id] == row
            case Removed(_, key, now) =>
              id in after
              && after[id] == (if own && id.key == key && row.removedAt.None?
                               then row.(removedAt := Some(now)) else row)
            case StatusSet(_, targets, status, _) =>
              id in after && after[id] == (if own && id.key in targets then row.(status := status) else row)
            case DuplicateSet(_, key, flag, of) =>
              id in after
              && after[id] == (if own && id.key == key
                               then row.(isDuplicate := flag, duplicateOf := if flag then of else None) else row)
            case NotesSet(_, key, notes) =>
              id in after && after[id] == (if own && id.key == key then row.(notes := notes) else row)
  {
  }

  lemma RowCreated(rows: Table, e: Effect, id: RowId)
    requires id !in rows
    ensures id in Write(rows, e) <==> e.Saved? && e.user == id.user && exists j :: j in e.jobs && j.key == id.key
    ensures id in Write(rows, e) ==>
              var row := Write(rows, e)[id];
              && row.job in e.jobs && row.job.key == id.key
              && row == Row(row.job, e.now, None, None, None, false, None, None)
  {
    if e.Saved? {
      assert id in Insert(rows, e.user, e.jobs, e.now) <==> id.user == e.user && id.key in Keys(e.jobs);
    }
  }

  /** Status changes are stamped by a clock that does not go back. */
  predicate ClockOrdered(log: seq<Effect>) {
    forall i, j :: 0 <= i < j < |log| && log[i].StatusSet? && log[j].StatusSet? ==> log[i].now <= log[j].now
  }

  predicate Agrees(rows: Table, h: History, id: RowId) {
    && (id in rows ==> rows[id].status == StatusFrom(h, id))
    && (id !in rows ==> Newest(h.entries, id).None?)
  }

  lemma AgreesStep(rows: Table, h: History, e: Effect, clock: Time, id: RowId)
    requires Agrees(rows, h, id) && Stamped(h, clock)
    requires e.StatusSet? ==> clock <= e.now
    ensures Agrees(Write(rows, e), Record(h, rows, e), id)
    ensures Stamped(Record(h, rows, e), if e.StatusSet? then e.now else clock)
  {
    match e {
      case Cleared(u) => NewestForget(h.entries, u, id);
      case StatusSet(u, keys, status, now) =>
        NewestAppend(h, u, Present(rows, u, keys), status, now, id);
      case Saved(u, jobs, now) =>
        assert id in Insert(rows, u, jobs, now) && id !in rows ==> Insert(rows, u, jobs, now)[id].status.None?;
      case _ =>
    }
  }

  /** Highest clock reading so far. */
  function Clock(log: seq<Effect>, start: Time): Time {
    if log == [] then start
    else if log[|log| - 1].StatusSet? then log[|log| - 1].now
    else Clock(log[..|log| - 1], start)
  }

  lemma {:induction false} ClockBelow(log: seq<Effect>, start: Time, now: Time)
    requires forall i :: 0 <= i < |log| && log[i].StatusSet? ==> log[i].now <= now
    requires start <= now
    ensures Clock(log, start) <= now
  {
    if log != [] {
      ClockBelow(log[..|log| - 1], start, now);
    }
  }

  lemma {:induction false} HistoryStamped(log: seq<Effect>, start: Time, id: RowId)
    requires ClockOrdered(log)
    requires forall i :: 0 <= i < |log| && log[i].StatusSet? ==> start <= log[i].now
    ensures Stamped(Replay(log).1, Clock(log, start))
    ensures Agrees(Replay(log).0, Replay(log).1, id)
  {
    if log != [] {
      var n := |log| - 1;
      HistoryStamped(log[..n], start, id);
      if log[n].StatusSet? {
        ClockBelow(log[..n], start, log[n].now);
      }
      AgreesStep(Replay(log[..n]).0, Replay(log[..n]).1, log[n], Clock(log[..n], start), id);
    }
  }

  function Earliest(log: seq<Effect>): (t: Time)
    ensures forall i :: 0 <= i < |log| && log[i].StatusSet? ==> t <= log[i].now
  {
    if log == [] then 0
    else
      var t := Earliest(log[..|log| - 1]);
      var e := log[|log| - 1];
      if e.StatusSet? && e.now < t then e.now else t
  }

  /** After any sequence of transactions whose status changes carry a clock that does
      not go back, a stored job shows the status of the first entry of its history,
      or none when its history is empty; a job that is not stored has no history. */
  lemma StatusAgreesWithHistory(log: seq<Effect>, id: RowId)
    requires ClockOrdered(log)
    ensures var (rows, h) := Replay(log);
            && (id in rows ==>
                  rows[id].status == match Newest(h.entries, id) { case None => None case Some(e) => e.status })
            && (id !in rows ==> Newest(h.entries, id).None?)
  {
    HistoryStamped(log, Earliest(log), id);
  }

  lemma PresentOne(rows: Table, u: User, k: Key)
    ensures Present(rows, u, [k]) == if RowId(u, k) in rows then [k] else []
  {
    assert [k][..0] == [];
  }

  lemma AppendOne(h: History, u: User, k: Key, status: Option<Status>, now: Time)
    ensures Append(h, u, [k], status, now)
            == History(h.nextId + 1, h.entries + [Entry(h.nextId, u, k, status, now)])
  {
    assert [k][..0] == [];
  }

  // ---- with any clock ------------------------------------------------------------------

  /** The effect sets the status of a stored job. */
  predicate Changes(rows: Table, e: Effect, id: RowId) {
    e.StatusSet? && e.user == id.user && id.key in e.targets && id in rows
  }

  /** A change that is not stamped before the first entry of the job's history, or that
      sets the status which that entry shows. */
  predicate InLine(h: History, e: Effect, id: RowId)
    requires e.StatusSet?
  {
    var first := Newest(h.entries, id);
    first.None? || first.value.at <= e.now || first.value.status == e.status
  }

  /** From any state, whatever the clock has done before: after a change of a stored job,
      alone or in bulk, its status is the first entry's exactly when the change is in line. */
  lemma ChangeAgrees(rows: Table, h: History, e: Effect, id: RowId)
    requires Numbered(h) && Changes(rows, e, id)
    ensures Agrees(Write(rows, e), Record(h, rows, e), id) <==> InLine(h, e, id)
  {
    assert id.key in Present(rows, e.user, e.targets);
    NewerAppend(h, e.user, Present(rows, e.user, e.targets), e.status, e.now, id);
    assert Write(rows, e)[id].status == e.status;
  }

  /** No history without a row. */
  predicate Rooted(rows: Table, h: History, id: RowId) {
    Numbered(h) && (id !in rows ==> Newest(h.entries, id).None?)
  }

  /** Everything else leaves agreement as it was, except that a clear of the user's own
      rows brings it about. */
  lemma OthersKeepAgreement(rows: Table, h: History, e: Effect, id: RowId)
    requires Rooted(rows, h, id) && !Changes(rows, e, id)
    ensures Agrees(Write(rows, e), Record(h, rows, e), id) <==> e == Cleared(id.user) || Agrees(rows, h, id)
  {
    match e {
      case Cleared(u) => NewestForget(h.entries, u, id);
      case StatusSet(u, keys, status, now) => NewerAppend(h, u, Present(rows, u, keys), status, now, id);
      case Saved(u, jobs, now) =>
        assert id in Insert(rows, u, jobs, now) && id !in rows ==> Insert(rows, u, jobs, now)[id].status.None?;
      case _ =>
    }
  }

  lemma RootedStep(rows: Table, h: History, e: Effect, id: RowId)
    requires Rooted(rows, h, id)
    ensures Rooted(Write(rows, e), Record(h, rows, e), id)
  {
    match e {
      case Cleared(u) => NewestForget(h.entries, u, id);
      case StatusSet(u, keys, status, now) => NewerAppend(h, u, Present(rows, u, keys), status, now, id);
      case _ =>
    }
  }

  lemma {:induction false} AlwaysRooted(log: seq<Effect>, id: RowId)
    ensures Rooted(Replay(log).0, Replay(log).1, id)
  {
    if log != [] {
      var n := |log| - 1;
      AlwaysRooted(log[..n], id);
      RootedStep(Replay(log[..n]).0, Replay(log[..n]).1, log[n], id);
    }
  }

  /** The last change of the job since its user's last clear, if any, was in line. */
  predicate LastInLine(log: seq<Effect>, id: RowId) {
    log != [] ==>
      var n := |log| - 1;
      var (rows, h) := Replay(log[..n]);
      if Changes(rows, log[n], id) then InLine(h, log[n], id)
      else log[n] == Cleared(id.user) || LastInLine(log[..n], id)
  }

  /** After any sequence of transactions, stamped in any way, status and history of a job
      agree if and only if the last change of that job was in line when it was made;
      neither earlier changes nor those of other jobs matter. */
  lemma {:induction false} AgreesIffLastInLine(log: seq<Effect>, id: RowId)
    ensures Agrees(Replay(log).0, Replay(log).1, id) <==> LastInLine(log, id)
  {
    if log != [] {
      var n := |log| - 1;
      var (rows, h) := Replay(log[..n]);
      AlwaysRooted(log[..n], id);
      AgreesIffLastInLine(log[..n], id);
      if Changes(rows, log[n], id) {
        ChangeAgrees(rows, h, log[n], id);
      } else {
        OthersKeepAgreement(rows, h, log[n], id);
      }
    }
  }

  /** One change of one stored job. */
  lemma OneChange(rows: Table, h: History, id: RowId, status: Option<Status>, now: Time)
    requires id in rows && Numbered(h)
    ensures var e := StatusSet(id.user, [id.key], status, now);
            var was, first := Newest(h.entries, id), Newest(Record(h, rows, e).entries, id);
            && id in Write(rows, e) && Numbered(Record(h, rows, e))
            && (Agrees(Write(rows, e), Record(h, rows, e), id) <==> InLine(h, e, id))
            && if was.None? || was.value.at <= now
               then first.Some? && first.value.at == now && first.value.status == status
               else first == was
  {
    PresentOne(rows, id.user, id.key);
    ChangeAgrees(rows, h, StatusSet(id.user, [id.key], status, now), id);
    NewerAppend(h, id.user, [id.key], status, now, id);
  }

  /** Two changes of one stored job, the first stamped no earlier than its history: row and
      history agree afterwards exactly when the clock did not step back in between, or both
      changes set the same status. */
  lemma AgreesIffClockOrdered(rows: Table, h: History, id: RowId, first: Option<Status>, second: Option<Status>,
                              t1: Time, t2: Time)
    requires id in rows && Numbered(h)
    requires Newest(h.entries, id).Some? ==> Newest(h.entries, id).value.at <= t1
    ensures var e1, e2 := StatusSet(id.user, [id.key], first, t1), StatusSet(id.user, [id.key], second, t2);
            var rows1, h1 := Write(rows, e1), Record(h, rows, e1);
            var rows2, h2 := Write(rows1, e2), Record(h1, rows1, e2);
            Agrees(rows2, h2, id) <==> (t1 <= t2 || first == second)
  {
    var e1 := StatusSet(id.user, [id.key], first, t1);
    OneChange(rows, h, id, first, t1);
    OneChange(Write(rows, e1), Record(h, rows, e1), id, second, t2);
  }

  /** So a clock that goes back for a while may do no harm: changes of one job stamped 10,
      5 and 20 agree in the end, though not after the second. */
  lemma ClockBackAndForth(rows: Table, h: History, id: RowId, a: Status, b: Status, c: Status)
    requires id in rows && Numbered(h) && Newest(h.entries, id).None? && a != b
    ensures var e1, e2, e3 := StatusSet(id.user, [id.key], Some(a), 10), StatusSet(id.user, [id.key], Some(b), 5),
                              StatusSet(id.user, [id.key], Some(c), 20);
            var rows1, h1 := Write(rows, e1), Record(h, rows, e1);
            var rows2, h2 := Write(rows1, e2), Record(h1, rows1, e2);
            var rows3, h3 := Write(rows2, e3), Record(h2, rows2, e3);
            Agrees(rows1, h1, id) && !Agrees(rows2, h2, id) && Agrees(rows3, h3, id)
  {
    var e1, e2, e3 := StatusSet(id.user, [id.key], Some(a), 10), StatusSet(id.user, [id.key], Some(b), 5),
                      StatusSet(id.user, [id.key], Some(c), 20);
    var rows1, h1 := Write(rows, e1), Record(h, rows, e1);
    var rows2, h2 := Write(rows1, e2), Record(h1, rows1, e2);
    OneChange(rows, h, id, Some(a), 10);
    OneChange(rows1, h1, id, Some(b), 5);
    OneChange(Write(rows1, e2), Record(h1, rows1, e2), id, Some(c), 20);
  }
}

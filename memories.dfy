/**
 * The memories router: state changes with their status history, the per-event handlers
 * that write back what the memory engine returned, the batch that partitions those results
 * and commits once, app-level access rules, the precedence of pause requests, and the
 * validation of the sort order of memory listings.
 *
 * The database session is modelled by two copies of the tables: the session's own view,
 * which every query reads (the session flushes before it queries), and the committed
 * tables, which a commit overwrites with the session's view.
 */
module Memories {
  import opened Wrappers
  import opened Models
  import Strings
  import Json

  /** An `HTTPException`: its status code and detail text. */
  datatype HttpError = HttpError(status: int, detail: string)

  const MemoryNotFound := HttpError(404, "Memory not found")
  const UserNotFound := HttpError(404, "User not found")

  /** A memory row; timestamps are the clock readings passed in as `now`. */
  datatype MemoryRow = MemoryRow(
    userId: string,
    appId: string,
    content: string,
    metadata: Json.Object,
    state: MemoryState,
    archivedAt: Option<int>,
    deletedAt: Option<int>)

  /** A row of the status-history table (its own timestamp is not modelled). */
  datatype HistoryRecord = HistoryRecord(
    memoryId: string, changedBy: string, oldState: MemoryState, newState: MemoryState)

  /** The memory table by primary key, and the status-history table in insertion order. */
  datatype Tables = Tables(memories: map<string, MemoryRow>, history: seq<HistoryRecord>)

  /* ---------------------------------------------------------------- status history */

  /** The new state of the last history record of memory `id`, if it has any. */
  function LastState(history: seq<HistoryRecord>, id: string): Option<MemoryState>
    decreases |history|
  {
    if history == [] then None
    else if history[|history| - 1].memoryId == id then Some(history[|history| - 1].newState)
    else LastState(history[..|history| - 1], id)
  }

  /** Every memory's state is the one its last history record moved it to. */
  predicate Tracked(t: Tables) {
    forall id :: id in t.memories ==> LastState(t.history, id) == Some(t.memories[id].state)
  }

  lemma LastStateAppend(history: seq<HistoryRecord>, record: HistoryRecord, id: string)
    ensures LastState(history + [record], id)
      == if record.memoryId == id then Some(record.newState) else LastState(history, id)
  {
    assert (history + [record])[..|history|] == history;
  }

  /** Overwriting row `id` and logging its new state keeps every memory tracked. */
  lemma TrackedAfterLoggedChange(t: Tables, id: string, row: MemoryRow, record: HistoryRecord)
    requires Tracked(t)
    requires record.memoryId == id && record.newState == row.state
    ensures Tracked(Tables(t.memories[id := row], t.history + [record]))
  {
    forall other | other in t.memories[id := row]
      ensures LastState(t.history + [record], other) == Some(t.memories[id := row][other].state)
    {
      LastStateAppend(t.history, record, other);
    }
  }

  /* ---------------------------------------------------------------- lookups and state changes */

  /** `get_memory_or_404`: any row with that id, whatever its state. */
  function FindMemory(t: Tables, id: string): (r: Result<MemoryRow, HttpError>)
    ensures r.Ok? <==> id in t.memories
    ensures r.Ok? ==> r.value == t.memories[id]
    ensures r.Err? ==> r.error == MemoryNotFound
  {
    if id in t.memories then Ok(t.memories[id]) else Err(MemoryNotFound)
  }

  /** The row after a state change: the archive and delete timestamps move only on those states. */
  function WithState(row: MemoryRow, s: MemoryState, now: int): MemoryRow {
    row.(state := s,
         archivedAt := if s == Archived then Some(now) else row.archivedAt,
         deletedAt := if s == Deleted then Some(now) else row.deletedAt)
  }

  /** `update_memory_state`: a missing memory is a 404; otherwise the state changes, the
      timestamp of an archive or delete is set, and exactly one history record is added. */
  function UpdateState(t: Tables, id: string, s: MemoryState, actor: string, now: int)
    : (r: Result<Tables, HttpError>)
    ensures r.Err? <==> id !in t.memories
    ensures r.Err? ==> r.error == MemoryNotFound
    ensures r.Ok? ==> r.value.memories.Keys == t.memories.Keys
    ensures r.Ok? ==> forall other :: other in t.memories && other != id ==>
      r.value.memories[other] == t.memories[other]
    ensures r.Ok? ==> var old_ := t.memories[id]; var new_ := r.value.memories[id];
      && new_.state == s
      && new_.(state := old_.state, archivedAt := old_.archivedAt, deletedAt := old_.deletedAt) == old_
      && (new_.archivedAt != old_.archivedAt ==> s == Archived)
      && (new_.deletedAt != old_.deletedAt ==> s == Deleted)
    ensures r.Ok? ==> r.value.history == t.history + [HistoryRecord(id, actor, t.memories[id].state, s)]
  {
    var row :- FindMemory(t, id);
    Ok(Tables(t.memories[id := WithState(row, s, now)],
              t.history + [HistoryRecord(id, actor, row.state, s)]))
  }

  lemma UpdateStateTracked(t: Tables, id: string, s: MemoryState, actor: string, now: int)
    requires Tracked(t)
    ensures UpdateState(t, id, s, actor, now).Ok? ==> Tracked(UpdateState(t, id, s, actor, now).value)
  {
    if id in t.memories {
      TrackedAfterLoggedChange(t, id, WithState(t.memories[id], s, now),
        HistoryRecord(id, actor, t.memories[id].state, s));
    }
  }

  /** The loop of `delete_memories`, `archive_memories` and the listed-ids branch of
      `pause_memories`: one committed state change per id, in order, until the first 404,
      which leaves the changes before it committed. */
  function UpdateAll(t: Tables, ids: seq<string>, s: MemoryState, actor: string, now: int)
    : (Tables, Option<HttpError>)
    decreases |ids|
  {
    if ids == [] then (t, None)
    else
      var (t1, failed) := UpdateAll(t, ids[..|ids| - 1], s, actor, now);
      if failed.Some? then (t1, failed)
      else match UpdateState(t1, ids[|ids| - 1], s, actor, now)
        case Ok(t2) => (t2, None)
        case Err(e) => (t1, Some(e))
  }

  /** One more id after a run without failure applies that id's update. */
  lemma UpdateAllStep(t: Tables, ids: seq<string>, i: nat, s: MemoryState, actor: string, now: int)
    requires i < |ids| && UpdateAll(t, ids[..i], s, actor, now).1.None?
    ensures var t1 := UpdateAll(t, ids[..i], s, actor, now).0;
      UpdateAll(t, ids[..i + 1], s, actor, now) == match UpdateState(t1, ids[i], s, actor, now)
        case Ok(t2) => (t2, None)
        case Err(e) => (t1, Some(e))
  {
    assert ids[..i + 1][..i] == ids[..i];
  }

  /** A failure stays the outcome however many ids follow it. */
  lemma {:induction false} UpdateAllFailureSticks(
    t: Tables, ids: seq<string>, j: nat, s: MemoryState, actor: string, now: int)
    requires j <= |ids|
    requires UpdateAll(t, ids[..j], s, actor, now).1.Some?
    ensures UpdateAll(t, ids, s, actor, now) == UpdateAll(t, ids[..j], s, actor, now)
    decreases |ids| - j
  {
    if j < |ids| {
      assert ids[..|ids| - 1][..j] == ids[..j];
      UpdateAllFailureSticks(t, ids[..|ids| - 1], j, s, actor, now);
    } else {
      assert ids[..j] == ids;
    }
  }

  /** The batch succeeds exactly when every id names a memory; then each of them has the new
      state, the key set is unchanged, and the history grew by one record per id. */
  lemma {:induction false} UpdateAllEffect(t: Tables, ids: seq<string>, s: MemoryState, actor: string, now: int)
    ensures var (t', failed) := UpdateAll(t, ids, s, actor, now);
      && t'.memories.Keys == t.memories.Keys
      && (failed.None? <==> forall id :: id in ids ==> id in t.memories)
      && (failed.Some? ==> failed.value == MemoryNotFound)
      && (failed.None? ==>
            |t'.history| == |t.history| + |ids| && forall id :: id in ids ==> t'.memories[id].state == s)
    decreases |ids|
  {
    if ids != [] {
      var init := ids[..|ids| - 1];
      var last := ids[|ids| - 1];
      UpdateAllEffect(t, init, s, actor, now);
      assert forall id :: id in ids <==> id in init || id == last;
    }
  }

  lemma {:induction false} UpdateAllTracked(t: Tables, ids: seq<string>, s: MemoryState, actor: string, now: int)
    requires Tracked(t)
    ensures Tracked(UpdateAll(t, ids, s, actor, now).0)
    decreases |ids|
  {
    if ids != [] {
      var init := ids[..|ids| - 1];
      UpdateAllTracked(t, init, s, actor, now);
      var (t1, failed) := UpdateAll(t, init, s, actor, now);
      if failed.None? {
        UpdateStateTracked(t1, ids[|ids| - 1], s, actor, now);
      }
    }
  }

  /* ---------------------------------------------------------------- event handlers */

  /** What the request supplies to every handler: the user's and the app's row ids, the
      request's metadata, and the clock reading used for timestamps. */
  datatype Context = Context(userId: string, appId: string, metadata: Json.Object, now: int)

  /** The four keys of `EVENT_HANDLERS`. */
  datatype Event = AddEvent | UpdateEvent | DeleteEvent | NoneEvent {
    function Name(): string {
      match this
      case AddEvent => "ADD"
      case UpdateEvent => "UPDATE"
      case DeleteEvent => "DELETE"
      case NoneEvent => "NONE"
    }
  }

  /** `EVENT_HANDLERS.get(result.get('event'))`. */
  function HandlerFor(event: Option<string>): (r: Option<Event>)
    ensures r.Some? ==> event == Some(r.value.Name())
    ensures r.None? ==> forall e: Event :: event != Some(e.Name())
  {
    match event
    case None => None
    case Some(name) =>
      if name == "ADD" then Some(AddEvent)
      else if name == "UPDATE" then Some(UpdateEvent)
      else if name == "DELETE" then Some(DeleteEvent)
      else if name == "NONE" then Some(NoneEvent)
      else None
  }

  /** The action string a handler returns. */
  datatype Action = Created | Updated | Removed | Skipped

  /** A handler either returns its action or raises; the one exception the handlers can
      raise is the KeyError of a result without a `memory` field. */
  datatype Outcome = Returned(action: Action) | Raised

  /** `_create_or_update_memory`: an existing row is set active and then given the new
      content; a new row is built from the content and added. `ok` is false where reading
      the missing content raised, after the existing row was already set active. */
  function CreateOrUpdate(t: Tables, id: string, content: Option<string>, ctx: Context)
    : (r: (Tables, bool))
  {
    if id in t.memories then
      var activated := t.memories[id].(state := Active);
      match content
      case None => (t.(memories := t.memories[id := activated]), false)
      case Some(c) => (t.(memories := t.memories[id := activated.(content := c)]), true)
    else
      match content
      case None => (t, false)
      case Some(c) =>
        (t.(memories := t.memories[id := MemoryRow(ctx.userId, ctx.appId, c, ctx.metadata, Active, None, None)]),
         true)
  }

  /** One handler of `EVENT_HANDLERS` applied to the session's tables. The ADD and UPDATE
      handlers both log the change as active to active: UPDATE passes active as the old
      state, and ADD reads the row's state after it was set to active. */
  function Handle(t: Tables, e: Event, id: string, content: Option<string>, ctx: Context)
    : (Tables, Outcome)
  {
    match e
    case AddEvent | UpdateEvent =>
      var (t1, ok) := CreateOrUpdate(t, id, content, ctx);
      if !ok then (t1, Raised)
      else
        (t1.(history := t1.history + [HistoryRecord(id, ctx.userId, Active, Active)]),
         Returned(if e == UpdateEvent && id in t.memories then Updated else Created))
    case DeleteEvent =>
      if id !in t.memories then (t, Returned(Skipped))
      else
        (Tables(t.memories[id := t.memories[id].(state := Deleted, deletedAt := Some(ctx.now))],
                t.history + [HistoryRecord(id, ctx.userId, Active, Deleted)]),
         Returned(Removed))
    case NoneEvent => (t, Returned(Skipped))
  }

  /** ADD and UPDATE with content store it in an active row, keep every other row, log one
      record, and report "created" unless UPDATE found the row already there. */
  lemma WriteEventEffect(t: Tables, e: Event, id: string, c: string, ctx: Context)
    requires e == AddEvent || e == UpdateEvent
    ensures var (t', out) := Handle(t, e, id, Some(c), ctx);
      && t'.memories.Keys == t.memories.Keys + {id}
      && t'.memories[id].state == Active && t'.memories[id].content == c
      && (forall other :: other in t.memories && other != id ==> t'.memories[other] == t.memories[other])
      && (id in t.memories ==> t'.memories[id] == t.memories[id].(state := Active, content := c))
      && (id !in t.memories ==>
            t'.memories[id] == MemoryRow(ctx.userId, ctx.appId, c, ctx.metadata, Active, None, None))
      && t'.history == t.history + [HistoryRecord(id, ctx.userId, Active, Active)]
      && out == Returned(if e == UpdateEvent && id in t.memories then Updated else Created)
  {
  }

  /** Without content both handlers raise with no history record; a new row is not added,
      but an existing row has already been set active. */
  lemma WriteEventWithoutContent(t: Tables, e: Event, id: string, ctx: Context)
    requires e == AddEvent || e == UpdateEvent
    ensures var (t', out) := Handle(t, e, id, None, ctx);
      && out == Raised
      && t'.history == t.history
      && t'.memories == if id in t.memories then t.memories[id := t.memories[id].(state := Active)]
                        else t.memories
  {
  }

  /** DELETE of a missing memory changes nothing and returns "skipped"; otherwise the row is
      marked deleted with its timestamp and the change is logged as coming from active. */
  lemma DeleteEventEffect(t: Tables, id: string, content: Option<string>, ctx: Context)
    ensures var (t', out) := Handle(t, DeleteEvent, id, content, ctx);
      && (id !in t.memories ==> t' == t && out == Returned(Skipped))
      && (id in t.memories ==>
            && out == Returned(Removed)
            && t'.memories == t.memories[id := t.memories[id].(state := Deleted, deletedAt := Some(ctx.now))]
            && t'.history == t.history + [HistoryRecord(id, ctx.userId, Active, Deleted)])
  {
  }

  /** NONE changes nothing. */
  lemma NoneEventEffect(t: Tables, id: string, content: Option<string>, ctx: Context)
    ensures Handle(t, NoneEvent, id, content, ctx) == (t, Returned(Skipped))
  {
  }

  /** A handler that returns keeps every memory tracked, and no handler removes a row. */
  lemma HandleTracked(t: Tables, e: Event, id: string, content: Option<string>, ctx: Context)
    requires Tracked(t)
    ensures Handle(t, e, id, content, ctx).1.Returned? ==> Tracked(Handle(t, e, id, content, ctx).0)
    ensures t.memories.Keys <= Handle(t, e, id, content, ctx).0.memories.Keys
  {
    var (t', out) := Handle(t, e, id, content, ctx);
    match e
    case AddEvent | UpdateEvent =>
      if content.Some? {
        TrackedAfterLoggedChange(t, id, t'.memories[id], HistoryRecord(id, ctx.userId, Active, Active));
        assert t' == Tables(t.memories[id := t'.memories[id]], t.history + [HistoryRecord(id, ctx.userId, Active, Active)]);
      }
    case DeleteEvent =>
      if id in t.memories {
        TrackedAfterLoggedChange(t, id, t'.memories[id], HistoryRecord(id, ctx.userId, Active, Deleted));
      }
    case NoneEvent =>
  }

  /** A raising ADD on a paused memory leaves it active with "paused" as its last logged
      state: the partial change is untracked, and it is committed with the rest of the batch. */
  lemma RaisedAddUntracks(t: Tables, id: string, ctx: Context)
    requires Tracked(t)
    requires id in t.memories && t.memories[id].state == Paused
    ensures var (t', out) := Handle(t, AddEvent, id, None, ctx);
      out == Raised && t'.memories[id].state == Active && !Tracked(t')
  {
    var (t', out) := Handle(t, AddEvent, id, None, ctx);
    assert LastState(t'.history, id) == Some(Paused);
  }

  /* ---------------------------------------------------------------- the batch of results */

  /** One entry of the memory engine's `results`: its `event` field, its `id` when present
      and a well-formed UUID, and its `memory` field. */
  datatype EngineResult = EngineResult(event: Option<string>, id: Option<string>, memory: Option<string>)

  datatype SkipReason = UnknownEventType | HandlerError | Noop

  datatype Skip = Skip(id: string, event: Option<string>, reason: SkipReason)

  /** The four lists the batch sorts results into. */
  datatype Batch = Batch(created: seq<string>, updated: seq<string>, deleted: seq<string>, skipped: seq<Skip>) {
    function TotalChanges(): nat {
      |created| + |updated| + |deleted|
    }

    function TotalProcessed(): nat {
      TotalChanges() + |skipped|
    }
  }

  const EmptyBatch := Batch([], [], [], [])

  /** Where a handler's outcome lands; "skipped" counts as a no-op only for a NONE event. */
  function Record(b: Batch, id: string, event: Option<string>, out: Outcome): Batch {
    match out
    case Raised => b.(skipped := b.skipped + [Skip(id, event, HandlerError)])
    case Returned(Created) => b.(created := b.created + [id])
    case Returned(Updated) => b.(updated := b.updated + [id])
    case Returned(Removed) => b.(deleted := b.deleted + [id])
    case Returned(Skipped) =>
      b.(skipped := b.skipped + [Skip(id, event, if event == Some("NONE") then Noop else UnknownEventType)])
  }

  /** One iteration of the loop over `results`; `None` where the id is missing or malformed,
      which aborts the whole request. */
  function Step(t: Tables, b: Batch, r: EngineResult, ctx: Context): Option<(Tables, Batch)> {
    match r.id
    case None => None
    case Some(id) =>
      match HandlerFor(r.event)
      case None => Some((t, b.(skipped := b.skipped + [Skip(id, r.event, UnknownEventType)])))
      case Some(e) =>
        var (t1, out) := Handle(t, e, id, r.memory, ctx);
        Some((t1, Record(b, id, r.event, out)))
  }

  /** The loop over `results`, on the session's tables. */
  function Process(t: Tables, results: seq<EngineResult>, ctx: Context): Option<(Tables, Batch)>
    decreases |results|
  {
    if results == [] then Some((t, EmptyBatch))
    else match Process(t, results[..|results| - 1], ctx)
      case None => None
      case Some(p) => Step(p.0, p.1, results[|results| - 1], ctx)
  }

  /** An unknown event and a raising handler skip the result and leave the tables as the
      handler left them; a DELETE of a missing memory is reported as an unknown event type. */
  lemma StepSkips(t: Tables, b: Batch, r: EngineResult, ctx: Context)
    requires r.id.Some?
    ensures HandlerFor(r.event).None? ==>
      Step(t, b, r, ctx) == Some((t, b.(skipped := b.skipped + [Skip(r.id.value, r.event, UnknownEventType)])))
    ensures (r.event == Some("ADD") || r.event == Some("UPDATE")) && r.memory.None? ==>
      Step(t, b, r, ctx).value.1 == b.(skipped := b.skipped + [Skip(r.id.value, r.event, HandlerError)])
    ensures r.event == Some("DELETE") && r.id.value !in t.memories ==>
      Step(t, b, r, ctx) == Some((t, b.(skipped := b.skipped + [Skip(r.id.value, r.event, UnknownEventType)])))
    ensures r.event == Some("NONE") ==>
      Step(t, b, r, ctx) == Some((t, b.(skipped := b.skipped + [Skip(r.id.value, r.event, Noop)])))
  {
  }

  /** The loop aborts exactly when some result has no usable id. */
  lemma {:induction false} ProcessAborts(t: Tables, results: seq<EngineResult>, ctx: Context)
    ensures Process(t, results, ctx).None? <==> exists i :: 0 <= i < |results| && results[i].id.None?
    decreases |results|
  {
    if results != [] {
      var init := results[..|results| - 1];
      ProcessAborts(t, init, ctx);
      if Process(t, init, ctx).None? {
        var i :| 0 <= i < |init| && init[i].id.None?;
        assert results[i].id.None?;
      } else if results[|results| - 1].id.Some? {
        forall i | 0 <= i < |results| ensures results[i].id.Some? {
          if i < |init| { assert results[i] == init[i]; }
        }
      }
    }
  }

  /** A batch that completes accounts for every result once, and every row it created,
      updated or deleted exists afterwards; no row is removed. */
  lemma {:induction false} ProcessAccounts(t: Tables, results: seq<EngineResult>, ctx: Context)
    requires Process(t, results, ctx).Some?
    ensures var (t', b) := Process(t, results, ctx).value;
      && b.TotalProcessed() == |results|
      && t.memories.Keys <= t'.memories.Keys
      && (forall id :: id in b.created || id in b.updated || id in b.deleted ==> id in t'.memories)
    decreases |results|
  {
    if results != [] {
      var init := results[..|results| - 1];
      var r := results[|results| - 1];
      ProcessAccounts(t, init, ctx);
      var (t1, b1) := Process(t, init, ctx).value;
      match HandlerFor(r.event)
      case None =>
      case Some(e) =>
        var (t2, out) := Handle(t1, e, r.id.value, r.memory, ctx);
        assert t1.memories.Keys <= t2.memories.Keys by {
          match e
          case AddEvent | UpdateEvent =>
          case DeleteEvent =>
          case NoneEvent =>
        }
        if out == Returned(Created) || out == Returned(Updated) || out == Returned(Removed) {
          assert r.id.value in t2.memories;
        }
    }
  }

  /** Results that all carry a NONE event, or events without a handler, change nothing. */
  lemma {:induction false} ProcessOnlySkips(t: Tables, results: seq<EngineResult>, ctx: Context)
    requires forall i :: 0 <= i < |results| ==> results[i].id.Some?
    requires forall i :: 0 <= i < |results| ==>
      results[i].event == Some("NONE") || HandlerFor(results[i].event).None?
    ensures Process(t, results, ctx).Some?
    ensures Process(t, results, ctx).value.0 == t
    ensures Process(t, results, ctx).value.1.TotalChanges() == 0
    decreases |results|
  {
    if results != [] {
      ProcessOnlySkips(t, results[..|results| - 1], ctx);
    }
  }

  /** The memory the request returns: the first created, else updated, else deleted one. */
  function First(b: Batch): Option<string> {
    if b.created != [] then Some(b.created[0])
    else if b.updated != [] then Some(b.updated[0])
    else if b.deleted != [] then Some(b.deleted[0])
    else None
  }

  lemma FirstOfChanges(b: Batch)
    ensures First(b).Some? <==> b.TotalChanges() > 0
    ensures First(b).Some? ==> First(b).value in b.created || First(b).value in b.updated || First(b).value in b.deleted
    ensures b.created != [] ==> First(b) == Some(b.created[0])
    ensures b.created == [] && b.updated != [] ==> First(b) == Some(b.updated[0])
    ensures b.created == [] && b.updated == [] && b.deleted != [] ==> First(b) == Some(b.deleted[0])
  {
  }

  /** What `create_memory` returns once the memory engine answered: the committed row of
      the first changed memory, `null`, or an error object. */
  datatype Response = MemoryReturned(id: string, row: MemoryRow) | NullReturned | ErrorReturned

  /** The committed tables and the response of `create_memory` after the engine's answer;
      `results` is `None` where the answer is not a dict with a `results` field. Only a batch
      with at least one change is committed. */
  function Create(t: Tables, results: Option<seq<EngineResult>>, ctx: Context): (Tables, Response) {
    match results
    case None => (t, NullReturned)
    case Some(rs) =>
      match Process(t, rs, ctx)
      case None => (t, ErrorReturned)
      case Some(p) =>
        if p.1.TotalChanges() == 0 then (t, NullReturned)
        else
          var id := First(p.1).value;
          if id in p.0.memories then (p.0, MemoryReturned(id, p.0.memories[id])) else (t, ErrorReturned)
  }

  /** The request commits exactly when the batch completes with a change, and then returns
      the first changed memory by the created, updated, deleted priority; a commit keeps
      every memory tracked only when no handler raised. */
  lemma {:induction false} CreateEffect(t: Tables, rs: seq<EngineResult>, ctx: Context)
    ensures var (t', resp) := Create(t, Some(rs), ctx);
      && (t' != t ==> Process(t, rs, ctx).Some? && Process(t, rs, ctx).value.1.TotalChanges() > 0)
      && (resp.MemoryReturned? <==> Process(t, rs, ctx).Some? && Process(t, rs, ctx).value.1.TotalChanges() > 0)
      && (resp.MemoryReturned? ==>
            t' == Process(t, rs, ctx).value.0 && Some(resp.id) == First(Process(t, rs, ctx).value.1)
            && resp.row == t'.memories[resp.id])
      && (resp == ErrorReturned <==> exists i :: 0 <= i < |rs| && rs[i].id.None?)
  {
    ProcessAborts(t, rs, ctx);
    if Process(t, rs, ctx).Some? {
      var (t1, b) := Process(t, rs, ctx).value;
      ProcessAccounts(t, rs, ctx);
      FirstOfChanges(b);
    }
  }

  /* ---------------------------------------------------------------- the session */

  /** The tables as the request's session sees them (`memories`, `history`) and as they are
      committed (`savedMemories`, `savedHistory`). */
  class MemoryDb {
    var memories: map<string, MemoryRow>
    var history: seq<HistoryRecord>
    var savedMemories: map<string, MemoryRow>
    var savedHistory: seq<HistoryRecord>

    function Session(): Tables
      reads this
    {
      Tables(memories, history)
    }

    function Saved(): Tables
      reads this
    {
      Tables(savedMemories, savedHistory)
    }

    constructor (t: Tables)
      ensures Session() == t && Saved() == t
    {
      memories, history := t.memories, t.history;
      savedMemories, savedHistory := t.memories, t.history;
    }

    /** `db.commit()`. */
    method Commit()
      modifies this
      ensures Session() == old(Session()) && Saved() == old(Session())
    {
      savedMemories, savedHistory := memories, history;
    }

    /** Closing the session without a commit discards what it holds. */
    method Discard()
      modifies this
      ensures Session() == old(Saved()) && Saved() == old(Saved())
    {
      memories, history := savedMemories, savedHistory;
    }

    /** `update_memory_state`: the change is committed at once. */
    method UpdateMemoryState(id: string, s: MemoryState, actor: string, now: int)
      returns (r: Result<MemoryRow, HttpError>)
      modifies this
      ensures match UpdateState(old(Session()), id, s, actor, now)
        case Err(e) => r == Err(e) && Session() == old(Session()) && Saved() == old(Saved())
        case Ok(t) => Session() == t && Saved() == t && r == Ok(t.memories[id])
    {
      if id !in memories {
        return Err(MemoryNotFound);
      }
      var row := memories[id];
      var oldState := row.state;
      row := row.(state := s);
      if s == Archived {
        row := row.(archivedAt := Some(now));
      } else if s == Deleted {
        row := row.(deletedAt := Some(now));
      }
      memories := memories[id := row];
      history := history + [HistoryRecord(id, actor, oldState, s)];
      Commit();
      r := Ok(row);
    }

    /** One committed state change per id, stopping at the first 404. */
    method UpdateMemoryStates(ids: seq<string>, s: MemoryState, actor: string, now: int)
      returns (failed: Option<HttpError>)
      requires Session() == Saved()
      modifies this
      ensures (Saved(), failed) == UpdateAll(old(Saved()), ids, s, actor, now)
      ensures Session() == Saved()
    {
      var i := 0;
      while i < |ids|
        invariant 0 <= i <= |ids|
        invariant UpdateAll(old(Saved()), ids[..i], s, actor, now) == (Saved(), None)
        invariant Session() == Saved()
      {
        UpdateAllStep(old(Saved()), ids, i, s, actor, now);
        var r := UpdateMemoryState(ids[i], s, actor, now);
        if r.Err? {
          UpdateAllFailureSticks(old(Saved()), ids, i + 1, s, actor, now);
          return Some(r.error);
        }
        i := i + 1;
      }
      assert ids[..i] == ids;
      failed := None;
    }

    /** `_create_or_update_memory` on the session. */
    method CreateOrUpdateMemory(id: string, content: Option<string>, ctx: Context) returns (ok: bool)
      modifies this
      ensures (Session(), ok) == CreateOrUpdate(old(Session()), id, content, ctx)
      ensures Saved() == old(Saved())
    {
      if id in memories {
        var activated := memories[id].(state := Active);
        if content.None? {
          memories := memories[id := activated];
          return false;
        }
        memories := memories[id := activated.(content := content.value)];
        return true;
      }
      if content.None? {
        return false;
      }
      memories := memories[id := MemoryRow(ctx.userId, ctx.appId, content.value, ctx.metadata, Active, None, None)];
      ok := true;
    }

    /** `_handle_add_event`. */
    method HandleAdd(id: string, content: Option<string>, ctx: Context) returns (out: Outcome)
      modifies this
      ensures (Session(), out) == Handle(old(Session()), AddEvent, id, content, ctx)
      ensures Saved() == old(Saved())
    {
      var ok := CreateOrUpdateMemory(id, content, ctx);
      if !ok {
        return Raised;
      }
      history := history + [HistoryRecord(id, ctx.userId, Active, Active)];
      out := Returned(Created);
    }

    /** `_handle_update_event`. */
    method HandleUpdate(id: string, content: Option<string>, ctx: Context) returns (out: Outcome)
      modifies this
      ensures (Session(), out) == Handle(old(Session()), UpdateEvent, id, content, ctx)
      ensures Saved() == old(Saved())
    {
      var existed := id in memories;
      var ok := CreateOrUpdateMemory(id, content, ctx);
      if !ok {
        return Raised;
      }
      history := history + [HistoryRecord(id, ctx.userId, Active, Active)];
      out := Returned(if existed then Updated else Created);
    }

    /** `_handle_delete_event`. */
    method HandleDelete(id: string, content: Option<string>, ctx: Context) returns (out: Outcome)
      modifies this
      ensures (Session(), out) == Handle(old(Session()), DeleteEvent, id, content, ctx)
      ensures Saved() == old(Saved())
    {
      if id !in memories {
        return Returned(Skipped);
      }
      memories := memories[id := memories[id].(state := Deleted, deletedAt := Some(ctx.now))];
      history := history + [HistoryRecord(id, ctx.userId, Active, Deleted)];
      out := Returned(Removed);
    }

    /** The loop over `results` on the session; `None` where it aborted. */
    method ProcessResults(results: seq<EngineResult>, ctx: Context) returns (r: Option<Batch>)
      modifies this
      ensures Saved() == old(Saved())
      ensures match Process(old(Session()), results, ctx)
        case None => r.None?
        case Some(p) => r == Some(p.1) && Session() == p.0
    {
      var b := EmptyBatch;
      var i := 0;
      while i < |results|
        invariant 0 <= i <= |results|
        invariant Process(old(Session()), results[..i], ctx) == Some((Session(), b))
        invariant Saved() == old(Saved())
      {
        var result := results[i];
        assert results[..i + 1][..i] == results[..i];
        if result.id.None? {
          ProcessAbortsAfter(old(Session()), results, i, ctx);
          return None;
        }
        var id := result.id.value;
        var handler := HandlerFor(result.event);
        if handler.None? {
          b := b.(skipped := b.skipped + [Skip(id, result.event, UnknownEventType)]);
        } else {
          var out;
          match handler.value {
            case AddEvent => out := HandleAdd(id, result.memory, ctx);
            case UpdateEvent => out := HandleUpdate(id, result.memory, ctx);
            case DeleteEvent => out := HandleDelete(id, result.memory, ctx);
            case NoneEvent => out := Returned(Skipped);
          }
          b := Record(b, id, result.event, out);
        }
        i := i + 1;
      }
      assert results[..i] == results;
      r := Some(b);
    }

    /** `create_memory` from the engine's answer on: the batch is committed only when it
        changed something, and the session is closed afterwards. */
    method CreateMemory(results: Option<seq<EngineResult>>, ctx: Context) returns (resp: Response)
      requires Session() == Saved()
      modifies this
      ensures (Saved(), resp) == Create(old(Saved()), results, ctx)
      ensures Session() == Saved()
    {
      if results.None? {
        return NullReturned;
      }
      var batch := ProcessResults(results.value, ctx);
      if batch.None? || batch.value.TotalChanges() == 0 {
        Discard();
        return if batch.None? then ErrorReturned else NullReturned;
      }
      ProcessAccounts(old(Saved()), results.value, ctx);
      FirstOfChanges(batch.value);
      Commit();
      var id := First(batch.value).value;
      resp := MemoryReturned(id, savedMemories[id]);
    }
  }

  /** After an abort at position `i` the whole loop aborts. */
  lemma ProcessAbortsAfter(t: Tables, results: seq<EngineResult>, i: nat, ctx: Context)
    requires i < |results| && results[i].id.None?
    ensures Process(t, results, ctx).None?
  {
    ProcessAborts(t, results, ctx);
  }

  /* ---------------------------------------------------------------- access rules */

  /** An app-level access rule on memories: its effect and the memory it names, if any. */
  datatype AccessRule = AccessRule(effect: string, objectId: Option<string>)

  /** An allow or deny rule that names no memory covers all of them. */
  predicate Blanket(rule: AccessRule) {
    (rule.effect == "allow" || rule.effect == "deny") && rule.objectId.None?
  }

  /** The memories named by the rules with this effect. */
  function Named(rules: seq<AccessRule>, effect: string): set<string> {
    set rule | rule in rules && rule.effect == effect && rule.objectId.Some? :: rule.objectId.value
  }

  /** The loop over the rules, from the ids allowed and denied so far. */
  function Scan(rules: seq<AccessRule>, allowed: set<string>, denied: set<string>): Option<set<string>>
    decreases |rules|
  {
    if rules == [] then Some(allowed - denied)
    else
      var rule := rules[0];
      if rule.effect == "allow" then
        if rule.objectId.Some? then Scan(rules[1..], allowed + {rule.objectId.value}, denied) else None
      else if rule.effect == "deny" then
        if rule.objectId.Some? then Scan(rules[1..], allowed, denied + {rule.objectId.value}) else Some({})
      else Scan(rules[1..], allowed, denied)
  }

  /** `get_accessible_memory_ids` over the app's rules; `None` means every memory. */
  function Accessible(rules: seq<AccessRule>): Option<set<string>> {
    if rules == [] then None else Scan(rules, {}, {})
  }

  lemma NamedCons(rules: seq<AccessRule>, effect: string)
    requires rules != []
    ensures Named(rules, effect) ==
      (if rules[0].effect == effect && rules[0].objectId.Some? then {rules[0].objectId.value} else {})
      + Named(rules[1..], effect)
  {
    assert forall rule :: rule in rules <==> rule == rules[0] || rule in rules[1..];
  }

  /** Without blanket rules the result is the named allowed memories minus the named
      denied ones. */
  lemma {:induction false} ScanWithoutBlanket(rules: seq<AccessRule>, allowed: set<string>, denied: set<string>)
    requires forall i :: 0 <= i < |rules| ==> !Blanket(rules[i])
    ensures Scan(rules, allowed, denied) == Some((allowed + Named(rules, "allow")) - (denied + Named(rules, "deny")))
    decreases |rules|
  {
    if rules != [] {
      var rule := rules[0];
      NamedCons(rules, "allow");
      NamedCons(rules, "deny");
      assert forall i :: 0 <= i < |rules[1..]| ==> rules[1..][i] == rules[i + 1];
      assert !Blanket(rules[0]);
      if rule.effect == "allow" {
        ScanWithoutBlanket(rules[1..], allowed + {rule.objectId.value}, denied);
        assert (allowed + {rule.objectId.value}) + Named(rules[1..], "allow") == allowed + Named(rules, "allow");
        assert Named(rules[1..], "deny") == Named(rules, "deny");
      } else if rule.effect == "deny" {
        ScanWithoutBlanket(rules[1..], allowed, denied + {rule.objectId.value});
        assert (denied + {rule.objectId.value}) + Named(rules[1..], "deny") == denied + Named(rules, "deny");
        assert Named(rules[1..], "allow") == Named(rules, "allow");
      } else {
        ScanWithoutBlanket(rules[1..], allowed, denied);
        assert Named(rules[1..], "allow") == Named(rules, "allow");
        assert Named(rules[1..], "deny") == Named(rules, "deny");
      }
    } else {
      assert Named(rules, "allow") == {} && Named(rules, "deny") == {};
      assert allowed + {} == allowed && denied + {} == denied;
    }
  }

  /** The first blanket rule decides: a blanket allow grants everything, a blanket deny
      grants nothing, whatever follows. */
  lemma {:induction false} ScanFirstBlanket(rules: seq<AccessRule>, k: nat, allowed: set<string>, denied: set<string>)
    requires k < |rules| && Blanket(rules[k])
    requires forall i :: 0 <= i < k ==> !Blanket(rules[i])
    ensures Scan(rules, allowed, denied) == if rules[k].effect == "allow" then None else Some({})
    decreases k
  {
    if k > 0 {
      var rule := rules[0];
      assert forall i :: 0 <= i < k - 1 ==> rules[1..][i] == rules[i + 1];
      if rule.effect == "allow" {
        ScanFirstBlanket(rules[1..], k - 1, allowed + {rule.objectId.value}, denied);
      } else if rule.effect == "deny" {
        ScanFirstBlanket(rules[1..], k - 1, allowed, denied + {rule.objectId.value});
      } else {
        ScanFirstBlanket(rules[1..], k - 1, allowed, denied);
      }
    }
  }

  /** The three cases of the docstring and comments: no rules grant everything, the first
      blanket rule decides, otherwise allowed minus denied (empty when only denies exist). */
  lemma AccessibleCases(rules: seq<AccessRule>)
    ensures rules == [] ==> Accessible(rules).None?
    ensures forall k :: 0 <= k < |rules| && Blanket(rules[k]) && (forall i :: 0 <= i < k ==> !Blanket(rules[i])) ==>
      Accessible(rules) == if rules[k].effect == "allow" then None else Some({})
    ensures rules != [] && (forall i :: 0 <= i < |rules| ==> !Blanket(rules[i])) ==>
      Accessible(rules) == Some(Named(rules, "allow") - Named(rules, "deny"))
  {
    forall k | 0 <= k < |rules| && Blanket(rules[k]) && (forall i :: 0 <= i < k ==> !Blanket(rules[i]))
      ensures Accessible(rules) == if rules[k].effect == "allow" then None else Some({})
    {
      ScanFirstBlanket(rules, k, {}, {});
    }
    if rules != [] && (forall i :: 0 <= i < |rules| ==> !Blanket(rules[i])) {
      ScanWithoutBlanket(rules, {}, {});
      assert {} + Named(rules, "allow") == Named(rules, "allow");
      assert {} + Named(rules, "deny") == Named(rules, "deny");
    }
  }

  /** `get_accessible_memory_ids`, with the app's rules as the query returned them. */
  method AccessibleMemoryIds(rules: seq<AccessRule>) returns (r: Option<set<string>>)
    ensures r == Accessible(rules)
  {
    if rules == [] {
      return None;
    }
    var allowed: set<string> := {};
    var denied: set<string> := {};
    var i := 0;
    while i < |rules|
      invariant 0 <= i <= |rules|
      invariant Scan(rules[i..], allowed, denied) == Scan(rules, {}, {})
    {
      var rule := rules[i];
      assert rules[i..][0] == rule && rules[i..][1..] == rules[i + 1..];
      if rule.effect == "allow" {
        if rule.objectId.Some? {
          allowed := allowed + {rule.objectId.value};
        } else {
          return None;
        }
      } else if rule.effect == "deny" {
        if rule.objectId.Some? {
          denied := denied + {rule.objectId.value};
        } else {
          return Some({});
        }
      }
      i := i + 1;
    }
    assert rules[i..] == [];
    if allowed != {} {
      allowed := allowed - denied;
    } else {
      assert allowed - denied == {};
    }
    r := Some(allowed);
  }

  /* ---------------------------------------------------------------- pause requests */

  /** The fields of a pause request that choose what is paused. */
  datatype PauseRequest = PauseRequest(
    memoryIds: Option<seq<string>>,
    categoryIds: Option<seq<string>>,
    appId: Option<string>,
    allForApp: bool,
    globalPause: bool,
    state: Option<MemoryState>)

  /** Which branch of `pause_memories` runs, with the state it applies. */
  datatype PausePlan =
    | PauseAll(state: MemoryState)
    | PauseApp(appId: string, state: MemoryState)
    | PauseListedOfUser(ids: seq<string>, state: MemoryState)
    | PauseListed(ids: seq<string>, state: MemoryState)
    | PauseCategories(categoryIds: seq<string>, state: MemoryState)

  /** A list field is truthy when given and non-empty. */
  predicate Given<T>(list: Option<seq<T>>) {
    list.Some? && list.value != []
  }

  /** The branch `pause_memories` takes; `user` is the row id of the requesting user if
      there is one. */
  function PlanPause(req: PauseRequest, user: Option<string>): (r: Result<PausePlan, HttpError>)
    ensures r.Ok? ==> r.value.state == req.state.GetOr(Paused)
  {
    var s := req.state.GetOr(Paused);
    if user.None? then Err(UserNotFound)
    else if req.globalPause then Ok(PauseAll(s))
    else if req.appId.Some? then Ok(PauseApp(req.appId.value, s))
    else if req.allForApp && Given(req.memoryIds) then Ok(PauseListedOfUser(req.memoryIds.value, s))
    else if Given(req.memoryIds) then Ok(PauseListed(req.memoryIds.value, s))
    else if Given(req.categoryIds) then Ok(PauseCategories(req.categoryIds.value, s))
    else Err(HttpError(400, "Invalid pause request parameters"))
  }

  /** The precedence of the branches: the user check, then the global flag, then the app,
      then the listed ids, then the categories; a request naming none of them is a 400. */
  lemma PausePrecedence(req: PauseRequest, user: Option<string>)
    ensures user.None? ==> PlanPause(req, user) == Err(UserNotFound)
    ensures user.Some? && req.globalPause ==> PlanPause(req, user) == Ok(PauseAll(req.state.GetOr(Paused)))
    ensures user.Some? && !req.globalPause && req.appId.Some? ==>
      PlanPause(req, user) == Ok(PauseApp(req.appId.value, req.state.GetOr(Paused)))
    ensures user.Some? && !req.globalPause && req.appId.None? && Given(req.memoryIds) && req.allForApp ==>
      PlanPause(req, user) == Ok(PauseListedOfUser(req.memoryIds.value, req.state.GetOr(Paused)))
    ensures user.Some? && !req.globalPause && req.appId.None? && Given(req.memoryIds) && !req.allForApp ==>
      PlanPause(req, user) == Ok(PauseListed(req.memoryIds.value, req.state.GetOr(Paused)))
    ensures user.Some? && !req.globalPause && req.appId.None? && !Given(req.memoryIds) && Given(req.categoryIds) ==>
      PlanPause(req, user) == Ok(PauseCategories(req.categoryIds.value, req.state.GetOr(Paused)))
    ensures PlanPause(req, user).Err? <==>
      user.None? || (!req.globalPause && req.appId.None? && !Given(req.memoryIds) && !Given(req.categoryIds))
  {
  }

  /** The rows a queried branch pauses; `categories` gives each memory's category ids.
      The listed-ids branch does not query: it updates every id, through `UpdateAll`. */
  predicate Selected(plan: PausePlan, user: string, categories: map<string, set<string>>, id: string, row: MemoryRow) {
    match plan
    case PauseAll(_) => row.state != Deleted && row.state != Archived
    case PauseApp(app, _) => row.appId == app && row.userId == user && row.state != Deleted && row.state != Archived
    case PauseListedOfUser(ids, _) => row.userId == user && row.state != Deleted && id in ids
    case PauseListed(ids, _) => id in ids
    case PauseCategories(cs, _) =>
      id in categories && (exists c :: c in cs && c in categories[id]) && row.state != Deleted && row.state != Archived
  }

  /** No branch pauses a deleted memory it found by query, and only the listed-ids-of-user
      branch can reach an archived one. */
  lemma SelectedSkipsDeleted(plan: PausePlan, user: string, categories: map<string, set<string>>, id: string, row: MemoryRow)
    requires Selected(plan, user, categories, id, row) && !plan.PauseListed?
    ensures row.state != Deleted
    ensures !plan.PauseListedOfUser? ==> row.state != Archived
  {
  }

  /* ---------------------------------------------------------------- sort order */

  datatype SortColumn = ByContent | ByAppName | ByCreatedAt

  datatype Direction = Ascending | Descending

  const InvalidSortDirection := HttpError(400, "Invalid sort direction")
  const InvalidSortColumn := HttpError(400, "Invalid sort column")

  predicate Truthy(s: Option<string>) {
    s.Some? && s.value != []
  }

  function ColumnFor(name: string): Option<SortColumn> {
    if name == "memory" then Some(ByContent)
    else if name == "app_name" then Some(ByAppName)
    else if name == "created_at" then Some(ByCreatedAt)
    else None
  }

  /** The ordering of `filter_memories`: only a column and a direction given together take
      effect; the direction is lowered and checked before the column. */
  function SortOrder(column: Option<string>, direction: Option<string>): (r: Result<(SortColumn, Direction), HttpError>)
  {
    if !(Truthy(column) && Truthy(direction)) then Ok((ByCreatedAt, Descending))
    else
      var d := Strings.Lower(direction.value);
      if d != "asc" && d != "desc" then Err(InvalidSortDirection)
      else match ColumnFor(column.value)
        case None => Err(InvalidSortColumn)
        case Some(c) => Ok((c, if d == "desc" then Descending else Ascending))
  }

  lemma SortOrderCases(column: Option<string>, direction: Option<string>)
    ensures !Truthy(column) || !Truthy(direction) ==> SortOrder(column, direction) == Ok((ByCreatedAt, Descending))
    ensures Truthy(column) && Truthy(direction) ==>
      var d := Strings.Lower(direction.value);
      && (d != "asc" && d != "desc" ==> SortOrder(column, direction) == Err(InvalidSortDirection))
      && (d == "asc" || d == "desc" ==>
            (SortOrder(column, direction).Ok? <==> column.value in {"memory", "app_name", "created_at"}))
      && (d == "asc" || d == "desc" ==> column.value !in {"memory", "app_name", "created_at"} ==>
            SortOrder(column, direction) == Err(InvalidSortColumn))
      && (SortOrder(column, direction).Ok? ==>
            SortOrder(column, direction).value.0 ==
              if column.value == "memory" then ByContent
              else if column.value == "app_name" then ByAppName
              else ByCreatedAt)
      && (SortOrder(column, direction).Ok? ==> (SortOrder(column, direction).value.1 == Descending <==> d == "desc"))
  {
  }

  /** The direction is case-insensitive; the column is not. */
  lemma SortDirectionCaseInsensitive(column: Option<string>, direction: string)
    requires direction != []
    ensures SortOrder(column, Some(Strings.Upper(direction))) == SortOrder(column, Some(direction))
  {
    Strings.LowerAbsorbsCase(direction);
  }
}

/** The avatar lifecycle as a state machine: the tables of internal/repository/postgres.go, the bucket, the two topics,
    a clock, and any number of runs of the service functions of internal/services/avatar.go and of S3.Delete, each with
    its own program counter. One action per external effect, so runs interleave freely. */
module Protocol {
  import opened Text
  import opened Errors
  import opened Domain
  import opened Images
  import opened Headers

  /** Two minutes, in the microseconds of a Postgres timestamp. */
  const LEASE: nat := 120_000_000
  const FLUSH_LIMIT: nat := 50
  const STUCK_LIMIT: nat := 20
  const PUBLISH_ATTEMPTS: nat := 3

  type RunId = nat
  type ProcessId = nat

  // ---------------------------------------------------------------- tables, bucket, topics

  datatype Status = Pending | Processing | Completed | Failed

  datatype Row = Row(
    user: string, mime: string, size: nat, width: int, height: int, key: string,
    thumbs: map<string, string>, status: Status, created: nat, updated: nat, deletedAt: Option<nat>)
  {
    predicate Live() { deletedAt.None? }
  }

  datatype OutboxRow = OutboxRow(eventId: string, kind: string, payload: Json, published: bool)

  datatype Object = Object(data: Bytes, mime: string)

  // ---------------------------------------------------------------- runs

  datatype OutboxItem = OutboxItem(oid: nat, kind: string, payload: Json)

  /** A call of processUpload; `rest` holds what RecoverStuck still has to process after it. */
  datatype Job = Job(id: AvatarId, ev: UploadEvent, rest: seq<UploadEvent>)

  datatype Run =
    | UploadPut(proc: ProcessId, id: AvatarId, row: Row, data: Bytes)
    | UploadCreate(proc: ProcessId, id: AvatarId, row: Row)
    | UploadUndo(id: AvatarId, key: string)
    | UploadGauge(proc: ProcessId, size: nat)
    | DeleteRead(proc: ProcessId, id: AvatarId, user: string)
    | DeleteTx(proc: ProcessId, id: AvatarId, user: string, size: nat, keys: seq<string>)
    | DeleteGauge(proc: ProcessId, size: nat)
    | FlushList
    | FlushPublish(items: seq<OutboxItem>, attempt: nat)
    | FlushMark(items: seq<OutboxItem>)
    | RecoverList
    | ProcRead(job: Job)
    | ProcClaim(job: Job)
    | ProcGet(job: Job, at: nat)
    | ProcThumb(job: Job, at: nat, data: Bytes, info: Info, side: string, thumbs: map<string, string>)
    | ProcComplete(job: Job, at: nat, info: Info, thumbs: map<string, string>)
    | ProcFail(job: Job, at: nat, swallow: bool)  // `swallow`: the caller is told nil, not the error
    | Clean(avatar: string, keys: seq<string>)
  {
    /** Between an upload's first effect and its transaction. */
    predicate Uploading() { UploadPut? || UploadCreate? || UploadUndo? }

    /** Between a claim and the complete or fail that ends it. */
    predicate Holding() { ProcGet? || ProcThumb? || ProcComplete? || ProcFail? }

    /** May still put a thumbnail. */
    predicate MayPut() { ProcGet? || ProcThumb? }

    predicate HoldsFor(id: AvatarId) { Holding() && job.id == id }

    predicate MayPutFor(id: AvatarId) { MayPut() && job.id == id }
  }

  /** `used`, `cleaned`, `sealed` and `lost` are history: the ids ever drawn, the avatars whose delete message was
      handled without error, the avatars soft-deleted when every object of theirs was in the delete event and no run
      could still put one, and the gauge changes lost to crashes and restarts. */
  datatype State = State(
    rows: map<AvatarId, Row>,
    outbox: map<nat, OutboxRow>,
    bucket: map<string, Object>,
    uploads: seq<Message>,
    deletes: seq<Message>,
    now: nat,
    gauges: map<ProcessId, int>,
    runs: map<RunId, Run>,
    used: set<AvatarId>,
    cleaned: set<string>,
    sealed: set<string>,
    lost: int)

  const INIT := State(map[], map[], map[], [], [], 0, map[], map[], {}, {}, {}, 0)

  // ---------------------------------------------------------------- the environment's choices

  /** How one external effect turns out: it succeeds (`ok`), or fails before or after taking effect (`effect`), and the
      retry loop around it may be cancelled. The rest are choices outside the program: the serial number of a new outbox
      row, the iteration order of a Go map, the answer to the stuck query, the injected trace fields. */
  datatype Turn = Turn(
    ok: bool, effect: bool, cancel: bool,
    serial: nat, order: seq<string>, stuck: seq<AvatarId>, trace: seq<Header>)
  {
    predicate Lands() { ok || effect }
  }

  datatype Action =
    | BeginUpload(r: RunId, proc: ProcessId, user: string, data: Bytes, id: AvatarId)
    | BeginDelete(r: RunId, proc: ProcessId, id: AvatarId, user: string)
    | BeginFlush(r: RunId)
    | BeginRecover(r: RunId)
    | DeliverUpload(r: RunId, offset: nat)
    | DeliverDelete(r: RunId, offset: nat)
    | Step(r: RunId, t: Turn)
    | Crash(r: RunId)
    | Restart(proc: ProcessId)
    | Tick(d: nat)

  // ---------------------------------------------------------------- queries

  predicate Claimable(row: Row, now: nat) {
    row.Live()
      && (row.status == Pending || row.status == Failed || (row.status == Processing && row.updated + LEASE < now))
  }

  /** An answer to ListStuckUploads: claimable rows, oldest first, as many as the limit allows. */
  predicate IsStuckListing(rows: map<AvatarId, Row>, now: nat, limit: nat, ids: seq<AvatarId>) {
    && (forall i :: 0 <= i < |ids| ==> ids[i] in rows && Claimable(rows[ids[i]], now))
    && (forall i, j :: 0 <= i < j < |ids| ==> ids[i] != ids[j] && rows[ids[i]].created <= rows[ids[j]].created)
    && |ids| <= limit
    && (forall id <- rows.Keys :: Claimable(rows[id], now) && id !in ids ==>
          |ids| == limit && forall i :: 0 <= i < |ids| ==> rows[ids[i]].created <= rows[id].created)
  }

  function Unpublished(outbox: map<nat, OutboxRow>): set<nat> {
    set k | k in outbox && !outbox[k].published
  }

  predicate IsLeast(s: set<nat>, k: nat) {
    k in s && forall j <- s :: k <= j
  }

  lemma LeastExists(s: set<nat>)
    requires s != {}
    ensures exists k :: IsLeast(s, k)
  {
    var k :| k in s;
    if s == {k} {
      assert IsLeast(s, k);
    } else {
      LeastExists(s - {k});
      var m :| IsLeast(s - {k}, m);
      assert forall j :: j in s ==> j == k || j in s - {k};
      assert IsLeast(s, if k < m then k else m);
    }
  }

  function Least(s: set<nat>): (k: nat)
    requires s != {}
    ensures IsLeast(s, k)
  {
    LeastExists(s);
    var k :| k in s && IsLeast(s, k);
    k
  }

  /** `ORDER BY id LIMIT n`. */
  function Listing(ids: set<nat>, limit: nat): seq<nat> {
    if ids == {} || limit == 0 then []
    else [Least(ids)] + Listing(ids - {Least(ids)}, limit - 1)
  }

  function Items(outbox: map<nat, OutboxRow>, ids: seq<nat>): seq<OutboxItem>
    requires forall i :: 0 <= i < |ids| ==> ids[i] in outbox
  {
    seq(|ids|, i requires 0 <= i < |ids| => OutboxItem(ids[i], outbox[ids[i]].kind, outbox[ids[i]].payload))
  }

  lemma {:induction false} ListingWithin(ids: set<nat>, limit: nat)
    ensures forall i :: 0 <= i < |Listing(ids, limit)| ==> Listing(ids, limit)[i] in ids
  {
    if ids != {} && limit != 0 {
      ListingWithin(ids - {Least(ids)}, limit - 1);
    }
  }

  function ListUnpublished(outbox: map<nat, OutboxRow>, limit: nat): seq<OutboxItem> {
    ListingWithin(Unpublished(outbox), limit);
    Items(outbox, Listing(Unpublished(outbox), limit))
  }

  lemma FreshExists(outbox: map<nat, OutboxRow>)
    ensures exists k: nat :: k !in outbox && forall j: nat :: j < k ==> j in outbox
  {
    var k: nat := 0;
    var left := outbox.Keys;
    while k in outbox
      invariant forall j: nat :: j < k ==> j in outbox
      invariant forall j :: j in outbox && j !in left ==> j < k
      invariant forall j :: j in left ==> j in outbox && k <= j
      decreases |left|
    {
      left := left - {k};
      k := k + 1;
    }
  }

  /** A serial number that no outbox row has. */
  function FreshOf(outbox: map<nat, OutboxRow>): (k: nat)
    ensures k !in outbox
  {
    FreshExists(outbox);
    var k: nat :| k !in outbox && forall j: nat :: j < k ==> j in outbox;
    k
  }

  // ---------------------------------------------------------------- table and bucket updates

  predicate HasEvent(outbox: map<nat, OutboxRow>, eventId: string) {
    exists k <- outbox.Keys :: outbox[k].eventId == eventId
  }

  function Conflict(outbox: map<nat, OutboxRow>, eventId: string): (k: nat)
    requires HasEvent(outbox, eventId)
    ensures k in outbox && outbox[k].eventId == eventId
  {
    var k :| k in outbox && outbox[k].eventId == eventId;
    var holders := set j <- outbox.Keys | outbox[j].eventId == eventId;
    assert k in holders;
    Least(holders)
  }

  /** `INSERT ... ON CONFLICT (event_id) DO UPDATE SET kind, payload`. */
  function InsertOutbox(outbox: map<nat, OutboxRow>, serial: nat, eventId: string, kind: string, payload: Json)
    : map<nat, OutboxRow>
  {
    if HasEvent(outbox, eventId) then
      var k := Conflict(outbox, eventId);
      outbox[k := outbox[k].(kind := kind, payload := payload)]
    else
      outbox[serial := OutboxRow(eventId, kind, payload, false)]
  }

  function RemoveKey(bucket: map<string, Object>, key: string): map<string, Object> {
    bucket - {key}
  }

  function UploadEventOf(id: AvatarId, row: Row): UploadEvent {
    UploadEvent(UploadEventId(id), id, row.user, row.key)
  }

  predicate IsOrdering(order: seq<string>, keys: set<string>) {
    && (forall i :: 0 <= i < |order| ==> order[i] in keys)
    && (forall k <- keys :: k in order)
    && (forall i, j :: 0 <= i < j < |order| ==> order[i] != order[j])
  }

  function ThumbKeys(thumbs: map<string, string>, order: seq<string>): seq<string>
    requires forall i :: 0 <= i < |order| ==> order[i] in thumbs
  {
    if order == [] then []
    else if thumbs[order[0]] == "" then ThumbKeys(thumbs, order[1..])
    else [thumbs[order[0]]] + ThumbKeys(thumbs, order[1..])
  }

  /** The keys `deleteOutboxEvent` collects: the original, then the thumbnails in the map's iteration order. */
  function DeleteKeys(row: Row, order: seq<string>): seq<string>
    requires forall i :: 0 <= i < |order| ==> order[i] in row.thumbs
  {
    [row.key] + ThumbKeys(row.thumbs, order)
  }

  function DeleteEventOf(id: AvatarId, keys: seq<string>): DeleteEvent {
    DeleteEvent(DeleteEventId(id), id, keys)
  }

  function Claimed(row: Row, now: nat): Row {
    row.(status := Processing, updated := now)
  }

  function Finished(row: Row, info: Info, thumbs: map<string, string>, now: nat): Row {
    row.(thumbs := thumbs,
         width := if info.width > 0 then info.width else row.width,
         height := if info.height > 0 then info.height else row.height,
         status := Completed, updated := now)
  }

  function Gauge(gauges: map<ProcessId, int>, proc: ProcessId): int {
    if proc in gauges then gauges[proc] else 0
  }

  // ---------------------------------------------------------------- steps of a run

  function Drop(s: State, r: RunId): State { s.(runs := s.runs - {r}) }

  function Goto(s: State, r: RunId, run: Run): State { s.(runs := s.runs[r := run]) }

  /** The row an upload is about to insert, and its key in the bucket. */
  function NewRow(user: string, data: Bytes, id: AvatarId, info: Info, now: nat): Row {
    Row(user, info.mime, |data|, info.width, info.height, OriginalObjectKey(user, id, info.ext),
        map[], Pending, now, now, None)
  }

  function StepUploadPut(s: State, r: RunId, t: Turn): State
    requires r in s.runs && s.runs[r].UploadPut?
  {
    var run := s.runs[r];
    var s := if t.Lands() then s.(bucket := s.bucket[run.row.key := Object(run.data, run.row.mime)]) else s;
    if t.ok then Goto(s, r, UploadCreate(run.proc, run.id, run.row)) else Drop(s, r)
  }

  function StepUploadCreate(lib: Libraries, s: State, r: RunId, t: Turn): State
    requires r in s.runs && s.runs[r].UploadCreate?
  {
    var run := s.runs[r];
    if t.ok && run.id !in s.rows then
      var ev := UploadEventOf(run.id, run.row);
      Goto(s.(rows := s.rows[run.id := run.row],
              outbox := InsertOutbox(s.outbox, t.serial, ev.eventId, OUTBOX_UPLOAD, lib.writeUpload(ev))),
           r, UploadGauge(run.proc, run.row.size))
    else
      Goto(s, r, UploadUndo(run.id, run.row.key))
  }

  function StepUploadUndo(s: State, r: RunId, t: Turn): State
    requires r in s.runs && s.runs[r].UploadUndo?
  {
    Drop(if t.Lands() then s.(bucket := RemoveKey(s.bucket, TrimSpace(s.runs[r].key))) else s, r)
  }

  function StepGauge(s: State, r: RunId): State
    requires r in s.runs && (s.runs[r].UploadGauge? || s.runs[r].DeleteGauge?)
  {
    var run := s.runs[r];
    var change: int := if run.UploadGauge? then run.size else 0 - run.size;
    Drop(s.(gauges := s.gauges[run.proc := Gauge(s.gauges, run.proc) + change]), r)
  }

  function StepDeleteRead(s: State, r: RunId, t: Turn): State
    requires r in s.runs && s.runs[r].DeleteRead?
  {
    var run := s.runs[r];
    if !t.ok || run.id !in s.rows || !s.rows[run.id].Live() || s.rows[run.id].user != run.user then Drop(s, r)
    else if !IsOrdering(t.order, s.rows[run.id].thumbs.Keys) then s
    else Goto(s, r, DeleteTx(run.proc, run.id, run.user, s.rows[run.id].size, DeleteKeys(s.rows[run.id], t.order)))
  }

  /** All objects an avatar can have: the original and one thumbnail a size. */
  function ObjectKeys(id: AvatarId, row: Row): set<string> {
    {row.key, ThumbnailObjectKey(id, SIZE_100, ExtForMime(row.mime)),
      ThumbnailObjectKey(id, SIZE_300, ExtForMime(row.mime))}
  }

  /** Nothing of the avatar can outlive the removal of `keys`. */
  predicate Seals(s: State, id: AvatarId, keys: seq<string>)
    requires id in s.rows
  {
    && (forall k <- ObjectKeys(id, s.rows[id]) :: k in s.bucket ==> k in keys)
    && (forall q <- s.runs.Keys :: !s.runs[q].MayPutFor(id))
  }

  function StepDeleteTx(lib: Libraries, s: State, r: RunId, t: Turn): State
    requires r in s.runs && s.runs[r].DeleteTx?
  {
    var run := s.runs[r];
    if t.ok && run.id in s.rows && s.rows[run.id].Live() && s.rows[run.id].user == run.user then
      var row := s.rows[run.id].(deletedAt := Some(s.now), updated := s.now);
      var ev := DeleteEventOf(run.id, run.keys);
      Goto(s.(rows := s.rows[run.id := row],
              outbox := InsertOutbox(s.outbox, t.serial, ev.eventId, OUTBOX_DELETE, lib.writeDelete(ev)),
              sealed := if Seals(s, run.id, run.keys) then s.sealed + {run.id} else s.sealed),
           r, DeleteGauge(run.proc, run.size))
    else Drop(s, r)
  }

  function GoFlush(s: State, r: RunId, items: seq<OutboxItem>): State {
    if items == [] then Drop(s, r) else Goto(s, r, FlushPublish(items, 0))
  }

  function StepFlushList(s: State, r: RunId, t: Turn): State {
    if t.ok then GoFlush(s, r, ListUnpublished(s.outbox, FLUSH_LIMIT)) else Drop(s, r)
  }

  /** `publishKind` decodes the payload by kind; an unknown kind or a payload that does not decode is never sent. */
  predicate Sendable(lib: Libraries, item: OutboxItem) {
    || (item.kind == OUTBOX_UPLOAD && lib.readUpload(item.payload).Some?)
    || (item.kind == OUTBOX_DELETE && lib.readDelete(item.payload).Some?)
  }

  function Publish(lib: Libraries, s: State, item: OutboxItem, trace: seq<Header>): State
    requires Sendable(lib, item)
  {
    if item.kind == OUTBOX_UPLOAD then
      s.(uploads := s.uploads + [UploadMessage(lib, lib.readUpload(item.payload).value, trace)])
    else
      s.(deletes := s.deletes + [DeleteMessage(lib, lib.readDelete(item.payload).value, trace)])
  }

  function StepFlushPublish(lib: Libraries, s: State, r: RunId, t: Turn): State
    requires r in s.runs && s.runs[r].FlushPublish?
  {
    var run := s.runs[r];
    if run.items == [] then Drop(s, r)
    else
      var item := run.items[0];
      var next := if Sendable(lib, item) && t.Lands() then Publish(lib, s, item, t.trace) else s;
      if Sendable(lib, item) && t.ok then Goto(next, r, FlushMark(run.items))
      else if run.attempt + 1 < PUBLISH_ATTEMPTS && !t.cancel then
        Goto(next, r, FlushPublish(run.items, run.attempt + 1))
      else GoFlush(next, r, run.items[1..])
  }

  function MarkPublished(outbox: map<nat, OutboxRow>, oid: nat): map<nat, OutboxRow> {
    if oid in outbox then outbox[oid := outbox[oid].(published := true)] else outbox
  }

  function StepFlushMark(s: State, r: RunId, t: Turn): State
    requires r in s.runs && s.runs[r].FlushMark?
  {
    var items := s.runs[r].items;
    if items == [] then Drop(s, r)
    else
      GoFlush(if t.Lands() then s.(outbox := MarkPublished(s.outbox, items[0].oid)) else s, r, items[1..])
  }

  /** The end of a processUpload call: RecoverStuck goes on with its next row, anything else is done. */
  function EndJob(lib: Libraries, s: State, r: RunId, job: Job): State {
    NextJob(lib, s, r, job.rest)
  }

  /** Starts the next call; one whose id does not parse fails at once. */
  function NextJob(lib: Libraries, s: State, r: RunId, events: seq<UploadEvent>): State {
    if events == [] then Drop(s, r)
    else match lib.parseUuid(events[0].avatarId)
      case Some(id) => Goto(s, r, ProcRead(Job(id, events[0], events[1..])))
      case None => NextJob(lib, s, r, events[1..])
  }

  function StepRecoverList(lib: Libraries, s: State, r: RunId, t: Turn): State {
    if !t.ok then Drop(s, r)
    else if !IsStuckListing(s.rows, s.now, STUCK_LIMIT, t.stuck) then s
    else
      NextJob(lib, s, r, seq(|t.stuck|, i requires 0 <= i < |t.stuck| => UploadEventOf(t.stuck[i], s.rows[t.stuck[i]])))
  }

  function StepProcRead(lib: Libraries, s: State, r: RunId, t: Turn): State
    requires r in s.runs && s.runs[r].ProcRead?
  {
    var job := s.runs[r].job;
    if !t.ok || job.id !in s.rows || !s.rows[job.id].Live() || s.rows[job.id].status == Completed then
      EndJob(lib, s, r, job)
    else if job.ev.key == "" then Goto(s, r, ProcClaim(job.(ev := job.ev.(key := s.rows[job.id].key))))
    else Goto(s, r, ProcClaim(job))
  }

  function StepProcClaim(lib: Libraries, s: State, r: RunId, t: Turn): State
    requires r in s.runs && s.runs[r].ProcClaim?
  {
    var job := s.runs[r].job;
    if t.Lands() && job.id in s.rows && Claimable(s.rows[job.id], s.now) then
      var next := s.(rows := s.rows[job.id := Claimed(s.rows[job.id], s.now)]);
      if t.ok then Goto(next, r, ProcGet(job, s.now)) else EndJob(lib, next, r, job)
    else EndJob(lib, s, r, job)
  }

  function StepProcGet(lib: Libraries, s: State, r: RunId, t: Turn): State
    requires r in s.runs && s.runs[r].ProcGet?
  {
    var run := s.runs[r];
    if t.ok && run.job.ev.key in s.bucket then
      var data := s.bucket[run.job.ev.key].data;
      match Inspect(lib, data)
      case Ok(info) => Goto(s, r, ProcThumb(run.job, run.at, data, info, SIZE_100, map[]))
      case Err(_) => Goto(s, r, ProcFail(run.job, run.at, true))
    else Goto(s, r, ProcFail(run.job, run.at, false))
  }

  function SidePixels(size: string): int {
    if size == SIZE_100 then 100 else 300
  }

  function Thumbnail(lib: Libraries, data: Bytes, size: string, mime: string): Result<(Bytes, string)> {
    MakeThumbnail(lib, data, SidePixels(size), SidePixels(size), FormatFromMime(mime))
  }

  function StepProcThumb(lib: Libraries, s: State, r: RunId, t: Turn): State
    requires r in s.runs && s.runs[r].ProcThumb?
  {
    var run := s.runs[r];
    match Thumbnail(lib, run.data, run.side, run.info.mime)
    case Err(_) => Goto(s, r, ProcFail(run.job, run.at, false))
    case Ok((body, mime)) =>
      var key := ThumbnailObjectKey(run.job.ev.avatarId, run.side, ExtForMime(mime));
      var next := if t.Lands() then s.(bucket := s.bucket[key := Object(body, mime)]) else s;
      if !t.ok then Goto(next, r, ProcFail(run.job, run.at, false))
      else if run.side == SIZE_100 then
        Goto(next, r, ProcThumb(run.job, run.at, run.data, run.info, SIZE_300, run.thumbs[run.side := key]))
      else Goto(next, r, ProcComplete(run.job, run.at, run.info, run.thumbs[run.side := key]))
  }

  function StepProcComplete(lib: Libraries, s: State, r: RunId, t: Turn): State
    requires r in s.runs && s.runs[r].ProcComplete?
  {
    var run := s.runs[r];
    var id := run.job.id;
    var next :=
      if t.Lands() && id in s.rows && s.rows[id].Live() then
        s.(rows := s.rows[id := Finished(s.rows[id], run.info, run.thumbs, s.now)])
      else s;
    EndJob(lib, next, r, run.job)
  }

  function StepProcFail(lib: Libraries, s: State, r: RunId, t: Turn): State
    requires r in s.runs && s.runs[r].ProcFail?
  {
    var id := s.runs[r].job.id;
    var next :=
      if t.Lands() && id in s.rows && s.rows[id].Live() then
        s.(rows := s.rows[id := s.rows[id].(status := Failed, updated := s.now)])
      else s;
    EndJob(lib, next, r, s.runs[r].job)
  }

  function GoClean(s: State, r: RunId, id: string, keys: seq<string>): State {
    if keys == [] then Drop(s.(cleaned := s.cleaned + {id}), r) else Goto(s, r, Clean(id, keys))
  }

  function StepClean(s: State, r: RunId, t: Turn): State
    requires r in s.runs && s.runs[r].Clean?
  {
    var run := s.runs[r];
    if run.keys == [] then GoClean(s, r, run.avatar, [])
    else
      var key := TrimSpace(run.keys[0]);
      if key == "" then GoClean(s, r, run.avatar, run.keys[1..])
      else
        var next := if t.Lands() then s.(bucket := RemoveKey(s.bucket, key)) else s;
        if t.ok then GoClean(next, r, run.avatar, run.keys[1..]) else Drop(next, r)
  }

  /** One external effect of one run. */
  function StepOf(lib: Libraries, s: State, r: RunId, t: Turn): State
    requires r in s.runs
  {
    match s.runs[r]
    case UploadPut(_, _, _, _) => StepUploadPut(s, r, t)
    case UploadCreate(_, _, _) => StepUploadCreate(lib, s, r, t)
    case UploadUndo(_, _) => StepUploadUndo(s, r, t)
    case UploadGauge(_, _) => StepGauge(s, r)
    case DeleteRead(_, _, _) => StepDeleteRead(s, r, t)
    case DeleteTx(_, _, _, _, _) => StepDeleteTx(lib, s, r, t)
    case DeleteGauge(_, _) => StepGauge(s, r)
    case FlushList => StepFlushList(s, r, t)
    case FlushPublish(_, _) => StepFlushPublish(lib, s, r, t)
    case FlushMark(_) => StepFlushMark(s, r, t)
    case RecoverList => StepRecoverList(lib, s, r, t)
    case ProcRead(_) => StepProcRead(lib, s, r, t)
    case ProcClaim(_) => StepProcClaim(lib, s, r, t)
    case ProcGet(_, _) => StepProcGet(lib, s, r, t)
    case ProcThumb(_, _, _, _, _, _) => StepProcThumb(lib, s, r, t)
    case ProcComplete(_, _, _, _) => StepProcComplete(lib, s, r, t)
    case ProcFail(_, _, _) => StepProcFail(lib, s, r, t)
    case Clean(_, _) => StepClean(s, r, t)
  }

  // ---------------------------------------------------------------- actions

  /** The gauge change a run has yet to make, and never will if it dies. */
  function Owed(run: Run): int {
    match run
    case UploadGauge(_, size) => size
    case DeleteGauge(_, size) => 0 - size
    case _ => 0
  }

  predicate Enabled(lib: Libraries, s: State, a: Action) {
    match a
    case BeginUpload(r, _, _, data, id) =>
      r !in s.runs && id !in s.used && Inspect(lib, data).Ok?
    case BeginDelete(r, _, _, _) => r !in s.runs
    case BeginFlush(r) => r !in s.runs
    case BeginRecover(r) => r !in s.runs
    case DeliverUpload(r, offset) => r !in s.runs && offset < |s.uploads|
    case DeliverDelete(r, offset) => r !in s.runs && offset < |s.deletes|
    case Step(r, t) => r in s.runs && t.serial !in s.outbox && TraceOnly(t.trace)
    case Crash(r) => r in s.runs
    case Restart(_) => true
    case Tick(_) => true
  }

  function Next(lib: Libraries, s: State, a: Action): State
    requires Enabled(lib, s, a)
  {
    match a
    case BeginUpload(r, proc, user, data, id) =>
      Goto(s.(used := s.used + {id}), r,
           UploadPut(proc, id, NewRow(user, data, id, Inspect(lib, data).value, s.now), data))
    case BeginDelete(r, proc, id, user) => Goto(s, r, DeleteRead(proc, id, user))
    case BeginFlush(r) => Goto(s, r, FlushList)
    case BeginRecover(r) => Goto(s, r, RecoverList)
    case DeliverUpload(r, offset) =>
      (match HandleUpload(lib, s.uploads[offset])
       case Ok(ev) => NextJob(lib, s, r, [ev])
       case Err(_) => s)
    case DeliverDelete(r, offset) =>
      (match HandleDelete(lib, s.deletes[offset])
       case Ok(ev) => GoClean(s, r, ev.avatarId, ev.keys)
       case Err(_) => s)
    case Step(r, t) => StepOf(lib, s, r, t)
    case Crash(r) => Drop(s.(lost := s.lost + Owed(s.runs[r])), r)
    case Restart(proc) => s.(gauges := s.gauges[proc := 0], lost := s.lost + Gauge(s.gauges, proc))
    case Tick(d) => s.(now := s.now + d)
  }

  // ---------------------------------------------------------------- executions

  predicate Legal(lib: Libraries, s: State, actions: seq<Action>)
    decreases |actions|
  {
    actions == [] || (Enabled(lib, s, actions[0]) && Legal(lib, Next(lib, s, actions[0]), actions[1..]))
  }

  function After(lib: Libraries, s: State, actions: seq<Action>): State
    requires Legal(lib, s, actions)
    decreases |actions|
  {
    if actions == [] then s else After(lib, Next(lib, s, actions[0]), actions[1..])
  }
}

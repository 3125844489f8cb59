/** The joint invariant over tables, bucket, topics and in-flight runs, and what one run may do to the others. */
module Invariant {
  import opened Text
  import opened Errors
  import opened Domain
  import opened Images
  import opened Headers
  import opened Protocol

  // ---------------------------------------------------------------- rows and objects

  function ThumbKey(id: string, size: string, mime: string): string {
    ThumbnailObjectKey(id, size, ExtForMime(mime))
  }

  /** The one thumbnail map an avatar can ever have. */
  function Canonical(id: string, mime: string): map<string, string> {
    map[SIZE_100 := ThumbKey(id, SIZE_100, mime), SIZE_300 := ThumbKey(id, SIZE_300, mime)]
  }

  function Owner(key: string): string {
    match Locate(key)
    case None => ""
    case Some(place) => place.id
  }

  predicate IsOriginal(key: string) {
    Locate(key).Some? && Locate(key).value.Original?
  }

  ghost predicate RowOk(id: AvatarId, row: Row) {
    && row.mime in MIMES
    && Locate(row.key) == Some(Original(row.user, id, ExtForMime(row.mime)))
    && (row.thumbs == map[] || row.thumbs == Canonical(id, row.mime))
    && (row.status == Completed ==> row.thumbs == Canonical(id, row.mime))
  }

  /** The stored original is what the row says it is. */
  ghost predicate Faithful(lib: Libraries, obj: Object, row: Row) {
    && obj.mime == row.mime
    && |obj.data| == row.size
    && Inspect(lib, obj.data) == Ok(Info(row.mime, ExtForMime(row.mime), row.width, row.height))
  }

  ghost predicate ThumbPresent(bucket: map<string, Object>, id: string, size: string, mime: string) {
    ThumbKey(id, size, mime) in bucket
  }

  ghost predicate RowsOk(rows: map<AvatarId, Row>, used: set<AvatarId>) {
    forall id <- rows.Keys :: RowOk(id, rows[id]) && id in used
  }

  /** No row is stamped in the future. */
  ghost predicate StampsOk(rows: map<AvatarId, Row>, now: nat) {
    forall id <- rows.Keys :: rows[id].updated <= now
  }

  ghost predicate ObjectOk(lib: Libraries, rows: map<AvatarId, Row>, used: set<AvatarId>, key: string, obj: Object) {
    match Locate(key)
    case None => false
    case Some(Original(_, id, _)) =>
      id in used && (id in rows ==> key == rows[id].key && Faithful(lib, obj, rows[id]))
    case Some(Thumb(id, size, _)) =>
      && id in rows && (size == SIZE_100 || size == SIZE_300)
      && key == ThumbKey(id, size, rows[id].mime) && obj.mime == rows[id].mime
  }

  ghost predicate BucketOk(lib: Libraries, rows: map<AvatarId, Row>, used: set<AvatarId>, bucket: map<string, Object>) {
    forall key <- bucket.Keys :: ObjectOk(lib, rows, used, key, bucket[key])
  }

  /** Every live row's original is stored, and so is every thumbnail it lists. */
  ghost predicate LiveOk(rows: map<AvatarId, Row>, bucket: map<string, Object>) {
    forall id <- rows.Keys :: rows[id].Live() ==>
      && rows[id].key in bucket
      && (rows[id].thumbs != map[] ==>
            ThumbPresent(bucket, id, SIZE_100, rows[id].mime) && ThumbPresent(bucket, id, SIZE_300, rows[id].mime))
  }

  // ---------------------------------------------------------------- outbox and topics

  ghost predicate KeysOk(id: AvatarId, row: Row, keys: seq<string>) {
    |keys| > 0 && keys[0] == row.key && forall i :: 0 <= i < |keys| ==> keys[i] in ObjectKeys(id, row)
  }

  ghost predicate UploadEntry(lib: Libraries, rows: map<AvatarId, Row>, id: string, o: OutboxRow) {
    && id in rows && o.eventId == UploadEventId(id) && o.kind == OUTBOX_UPLOAD
    && o.payload == lib.writeUpload(UploadEventOf(id, rows[id]))
  }

  ghost predicate DeleteEntry(lib: Libraries, rows: map<AvatarId, Row>, id: string, o: OutboxRow) {
    && id in rows && !rows[id].Live() && o.eventId == DeleteEventId(id) && o.kind == OUTBOX_DELETE
    && lib.readDelete(o.payload).Some?
    && var keys := lib.readDelete(o.payload).value.keys;
       KeysOk(id, rows[id], keys) && o.payload == lib.writeDelete(DeleteEventOf(id, keys))
  }

  ghost predicate OutboxOk(lib: Libraries, rows: map<AvatarId, Row>, outbox: map<nat, OutboxRow>) {
    forall k <- outbox.Keys ::
      || UploadEntry(lib, rows, IdOfEvent(outbox[k].eventId), outbox[k])
      || DeleteEntry(lib, rows, IdOfEvent(outbox[k].eventId), outbox[k])
  }

  ghost predicate EventsUnique(outbox: map<nat, OutboxRow>) {
    forall j <- outbox.Keys, k <- outbox.Keys :: outbox[j].eventId == outbox[k].eventId ==> j == k
  }

  ghost predicate EventsComplete(rows: map<AvatarId, Row>, outbox: map<nat, OutboxRow>) {
    forall id <- rows.Keys ::
      && HasEvent(outbox, UploadEventId(id))
      && (!rows[id].Live() ==> HasEvent(outbox, DeleteEventId(id)))
  }

  ghost predicate UploadMessageOk(lib: Libraries, rows: map<AvatarId, Row>, msg: Message) {
    && HandleUpload(lib, msg).Ok?
    && var ev := HandleUpload(lib, msg).value;
       ev.avatarId in rows && ev == UploadEventOf(ev.avatarId, rows[ev.avatarId]) && msg.key == ev.avatarId
  }

  /** Some committed outbox row carries the event. */
  ghost predicate Announced(lib: Libraries, outbox: map<nat, OutboxRow>, ev: DeleteEvent) {
    exists k <- outbox.Keys :: outbox[k].kind == OUTBOX_DELETE && outbox[k].payload == lib.writeDelete(ev)
  }

  ghost predicate DeleteMessageOk(lib: Libraries, rows: map<AvatarId, Row>, outbox: map<nat, OutboxRow>, msg: Message) {
    && HandleDelete(lib, msg).Ok?
    && var ev := HandleDelete(lib, msg).value;
       ev.avatarId in rows && !rows[ev.avatarId].Live() && ev.eventId == DeleteEventId(ev.avatarId)
         && Announced(lib, outbox, ev) && msg.key == ev.avatarId
  }

  ghost predicate UploadsOk(lib: Libraries, rows: map<AvatarId, Row>, uploads: seq<Message>) {
    forall i :: 0 <= i < |uploads| ==> UploadMessageOk(lib, rows, uploads[i])
  }

  ghost predicate DeletesOk(lib: Libraries, rows: map<AvatarId, Row>, outbox: map<nat, OutboxRow>,
      deletes: seq<Message>) {
    forall i :: 0 <= i < |deletes| ==> DeleteMessageOk(lib, rows, outbox, deletes[i])
  }

  ghost predicate UploadSent(lib: Libraries, payload: Json, uploads: seq<Message>) {
    exists i :: 0 <= i < |uploads| && Carries(lib, payload, uploads[i])
  }

  ghost predicate Carries(lib: Libraries, payload: Json, msg: Message) {
    lib.readUpload(payload).Some? && HandleUpload(lib, msg) == Ok(lib.readUpload(payload).value)
  }

  ghost predicate DeleteSent(lib: Libraries, payload: Json, deletes: seq<Message>) {
    exists i :: 0 <= i < |deletes| && CarriesDelete(lib, payload, deletes[i])
  }

  ghost predicate CarriesDelete(lib: Libraries, payload: Json, msg: Message) {
    lib.readDelete(payload).Some? && HandleDelete(lib, msg) == Ok(lib.readDelete(payload).value)
  }

  /** The event of an outbox row is in its topic. */
  ghost predicate Sent(lib: Libraries, kind: string, payload: Json, uploads: seq<Message>, deletes: seq<Message>) {
    if kind == OUTBOX_UPLOAD then UploadSent(lib, payload, uploads) else DeleteSent(lib, payload, deletes)
  }

  ghost predicate PublishedOk(lib: Libraries, outbox: map<nat, OutboxRow>, uploads: seq<Message>,
      deletes: seq<Message>) {
    forall k <- outbox.Keys :: outbox[k].published ==> Sent(lib, outbox[k].kind, outbox[k].payload, uploads, deletes)
  }

  // ---------------------------------------------------------------- deletion history

  ghost predicate SealedOk(lib: Libraries, rows: map<AvatarId, Row>, outbox: map<nat, OutboxRow>,
      bucket: map<string, Object>, sealed: set<string>) {
    && (forall id: string <- sealed :: id in rows && !rows[id].Live())
    && (forall k <- outbox.Keys ::
          var id := IdOfEvent(outbox[k].eventId);
          outbox[k].kind == OUTBOX_DELETE && id in sealed && id in rows ==>
            lib.readDelete(outbox[k].payload).Some?
            && Covers(bucket, ObjectKeys(id, rows[id]), lib.readDelete(outbox[k].payload).value.keys))
  }

  ghost predicate Covers(bucket: map<string, Object>, all: set<string>, keys: seq<string>) {
    forall k <- all :: k in bucket ==> k in keys
  }

  ghost predicate CleanedOk(rows: map<AvatarId, Row>, bucket: map<string, Object>, sealed: set<string>,
      cleaned: set<string>) {
    forall id: string <- cleaned ::
      && id in rows && !rows[id].Live() && rows[id].key !in bucket
      && (id in sealed ==> Covers(bucket, ObjectKeys(id, rows[id]), []))
  }

  // ---------------------------------------------------------------- runs

  ghost predicate EventOk(rows: map<AvatarId, Row>, ev: UploadEvent) {
    ev.avatarId in rows && ev == UploadEventOf(ev.avatarId, rows[ev.avatarId])
  }

  ghost predicate JobOk(rows: map<AvatarId, Row>, job: Job) {
    job.ev.avatarId == job.id && EventOk(rows, job.ev)
    && forall i :: 0 <= i < |job.rest| ==> EventOk(rows, job.rest[i])
  }

  ghost predicate ItemOk(outbox: map<nat, OutboxRow>, item: OutboxItem) {
    item.oid in outbox && outbox[item.oid].kind == item.kind && outbox[item.oid].payload == item.payload
  }

  ghost predicate ItemsOk(outbox: map<nat, OutboxRow>, items: seq<OutboxItem>) {
    items != [] && forall i :: 0 <= i < |items| ==> ItemOk(outbox, items[i])
  }

  ghost predicate UploadingOk(w: State, id: AvatarId, key: string) {
    && id in w.used && id !in w.rows && IsOriginal(key) && Owner(key) == id
    && forall k <- w.bucket.Keys :: Owner(k) == id ==> k == key
  }

  ghost predicate NewRowOk(id: AvatarId, row: Row) {
    RowOk(id, row) && row.thumbs == map[] && row.status == Pending && row.Live()
  }

  ghost predicate ThumbOk(lib: Libraries, w: State, job: Job, data: Bytes, info: Info, side: string,
      thumbs: map<string, string>) {
    && JobOk(w.rows, job) && job.id !in w.sealed
    && var row := w.rows[job.id];
    && |data| == row.size
    && Inspect(lib, data) == Ok(Info(row.mime, ExtForMime(row.mime), row.width, row.height)) == Ok(info)
    && (|| (side == SIZE_100 && thumbs == map[])
        || (side == SIZE_300 && thumbs == map[SIZE_100 := ThumbKey(job.id, SIZE_100, row.mime)]
            && (row.Live() ==> ThumbPresent(w.bucket, job.id, SIZE_100, row.mime))))
  }

  ghost predicate CompleteOk(w: State, job: Job, info: Info, thumbs: map<string, string>) {
    && JobOk(w.rows, job)
    && var row := w.rows[job.id];
    && info == Info(row.mime, ExtForMime(row.mime), row.width, row.height)
    && thumbs == Canonical(job.id, row.mime)
    && (row.Live() ==>
      ThumbPresent(w.bucket, job.id, SIZE_100, row.mime) && ThumbPresent(w.bucket, job.id, SIZE_300, row.mime))
  }

  ghost predicate CleanOk(w: State, id: string, keys: seq<string>) {
    && id in w.rows && !w.rows[id].Live()
    && (forall i :: 0 <= i < |keys| ==> keys[i] in ObjectKeys(id, w.rows[id]))
    && (w.rows[id].key in w.bucket ==> w.rows[id].key in keys)
    && (id in w.sealed ==> Covers(w.bucket, ObjectKeys(id, w.rows[id]), keys))
  }

  /** What a run knows of the world at its program counter. */
  ghost predicate RunOk(lib: Libraries, w: State, run: Run) {
    match run
    case UploadPut(_, id, row, data) =>
      UploadingOk(w, id, row.key) && NewRowOk(id, row) && row.updated <= w.now
        && Faithful(lib, Object(data, row.mime), row)
    case UploadCreate(_, id, row) =>
      UploadingOk(w, id, row.key) && NewRowOk(id, row) && row.updated <= w.now
      && row.key in w.bucket && Faithful(lib, w.bucket[row.key], row)
    case UploadUndo(id, key) => UploadingOk(w, id, key)
    case UploadGauge(_, _) => true
    case DeleteRead(_, _, _) => true
    case DeleteTx(_, id, user, size, keys) =>
      id in w.rows && w.rows[id].user == user && w.rows[id].size == size && KeysOk(id, w.rows[id], keys)
    case DeleteGauge(_, _) => true
    case FlushList => true
    case FlushPublish(items, _) => ItemsOk(w.outbox, items)
    case FlushMark(items) =>
      ItemsOk(w.outbox, items) && Sent(lib, items[0].kind, items[0].payload, w.uploads, w.deletes)
    case RecoverList => true
    case ProcRead(job) => JobOk(w.rows, job)
    case ProcClaim(job) => JobOk(w.rows, job)
    case ProcGet(job, _) => JobOk(w.rows, job) && job.id !in w.sealed
    case ProcThumb(job, _, data, info, side, thumbs) => ThumbOk(lib, w, job, data, info, side, thumbs)
    case ProcComplete(job, _, info, thumbs) => CompleteOk(w, job, info, thumbs)
    case ProcFail(job, _, swallow) => JobOk(w.rows, job) && !swallow
    case Clean(id, keys) => CleanOk(w, id, keys)
  }

  /** The world as the runs see it. */
  function World(s: State): State { s.(runs := map[]) }

  ghost predicate RunsOk(lib: Libraries, w: State, runs: map<RunId, Run>) {
    forall r <- runs.Keys :: RunOk(lib, w, runs[r])
  }

  /** No two uploads work on the same id. */
  ghost predicate UploadsApart(runs: map<RunId, Run>) {
    forall q <- runs.Keys, r <- runs.Keys :: runs[q].Uploading() && runs[r].Uploading() && runs[q].id == runs[r].id ==>
      q == r
  }

  ghost predicate NoUploader(runs: map<RunId, Run>, id: string) {
    forall r <- runs.Keys :: runs[r].Uploading() ==> runs[r].id != id
  }

  // ---------------------------------------------------------------- the invariant

  ghost predicate TablesOk(lib: Libraries, s: State) {
    && RowsOk(s.rows, s.used)
    && StampsOk(s.rows, s.now)
    && OutboxOk(lib, s.rows, s.outbox)
    && EventsUnique(s.outbox)
    && EventsComplete(s.rows, s.outbox)
  }

  ghost predicate StoreOk(lib: Libraries, s: State) {
    && BucketOk(lib, s.rows, s.used, s.bucket)
    && LiveOk(s.rows, s.bucket)
    && SealedOk(lib, s.rows, s.outbox, s.bucket, s.sealed)
    && CleanedOk(s.rows, s.bucket, s.sealed, s.cleaned)
  }

  ghost predicate TopicsOk(lib: Libraries, s: State) {
    && UploadsOk(lib, s.rows, s.uploads)
    && DeletesOk(lib, s.rows, s.outbox, s.deletes)
    && PublishedOk(lib, s.outbox, s.uploads, s.deletes)
  }

  ghost predicate Inv(lib: Libraries, s: State) {
    && TablesOk(lib, s)
    && StoreOk(lib, s)
    && TopicsOk(lib, s)
    && RunsOk(lib, World(s), s.runs)
    && UploadsApart(s.runs)
  }

  lemma InitHolds(lib: Libraries)
    ensures Inv(lib, INIT)
  {
  }

  // ---------------------------------------------------------------- what a step leaves to the other runs

  /** A row only ever gains its thumbnails, changes status, or is soft-deleted; a soft-deleted row is frozen. */
  ghost predicate RowKeeps(a: Row, b: Row) {
    && b.user == a.user && b.mime == a.mime && b.size == a.size && b.width == a.width && b.height == a.height
    && b.key == a.key && b.created == a.created
    && (a.thumbs != map[] ==> b.thumbs == a.thumbs)
    && (!a.Live() ==> b == a)
  }

  ghost predicate RowsKeep(a: map<AvatarId, Row>, b: map<AvatarId, Row>) {
    forall id <- a.Keys :: id in b && RowKeeps(a[id], b[id])
  }

  ghost predicate OutboxKeeps(a: map<nat, OutboxRow>, b: map<nat, OutboxRow>) {
    forall k <- a.Keys ::
      k in b && b[k].eventId == a[k].eventId && b[k].kind == a[k].kind && b[k].payload == a[k].payload
                          && (a[k].published ==> b[k].published)
  }

  /** Objects of live rows, and of uploads other than `own`, stay. */
  ghost predicate ObjectsStay(v: State, w: State, own: string) {
    forall key <- v.bucket.Keys :: Owner(key) != own && (Owner(key) in v.rows ==> v.rows[Owner(key)].Live()) ==>
      key in w.bucket
  }

  ghost predicate OriginalsKeep(v: State, w: State, own: string) {
    forall key <- v.bucket.Keys :: key in w.bucket && IsOriginal(key) && Owner(key) != own ==>
      w.bucket[key] == v.bucket[key]
  }

  /** Only an upload puts an original, its own; a thumbnail is put for an existing row, never a sealed one. */
  ghost predicate NoRevival(v: State, w: State, own: string) {
    forall key <- w.bucket.Keys :: key !in v.bucket ==>
      Owner(key) !in v.sealed && (if IsOriginal(key) then Owner(key) == own else Owner(key) in v.rows)
  }

  ghost predicate Keeps(v: State, w: State, own: string) {
    && v.used <= w.used
    && RowsKeep(v.rows, w.rows)
    && OutboxKeeps(v.outbox, w.outbox)
    && ObjectsStay(v, w, own) && OriginalsKeep(v, w, own) && NoRevival(v, w, own)
    && v.uploads <= w.uploads && v.deletes <= w.deletes
    && v.sealed <= w.sealed && v.now <= w.now
    && (forall id: string <- w.sealed :: id in v.sealed || (id in v.rows ==> v.rows[id].Live()))
  }
}

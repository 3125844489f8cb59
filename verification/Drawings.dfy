/** The thumbnails in the bucket are the thumbnails of the stored image, whichever run drew them. */
module Drawings {
  import opened Text
  import opened Errors
  import opened Domain
  import opened Images
  import opened Headers
  import opened Protocol
  import opened Invariant
  import opened Effects
  import opened Commits
  import opened Steps
  import opened Guarantees
  import opened Gauges
  import opened Outcomes
  import opened Leftovers

  /** A stored thumbnail of this size is what the stored original gives. */
  ghost predicate DrawnAt(lib: Libraries, bucket: map<string, Object>, id: AvatarId, row: Row, size: string) {
    var key := ThumbKey(id, size, row.mime);
    key in bucket && row.key in bucket ==>
      Thumbnail(lib, bucket[row.key].data, size, row.mime) == Ok((bucket[key].data, bucket[key].mime))
  }

  /** A run between its download and its last put has the stored image in hand. */
  ghost predicate InHand(s: State, id: AvatarId, row: Row) {
    row.key in s.bucket ==>
      forall r <- s.runs.Keys :: s.runs[r].ProcThumb? && s.runs[r].job.id == id ==>
        s.runs[r].data == s.bucket[row.key].data
  }

  ghost predicate Drawn(lib: Libraries, s: State, id: AvatarId, row: Row) {
    DrawnAt(lib, s.bucket, id, row, SIZE_100) && DrawnAt(lib, s.bucket, id, row, SIZE_300) && InHand(s, id, row)
  }

  ghost predicate AllDrawn(lib: Libraries, s: State) {
    forall id <- s.rows.Keys :: Drawn(lib, s, id, s.rows[id])
  }

  lemma KeysOfRow(lib: Libraries, s: State, id: AvatarId)
    requires Inv(lib, s) && id in s.rows
    ensures var row := s.rows[id];
      && Owner(row.key) == id && Owner(ThumbKey(id, SIZE_100, row.mime)) == id
      && Owner(ThumbKey(id, SIZE_300, row.mime)) == id
      && row.key != ThumbKey(id, SIZE_100, row.mime) && row.key != ThumbKey(id, SIZE_300, row.mime)
      && ThumbKey(id, SIZE_100, row.mime) != ThumbKey(id, SIZE_300, row.mime)
  {
    hide Inv, Locate, ThumbKey, ExtForMime;
    RowHolds(lib, s, id);
    MimeHolds(lib, s, id);
    ThumbLocated(id, SIZE_100, s.rows[id].mime);
    ThumbLocated(id, SIZE_300, s.rows[id].mime);
  }

  /** What only loses objects of the avatar, and brings no run to a put for it, keeps this. */
  lemma LosingKeepsDrawn(lib: Libraries, v: State, w: State, r: RunId, id: AvatarId, row: Row)
    requires Inv(lib, v) && id in v.rows && row.key == v.rows[id].key && row.mime == v.rows[id].mime
    requires Drawn(lib, v, id, v.rows[id]) && OneMoved(v.runs, w.runs, r) && OnlyLoses(v, w, id)
    requires r in w.runs && w.runs[r].ProcThumb? ==> w.runs[r].job.id != id
    ensures Drawn(lib, w, id, row)
  {
    hide Inv, Owner, Thumbnail, ThumbKey;
    KeysOfRow(lib, v, id);
    if row.key in w.bucket {
      forall q <- w.runs.Keys | w.runs[q].ProcThumb? && w.runs[q].job.id == id
        ensures w.runs[q].data == w.bucket[row.key].data
      {
        assert q in v.runs && w.runs[q] == v.runs[q];
      }
    }
  }

  lemma GetDraws(lib: Libraries, s: State, r: RunId, t: Turn, id: AvatarId)
    requires Inv(lib, s) && id in s.rows && Drawn(lib, s, id, s.rows[id]) && r in s.runs && s.runs[r].ProcGet?
    ensures Drawn(lib, StepProcGet(lib, s, r, t), id, s.rows[id])
  {
    hide Inv, Thumbnail, ThumbKey, Inspect, RowOk, UploadEventId;
    JobFacts(lib, s, r);
  }

  /** The put of one of the avatar's own thumbnails. */
  lemma PutDraws(lib: Libraries, s: State, r: RunId, t: Turn, id: AvatarId)
    requires Lawful(lib) && Inv(lib, s) && id in s.rows && Drawn(lib, s, id, s.rows[id])
    requires r in s.runs && s.runs[r].ProcThumb? && s.runs[r].job.id == id
    ensures Drawn(lib, StepProcThumb(lib, s, r, t), id, s.rows[id])
  {
    hide Inv, Lawful, Thumbnail, ExtForMime, ThumbnailObjectKey, RunOk;
    ThumbFacts(lib, s, r);
    SideOf(lib, s, r);
    KeysOfRow(lib, s, id);
    var run := s.runs[r];
    if Thumbnail(lib, run.data, run.side, run.info.mime).Ok? {
      MimeHolds(lib, s, id);
      ThumbnailMime(lib, run.data, run.side, run.info.mime);
    }
  }

  lemma SideOf(lib: Libraries, s: State, r: RunId)
    requires Inv(lib, s) && r in s.runs && s.runs[r].ProcThumb?
    ensures s.runs[r].side == SIZE_100 || s.runs[r].side == SIZE_300
  {
    hide Inv, Inspect, ThumbPresent, ThumbKey, JobOk;
    DropRun(lib, s, r);
  }

  /** A put of another avatar's thumbnail. */
  lemma PutElsewhereDraws(lib: Libraries, s: State, r: RunId, t: Turn, id: AvatarId)
    requires Lawful(lib) && Inv(lib, s) && id in s.rows && Drawn(lib, s, id, s.rows[id])
    requires r in s.runs && s.runs[r].ProcThumb? && s.runs[r].job.id != id
    ensures Drawn(lib, StepProcThumb(lib, s, r, t), id, s.rows[id])
  {
    hide Inv, Lawful, Thumbnail, Drawn, StepProcThumb, Owner;
    PutMoves(lib, s, r, t);
    LosingKeepsDrawn(lib, s, StepProcThumb(lib, s, r, t), r, id, s.rows[id]);
  }

  lemma CleanDraws(lib: Libraries, s: State, r: RunId, t: Turn, id: AvatarId)
    requires Inv(lib, s) && id in s.rows && Drawn(lib, s, id, s.rows[id]) && r in s.runs && s.runs[r].Clean?
    ensures Drawn(lib, StepClean(s, r, t), id, s.rows[id])
  {
    hide Inv, Drawn, StepClean, TrimSpace, OnlyLoses, OneMoved;
    if s.runs[r].keys != [] {
      HeadIsTrimmed(lib, s, r);
    }
    CleanMoves(s, r, t, s.runs[r].avatar, s.runs[r].keys);
    RemovalLoses(s, StepClean(s, r, t), id);
    LosingKeepsDrawn(lib, s, StepClean(s, r, t), r, id, s.rows[id]);
  }

  /** Every step of a run keeps the drawings of every avatar that had a row. */
  lemma StepDraws(lib: Libraries, s: State, r: RunId, t: Turn, id: AvatarId, row: Row)
    requires Lawful(lib) && Inv(lib, s) && r in s.runs && id in s.rows && Drawn(lib, s, id, s.rows[id])
    requires row.key == s.rows[id].key && row.mime == s.rows[id].mime
    ensures Drawn(lib, StepOf(lib, s, r, t), id, row)
  {
    hide Inv, Lawful, Idle, Drawn, StepUploadPut, StepUploadCreate, StepUploadUndo, StepGauge, StepDeleteRead,
      StepDeleteTx, StepFlushList, StepFlushPublish, StepFlushMark, StepRecoverList, StepProcRead, StepProcClaim,
      StepProcGet, StepProcThumb, StepProcComplete, StepProcFail, StepClean;
    var run := s.runs[r];
    var w := StepOf(lib, s, r, t);
    if run.ProcGet? {
      GetDraws(lib, s, r, t, id);
      SameNames(lib, w, id, s.rows[id], row);
    } else if run.ProcThumb? {
      if run.job.id == id {
        PutDraws(lib, s, r, t, id);
      } else {
        PutElsewhereDraws(lib, s, r, t, id);
      }
      SameNames(lib, w, id, s.rows[id], row);
    } else if run.Clean? {
      CleanDraws(lib, s, r, t, id);
      SameNames(lib, w, id, s.rows[id], row);
    } else {
      OtherStepIdle(lib, s, r, t, id);
      IdleDraws(lib, s, w, r, id, row);
    }
  }

  lemma SameNames(lib: Libraries, s: State, id: AvatarId, a: Row, b: Row)
    requires Drawn(lib, s, id, a) && b.key == a.key && b.mime == a.mime
    ensures Drawn(lib, s, id, b)
  {
    hide Thumbnail, ThumbKey;
  }

  lemma IdleDraws(lib: Libraries, v: State, w: State, r: RunId, id: AvatarId, row: Row)
    requires Inv(lib, v) && id in v.rows && row.key == v.rows[id].key && row.mime == v.rows[id].mime
    requires Drawn(lib, v, id, v.rows[id]) && Idle(v, w, r, id)
    ensures Drawn(lib, w, id, row)
  {
    hide Inv, Drawn, OnlyLoses, OneMoved;
    LosingKeepsDrawn(lib, v, w, r, id, row);
  }

  lemma OtherStepIdle(lib: Libraries, s: State, r: RunId, t: Turn, id: AvatarId)
    requires Inv(lib, s) && id in s.rows && r in s.runs && !s.runs[r].MayPut() && !s.runs[r].Clean?
    ensures Idle(s, StepOf(lib, s, r, t), r, id)
  {
    hide Inv, Idle, StepUploadPut, StepUploadCreate, StepUploadUndo, StepGauge, StepDeleteRead, StepDeleteTx,
      StepFlushList, StepFlushPublish, StepFlushMark, StepRecoverList, StepProcRead, StepProcClaim, StepProcComplete,
      StepProcFail;
    var run := s.runs[r];
    if run.UploadCreate? || run.DeleteTx? {
      CommitsIdle(lib, s, r, t, id);
    } else if run.FlushPublish? || run.FlushMark? {
      FlushIdle(lib, s, r, t, id);
    } else if run.ProcClaim? || run.ProcComplete? || run.ProcFail? {
      ProcIdle(lib, s, r, t, id);
    } else if run.DeleteRead? || run.FlushList? || run.RecoverList? || run.ProcRead? {
      ReadIdle(lib, s, r, t, id);
    } else {
      EdgeIdle(lib, s, r, t, id);
    }
  }

  // ---------------------------------------------------------------- rows that are new

  /** Only a create adds a row. */
  lemma StepAddsNoRow(lib: Libraries, s: State, r: RunId, t: Turn)
    requires r in s.runs && !s.runs[r].UploadCreate?
    ensures StepOf(lib, s, r, t).rows.Keys == s.rows.Keys
  {
    hide OneMoved, Owed, InsertOutbox, Seals, StepFlushPublish, StepFlushMark, StepRecoverList, StepProcRead,
      StepProcClaim, StepProcGet, StepProcThumb, StepProcComplete, StepProcFail, StepClean, StepUploadPut,
      StepUploadUndo, StepDeleteRead, StepFlushList, LiveSizes;
    var run := s.runs[r];
    SizesHaveKeys(s.rows);
    SizesHaveKeys(StepOf(lib, s, r, t).rows);
    if run.FlushPublish? {
      PublishNeutral(lib, s, r, t);
    } else if run.FlushMark? {
      MarkNeutral(s, r, t);
    } else if run.ProcClaim? || run.ProcComplete? || run.ProcFail? {
      ProcNeutral(lib, s, r, t);
    } else if run.MayPut() {
      ImageNeutral(lib, s, r, t);
    } else if run.DeleteRead? || run.FlushList? || run.RecoverList? || run.ProcRead? {
      ReadNeutral(lib, s, r, t);
    } else if run.Clean? {
      CleanNeutral(s, r, t);
    } else if run.UploadPut? || run.UploadUndo? {
      EdgeNeutral(lib, s, r, t);
    }
  }

  lemma SizesHaveKeys(rows: map<AvatarId, Row>)
    ensures LiveSizes(rows).Keys == rows.Keys
  {
  }

  lemma NoThumbWithoutRow(lib: Libraries, s: State, id: AvatarId, size: string, mime: string)
    requires Inv(lib, s) && id !in s.rows && mime in MIMES
    ensures ThumbKey(id, size, mime) !in s.bucket
  {
    ThumbLocated(id, size, mime);
    hide TablesOk, TopicsOk, RunsOk, LiveOk, SealedOk, CleanedOk, Locate, ThumbKey, Inspect;
    var key := ThumbKey(id, size, mime);
    assert key in s.bucket ==> ObjectOk(lib, s.rows, s.used, key, s.bucket[key]);
  }

  /** A row that was just inserted has no thumbnails and no run at work on it. */
  lemma NewRowDrawn(lib: Libraries, s: State, r: RunId, t: Turn, id: AvatarId)
    requires Lawful(lib) && Inv(lib, s) && r in s.runs && id !in s.rows && id in StepOf(lib, s, r, t).rows
    requires Inv(lib, StepOf(lib, s, r, t))
    ensures Drawn(lib, StepOf(lib, s, r, t), id, StepOf(lib, s, r, t).rows[id])
  {
    hide Inv, Lawful, StepOf, Thumbnail, ThumbKey, Owner;
    if !s.runs[r].UploadCreate? {
      StepAddsNoRow(lib, s, r, t);
      assert false;
    }
    CommitsIdle(lib, s, r, t, id);
    var w := StepOf(lib, s, r, t);
    MimeHolds(lib, w, id);
    KeysOfRow(lib, w, id);
    NoThumbWithoutRow(lib, s, id, SIZE_100, w.rows[id].mime);
    NoThumbWithoutRow(lib, s, id, SIZE_300, w.rows[id].mime);
    forall q <- w.runs.Keys
      ensures !(w.runs[q].ProcThumb? && w.runs[q].job.id == id)
    {
      if q != r && w.runs[q].ProcThumb? {
        assert q in s.runs && w.runs[q] == s.runs[q];
        ThumbFacts(lib, s, q);
      }
    }
  }

  // ---------------------------------------------------------------- all executions

  lemma StepKeepsDrawn(lib: Libraries, s: State, r: RunId, t: Turn)
    requires Lawful(lib) && Inv(lib, s) && AllDrawn(lib, s) && r in s.runs && Enabled(lib, s, Step(r, t))
    ensures AllDrawn(lib, StepOf(lib, s, r, t))
  {
    hide Inv, Lawful, StepOf, Drawn, TraceOnly, OutboxKeeps;
    NextKeeps(lib, s, Step(r, t));
    NextEvolves(lib, s, Step(r, t));
    var w := StepOf(lib, s, r, t);
    forall id <- w.rows.Keys
      ensures Drawn(lib, w, id, w.rows[id])
    {
      if id in s.rows {
        assert RowKeeps(s.rows[id], w.rows[id]);
        StepDraws(lib, s, r, t, id, w.rows[id]);
      } else {
        NewRowDrawn(lib, s, r, t, id);
      }
    }
  }

  lemma DeliveryDraws(lib: Libraries, s: State, a: Action, id: AvatarId)
    requires Lawful(lib) && Inv(lib, s) && id in s.rows && Drawn(lib, s, id, s.rows[id])
    requires a.DeliverDelete? && Enabled(lib, s, a)
    ensures Drawn(lib, Next(lib, s, a), id, s.rows[id])
  {
    hide Inv, Lawful, HandleDelete, Drawn, CleanOk;
    DeleteMessageFacts(lib, s, a.offset);
    var ev := HandleDelete(lib, s.deletes[a.offset]).value;
    var w := Next(lib, s, a);
    assert w == Goto(s, a.r, Clean(ev.avatarId, ev.keys));
    RemovalLoses(s, w, id);
    LosingKeepsDrawn(lib, s, w, a.r, id, s.rows[id]);
  }

  lemma OtherKeepsDrawn(lib: Libraries, s: State, a: Action)
    requires Lawful(lib) && Inv(lib, s) && AllDrawn(lib, s) && Enabled(lib, s, a) && !a.Step?
    ensures AllDrawn(lib, Next(lib, s, a))
  {
    var w := Next(lib, s, a);
    assert w.rows == s.rows by { OtherKeepsRows(lib, s, a); }
    hide Inv, Lawful, Next, Enabled, Drawn, Idle;
    forall id <- w.rows.Keys
      ensures Drawn(lib, w, id, w.rows[id])
    {
      if a.DeliverDelete? {
        DeliveryDraws(lib, s, a, id);
      } else if a.Restart? || a.Tick? {
        ClockDraws(lib, s, a, id);
      } else {
        BeginIdle(lib, s, a, id);
        IdleDraws(lib, s, w, a.r, id, s.rows[id]);
      }
    }
  }

  lemma ClockDraws(lib: Libraries, s: State, a: Action, id: AvatarId)
    requires Enabled(lib, s, a) && (a.Restart? || a.Tick?) && id in s.rows && Drawn(lib, s, id, s.rows[id])
    ensures Drawn(lib, Next(lib, s, a), id, s.rows[id])
  {
    hide Thumbnail, ThumbKey;
  }

  lemma OtherKeepsRows(lib: Libraries, s: State, a: Action)
    requires Enabled(lib, s, a) && !a.Step?
    ensures Next(lib, s, a).rows == s.rows
  {
    hide MovesOnly, NextJob, HandleUpload, HandleDelete, NewRow, Inspect;
    if a.DeliverUpload? && HandleUpload(lib, s.uploads[a.offset]).Ok? {
      NextJobIsLocal(lib, s, a.r, [HandleUpload(lib, s.uploads[a.offset]).value]);
    }
  }

  lemma NextKeepsDrawn(lib: Libraries, s: State, a: Action)
    requires Lawful(lib) && Inv(lib, s) && AllDrawn(lib, s) && Enabled(lib, s, a)
    ensures AllDrawn(lib, Next(lib, s, a))
  {
    hide Inv, Lawful, AllDrawn, StepOf, TraceOnly, GoClean, NextJob, HandleUpload, HandleDelete, NewRow, Inspect;
    if a.Step? {
      StepKeepsDrawn(lib, s, a.r, a.t);
    } else {
      OtherKeepsDrawn(lib, s, a);
    }
  }

  lemma {:induction false} ExecutionKeepsDrawn(lib: Libraries, s: State, actions: seq<Action>)
    requires Lawful(lib) && Inv(lib, s) && AllDrawn(lib, s) && Legal(lib, s, actions)
    ensures AllDrawn(lib, After(lib, s, actions))
    decreases |actions|
  {
    hide Inv, Lawful, AllDrawn, Next, Enabled;
    if actions != [] {
      NextKeepsDrawn(lib, s, actions[0]);
      NextKeeps(lib, s, actions[0]);
      ExecutionKeepsDrawn(lib, Next(lib, s, actions[0]), actions[1..]);
    }
  }

  /** What drawing a thumbnail comes to: it can be made exactly if the image can be decoded and the picture, filled into
      the square, can be encoded. */
  lemma ThumbnailIs(lib: Libraries, data: Bytes, size: string, mime: string)
    requires Lawful(lib) && mime in MIMES && size in {"100x100", "300x300"}
    ensures var n := if size == "100x100" then 100 else 300;
      && (Thumbnail(lib, data, size, mime).Ok? <==>
            Readable(lib, data) && EncodingOf(lib, lib.fill(lib.decode(data).value, n, n), mime).Some?)
      && (Thumbnail(lib, data, size, mime).Ok? ==>
            Thumbnail(lib, data, size, mime).value ==
              (EncodingOf(lib, lib.fill(lib.decode(data).value, n, n), mime).value, mime))
  {
    hide Lawful, MakeThumbnail, EncodingOf, Readable;
    var n := if size == "100x100" then 100 else 300;
    MakeThumbnailIs(lib, data, n, n, FormatFromMime(mime));
    assert "image/" + "jpeg" == MIME_JPEG && "image/" + "png" == MIME_PNG && "image/" + "webp" == MIME_WEBP;
  }

  /** An accepted image is hopeless exactly if it cannot be decoded, or one of its two squares cannot be encoded. */
  lemma HopelessIff(lib: Libraries, data: Bytes)
    requires Lawful(lib) && Inspect(lib, data).Ok?
    ensures var mime := Inspect(lib, data).value.mime;
      Hopeless(lib, data, mime) <==>
        || lib.decode(data).None?
        || EncodingOf(lib, lib.fill(lib.decode(data).value, 100, 100), mime).None?
        || EncodingOf(lib, lib.fill(lib.decode(data).value, 300, 300), mime).None?
  {
    hide Lawful, Thumbnail, EncodingOf, Inspect, Signed;
    AcceptedIff(lib, data);
    InspectedIsSupported(lib, data);
    ThumbnailIs(lib, data, "100x100", Inspect(lib, data).value.mime);
    ThumbnailIs(lib, data, "300x300", Inspect(lib, data).value.mime);
  }

  /** In every reachable state each thumbnail that a live row lists is stored under its name, with the row's type, and
      is what the type's encoder makes of the stored original, decoded and filled into a square of 100 or 300 pixels. */
  lemma ThumbnailsAreOfTheOriginal(lib: Libraries, s: State, id: AvatarId, size: string)
    requires Lawful(lib) && Reachable(lib, s) && id in s.rows && s.rows[id].Live() && size in s.rows[id].thumbs
    ensures size in {"100x100", "300x300"}
    ensures var row := s.rows[id];
      && row.key in s.bucket && lib.decode(s.bucket[row.key].data).Some?
      && row.thumbs[size] in s.bucket && s.bucket[row.thumbs[size]].mime == row.mime
      && var n := if size == "100x100" then 100 else 300;
         EncodingOf(lib, lib.fill(lib.decode(s.bucket[row.key].data).value, n, n), row.mime) ==
           Some(s.bucket[row.thumbs[size]].data)
    ensures var row := s.rows[id];
      row.thumbs[size] == "thumbnails/" + id + "/" + size +
                          (if row.mime == "image/jpeg" then ".jpg" else if row.mime == "image/png" then ".png"
                            else ".webp")
  {
    hide Lawful, Inv, Legal, After, Thumbnail, ThumbKey, Drawn, Inspect, OriginalObjectKey, EncodingOf, Readable;
    StorageGuarantee(lib, s, id);
    ReachableHasInv(lib, s);
    ThumbsAreCanonical(lib, s, id);
    MimeHolds(lib, s, id);
    var actions: seq<Action> :| Legal(lib, INIT, actions) && After(lib, INIT, actions) == s;
    InitHolds(lib);
    ExecutionKeepsDrawn(lib, INIT, actions);
    BothSizes(lib, s, id, s.rows[id]);
    ThumbnailIs(lib, s.bucket[s.rows[id].key].data, size, s.rows[id].mime);
    ReadableIsDecoded(lib, s.bucket[s.rows[id].key].data);
    ThumbNamed(id, size, s.rows[id].mime);
  }

  lemma ReadableIsDecoded(lib: Libraries, data: Bytes)
    ensures Readable(lib, data) ==> lib.decode(data).Some?
  {
  }

  lemma ThumbNamed(id: AvatarId, size: string, mime: string)
    requires mime in MIMES
    ensures ThumbKey(id, size, mime) == "thumbnails/" + id + "/" + size +
      (if mime == "image/jpeg" then ".jpg" else if mime == "image/png" then ".png" else ".webp")
  {
  }

  lemma BothSizes(lib: Libraries, s: State, id: AvatarId, row: Row)
    requires Drawn(lib, s, id, row)
    ensures DrawnAt(lib, s.bucket, id, row, SIZE_100) && DrawnAt(lib, s.bucket, id, row, SIZE_300)
  {
    hide DrawnAt, InHand;
  }
}

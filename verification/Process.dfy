/** processUpload, as a run of the protocol. */
module Process {
  import opened Text
  import opened Domain
  import opened Images
  import opened Protocol
  import opened Invariant
  import opened Guarantees
  import opened Processings
  import opened Undisturbed
  import opened Deployments
  import opened Outcomes
  import opened RecoverCalls

  // ---------------------------------------------------------------- how a call ends

  /** The k-th logged action is the step of `me` that ended this call with an error, or with nil. */
  ghost predicate Answered(lib: Libraries, log: seq<Action>, k: nat, me: RunId, job: Job, err: bool)
    requires Legal(lib, INIT, log)
  {
    && k < |log| && log[k].Step? && log[k].r == me && me in StateAt(lib, log, k).runs
    && JobOf(StateAt(lib, log, k).runs[me]) == Some(job)
    && AnswerOf(StateAt(lib, log, k), me, log[k].t) == Some(if err then Failure else Nil)
  }

  function JobOf(run: Run): Option<Job> {
    match run
    case ProcRead(job) => Some(job)
    case ProcClaim(job) => Some(job)
    case ProcComplete(job, _, _, _) => Some(job)
    case ProcFail(job, _, _) => Some(job)
    case _ => None
  }

  lemma AnsweredHere(lib: Libraries, log: seq<Action>, before: State, me: RunId, t: Turn, job: Job, err: bool)
    requires Legal(lib, INIT, log) && |log| > 0 && log[|log| - 1] == Step(me, t)
    requires StateAt(lib, log, |log| - 1) == before && me in before.runs && JobOf(before.runs[me]) == Some(job)
    requires AnswerOf(before, me, t) == Some(if err then Failure else Nil)
    ensures Answered(lib, log, |log| - 1, me, job, err)
  {
    hide Legal, StateAt, AnswerOf, JobOf;
  }

  /** Undisturbed from `v` to `w`, with the last logged action as its last step. */
  ghost predicate Smooth(lib: Libraries, v: State, log: seq<Action>, w: State, me: RunId, poison: set<nat>)
    requires Legal(lib, INIT, log)
  {
    && |log| > 0 && log[|log| - 1].Step? && log[|log| - 1].t.ok
    && Runs(lib, v, StateAt(lib, log, |log| - 1), me, poison) && Runs(lib, v, w, me, poison)
  }

  lemma SmoothAfter(lib: Libraries, u: State, v: State, log: seq<Action>, w: State, me: RunId, poison: set<nat>)
    requires Legal(lib, INIT, log) && Runs(lib, u, v, me, poison) && Smooth(lib, v, log, w, me, poison)
    ensures Smooth(lib, u, log, w, me, poison)
  {
    hide Legal, Runs, StateAt;
    RunsTransitively(lib, u, v, StateAt(lib, log, |log| - 1), me, poison);
    RunsTransitively(lib, u, v, w, me, poison);
  }

  lemma StartsAsTask(lib: Libraries, v: State, me: RunId, job: Job)
    requires Lawful(lib) && Inv(lib, v) && me in v.runs && v.runs[me] == ProcRead(job) && job.rest == []
    requires job.id in v.rows && Claimable(v.rows[job.id], v.now)
    ensures v.rows[job.id].key in v.bucket && RecoverAt(lib, v, v, me, [job.id], 0)
  {
    hide Inv, Lawful, IsOriginal, OriginalsStay;
    OriginalOf(lib, v, job.id);
    QuietSelf(v);
    assert EventsFor(v.rows, [job.id])[1..] == [];
  }

  /** Where an undisturbed call answers, it answers nil exactly if the image is not hopeless. */
  lemma AnswerIs(lib: Libraries, v: State, s: State, me: RunId, id: AvatarId, i: nat, t: Turn)
    requires RecoverAt(lib, v, s, me, [id], i) && me in s.runs && t.ok && AnswerOf(s, me, t).Some?
    ensures id in v.rows && v.rows[id].key in v.bucket
    ensures AnswerOf(s, me, t) ==
      Some(if Hopeless(lib, v.bucket[v.rows[id].key].data, v.rows[id].mime) then Failure else Nil)
  {
    CurrentRow(lib, v, s, me, [id], i);
    hide Hopeless, RowsAt, IsOriginal, Claimable;
  }

  /** An undisturbed call for a claimable avatar resolves it, and reports an error exactly if its image is hopeless. */
  lemma CallResolvesOne(lib: Libraries, v: State, log: seq<Action>, w: State, me: RunId, job: Job, err: bool,
      poison: set<nat>)
    requires Lawful(lib) && Inv(lib, v) && me in v.runs && v.runs[me] == ProcRead(job) && job.rest == []
    requires job.id in v.rows && Claimable(v.rows[job.id], v.now)
    requires Legal(lib, INIT, log) && Smooth(lib, v, log, w, me, poison) && me !in w.runs
    requires Answered(lib, log, |log| - 1, me, job, err)
    ensures ResolvedAll(lib, v, w, {job.id}) && v.rows[job.id].key in v.bucket
    ensures err <==> Hopeless(lib, v.bucket[v.rows[job.id].key].data, v.rows[job.id].mime)
  {
    hide Lawful, Inv, Claimable, RecoverAt, StateAt, AnswerOf, Hopeless, Runs, Legal, JobOf;
    var s := StateAt(lib, log, |log| - 1);
    StartsAsTask(lib, v, me, job);
    var i := RunsFollow(lib, v, s, me, poison, [job.id]);
    AnswerIs(lib, v, s, me, job.id, i, log[|log| - 1].t);
    i := RunsFollow(lib, v, w, me, poison, [job.id]);
    ResolvedAtEnd(lib, v, w, me, job.id, i);
  }

  lemma RunsFollow(lib: Libraries, v: State, w: State, me: RunId, poison: set<nat>, ids: seq<AvatarId>) returns (i: nat)
    requires Lawful(lib) && Inv(lib, v) && RecoverAt(lib, v, v, me, ids, 0) && Runs(lib, v, w, me, poison)
    ensures RecoverAt(lib, v, w, me, ids, i)
  {
    hide Lawful, Inv, RecoverAt, Legal, After, CalmRun;
    var actions: seq<Action> :|
      Legal(lib, v, actions) && After(lib, v, actions) == w && CalmRun(lib, v, actions, me, poison);
    i := AtFollows(lib, v, v, actions, me, poison, ids, 0);
  }

  lemma ResolvedAtEnd(lib: Libraries, v: State, w: State, me: RunId, id: AvatarId, i: nat)
    requires RecoverAt(lib, v, w, me, [id], i) && me !in w.runs
    ensures ResolvedAll(lib, v, w, {id})
  {
    hide RowsAt, StandsAt, Tasks;
    assert [id][..1] == [id];
    assert Chosen([id]) == {id};
  }

  // ---------------------------------------------------------------- the methods

  /** `_ = s.repo.FailProcessing(ctx, id)`: its error is ignored. */
  method FailProcessing(d: Deployment, me: RunId, job: Job, at: nat)
    requires d.Valid() && me in d.st.runs && d.st.runs[me] == ProcFail(job, at, false)
    modifies d
    ensures d.Valid() && Evolves(old(d.st), d.st) && old(d.log) < d.log && Awaiting(d.st, me, job.rest)
    ensures Answered(d.lib, d.log, |d.log| - 1, me, job, true)
    ensures d.Calm() ==> Smooth(d.lib, old(d.st), d.log, d.st, me, d.poison)
  {
    hide Inv, Evolves, Lawful, Next, Enabled, Awaiting, Answers, Legal, After, StateAt, Runs;
    var t, s := d.Effect(me);
    FailStep(d.lib, s, me, t, job, at, false);
    EvolvesTransitively(old(d.st), s, d.st);
    AnsweredHere(d.lib, d.log, s, me, t, job, true);
  }

  method Download(d: Deployment, me: RunId, job: Job, at: nat) returns (image: Option<Bytes>)
    requires d.Valid() && me in d.st.runs && d.st.runs[me] == ProcGet(job, at)
    modifies d
    ensures d.Valid() && Evolves(old(d.st), d.st) && old(d.log) < d.log && me in d.st.runs
    ensures image.None? ==> d.st.runs[me] == ProcFail(job, at, false)
    ensures image.Some? ==>
      && Inspect(d.lib, image.value).Ok?
      && d.st.runs[me] == ProcThumb(job, at, image.value, Inspect(d.lib, image.value).value, SIZE_100, map[])
    ensures d.Calm() ==> Runs(d.lib, old(d.st), d.st, me, d.poison)
  {
    hide Inv, Evolves, Lawful, Next, Enabled, Inspect, Answers, Legal, After, StateAt, Runs;
    var t, s := d.Effect(me);
    GetStep(d.lib, s, me, t, job, at);
    EvolvesTransitively(old(d.st), s, d.st);
    if t.ok && job.ev.key in s.bucket {
      return Some(s.bucket[job.ev.key].data);
    }
    return None;
  }

  /** One turn of the loop over the two sizes: make the thumbnail and put it. */
  method PutThumbnail(d: Deployment, me: RunId, run: Run) returns (err: bool)
    requires d.Valid() && me in d.st.runs && d.st.runs[me] == run && run.ProcThumb?
    modifies d
    ensures d.Valid() && Evolves(old(d.st), d.st) && old(d.log) < d.log && me in d.st.runs
    ensures err ==> d.st.runs[me] == ProcFail(run.job, run.at, false)
    ensures !err ==> var now := d.st.runs[me];
      if run.side == SIZE_100 then now.ProcThumb? && now == run.(side := SIZE_300, thumbs := now.thumbs)
      else now.ProcComplete? && now == ProcComplete(run.job, run.at, run.info, now.thumbs)
    ensures d.Calm() ==> Runs(d.lib, old(d.st), d.st, me, d.poison)
  {
    hide Inv, Evolves, Lawful, Next, Enabled, Thumbnail, Quiet, Answers, Legal, After, StateAt, Runs;
    var t, s := d.Effect(me);
    ThumbStep(d.lib, s, me, t);
    EvolvesTransitively(old(d.st), s, d.st);
    return !(t.ok && Thumbnail(d.lib, run.data, run.side, run.info.mime).Ok?);
  }

  method CompleteProcessing(d: Deployment, me: RunId, run: Run) returns (err: bool)
    requires d.Valid() && me in d.st.runs && d.st.runs[me] == run && run.ProcComplete?
    modifies d
    ensures d.Valid() && Evolves(old(d.st), d.st) && old(d.log) < d.log && Awaiting(d.st, me, run.job.rest)
    ensures !err ==>
      run.job.id in d.st.rows && d.st.rows[run.job.id].Live() && d.st.rows[run.job.id].status == Completed
    ensures Answered(d.lib, d.log, |d.log| - 1, me, run.job, err)
    ensures d.Calm() ==> Smooth(d.lib, old(d.st), d.log, d.st, me, d.poison)
  {
    hide Inv, Evolves, Lawful, Next, Enabled, Awaiting, Canonical, Answers, Legal, After, StateAt, Runs;
    var t, s := d.Effect(me);
    CompleteStep(d.lib, s, me, t, run.job, run.at, run.info, run.thumbs);
    EvolvesTransitively(old(d.st), s, d.st);
    err := !(t.ok && s.rows[run.job.id].Live());
    AnsweredHere(d.lib, d.log, s, me, t, run.job, err);
  }

  /** The download and the two thumbnails, up to the complete or fail that ends the claim. */
  method Draw(d: Deployment, me: RunId, job: Job, at: nat) returns (err: bool)
    requires d.Valid() && me in d.st.runs && d.st.runs[me] == ProcGet(job, at)
    modifies d
    ensures d.Valid() && Evolves(old(d.st), d.st) && old(d.log) < d.log && me in d.st.runs
    ensures if err then d.st.runs[me] == ProcFail(job, at, false)
            else d.st.runs[me].ProcComplete? && d.st.runs[me].job == job
    ensures d.Calm() ==> Runs(d.lib, old(d.st), d.st, me, d.poison)
  {
    hide Inv, Evolves, Lawful, Inspect, Legal, After, Runs;
    var image := Download(d, me, job, at);
    if image.None? {
      return true;
    }
    for i := 0 to 2
      invariant d.Valid() && Evolves(old(d.st), d.st) && old(d.log) < d.log && me in d.st.runs
      invariant if i < 2 then
          && d.st.runs[me].ProcThumb? && d.st.runs[me].job == job && d.st.runs[me].at == at
          && d.st.runs[me].side == if i == 0 then SIZE_100 else SIZE_300
        else d.st.runs[me].ProcComplete? && d.st.runs[me].job == job
      invariant d.Calm() ==> Runs(d.lib, old(d.st), d.st, me, d.poison)
    {
      ghost var was := d.st;
      var failed := PutThumbnail(d, me, d.st.runs[me]);
      EvolvesTransitively(old(d.st), was, d.st);
      if d.Calm() {
        RunsTransitively(d.lib, old(d.st), was, d.st, me, d.poison);
      }
      if failed {
        return true;
      }
    }
    return false;
  }

  /** From the claim to its end. */
  method MakeThumbnails(d: Deployment, me: RunId, job: Job, at: nat) returns (err: bool)
    requires d.Valid() && me in d.st.runs && d.st.runs[me] == ProcGet(job, at)
    modifies d
    ensures d.Valid() && Evolves(old(d.st), d.st) && old(d.log) < d.log && Awaiting(d.st, me, job.rest)
    ensures !err ==> job.id in d.st.rows && d.st.rows[job.id].Live() && d.st.rows[job.id].status == Completed
    ensures Answered(d.lib, d.log, |d.log| - 1, me, job, err)
    ensures d.Calm() ==> Smooth(d.lib, old(d.st), d.log, d.st, me, d.poison)
  {
    hide Inv, Evolves, Lawful, Awaiting, Legal, After, StateAt, Runs, Answered, Smooth;
    err := Draw(d, me, job, at);
    ghost var drawn := d.st;
    if err {
      FailProcessing(d, me, job, at);
    } else {
      err := CompleteProcessing(d, me, d.st.runs[me]);
    }
    EvolvesTransitively(old(d.st), drawn, d.st);
    if d.Calm() {
      SmoothAfter(d.lib, old(d.st), drawn, d.log, d.st, me, d.poison);
    }
  }

  /** GetByID: absent, deleted and completed avatars need nothing done. */
  method Read(d: Deployment, me: RunId, job: Job) returns (end: Option<bool>)
    requires d.Valid() && me in d.st.runs && d.st.runs[me] == ProcRead(job)
    modifies d
    ensures d.Valid() && Evolves(old(d.st), d.st) && old(d.log) < d.log
    ensures Took(d.lib, d.log, |d.log| - 1, me, ProcRead(job))
    ensures end.None? ==> me in d.st.runs && d.st.runs[me] == ProcClaim(job)
    ensures end.Some? ==> Awaiting(d.st, me, job.rest) && Answered(d.lib, d.log, |d.log| - 1, me, job, end.value)
    ensures end == Some(false) ==> Settled(d.st.rows, d.st.now, job.id)
    ensures d.Calm() ==>
      Smooth(d.lib, old(d.st), d.log, d.st, me, d.poison) && Runs(d.lib, old(d.st), d.st, me, d.poison)
  {
    hide Inv, Evolves, Lawful, Awaiting, Answers, Next, Enabled, Legal, After, StateAt, Runs, Answered;
    var t, s := d.Effect(me);
    ReadStep(d.lib, s, me, t, job);
    EvolvesTransitively(old(d.st), s, d.st);
    if !t.ok {
      AnsweredHere(d.lib, d.log, s, me, t, job, true);
      return Some(true);
    }
    if !s.rows[job.id].Live() || s.rows[job.id].status == Completed {
      AnsweredHere(d.lib, d.log, s, me, t, job, false);
      return Some(false);
    }
    return None;
  }

  /** MarkProcessing: an avatar that someone else has claimed is left to them. */
  method Claim(d: Deployment, me: RunId, job: Job) returns (end: Option<bool>, at: nat)
    requires d.Valid() && me in d.st.runs && d.st.runs[me] == ProcClaim(job)
    modifies d
    ensures d.Valid() && Evolves(old(d.st), d.st) && old(d.log) < d.log
    ensures end.None? ==> me in d.st.runs && d.st.runs[me] == ProcGet(job, at)
    ensures end.Some? ==> Awaiting(d.st, me, job.rest) && Answered(d.lib, d.log, |d.log| - 1, me, job, end.value)
    ensures end == Some(false) ==> Settled(d.st.rows, d.st.now, job.id)
    ensures d.Calm() ==>
      Smooth(d.lib, old(d.st), d.log, d.st, me, d.poison) && Runs(d.lib, old(d.st), d.st, me, d.poison)
  {
    hide Inv, Evolves, Lawful, Awaiting, Answers, Next, Enabled, Legal, After, StateAt, Runs, Answered;
    var t, s := d.Effect(me);
    at := s.now;
    ClaimStep(d.lib, s, me, t, job);
    EvolvesTransitively(old(d.st), s, d.st);
    if !t.ok {
      AnsweredHere(d.lib, d.log, s, me, t, job, true);
      return Some(true), at;
    }
    if !Claimable(s.rows[job.id], s.now) {
      AnsweredHere(d.lib, d.log, s, me, t, job, false);
      return Some(false), at;
    }
    return None, at;
  }

  /** processUpload, from the parsed id on. Whatever else happens meanwhile, it runs from its read, the first-th
      logged action, to the step that answers, the last one; nil means the avatar is settled: absent or deleted,
      completed, or leased. Undisturbed, a claimable avatar ends completed with nil, or failed with an error if
      its image is hopeless. */
  method ProcessUpload(d: Deployment, me: RunId, job: Job) returns (err: bool, ghost first: nat)
    requires d.Valid() && me in d.st.runs && d.st.runs[me] == ProcRead(job)
    modifies d
    ensures d.Valid() && Evolves(old(d.st), d.st) && old(d.log) < d.log && Awaiting(d.st, me, job.rest)
    ensures |old(d.log)| <= first < |d.log| && Took(d.lib, d.log, first, me, ProcRead(job))
    ensures Answered(d.lib, d.log, |d.log| - 1, me, job, err)
    ensures !err ==> Settled(d.st.rows, d.st.now, job.id)
    ensures d.Calm() ==> Runs(d.lib, old(d.st), d.st, me, d.poison)
    ensures (d.Calm() && job.rest == [] && job.id in old(d.st.rows)
             && Claimable(old(d.st.rows)[job.id], old(d.st.now))) ==>
      && ResolvedAll(d.lib, old(d.st), d.st, {job.id})
      && old(d.st.rows)[job.id].key in old(d.st.bucket)
      && (err <==> Hopeless(d.lib, old(d.st.bucket)[old(d.st.rows)[job.id].key].data, old(d.st.rows)[job.id].mime))
  {
    hide Inv, Evolves, Lawful, Awaiting, Claimable, Legal, After, StateAt, Runs, Answered, Smooth, Hopeless,
      ResolvedAll, Took;
    d.ValidIsInvariant();
    err, first := Attempt(d, me, job);
    if d.Calm() {
      SmoothIsRuns(d.lib, old(d.st), d.log, d.st, me, d.poison);
      if job.rest == [] && job.id in old(d.st.rows) && Claimable(old(d.st.rows)[job.id], old(d.st.now)) {
        NothingAwaits(d.st, me);
        CallResolvesOne(d.lib, old(d.st), d.log, d.st, me, job, err, d.poison);
      }
    }
  }

  lemma SmoothIsRuns(lib: Libraries, v: State, log: seq<Action>, w: State, me: RunId, poison: set<nat>)
    requires Legal(lib, INIT, log) && Smooth(lib, v, log, w, me, poison)
    ensures Runs(lib, v, w, me, poison)
  {
    hide Runs, StateAt, Legal;
  }

  lemma NothingAwaits(s: State, me: RunId)
    ensures Awaiting(s, me, []) <==> me !in s.runs
  {
  }

  /** MarkProcessing, and the thumbnails if the claim was granted. */
  method ClaimAndMake(d: Deployment, me: RunId, job: Job) returns (err: bool)
    requires d.Valid() && me in d.st.runs && d.st.runs[me] == ProcClaim(job)
    modifies d
    ensures d.Valid() && Evolves(old(d.st), d.st) && old(d.log) < d.log && Awaiting(d.st, me, job.rest)
    ensures Answered(d.lib, d.log, |d.log| - 1, me, job, err)
    ensures !err ==> Settled(d.st.rows, d.st.now, job.id)
    ensures d.Calm() ==> Smooth(d.lib, old(d.st), d.log, d.st, me, d.poison)
  {
    hide Inv, Evolves, Lawful, Awaiting, Legal, After, StateAt, Runs, Answered, Smooth;
    var end, at := Claim(d, me, job);
    if end.Some? {
      return end.value;
    }
    ghost var claimed := d.st;
    err := MakeThumbnails(d, me, job, at);
    EvolvesTransitively(old(d.st), claimed, d.st);
    if d.Calm() {
      SmoothAfter(d.lib, old(d.st), claimed, d.log, d.st, me, d.poison);
    }
  }

  method Attempt(d: Deployment, me: RunId, job: Job) returns (err: bool, ghost first: nat)
    requires d.Valid() && me in d.st.runs && d.st.runs[me] == ProcRead(job)
    modifies d
    ensures d.Valid() && Evolves(old(d.st), d.st) && old(d.log) < d.log && Awaiting(d.st, me, job.rest)
    ensures |old(d.log)| <= first < |d.log| && Took(d.lib, d.log, first, me, ProcRead(job))
    ensures Answered(d.lib, d.log, |d.log| - 1, me, job, err)
    ensures !err ==> Settled(d.st.rows, d.st.now, job.id)
    ensures d.Calm() ==> Smooth(d.lib, old(d.st), d.log, d.st, me, d.poison)
  {
    hide Inv, Evolves, Lawful, Awaiting, Legal, After, StateAt, Runs, Answered, Smooth, Took;
    var end := Read(d, me, job);
    first := |d.log| - 1;
    if end.Some? {
      return end.value, first;
    }
    ghost var read, logged := d.st, d.log;
    err := ClaimAndMake(d, me, job);
    EvolvesTransitively(old(d.st), read, d.st);
    StillTook(d.lib, logged, d.log, first, me, ProcRead(job));
    if d.Calm() {
      SmoothAfter(d.lib, old(d.st), read, d.log, d.st, me, d.poison);
    }
  }
}

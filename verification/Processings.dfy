/** What a call of processUpload tells its caller, and why no row is ever stranded. */
module Processings {
  import opened Text
  import opened Domain
  import opened Images
  import opened Headers
  import opened Protocol
  import opened Invariant
  import opened Commits
  import opened Steps
  import opened Guarantees

  datatype Answer = Nil | Failure

  /** What processUpload returns, if this step is its last. */
  function AnswerOf(s: State, r: RunId, t: Turn): Option<Answer>
    requires r in s.runs
  {
    match s.runs[r]
    case ProcRead(job) =>
      if !t.ok then Some(Failure)
      else if job.id !in s.rows || !s.rows[job.id].Live() || s.rows[job.id].status == Completed then Some(Nil)
      else None
    case ProcClaim(job) =>
      if !t.ok then Some(Failure)
      else if job.id !in s.rows || !Claimable(s.rows[job.id], s.now) then Some(Nil)
      else None
    case ProcComplete(job, _, _, _) =>
      if t.ok && job.id in s.rows && s.rows[job.id].Live() then Some(Nil) else Some(Failure)
    case ProcFail(_, _, swallow) => Some(if swallow then Nil else Failure)
    case _ => None
  }

  /** Under a lease that has not run out. */
  predicate Leased(row: Row, now: nat) {
    row.status == Processing && now <= row.updated + 120_000_000
  }

  predicate Settled(rows: map<AvatarId, Row>, now: nat, id: AvatarId) {
    id !in rows || !rows[id].Live() || rows[id].status == Completed || Leased(rows[id], now)
  }

  /** A step that answers ends the call: the run goes on to its next job or is gone. */
  lemma AnswerEndsCall(lib: Libraries, s: State, r: RunId, t: Turn)
    requires Lawful(lib) && Inv(lib, s) && r in s.runs && AnswerOf(s, r, t).Some?
    ensures var w := StepOf(lib, s, r, t);
      if s.runs[r].job.rest == [] then r !in w.runs
      else r in w.runs && w.runs[r].ProcRead? && w.runs[r].job.ev == s.runs[r].job.rest[0]
  {
    hide Inv, UploadEventId, NextJob;
    JobFacts(lib, s, r);
    var job := s.runs[r].job;
    NextJobStarts(lib, s, r, job.rest);
    NextJobStarts(lib, s.(rows := s.rows[job.id := Claimed(s.rows[job.id], s.now)]), r, job.rest);
    NextJobStarts(lib, s.(rows := s.rows[job.id := s.rows[job.id].(status := Failed, updated := s.now)]), r, job.rest);
    if s.runs[r].ProcComplete? {
      NextJobStarts(lib,
        s.(rows := s.rows[job.id := Finished(s.rows[job.id], s.runs[r].info, s.runs[r].thumbs, s.now)]), r, job.rest);
    }
  }

  lemma NextJobStarts(lib: Libraries, s: State, r: RunId, events: seq<UploadEvent>)
    requires Lawful(lib) && forall i :: 0 <= i < |events| ==> IsUuid(events[i].avatarId)
    ensures var w := NextJob(lib, s, r, events);
      if events == [] then r !in w.runs else r in w.runs && w.runs[r].ProcRead? && w.runs[r].job.ev == events[0]
  {
    if events != [] {
      var id: AvatarId := events[0].avatarId;
      assert lib.parseUuid(id) == Some(id);
    }
  }

  /** A call that returns nil leaves its avatar settled: absent or deleted, completed, or leased to a run that claimed
      it less than two minutes ago. In particular the branch that swallows an inspection failure is never reached. */
  lemma NilMeansSettled(lib: Libraries, s: State, r: RunId, t: Turn)
    requires Lawful(lib) && Reachable(lib, s) && r in s.runs && Enabled(lib, s, Step(r, t))
    requires AnswerOf(s, r, t) == Some(Nil)
    ensures Settled(Next(lib, s, Step(r, t)).rows, s.now, s.runs[r].job.id)
    ensures !s.runs[r].ProcFail?
  {
    hide Reachable, Lawful, Inv, TraceOnly, NextJob;
    ReachableHasInv(lib, s);
    if s.runs[r].ProcFail? {
      NeverSwallows(lib, s, r);
    }
    var job := s.runs[r].job;
    NextJobIsLocal(lib, s, r, job.rest);
    if s.runs[r].ProcComplete? {
      NextJobIsLocal(lib,
        s.(rows := s.rows[job.id := Finished(s.rows[job.id], s.runs[r].info, s.runs[r].thumbs, s.now)]), r, job.rest);
    }
  }

  /** What the branch does all the same, in any state: an image that was downloaded and does not inspect is marked
      failed and the caller is told nil, whereas a download that fails is marked failed and reported. */
  lemma BadImageIsSwallowed(lib: Libraries, s: State, r: RunId, t: Turn, u: Turn)
    requires r in s.runs && s.runs[r].ProcGet?
    requires var run := s.runs[r];
      !t.ok || run.job.ev.key !in s.bucket || Inspect(lib, s.bucket[run.job.ev.key].data).Err?
    ensures var w := StepOf(lib, s, r, t);
      && w.rows == s.rows && w.bucket == s.bucket && r in w.runs && w.runs[r].ProcFail?
      && w.runs[r].job == s.runs[r].job
      && AnswerOf(w, r, u) == Some(if t.ok && s.runs[r].job.ev.key in s.bucket then Nil else Failure)
  {
    hide Inspect;
  }

  /** An event without a key, which no upload writes, is processed under the row's key. */
  lemma MissingKeyIsTheRows(lib: Libraries, s: State, r: RunId, t: Turn)
    requires r in s.runs && s.runs[r].ProcRead? && t.ok
    requires var job := s.runs[r].job; job.id in s.rows && s.rows[job.id].Live() && s.rows[job.id].status != Completed
    ensures var job := s.runs[r].job; var w := StepOf(lib, s, r, t);
      && r in w.runs && w.runs[r].ProcClaim? && w.runs[r].job.id == job.id && w.runs[r].job.rest == job.rest
      && w.runs[r].job.ev == (if job.ev.key == "" then job.ev.(key := s.rows[job.id].key) else job.ev)
  {
    hide NextJob;
  }

  /** Events whose avatar id is no UUID, which reachable states have none of, are passed over: the run goes on with the
      first that is one, if any. */
  lemma {:induction false} BadIdsArePassedOver(lib: Libraries, s: State, r: RunId, bad: seq<UploadEvent>,
      rest: seq<UploadEvent>)
    requires forall ev <- bad :: lib.parseUuid(ev.avatarId).None?
    requires rest == [] || lib.parseUuid(rest[0].avatarId).Some?
    ensures var w := NextJob(lib, s, r, bad + rest);
      && w.rows == s.rows && w.bucket == s.bucket && w.outbox == s.outbox
      && (if rest == [] then r !in w.runs
          else r in w.runs && w.runs[r].ProcRead? && w.runs[r].job.ev == rest[0] && w.runs[r].job.rest == rest[1..]
               && Some(w.runs[r].job.id) == lib.parseUuid(rest[0].avatarId))
  {
    if bad == [] {
      assert bad + rest == rest;
    } else {
      assert bad[0] in bad;
      BadIdsArePassedOver(lib, s, r, bad[1..], rest);
      assert (bad + rest)[1..] == bad[1..] + rest;
    }
  }

  /** A message whose body does not decode changes nothing. */
  lemma UndecodableIsDropped(lib: Libraries, s: State, a: Action)
    requires Enabled(lib, s, a)
    requires || (a.DeliverUpload? && lib.readUpload(s.uploads[a.offset].value).None?)
             || (a.DeliverDelete? && lib.readDelete(s.deletes[a.offset].value).None?)
    ensures Next(lib, s, a) == s
  {
  }

  lemma NeverSwallows(lib: Libraries, s: State, r: RunId)
    requires Inv(lib, s) && r in s.runs && s.runs[r].ProcFail?
    ensures !s.runs[r].swallow
  {
    hide Inv, JobOk;
    DropRun(lib, s, r);
  }

  // ---------------------------------------------------------------- no row is stranded

  /** What the stuck query selects is what a claim accepts: every row it lists can be claimed at that time, and a live
      row it may not list is completed or under a running lease. */
  lemma StuckOrSettled(rows: map<AvatarId, Row>, now: nat, id: AvatarId)
    requires id in rows && rows[id].Live()
    ensures Claimable(rows[id], now) <==> !Settled(rows, now, id)
  {
  }

  /** In numbers: a live row is claimable exactly if it is pending or failed, or has been processing for more than
      120,000,000 microseconds. */
  lemma ClaimableIff(row: Row, now: nat)
    ensures Claimable(row, now) <==>
      && row.deletedAt == None && row.status != Completed
      && (row.status == Processing ==> now - row.updated > 120_000_000)
  {
  }

  /** Two minutes without a write to the row are enough, whatever else happens meanwhile: after any execution longer
      than that, a live row that it left as it was is completed or claimable, with no message needed. */
  lemma ClaimableAfterLease(lib: Libraries, s: State, actions: seq<Action>, id: AvatarId)
    requires Lawful(lib) && Reachable(lib, s) && Legal(lib, s, actions) && id in s.rows && s.rows[id].Live()
    requires After(lib, s, actions).now > s.now + 120_000_000
    ensures var later := After(lib, s, actions);
      && id in later.rows
      && (later.rows[id] == s.rows[id] ==> later.rows[id].status == Completed || Claimable(later.rows[id], later.now))
  {
    hide Reachable, Lawful, Inv, Legal, After, OutboxKeeps;
    ReachableHasInv(lib, s);
    StampHolds(lib, s, id);
    ExecutionEvolves(lib, s, actions);
  }

  lemma StampHolds(lib: Libraries, s: State, id: AvatarId)
    requires Inv(lib, s) && id in s.rows
    ensures s.rows[id].updated <= s.now
  {
  }
}

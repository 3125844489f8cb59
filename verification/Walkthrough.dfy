/** A whole deployment, from nothing: an avatar is uploaded, and one turn of the maintenance loop completes it. */
module Walkthrough {
  import opened Domain
  import opened Images
  import opened Protocol
  import opened Invariant
  import opened Steps
  import opened Guarantees
  import opened Deployments
  import opened Outcomes
  import opened RecoverCalls
  import opened Service
  import opened Maintenance

  /** Ten seconds, the period of the maintenance loop's timer. */
  const PERIOD: nat := 10_000_000

  function Ticking(n: nat): seq<Action> {
    [Tick(PERIOD)]
  }

  function AllWell(n: nat, run: Run): Turn {
    Turn(true, true, false, 0, [], [], [])
  }

  lemma TickingIsCalm(d: Deployment)
    requires d.others == Ticking && d.turns == AllWell && d.poison == {}
    ensures d.Calm()
  {
  }

  /** The uploaded avatar is all there is to recover. */
  lemma OneStuck(lib: Libraries, s: State, id: AvatarId, row: Row)
    requires s.rows == map[id := row] && row.Live() && row.status == Pending && row.key in s.bucket
    requires !Hopeless(lib, s.bucket[row.key].data, row.mime)
    ensures NoLeases(s) && Stuck(s.rows, s.now) == {id} && HopelessIds(lib, s) == {}
  {
    hide Hopeless;
  }

  lemma RowIsNew(user: string, data: Bytes, id: AvatarId, info: Info, now: nat)
    ensures var row := NewRow(user, data, id, info, now);
      row.Live() && row.status == Pending && row.user == user && row.mime == info.mime
  {
  }

  lemma CompletedIsCanonical(lib: Libraries, s: State, id: AvatarId)
    requires Inv(lib, s) && IsCompleted(s, id)
    ensures s.rows[id].thumbs == Canonical(id, s.rows[id].mime)
  {
    hide Inv, Canonical;
    RowHolds(lib, s, id);
  }

  /** In an undisturbed deployment whose clock runs on, an accepted image that can be drawn becomes a completed avatar
      with both its thumbnails, even if its message is never consumed. */
  method UploadAndRecover(lib: Libraries, user: string, data: Bytes, maxBytes: nat, id: AvatarId) returns (row: Row)
    requires Lawful(lib) && Refusal(lib, user, data, maxBytes).None?
    requires !Hopeless(lib, data, Inspect(lib, data).value.mime)
    ensures row.Live() && row.status == Completed && row.user == user && row.thumbs == Canonical(id, row.mime)
  {
    hide Inv, Lawful, Refusal, Inspect, Hopeless, NewRow, Canonical, Evolves, Legal, After, Turns, Stuck, HopelessIds,
      NoLeases, Scheduled, UploadedAs, Claimable;
    var d := new Deployment(lib, Ticking, AllWell, {});
    TickingIsCalm(d);
    var err := Upload(d, 0, user, data, maxBytes, id);
    d.ValidIsInvariant();
    NotRefused(lib, user, data, maxBytes);
    RowIsNew(user, data, id, Inspect(lib, data).value, 0);
    ghost var uploaded := d.st.rows[id];
    OneStuck(lib, d.st, id, uploaded);
    ghost var trace, _, _ := Maintain(d, 1);
    StuckRecover(lib, trace, {}, id);
    d.ValidIsInvariant();
    CompletedIsCanonical(lib, d.st, id);
    SameUser(trace[0], d.st, id);
    return d.st.rows[id];
  }

  lemma SameUser(v: State, w: State, id: AvatarId)
    requires Evolves(v, w) && id in v.rows
    ensures id in w.rows && w.rows[id].user == v.rows[id].user
  {
    hide OutboxKeeps;
  }
}

/** The error values of internal/domain/errors.go and the classification that the worker's retry loop branches on. */
module Errors {
  import opened Text

  datatype Sentinel =
    | ErrAvatarNotFound | ErrForbidden | ErrInvalidUserID | ErrFileRequired | ErrFileTooLarge
    | ErrInvalidFileFormat | ErrInvalidImage | ErrInvalidSizeParam | ErrInvalidFormatParam
    | ErrPermanent | ErrImageTooLarge

  /** A sentinel, a foreign error (database, store, broker, JSON, context), or `fmt.Errorf` with `%w` verbs. */
  datatype Error =
    | Known(s: Sentinel)
    | Foreign(text: string)
    | Wrapped(causes: seq<Error>)

  datatype Result<+T> = Ok(value: T) | Err(error: Error)

  /** How a request to a store, database or broker turns out: an error may hide that it took effect, which is also what
      the death of the caller looks like to the other side. */
  datatype Reply = Fine | Refused | LostReply

  /** `errors.Is`: the target occurs somewhere in the tree of causes. */
  predicate Is(e: Error, target: Sentinel) {
    match e
    case Known(s) => s == target
    case Foreign(_) => false
    case Wrapped(causes) => exists i | 0 <= i < |causes| :: Is(causes[i], target)
  }

  function Permanent(e: Option<Error>): Option<Error> {
    match e
    case None => None
    case Some(x) => if Is(x, ErrPermanent) then e else Some(Wrapped([Known(ErrPermanent), x]))
  }

  predicate IsPermanent(e: Error) {
    Is(e, ErrPermanent)
    || Is(e, ErrInvalidFileFormat)
    || Is(e, ErrInvalidImage)
    || Is(e, ErrImageTooLarge)
    || Is(e, ErrInvalidSizeParam)
    || Is(e, ErrInvalidFormatParam)
  }

  /** All sentinels in the tree of causes. */
  ghost function Causes(e: Error): set<Sentinel> {
    match e
    case Known(s) => {s}
    case Foreign(_) => {}
    case Wrapped(causes) => set i, s | 0 <= i < |causes| && s in Causes(causes[i]) :: s
  }

  lemma {:induction false} IsACause(e: Error, target: Sentinel)
    ensures Is(e, target) <==> target in Causes(e)
  {
    if e.Wrapped? {
      forall i | 0 <= i < |e.causes|
        ensures Is(e.causes[i], target) <==> target in Causes(e.causes[i])
      {
        IsACause(e.causes[i], target);
      }
    }
  }

  /** The error, if there is one, has none of the six causes for which trying again is pointless. */
  ghost predicate Transient(e: Option<Error>) {
    e.Some? && Causes(e.value) !! {ErrPermanent, ErrInvalidFileFormat, ErrInvalidImage, ErrImageTooLarge,
                                   ErrInvalidSizeParam, ErrInvalidFormatParam}
  }

  /** An error is permanent exactly if one of those six is among its causes, so an error of the network never is, and a
      wrapped one is if something inside it is. */
  lemma PermanentIff(e: Error)
    ensures IsPermanent(e) <==> !Transient(Some(e))
    ensures e.Foreign? ==> !IsPermanent(e)
    ensures e.Wrapped? ==> (IsPermanent(e) <==> exists i :: 0 <= i < |e.causes| && IsPermanent(e.causes[i]))
    ensures e.Known? ==>
      (IsPermanent(e) <==> e.s != ErrAvatarNotFound && e.s != ErrForbidden && e.s != ErrInvalidUserID
                           && e.s != ErrFileRequired && e.s != ErrFileTooLarge)
  {
    SixCauses(e);
    if e.Wrapped? {
      forall i | 0 <= i < |e.causes|
        ensures IsPermanent(e.causes[i]) <==> !Transient(Some(e.causes[i]))
      {
        SixCauses(e.causes[i]);
      }
    }
    hide IsPermanent;
  }

  lemma SixCauses(e: Error)
    ensures IsPermanent(e) <==> !Transient(Some(e))
  {
    IsACause(e, ErrPermanent);
    IsACause(e, ErrInvalidFileFormat);
    IsACause(e, ErrInvalidImage);
    IsACause(e, ErrImageTooLarge);
    IsACause(e, ErrInvalidSizeParam);
    IsACause(e, ErrInvalidFormatParam);
    hide Is, Causes;
  }

  /** `Permanent` keeps nil nil, adds exactly the permanent mark and nothing else, and adds it once. */
  lemma PermanentMarks(e: Option<Error>, target: Sentinel)
    ensures Permanent(e).None? <==> e.None?
    ensures Permanent(Permanent(e)) == Permanent(e)
    ensures e.Some? ==> IsPermanent(Permanent(e).value)
    ensures e.Some? ==> (Is(Permanent(e).value, target) <==> target == ErrPermanent || Is(e.value, target))
  {
    if e.Some? {
      var w := Wrapped([Known(ErrPermanent), e.value]);
      assert w.causes[0] == Known(ErrPermanent) && w.causes[1] == e.value;
      assert Is(w.causes[0], ErrPermanent) && Is(w, ErrPermanent);
      if Is(e.value, target) {
        assert Is(w.causes[1], target);
      }
    }
  }
}

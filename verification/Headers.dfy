/** Kafka headers: the list that internal/observability/kafka.go uses as a case-insensitive map, and the message that
    internal/broker/kafka.go builds and internal/worker/worker.go takes apart. */
module Headers {
  import opened Text
  import opened Errors
  import opened Domain
  import opened Images

  datatype Header = Header(key: string, value: string)
  datatype Message = Message(key: string, value: Json, headers: seq<Header>)

  const EVENT_ID := "event_id"
  /** The fields that the installed propagators (trace context and baggage) may set. */
  const TRACE_FIELDS := {"traceparent", "tracestate", "baggage"}

  function Folded(fold: char -> char, s: string): (r: string)
    ensures |r| == |s| && forall i :: 0 <= i < |s| ==> r[i] == fold(s[i])
  {
    seq(|s|, i requires 0 <= i < |s| => fold(s[i]))
  }

  /** `strings.EqualFold`. */
  predicate EqualFold(fold: char -> char, a: string, b: string) {
    Folded(fold, a) == Folded(fold, b)
  }

  function Lookup(fold: char -> char, hs: seq<Header>, key: string): Option<string> {
    if hs == [] then None
    else if EqualFold(fold, hs[0].key, key) then Some(hs[0].value)
    else Lookup(fold, hs[1..], key)
  }

  function Assign(fold: char -> char, hs: seq<Header>, key: string, value: string): seq<Header> {
    if hs == [] then [Header(key, value)]
    else if EqualFold(fold, hs[0].key, key) then [hs[0].(value := value)] + hs[1..]
    else [hs[0]] + Assign(fold, hs[1..], key, value)
  }

  function AssignAll(fold: char -> char, hs: seq<Header>, fields: seq<Header>): seq<Header>
    decreases |fields|
  {
    if fields == [] then hs
    else AssignAll(fold, Assign(fold, hs, fields[0].key, fields[0].value), fields[1..])
  }

  /** The map a header list stands for: folded key to the value of its first header. */
  function AsMap(fold: char -> char, hs: seq<Header>): map<string, string> {
    if hs == [] then map[] else AsMap(fold, hs[1..])[Folded(fold, hs[0].key) := hs[0].value]
  }

  predicate KeysUnique(fold: char -> char, hs: seq<Header>) {
    forall i, j :: 0 <= i < j < |hs| ==> !EqualFold(fold, hs[i].key, hs[j].key)
  }

  class KafkaHeaderCarrier {
    const fold: char -> char
    var headers: seq<Header>

    constructor (fold: char -> char, headers: seq<Header>)
      ensures this.fold == fold && this.headers == headers
    {
      this.fold := fold;
      this.headers := headers;
    }

    method Get(key: string) returns (value: string)
      ensures value == match Lookup(fold, headers, key) case None => "" case Some(v) => v
    {
      for i := 0 to |headers|
        invariant Lookup(fold, headers, key) == Lookup(fold, headers[i..], key)
      {
        assert headers[i..][1..] == headers[i + 1..];
        if EqualFold(fold, headers[i].key, key) {
          return headers[i].value;
        }
      }
      assert headers[|headers|..] == [];
      return "";
    }

    method Set(key: string, value: string)
      modifies this`headers
      ensures headers == Assign(fold, old(headers), key, value)
    {
      for i := 0 to |headers|
        invariant headers == old(headers)
        invariant Assign(fold, headers, key, value) == headers[..i] + Assign(fold, headers[i..], key, value)
      {
        var tail := headers[i..];
        assert tail[1..] == headers[i + 1..];
        if EqualFold(fold, headers[i].key, key) {
          ghost var was := headers;
          headers := headers[i := headers[i].(value := value)];
          assert headers == was[..i] + ([tail[0].(value := value)] + tail[1..]);
          return;
        }
        assert headers[..i] + ([tail[0]] + Assign(fold, tail[1..], key, value))
            == headers[..i + 1] + Assign(fold, headers[i + 1..], key, value);
      }
      assert headers[|headers|..] == [];
      headers := headers + [Header(key, value)];
    }

    method Keys() returns (keys: seq<string>)
      ensures |keys| == |headers| && forall i :: 0 <= i < |keys| ==> keys[i] == headers[i].key
    {
      keys := [];
      for i := 0 to |headers|
        invariant |keys| == i && forall j :: 0 <= j < i ==> keys[j] == headers[j].key
      {
        keys := keys + [headers[i].key];
      }
    }
  }

  /** The propagators set their fields through a carrier one after the other. */
  method InjectKafka(fold: char -> char, headers: seq<Header>, fields: seq<Header>) returns (out: seq<Header>)
    ensures out == AssignAll(fold, headers, fields)
  {
    var carrier := new KafkaHeaderCarrier(fold, headers);
    for i := 0 to |fields|
      invariant AssignAll(fold, carrier.headers, fields[i..]) == AssignAll(fold, headers, fields)
      invariant carrier.fold == fold
    {
      assert fields[i..][1..] == fields[i + 1..];
      carrier.Set(fields[i].key, fields[i].value);
    }
    assert fields[|fields|..] == [];
    out := carrier.headers;
  }

  lemma {:induction false} LookupIsMapLookup(fold: char -> char, hs: seq<Header>, key: string)
    ensures Lookup(fold, hs, key) ==
            if Folded(fold, key) in AsMap(fold, hs) then Some(AsMap(fold, hs)[Folded(fold, key)]) else None
  {
    if hs != [] {
      LookupIsMapLookup(fold, hs[1..], key);
    }
  }

  /** `Set` is update of the case-folded map: the key reads back the new value and every other key is untouched. */
  lemma {:induction false} AssignIsMapUpdate(fold: char -> char, hs: seq<Header>, key: string, value: string)
    ensures AsMap(fold, Assign(fold, hs, key, value)) == AsMap(fold, hs)[Folded(fold, key) := value]
  {
    if hs != [] && !EqualFold(fold, hs[0].key, key) {
      AssignIsMapUpdate(fold, hs[1..], key, value);
      var next := Assign(fold, hs, key, value);
      assert next[1..] == Assign(fold, hs[1..], key, value);
    } else if hs != [] {
      var next := Assign(fold, hs, key, value);
      assert next[1..] == hs[1..];
    }
  }

  lemma {:induction false} AssignedKeys(fold: char -> char, hs: seq<Header>, key: string, value: string)
    ensures var next := Assign(fold, hs, key, value);
      && |hs| <= |next| <= |hs| + 1
      && (forall i :: 0 <= i < |hs| ==> next[i].key == hs[i].key)
      && (forall i :: 0 <= i < |hs| && !EqualFold(fold, hs[i].key, key) ==> next[i] == hs[i])
      && (|next| > |hs| ==> next[|hs|].key == key && forall i :: 0 <= i < |hs| ==> !EqualFold(fold, hs[i].key, key))
  {
    if hs != [] && !EqualFold(fold, hs[0].key, key) {
      AssignedKeys(fold, hs[1..], key, value);
      var tail := Assign(fold, hs[1..], key, value);
      var next := Assign(fold, hs, key, value);
      assert forall i :: 1 <= i < |next| ==> next[i] == tail[i - 1];
      assert forall i :: 1 <= i < |hs| ==> hs[i] == hs[1..][i - 1];
    }
  }

  /** A list used as a map stays one: no two headers ever share a folded key. */
  lemma SetKeepsKeysUnique(fold: char -> char, hs: seq<Header>, key: string, value: string)
    requires KeysUnique(fold, hs)
    ensures KeysUnique(fold, Assign(fold, hs, key, value))
  {
    AssignedKeys(fold, hs, key, value);
  }

  /** The worker's reading of the event id: the first exact, non-empty header, else the body's own id. */
  function EventIdFrom(headers: seq<Header>, fallback: string): string {
    if headers == [] then fallback
    else if headers[0].key == EVENT_ID && headers[0].value != "" then headers[0].value
    else EventIdFrom(headers[1..], fallback)
  }

  predicate TraceOnly(fields: seq<Header>) {
    forall i :: 0 <= i < |fields| ==> fields[i].key in TRACE_FIELDS
  }

  /** The headers of a published message. */
  function PublishedHeaders(lib: Libraries, eventId: string, fields: seq<Header>): seq<Header> {
    AssignAll(lib.fold, [Header(EVENT_ID, eventId)], fields)
  }

  lemma {:induction false} AssignAllKeepsHead(fold: char -> char, hs: seq<Header>, fields: seq<Header>)
    requires hs != [] && hs[0].key == EVENT_ID && TraceOnly(fields)
    ensures AssignAll(fold, hs, fields) != [] && AssignAll(fold, hs, fields)[0] == hs[0]
    decreases |fields|
  {
    if fields != [] {
      var f := fields[0];
      assert f.key in TRACE_FIELDS;
      assert |Folded(fold, f.key)| != |Folded(fold, EVENT_ID)|;
      AssignAllKeepsHead(fold, Assign(fold, hs, f.key, f.value), fields[1..]);
    }
  }

  function UploadMessage(lib: Libraries, ev: UploadEvent, fields: seq<Header>): Message {
    Message(ev.avatarId, lib.writeUpload(ev), PublishedHeaders(lib, ev.eventId, fields))
  }

  function DeleteMessage(lib: Libraries, ev: DeleteEvent, fields: seq<Header>): Message {
    Message(ev.avatarId, lib.writeDelete(ev), PublishedHeaders(lib, ev.eventId, fields))
  }

  /** The event `handleUpload` hands to the service, or the permanent error for a body that does not decode. */
  function HandleUpload(lib: Libraries, msg: Message): Result<UploadEvent> {
    match lib.readUpload(msg.value)
    case None => Err(Permanent(Some(Foreign("decode upload event"))).value)
    case Some(ev) =>
      var id := EventIdFrom(msg.headers, ev.eventId);
      Ok(ev.(eventId := if id == "" then UploadEventId(ev.avatarId) else id))
  }

  function HandleDelete(lib: Libraries, msg: Message): Result<DeleteEvent> {
    match lib.readDelete(msg.value)
    case None => Err(Permanent(Some(Foreign("decode delete event"))).value)
    case Some(ev) =>
      var id := EventIdFrom(msg.headers, ev.eventId);
      Ok(ev.(eventId := if id == "" then DeleteEventId(ev.avatarId) else id))
  }

  /** The k-th header is the one that names the event: the first whose key is exactly `event_id` with a value. */
  ghost predicate NamesEvent(headers: seq<Header>, k: nat) {
    && k < |headers| && headers[k].key == "event_id" && headers[k].value != ""
    && forall j :: 0 <= j < k ==> headers[j].key != "event_id" || headers[j].value == ""
  }

  lemma {:induction false} EventIdFromIs(headers: seq<Header>, fallback: string)
    ensures forall k: nat :: NamesEvent(headers, k) ==> EventIdFrom(headers, fallback) == headers[k].value
    ensures (forall k :: 0 <= k < |headers| ==> headers[k].key != "event_id" || headers[k].value == "") ==>
      EventIdFrom(headers, fallback) == fallback
  {
    if headers != [] {
      EventIdFromIs(headers[1..], fallback);
      forall k: nat | NamesEvent(headers, k)
        ensures EventIdFrom(headers, fallback) == headers[k].value
      {
        if k > 0 {
          assert NamesEvent(headers[1..], k - 1) by {
            assert forall j :: 0 <= j < k - 1 ==> headers[1..][j] == headers[j + 1];
          }
          assert headers[1..][k - 1] == headers[k];
        }
      }
      if forall k :: 0 <= k < |headers| ==> headers[k].key != "event_id" || headers[k].value == "" {
        assert forall k :: 0 <= k < |headers[1..]| ==> headers[1..][k] == headers[k + 1];
      }
    }
  }

  /** What a handler makes of any message: a body that does not decode is a permanent error; otherwise it gets the
      body's own event, but that the id is the first `event_id` header's if there is one with a value, and an event
      without an id is named after its avatar. */
  lemma UploadHandled(lib: Libraries, msg: Message, k: nat)
    ensures lib.readUpload(msg.value).None? ==>
      HandleUpload(lib, msg).Err? && !Transient(Some(HandleUpload(lib, msg).error))
    ensures lib.readUpload(msg.value).Some? ==>
      var body := lib.readUpload(msg.value).value;
      && (NamesEvent(msg.headers, k) ==> HandleUpload(lib, msg) == Ok(body.(eventId := msg.headers[k].value)))
      && ((forall j: nat :: !NamesEvent(msg.headers, j)) ==>
            HandleUpload(lib, msg) == Ok(body.(eventId :=
              if body.eventId == "" then "upload:" + body.avatarId else body.eventId)))
  {
    PermanentMarks(Some(Foreign("decode upload event")), ErrPermanent);
    PermanentIff(Permanent(Some(Foreign("decode upload event"))).value);
    if lib.readUpload(msg.value).Some? {
      EventIdFromIs(msg.headers, lib.readUpload(msg.value).value.eventId);
      SomeoneNames(msg.headers);
    }
    hide EventIdFrom, IsPermanent;
  }

  lemma DeleteHandled(lib: Libraries, msg: Message, k: nat)
    ensures lib.readDelete(msg.value).None? ==>
      HandleDelete(lib, msg).Err? && !Transient(Some(HandleDelete(lib, msg).error))
    ensures lib.readDelete(msg.value).Some? ==>
      var body := lib.readDelete(msg.value).value;
      && (NamesEvent(msg.headers, k) ==> HandleDelete(lib, msg) == Ok(body.(eventId := msg.headers[k].value)))
      && ((forall j: nat :: !NamesEvent(msg.headers, j)) ==>
            HandleDelete(lib, msg) == Ok(body.(eventId :=
              if body.eventId == "" then "delete:" + body.avatarId else body.eventId)))
  {
    PermanentMarks(Some(Foreign("decode delete event")), ErrPermanent);
    PermanentIff(Permanent(Some(Foreign("decode delete event"))).value);
    if lib.readDelete(msg.value).Some? {
      EventIdFromIs(msg.headers, lib.readDelete(msg.value).value.eventId);
      SomeoneNames(msg.headers);
    }
    hide EventIdFrom, IsPermanent;
  }

  /** If a header names the event, some header is the first to do so. */
  lemma {:induction false} SomeoneNames(headers: seq<Header>)
    ensures (exists k :: 0 <= k < |headers| && headers[k].key == "event_id" && headers[k].value != "") ==>
      exists j: nat :: NamesEvent(headers, j)
  {
    if k: nat :| k < |headers| && headers[k].key == "event_id" && headers[k].value != "" {
      var j := FirstNamed(headers, k);
    }
  }

  lemma {:induction false} FirstNamed(headers: seq<Header>, k: nat) returns (j: nat)
    requires k < |headers| && headers[k].key == "event_id" && headers[k].value != ""
    ensures NamesEvent(headers, j)
    decreases k
  {
    if i: nat :| i < k && headers[i].key == "event_id" && headers[i].value != "" {
      j := FirstNamed(headers, i);
    } else {
      j := k;
    }
  }

  lemma {:induction false} OthersAssigned(fold: char -> char, hs: seq<Header>, fields: seq<Header>, key: string)
    requires forall j :: 0 <= j < |fields| ==> !EqualFold(fold, fields[j].key, key)
    ensures Lookup(fold, AssignAll(fold, hs, fields), key) == Lookup(fold, hs, key)
    decreases |fields|
  {
    if fields != [] {
      var f := fields[0];
      var next := Assign(fold, hs, f.key, f.value);
      AssignIsMapUpdate(fold, hs, f.key, f.value);
      LookupIsMapLookup(fold, hs, key);
      LookupIsMapLookup(fold, next, key);
      OthersAssigned(fold, next, fields[1..], key);
    }
  }

  /** Of the fields that are set one after the other, the last one of each key reads back. */
  lemma {:induction false} LastAssigned(fold: char -> char, hs: seq<Header>, fields: seq<Header>, k: nat)
    requires k < |fields| && forall j :: k < j < |fields| ==> !EqualFold(fold, fields[j].key, fields[k].key)
    ensures Lookup(fold, AssignAll(fold, hs, fields), fields[k].key) == Some(fields[k].value)
    decreases |fields|
  {
    var f := fields[0];
    var next := Assign(fold, hs, f.key, f.value);
    if k > 0 {
      LastAssigned(fold, next, fields[1..], k - 1);
    } else {
      AssignIsMapUpdate(fold, hs, f.key, f.value);
      LookupIsMapLookup(fold, next, f.key);
      OthersAssigned(fold, next, fields[1..], f.key);
    }
  }

  /** A published message carries every trace field that was injected, so a consumer can go on with the trace. */
  lemma TraceIsCarried(lib: Libraries, up: UploadEvent, del: DeleteEvent, fields: seq<Header>, k: nat)
    requires k < |fields| && forall j :: k < j < |fields| ==> !EqualFold(lib.fold, fields[j].key, fields[k].key)
    ensures Lookup(lib.fold, UploadMessage(lib, up, fields).headers, fields[k].key) == Some(fields[k].value)
    ensures Lookup(lib.fold, DeleteMessage(lib, del, fields).headers, fields[k].key) == Some(fields[k].value)
  {
    LastAssigned(lib.fold, [Header(EVENT_ID, up.eventId)], fields, k);
    LastAssigned(lib.fold, [Header(EVENT_ID, del.eventId)], fields, k);
  }

  /** The event a handler receives is the event that was published, for every event with an id and whatever trace fields
      were injected beside it. */
  lemma UploadRoundTrip(lib: Libraries, ev: UploadEvent, fields: seq<Header>)
    requires Lawful(lib) && TraceOnly(fields) && ev.eventId != ""
    ensures HandleUpload(lib, UploadMessage(lib, ev, fields)) == Ok(ev)
    ensures UploadMessage(lib, ev, fields).key == ev.avatarId
  {
    AssignAllKeepsHead(lib.fold, [Header(EVENT_ID, ev.eventId)], fields);
  }

  lemma DeleteRoundTrip(lib: Libraries, ev: DeleteEvent, fields: seq<Header>)
    requires Lawful(lib) && TraceOnly(fields) && ev.eventId != ""
    ensures HandleDelete(lib, DeleteMessage(lib, ev, fields)) == Ok(ev)
    ensures DeleteMessage(lib, ev, fields).key == ev.avatarId
  {
    AssignAllKeepsHead(lib.fold, [Header(EVENT_ID, ev.eventId)], fields);
  }
}

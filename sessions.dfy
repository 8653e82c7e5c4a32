/**
 * The per-caller session store (`SessionMiddleware`) and the request-method
 * check of `TwilioMiddleware.validate_twilio_request`.
 *
 * A session record is a Python dict from key to an arbitrary value; the values
 * that occur are modelled by `Value`. Clock readings (`datetime.now()`) are
 * integer timestamps in seconds, passed in by the caller.
 */
module Sessions {
  import opened Wrappers

  /** The values a session record holds. `TimeValue` is a `datetime`, in seconds. */
  datatype Value =
    | NoneValue
    | IntValue(i: int)
    | StrValue(s: string)
    | TimeValue(t: int)
    | DictValue(entries: map<string, string>)

  /** Python truthiness: `None`, `0`, `""` and `{}` are false; every `datetime` is true. */
  predicate Truthy(v: Value) {
    match v
    case NoneValue => false
    case IntValue(i) => i != 0
    case StrValue(s) => s != ""
    case TimeValue(_) => true
    case DictValue(m) => m != map[]
  }

  type Record = map<string, Value>

  const LastActivity := "last_activity"

  /** The record `get_session` creates for an unknown caller. */
  const DefaultRecord: Record := map[
    "conversation_count" := IntValue(0),
    LastActivity := NoneValue,
    "language_preference" := StrValue("arabic"),
    "voice_preference" := StrValue("female"),
    "context" := DictValue(map[])
  ]

  /** `record.get(key)`: `None` for a missing key. */
  function Get(record: Record, key: string): Value {
    if key in record then record[key] else NoneValue
  }

  /** `datetime.now() - timedelta(hours=max_age_hours)`. */
  function Cutoff(now: int, maxAgeHours: int): int {
    now - maxAgeHours * 3600
  }

  /**
   * What `cleanup_old_sessions` makes of one record: kept when `last_activity` is
   * falsy or not older than the cutoff, expired when it is an older `datetime`,
   * and incomparable (Python raises `TypeError` on `<`) when it is any other
   * truthy value.
   */
  datatype Verdict = Keep | Expire | Incomparable

  function Judge(record: Record, cutoff: int): Verdict {
    var v := Get(record, LastActivity);
    if !Truthy(v) then Keep
    else match v
      case TimeValue(t) => if t < cutoff then Expire else Keep
      case _ => Incomparable
  }

  /** The callers whose sessions cleanup removes. */
  function ExpiredKeys(sessions: map<string, Record>, cutoff: int): (r: set<string>)
    ensures r <= sessions.Keys
  {
    set phone | phone in sessions && Judge(sessions[phone], cutoff) == Expire
  }

  /** Cleanup completes (raises no `TypeError`) exactly when no record is incomparable. */
  predicate Comparable(sessions: map<string, Record>, cutoff: int) {
    forall phone | phone in sessions :: Judge(sessions[phone], cutoff) != Incomparable
  }

  /**
   * A session is removed exactly when its `last_activity` is a timestamp older
   * than the cutoff; a session whose `last_activity` is `None` or missing is
   * never removed.
   */
  lemma ExpiredKeysExactly(sessions: map<string, Record>, cutoff: int, phone: string)
    ensures phone in ExpiredKeys(sessions, cutoff) <==>
      phone in sessions && Get(sessions[phone], LastActivity).TimeValue? &&
      Get(sessions[phone], LastActivity).t < cutoff
    ensures phone in sessions && Get(sessions[phone], LastActivity) == NoneValue ==>
      phone !in ExpiredKeys(sessions, cutoff)
  {
  }

  /** Cleanup is idempotent: nothing left after a cleanup is expired at the same cutoff. */
  lemma CleanupIdempotent(sessions: map<string, Record>, cutoff: int)
    ensures ExpiredKeys(sessions - ExpiredKeys(sessions, cutoff), cutoff) == {}
  {
    var rest := sessions - ExpiredKeys(sessions, cutoff);
    forall phone | phone in rest
      ensures Judge(rest[phone], cutoff) != Expire
    {
      assert rest[phone] == sessions[phone];
    }
  }

  /** A later cutoff expires at least the sessions an earlier one does. */
  lemma ExpiredKeysMonotonic(sessions: map<string, Record>, earlier: int, later: int)
    requires earlier <= later
    ensures ExpiredKeys(sessions, earlier) <= ExpiredKeys(sessions, later)
  {
  }

  /** A fresh default session never expires and never makes cleanup fail. */
  lemma DefaultRecordKept(cutoff: int)
    ensures Judge(DefaultRecord, cutoff) == Keep
  {
    assert Get(DefaultRecord, LastActivity) == NoneValue;
  }

  /**
   * The store after `get_session(phone)` followed by `update_session(phone, ...)`
   * with the fetched record extended by `update`.
   */
  function Touched(sessions: map<string, Record>, phone: string, update: Record): map<string, Record> {
    sessions[phone := (if phone in sessions then sessions[phone] else DefaultRecord) + update]
  }

  /** Merging a record with an update of itself gives the update applied once. */
  lemma MergeWithUpdated(record: Record, update: Record)
    ensures record + (record + update) == record + update
  {
  }

  /** The outcome of the method check: pass the request on, or answer with a status. */
  datatype Admission = PassThrough | Reject(status: int, body: string)

  /** The method check of `validate_twilio_request`. */
  function CheckMethod(httpMethod: string): (r: Admission)
    ensures r.Reject? <==> httpMethod != "POST" && httpMethod != "GET"
    ensures r.Reject? ==> r.status == 405 && r.body == "Method not allowed"
  {
    if httpMethod !in ["POST", "GET"] then Reject(405, "Method not allowed") else PassThrough
  }

  class SessionMiddleware {
    /** `sessions`: phone number to its record. */
    var sessions: map<string, Record>

    constructor ()
      ensures sessions == map[]
    {
      sessions := map[];
    }

    /** `get_session`: the stored record, created with the defaults when the caller is unknown. */
    method GetSession(phone: string) returns (record: Record)
      modifies this
      ensures phone in old(sessions) ==> record == old(sessions)[phone] && sessions == old(sessions)
      ensures phone !in old(sessions) ==>
        record == DefaultRecord && sessions == old(sessions)[phone := DefaultRecord]
      ensures phone in sessions && sessions[phone] == record
    {
      if phone !in sessions {
        sessions := sessions[phone := DefaultRecord];
      }
      record := sessions[phone];
    }

    /**
     * `update_session`: a known caller's record is merged with `data` (keys of
     * `data` win, the others stay); an unknown caller's record becomes `data`.
     */
    method UpdateSession(phone: string, data: Record)
      modifies this
      ensures phone in old(sessions) ==> sessions == old(sessions)[phone := old(sessions)[phone] + data]
      ensures phone !in old(sessions) ==> sessions == old(sessions)[phone := data]
      ensures forall key | key in sessions[phone] ::
        sessions[phone][key] == if key in data then data[key] else old(sessions)[phone][key]
    {
      if phone in sessions {
        sessions := sessions[phone := sessions[phone] + data];
      } else {
        sessions := sessions[phone := data];
      }
    }

    /** `clear_session`: forget one caller; a no-op when it is unknown. */
    method ClearSession(phone: string)
      modifies this
      ensures sessions == old(sessions) - {phone}
      ensures phone !in old(sessions) ==> sessions == old(sessions)
    {
      if phone in sessions {
        sessions := sessions - {phone};
      }
    }

    /**
     * `cleanup_old_sessions`: collect the expired callers in one pass, then delete
     * them. Returns how many were removed, or `None` when the collecting pass
     * raises `TypeError`, in which case nothing is deleted.
     */
    method CleanupOldSessions(now: int, maxAgeHours: int) returns (removed: Option<nat>)
      modifies this
      ensures var cutoff := Cutoff(now, maxAgeHours);
        if Comparable(old(sessions), cutoff) then
          removed == Some(|ExpiredKeys(old(sessions), cutoff)|) &&
          sessions == old(sessions) - ExpiredKeys(old(sessions), cutoff)
        else
          removed == None && sessions == old(sessions)
    {
      var cutoff := Cutoff(now, maxAgeHours);
      var expired: set<string> := {};
      var unseen := sessions.Keys;
      while unseen != {}
        invariant unseen <= sessions.Keys
        invariant expired == set phone | phone in sessions.Keys - unseen && Judge(sessions[phone], cutoff) == Expire
        invariant forall phone | phone in sessions.Keys - unseen :: Judge(sessions[phone], cutoff) != Incomparable
        decreases unseen
      {
        var phone :| phone in unseen;
        var verdict := Judge(sessions[phone], cutoff);
        if verdict == Incomparable {
          return None;
        }
        if verdict == Expire {
          expired := expired + {phone};
        }
        unseen := unseen - {phone};
      }
      assert expired == ExpiredKeys(sessions, cutoff);
      var pending := expired;
      while pending != {}
        invariant pending <= expired
        invariant sessions == old(sessions) - (expired - pending)
        decreases pending
      {
        var phone :| phone in pending;
        sessions := sessions - {phone};
        pending := pending - {phone};
      }
      removed := Some(|expired|);
    }
  }
}

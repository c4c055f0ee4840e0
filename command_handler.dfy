/**
 * The legacy switch-command handler (`handle_switch_command`) and its
 * append-only audit log (`_append_jsonl`). A payload is checked for JSON
 * well-formedness, then for being an object, then for a `state` of "on" or
 * "off"; every decision yields an acknowledgement and exactly one audit
 * entry with the same status, timestamp and reason.
 */
module CommandHandler {
  import opened Wrappers
  import opened JsonValue

  datatype Status = Accepted | Rejected

  /** What an audit entry records as `command`: the raw text, or the decoded value. */
  datatype LoggedCommand = RawPayload(text: string) | ParsedPayload(value: Json)

  /** One line of the audit log: `{status, received_at, command, reason?}`. */
  datatype AuditEntry = AuditEntry(status: Status, receivedAt: string, command: LoggedCommand, reason: Option<string>)

  /** The acknowledgement: `{status, state?, reason?, received_at}`. */
  datatype Ack = Ack(status: Status, state: Option<string>, reason: Option<string>, receivedAt: string)

  /**
   * The result of one call: an acknowledgement with its audit entry, or the
   * `TypeError` that `state not in {"on", "off"}` raises for an array or
   * object `state`, which leaves the call before anything is logged.
   */
  datatype Outcome = Handled(ack: Ack, entry: AuditEntry) | RaisedTypeError

  const InvalidJsonPayload: string := "Invalid JSON payload"
  const NotAnObjectPayload: string := "Command payload must be a JSON object"
  const InvalidState: string := "Invalid state, expected 'on' or 'off'"

  /** `parsed.get("state")`: the value, or `null` when the key is absent. */
  function GetState(fields: map<string, Json>): Json
  {
    if "state" in fields then fields["state"] else JNull
  }

  /** Values a Python set lookup can hash; arrays and objects are not among them. */
  predicate Hashable(v: Json)
  {
    !v.JArray? && !v.JObject?
  }

  /** The states the handler accepts. */
  predicate ValidState(v: Json)
  {
    v == JString("on") || v == JString("off")
  }

  /**
   * The decision of `handle_switch_command` for a payload `raw` whose decoding
   * is `decoded` (`None` when it does not decode), received at `receivedAt`.
   */
  function SwitchDecision(raw: string, decoded: Option<Json>, receivedAt: string): Outcome
  {
    match decoded
    case None =>
      Handled(Ack(Rejected, None, Some(InvalidJsonPayload), receivedAt),
              AuditEntry(Rejected, receivedAt, RawPayload(raw), Some(InvalidJsonPayload)))
    case Some(parsed) =>
      if !parsed.JObject? then
        Handled(Ack(Rejected, None, Some(NotAnObjectPayload), receivedAt),
                AuditEntry(Rejected, receivedAt, ParsedPayload(parsed), Some(NotAnObjectPayload)))
      else
        var state := GetState(parsed.fields);
        if !Hashable(state) then RaisedTypeError
        else if !ValidState(state) then
          Handled(Ack(Rejected, None, Some(InvalidState), receivedAt),
                  AuditEntry(Rejected, receivedAt, ParsedPayload(parsed), Some(InvalidState)))
        else
          Handled(Ack(Accepted, Some(state.s), None, receivedAt),
                  AuditEntry(Accepted, receivedAt, ParsedPayload(parsed), None))
  }

  /**
   * An acknowledgement is well formed: a rejection carries a reason and no
   * state, an acceptance carries a state and no reason.
   */
  predicate WellFormedAck(a: Ack)
  {
    match a.status
    case Rejected => a.reason.Some? && a.state.None?
    case Accepted => a.state.Some? && a.reason.None?
  }

  /** The acknowledgement and its audit entry tell the same story. */
  predicate Agree(a: Ack, e: AuditEntry)
  {
    a.status == e.status && a.receivedAt == e.receivedAt && a.reason == e.reason
  }

  /**
   * Every handled outcome has a well-formed acknowledgement that agrees with
   * its audit entry and carries the single timestamp of the call.
   */
  lemma AckMatchesAuditEntry(raw: string, decoded: Option<Json>, receivedAt: string)
    ensures var o := SwitchDecision(raw, decoded, receivedAt);
      o.Handled? ==>
        WellFormedAck(o.ack) && Agree(o.ack, o.entry) && o.ack.receivedAt == receivedAt
  {
  }

  /** Acceptance happens exactly for an object whose `state` is "on" or "off", and echoes it. */
  lemma AcceptedIffValidState(raw: string, decoded: Option<Json>, receivedAt: string)
    ensures var o := SwitchDecision(raw, decoded, receivedAt);
      (o.Handled? && o.ack.status == Accepted) <==>
        (decoded.Some? && decoded.value.JObject? && ValidState(GetState(decoded.value.fields)))
    ensures var o := SwitchDecision(raw, decoded, receivedAt);
      o.Handled? && o.ack.status == Accepted ==>
        JString(o.ack.state.value) == GetState(decoded.value.fields) &&
        o.entry == AuditEntry(Accepted, receivedAt, ParsedPayload(decoded.value), None)
  {
  }

  /** An undecodable payload is rejected, and its raw text is what the audit keeps. */
  lemma UndecodableLogsRawText(raw: string, receivedAt: string)
    ensures var o := SwitchDecision(raw, None, receivedAt);
      o.Handled? && o.ack.status == Rejected && o.ack.reason == Some(InvalidJsonPayload) &&
      o.entry.command == RawPayload(raw)
  {
  }

  /**
   * A decoded payload is always logged as its decoded value; the rejection
   * reason names the first check that failed.
   */
  lemma DecodedRejectionReasons(raw: string, parsed: Json, receivedAt: string)
    ensures var o := SwitchDecision(raw, Some(parsed), receivedAt);
      o.Handled? ==> o.entry.command == ParsedPayload(parsed)
    ensures var o := SwitchDecision(raw, Some(parsed), receivedAt);
      !parsed.JObject? ==> o.Handled? && o.ack.reason == Some(NotAnObjectPayload)
    ensures var o := SwitchDecision(raw, Some(parsed), receivedAt);
      parsed.JObject? && Hashable(GetState(parsed.fields)) && !ValidState(GetState(parsed.fields)) ==>
        o.Handled? && o.ack.status == Rejected && o.ack.reason == Some(InvalidState)
    ensures SwitchDecision(raw, Some(parsed), receivedAt).RaisedTypeError? <==>
      parsed.JObject? && !Hashable(GetState(parsed.fields))
  {
  }

  /**
   * Submitting the same payload twice gives two decisions that differ only
   * in their timestamps.
   */
  lemma RepeatedPayloadSameDecision(raw: string, decoded: Option<Json>, t1: string, t2: string)
    ensures var o1 := SwitchDecision(raw, decoded, t1);
      var o2 := SwitchDecision(raw, decoded, t2);
      o1.Handled? == o2.Handled? &&
      (o1.Handled? ==>
        o1.ack.(receivedAt := t2) == o2.ack && o1.entry.(receivedAt := t2) == o2.entry)
  {
  }

  /** The audit log file (one per log path): the JSON lines written so far, oldest first. */
  class AuditLog {
    var entries: seq<AuditEntry>

    constructor (existing: seq<AuditEntry>)
      ensures entries == existing
    {
      entries := existing;
    }

    /** `_append_jsonl`: one more line at the end; nothing already written changes. */
    method Append(entry: AuditEntry)
      modifies this
      ensures entries == old(entries) + [entry]
    {
      entries := entries + [entry];
    }

    /**
     * `handle_switch_command`: decide, append exactly one audit entry on
     * every handled path, and return the acknowledgement. The raised
     * `TypeError` leaves the log untouched.
     */
    method HandleSwitchCommand(raw: string, decoded: Option<Json>, receivedAt: string) returns (outcome: Outcome)
      modifies this
      ensures outcome == SwitchDecision(raw, decoded, receivedAt)
      ensures outcome.Handled? ==> entries == old(entries) + [outcome.entry]
      ensures outcome.RaisedTypeError? ==> entries == old(entries)
    {
      if decoded.None? {
        var ack := Ack(Rejected, None, Some(InvalidJsonPayload), receivedAt);
        var entry := AuditEntry(Rejected, receivedAt, RawPayload(raw), ack.reason);
        Append(entry);
        return Handled(ack, entry);
      }
      var parsed := decoded.value;

      if !parsed.JObject? {
        var ack := Ack(Rejected, None, Some(NotAnObjectPayload), receivedAt);
        var entry := AuditEntry(Rejected, receivedAt, ParsedPayload(parsed), ack.reason);
        Append(entry);
        return Handled(ack, entry);
      }

      var state := GetState(parsed.fields);
      if !Hashable(state) {
        return RaisedTypeError;
      }
      if !ValidState(state) {
        var ack := Ack(Rejected, None, Some(InvalidState), receivedAt);
        var entry := AuditEntry(Rejected, receivedAt, ParsedPayload(parsed), ack.reason);
        Append(entry);
        return Handled(ack, entry);
      }

      var ack := Ack(Accepted, Some(state.s), None, receivedAt);
      var entry := AuditEntry(Accepted, receivedAt, ParsedPayload(parsed), None);
      Append(entry);
      return Handled(ack, entry);
    }
  }

  /** `test_handle_switch_command_accepts_on_state`: one accepted entry recording the parsed `state`. */
  method ScenarioAcceptsOnState()
  {
    var log := new AuditLog([]);
    var on := JObject(map["state" := JString("on")]);
    var o := log.HandleSwitchCommand("{\"state\":\"on\"}", Some(on), "t1");
    assert o.Handled? && o.ack.status == Accepted && o.ack.state == Some("on");
    assert |log.entries| == 1 && log.entries[0].status == Accepted;
    assert log.entries[0].command.ParsedPayload? && log.entries[0].command.value.JObject?;
    assert GetState(log.entries[0].command.value.fields) == JString("on");
  }

  /** `test_handle_switch_command_rejects_unknown_state`: "toggle" is rejected and logged as rejected. */
  method ScenarioRejectsUnknownState()
  {
    assert InvalidState[..13] == "Invalid state";
    var log := new AuditLog([]);
    var toggle := JObject(map["state" := JString("toggle")]);
    var o := log.HandleSwitchCommand("{\"state\":\"toggle\"}", Some(toggle), "t1");
    assert o.Handled? && o.ack.status == Rejected && o.ack.reason == Some(InvalidState);
    assert |log.entries| == 1 && log.entries[0].status == Rejected;
  }

  /** `test_handle_switch_command_rejects_invalid_json`: the raw text is rejected and logged as rejected. */
  method ScenarioRejectsInvalidJson()
  {
    assert InvalidJsonPayload[..12] == "Invalid JSON";
    var log := new AuditLog([]);
    var o := log.HandleSwitchCommand("not-json", None, "t1");
    assert o.Handled? && o.ack.status == Rejected && o.ack.reason == Some(InvalidJsonPayload);
    assert |log.entries| == 1 && log.entries[0].status == Rejected;
    assert log.entries[0].command == RawPayload("not-json");
  }
}

/**
 * The pure pieces of the standup handlers: how the create and edit forms
 * become the JSON a standup is sent with, and the decisions the handlers
 * take on what the API sent back (who may open a session, whether the
 * visitor has already answered, which members a standup has).
 */
module StandupData {
  import opened Wrappers
  import opened JsonValues
  import PyInt

  /** `",".join(parts)`. */
  function JoinComma(parts: seq<string>): string
  {
    if parts == [] then ""
    else if |parts| == 1 then parts[0]
    else parts[0] + "," + JoinComma(parts[1..])
  }

  /** `s.split(",")`: never empty, and no piece holds a comma. */
  function SplitComma(s: string): (r: seq<string>)
    ensures r != []
    ensures forall i :: 0 <= i < |r| ==> ',' !in r[i]
  {
    if s == [] then [""]
    else
      var rest := SplitComma(s[1..]);
      if s[0] == ',' then [""] + rest
      else [[s[0]] + rest[0]] + rest[1..]
  }

  lemma {:induction false} SplitNoComma(p: string)
    requires ',' !in p
    ensures SplitComma(p) == [p]
  {
    if p != [] {
      SplitNoComma(p[1..]);
      assert [p[0]] + p[1..] == p;
    }
  }

  lemma {:induction false} SplitPiece(p: string, rest: string)
    requires ',' !in p
    ensures SplitComma(p + "," + rest) == [p] + SplitComma(rest)
  {
    var s := p + "," + rest;
    if p == [] {
      assert s[1..] == rest;
    } else {
      assert s[1..] == p[1..] + "," + rest;
      SplitPiece(p[1..], rest);
      assert [p[0]] + p[1..] == p;
    }
  }

  /**
   * The `days_of_week` string the create and edit forms send names the
   * selected days in order: splitting it at the commas gives them back, as
   * long as at least one day was selected and no day name holds a comma.
   * An empty selection is sent as the empty string, which splits to one
   * empty name, not to no names.
   */
  lemma {:induction false} JoinSplitRoundTrip(parts: seq<string>)
    requires parts != []
    requires forall i :: 0 <= i < |parts| ==> ',' !in parts[i]
    ensures SplitComma(JoinComma(parts)) == parts
    ensures JoinComma([]) == "" && SplitComma(JoinComma([])) == [""]
  {
    if |parts| == 1 {
      SplitNoComma(parts[0]);
    } else {
      JoinSplitRoundTrip(parts[1..]);
      SplitPiece(parts[0], JoinComma(parts[1..]));
      assert [parts[0]] + parts[1..] == parts;
    }
  }

  /** `int(value)` on a form field: a missing field raises `TypeError`, bad text `ValueError`. */
  function FormInt(value: Option<string>): Option<int>
  {
    if value.None? then None else PyInt.ParseInt(value.value, 10)
  }

  /** `int(value or 0)`: a missing or empty field counts as 0. */
  function FormIntOrZero(value: Option<string>): Option<int>
  {
    if value.None? || value.value == "" then Some(0) else PyInt.ParseInt(value.value, 10)
  }

  /**
   * `create` and `edit` convert the same field alike whenever `edit` can
   * convert it at all; a missing or empty field is 0 for `create` and an
   * error for `edit`; and a number written out in decimal converts back to
   * itself in both.
   */
  lemma CreateDefaultsWhereEditRaises(value: Option<string>, n: nat)
    ensures FormInt(value).Some? ==> FormIntOrZero(value) == FormInt(value)
    ensures value.None? || value == Some("") ==> FormIntOrZero(value) == Some(0) && FormInt(value).None?
    ensures FormInt(Some(PyInt.Decimal(n))) == Some(n as int) && FormIntOrZero(Some(PyInt.Decimal(n))) == Some(n as int)
  {
    assert PyInt.Strip("") == "";
    PyInt.DecimalParses(n);
  }

  /** `[int(x) for x in values]`: every element converts, or the comprehension raises. */
  function IntList(values: seq<string>): (r: Option<seq<int>>)
    ensures r.Some? <==> forall i :: 0 <= i < |values| ==> PyInt.ParseInt(values[i], 10).Some?
    ensures r.Some? ==> |r.value| == |values|
    ensures r.Some? ==> forall i :: 0 <= i < |values| ==> PyInt.ParseInt(values[i], 10) == Some(r.value[i])
  {
    if values == [] then Some([])
    else
      var head := PyInt.ParseInt(values[0], 10);
      var tail := IntList(values[1..]);
      assert forall i :: 1 <= i < |values| ==> values[i] == values[1..][i - 1];
      if head.Some? && tail.Some? then Some([head.value] + tail.value) else None
  }

  function IntsAsJson(ns: seq<int>): (r: seq<Json>)
    ensures |r| == |ns| && forall i :: 0 <= i < |ns| ==> r[i] == JInt(ns[i])
  {
    seq(|ns|, i requires 0 <= i < |ns| => JInt(ns[i]))
  }

  /** The fields of the standup form, as `request.form` holds them. */
  datatype StandupForm = StandupForm(
    name: Option<string>,
    days: seq<string>,
    timeOfDay: Option<string>,
    timezone: Option<string>,
    duration: Option<string>,
    facilitatorId: Option<string>,
    memberIds: seq<string>)

  /** How a numeric field converts: leniently in `create`, strictly in `edit`. */
  function NumberField(value: Option<string>, lenient: bool): Option<int>
  {
    if lenient then FormIntOrZero(value) else FormInt(value)
  }

  const PayloadKeys: set<string> :=
    {"name", "days_of_week", "time_of_day", "timezone", "duration_minutes", "facilitator_id", "member_ids"}

  /** The JSON object a standup is sent as, once its numbers are converted. */
  function PayloadObject(form: StandupForm, minutes: int, facilitator: int, members: seq<int>): (j: Json)
    ensures j.JObj? && j.fields.Keys == PayloadKeys
    ensures j.fields["days_of_week"] == JStr(JoinComma(form.days))
    ensures j.fields["duration_minutes"] == JInt(minutes) && j.fields["facilitator_id"] == JInt(facilitator)
    ensures j.fields["member_ids"] == JList(IntsAsJson(members))
  {
    JObj(map[
      "name" := FormValue(form.name),
      "days_of_week" := JStr(JoinComma(form.days)),
      "time_of_day" := FormValue(form.timeOfDay),
      "timezone" := FormValue(form.timezone),
      "duration_minutes" := JInt(minutes),
      "facilitator_id" := JInt(facilitator),
      "member_ids" := JList(IntsAsJson(members))])
  }

  /**
   * The JSON body `create` (lenient) and `edit` (strict) send, or None when
   * one of the `int` conversions raises before anything is sent.
   */
  function StandupPayload(form: StandupForm, lenient: bool): (r: Option<Json>)
    ensures r.Some? <==> NumberField(form.duration, lenient).Some? && NumberField(form.facilitatorId, lenient).Some?
                         && IntList(form.memberIds).Some?
    ensures r.Some? ==> r.value == PayloadObject(form, NumberField(form.duration, lenient).value,
                                                 NumberField(form.facilitatorId, lenient).value, IntList(form.memberIds).value)
  {
    var minutes := NumberField(form.duration, lenient);
    var facilitator := NumberField(form.facilitatorId, lenient);
    var members := IntList(form.memberIds);
    if minutes.Some? && facilitator.Some? && members.Some? then
      Some(PayloadObject(form, minutes.value, facilitator.value, members.value))
    else None
  }

  /**
   * `create` sends a form whose duration and facilitator are left empty
   * with both numbers 0, where `edit` raises on the same form and sends
   * nothing.
   */
  lemma EmptyNumbersCreateVersusEdit(form: StandupForm)
    requires form.duration in {None, Some("")} && form.facilitatorId in {None, Some("")}
    requires IntList(form.memberIds).Some?
    ensures StandupPayload(form, false).None?
    ensures StandupPayload(form, true).Some?
    ensures StandupPayload(form, true).value.fields["duration_minutes"] == JInt(0)
    ensures StandupPayload(form, true).value.fields["facilitator_id"] == JInt(0)
  {
    CreateDefaultsWhereEditRaises(form.duration, 0);
  }

  /** `[x[key] for x in items]` over a list: every element must be an object holding the key. */
  function FieldOfEach(items: seq<Json>, key: string): (r: Option<seq<Json>>)
    ensures r.Some? <==> forall i :: 0 <= i < |items| ==> Field(items[i], key).Some?
    ensures r.Some? ==> |r.value| == |items|
    ensures r.Some? ==> forall i :: 0 <= i < |items| ==> Field(items[i], key) == Some(r.value[i])
  {
    if items == [] then Some([])
    else
      match (Field(items[0], key), FieldOfEach(items[1..], key))
      case (Some(h), Some(t)) =>
        assert forall i :: 1 <= i < |items| ==> items[i] == items[1..][i - 1];
        Some([h] + t)
      case _ =>
        assert forall i :: 1 <= i < |items| ==> items[i] == items[1..][i - 1];
        None
  }

  /**
   * `[x[key] for x in j]` over any decoded value. Iterating an object
   * yields its keys and iterating a string its characters; both are
   * strings, which raise when subscripted with a string, so only their
   * empty forms get through. Other scalars are not iterable.
   */
  function Subscript(j: Json, key: string): Option<seq<Json>>
  {
    match j
    case JList(items) => FieldOfEach(items, key)
    case JObj(f) => if f == map[] then Some([]) else None
    case JStr(s) => if s == "" then Some([]) else None
    case _ => None
  }

  /**
   * `[m["id"] for m in standup.get("members", [])]`: the members' ids in
   * order, none when the key is absent, and None where Python raises
   * (`.get` on a non-object, a member without an id).
   */
  function MemberIds(standup: Json): (r: Option<seq<Json>>)
    ensures !standup.JObj? ==> r.None?
    ensures standup.JObj? && "members" !in standup.fields ==> r == Some([])
    ensures standup.JObj? && "members" in standup.fields && standup.fields["members"].JList? ==>
      var members := standup.fields["members"].items;
      && (r.Some? <==> forall i :: 0 <= i < |members| ==> Field(members[i], "id").Some?)
      && (r.Some? ==> |r.value| == |members| && forall i :: 0 <= i < |members| ==> r.value[i] == members[i].fields["id"])
  {
    if !standup.JObj? then None
    else if "members" !in standup.fields then Some([])
    else Subscript(standup.fields["members"], "id")
  }

  /**
   * `standup["facilitator_id"] != session["user_id"] and session["user_role"] != "admin"`,
   * negated: whether the visitor may open a session. None where a lookup
   * raises; the role is looked up only when the ids differ.
   */
  function MayCreateSession(standup: Json, session: map<string, Json>): (r: Option<bool>)
    ensures r.Some? <==> Field(standup, "facilitator_id").Some? && "user_id" in session
                         && (Field(standup, "facilitator_id").value == session["user_id"] || "user_role" in session)
    ensures r == Some(true) <==> Field(standup, "facilitator_id").Some? && "user_id" in session
                                 && (Field(standup, "facilitator_id").value == session["user_id"]
                                     || ("user_role" in session && session["user_role"] == JStr("admin")))
  {
    match Field(standup, "facilitator_id")
    case None => None
    case Some(facilitator) =>
      if "user_id" !in session then None
      else if facilitator == session["user_id"] then Some(true)
      else if "user_role" !in session then None
      else Some(session["user_role"] == JStr("admin"))
  }

  /**
   * `any(r["user_id"] == uid for r in items)`: the scan stops at the first
   * match, so entries after it are never subscripted.
   */
  function AnyHasUser(items: seq<Json>, uid: Json): Option<bool>
  {
    if items == [] then Some(false)
    else
      match Field(items[0], "user_id")
      case None => None
      case Some(u) => if u == uid then Some(true) else AnyHasUser(items[1..], uid)
  }

  /** Every entry before `k` is an object with a `user_id` other than `uid`. */
  ghost predicate NoMatchBefore(items: seq<Json>, uid: Json, k: int)
    requires 0 <= k <= |items|
  {
    forall j :: 0 <= j < k ==> Field(items[j], "user_id").Some? && Field(items[j], "user_id") != Some(uid)
  }

  /**
   * The scan answers true exactly when some entry carries the visitor's id
   * and every entry before it is well formed and another user's; it
   * answers false exactly when every entry is well formed and none is the
   * visitor's.
   */
  lemma {:induction false} AnyHasUserMeaning(items: seq<Json>, uid: Json)
    ensures AnyHasUser(items, uid) == Some(true) <==>
      exists k :: 0 <= k < |items| && Field(items[k], "user_id") == Some(uid) && NoMatchBefore(items, uid, k)
    ensures AnyHasUser(items, uid) == Some(false) <==> NoMatchBefore(items, uid, |items|)
  {
    if items != [] {
      var tail := items[1..];
      AnyHasUserMeaning(tail, uid);
      var head := Field(items[0], "user_id");
      if head == Some(uid) {
        assert NoMatchBefore(items, uid, 0);
      } else if head.Some? {
        if AnyHasUser(tail, uid) == Some(true) {
          var k :| 0 <= k < |tail| && Field(tail[k], "user_id") == Some(uid) && NoMatchBefore(tail, uid, k);
          NoMatchBeforeShift(items, uid, k + 1);
          assert items[k + 1] == tail[k];
        }
        if exists k :: 0 <= k < |items| && Field(items[k], "user_id") == Some(uid) && NoMatchBefore(items, uid, k) {
          var k :| 0 <= k < |items| && Field(items[k], "user_id") == Some(uid) && NoMatchBefore(items, uid, k);
          assert k != 0;
          NoMatchBeforeShift(items, uid, k);
          assert items[k] == tail[k - 1];
        }
        NoMatchBeforeShift(items, uid, |items|);
      }
    }
  }

  /** An entry-by-entry condition on a prefix splits into its first entry and the rest. */
  lemma NoMatchBeforeShift(items: seq<Json>, uid: Json, k: int)
    requires 1 <= k <= |items|
    ensures NoMatchBefore(items, uid, k) <==>
      (Field(items[0], "user_id").Some? && Field(items[0], "user_id") != Some(uid) && NoMatchBefore(items[1..], uid, k - 1))
  {
    var tail := items[1..];
    if NoMatchBefore(items, uid, k) {
      forall j | 0 <= j < k - 1
        ensures Field(tail[j], "user_id").Some? && Field(tail[j], "user_id") != Some(uid)
      {
        assert tail[j] == items[j + 1];
      }
    }
    if Field(items[0], "user_id").Some? && Field(items[0], "user_id") != Some(uid) && NoMatchBefore(tail, uid, k - 1) {
      forall j | 0 <= j < k
        ensures Field(items[j], "user_id").Some? && Field(items[j], "user_id") != Some(uid)
      {
        if j > 0 {
          assert items[j] == tail[j - 1];
        }
      }
    }
  }

  /**
   * `user_has_responded`: the `any(...)` scan over what the responses
   * request gave back. A non-list behaves as Python iterates it: an empty
   * object or string is an empty scan, any other raises (None).
   */
  function UserHasResponded(responses: Json, uid: Json): Option<bool>
  {
    match responses
    case JList(items) => AnyHasUser(items, uid)
    case JObj(f) => if f == map[] then Some(false) else None
    case JStr(s) => if s == "" then Some(false) else None
    case _ => None
  }

  /**
   * `standup_session.get('standup', {}).get('timezone', 'UTC')`: None where
   * either `.get` lands on something that is not an object.
   */
  function TimezoneOf(standupSession: Json): (r: Option<Json>)
    ensures r.Some? <==> (standupSession.JObj?
      && ("standup" in standupSession.fields ==> standupSession.fields["standup"].JObj?))
    ensures r.Some? && "standup" in standupSession.fields && "timezone" in standupSession.fields["standup"].fields ==>
      r.value == standupSession.fields["standup"].fields["timezone"]
    ensures r.Some? && ("standup" !in standupSession.fields || "timezone" !in standupSession.fields["standup"].fields) ==>
      r.value == JStr("UTC")
  {
    if !standupSession.JObj? then None
    else
      var inner := if "standup" in standupSession.fields then standupSession.fields["standup"] else JObj(map[]);
      if !inner.JObj? then None
      else Some(if "timezone" in inner.fields then inner.fields["timezone"] else JStr("UTC"))
  }
}

/** The ids guest rounds go by, and the two places that take them apart. */
module RoundIds {
  import opened Wrappers
  import opened Sessions
  import Guests

  function Prefix(n: RoundNumber): string { if n.One? then "round_1_" else "round_2_" }

  /** The id `get_session` gives a guest round. */
  function GuestRoundId(n: RoundNumber, session: string): string { Prefix(n) + session }

  predicate StartsWith(t: string, p: string) { p <= t }

  predicate ContainsAt(t: string, p: string, i: nat) { i + |p| <= |t| && t[i..i + |p|] == p }

  predicate Contains(t: string, p: string) { exists i | 0 <= i <= |t| :: ContainsAt(t, p, i) }

  /** The prefix parser. */
  function Parse(id: string): Option<(string, RoundNumber)> {
    if StartsWith(id, Prefix(One)) then Some((id[|Prefix(One)|..], One))
    else if StartsWith(id, Prefix(Two)) then Some((id[|Prefix(Two)|..], Two))
    else None
  }

  /** The substring test of `submit_feedback`. */
  function FeedbackRound(id: string): RoundNumber { if Contains(id, "round_1") then One else Two }

  lemma PrefixesDiffer(t: string)
    ensures !(StartsWith(t, Prefix(One)) && StartsWith(t, Prefix(Two)))
  {
    assert Prefix(One)[6] == '1' && Prefix(Two)[6] == '2';
  }

  /** Parsing undoes naming, whatever the session id. */
  lemma ParseRoundTrip(n: RoundNumber, session: string)
    ensures Parse(GuestRoundId(n, session)) == Some((session, n))
  {
    PrefixesDiffer(GuestRoundId(n, session));
    assert GuestRoundId(n, session)[|Prefix(n)|..] == session;
    assert GuestRoundId(n, session)[..|Prefix(n)|] == Prefix(n);
  }

  /** ... and accepts nothing but names. */
  lemma {:induction false} ParsedIsNamed(id: string)
    ensures Parse(id).Some? ==> id == GuestRoundId(Parse(id).value.1, Parse(id).value.0)
  {
    if StartsWith(id, Prefix(One)) {
      assert id == id[..|Prefix(One)|] + id[|Prefix(One)|..];
    } else if StartsWith(id, Prefix(Two)) {
      assert id == id[..|Prefix(Two)|] + id[|Prefix(Two)|..];
    }
  }

  lemma FirstRoundContained(session: string)
    ensures Contains(GuestRoundId(One, session), "round_1")
  {
    var t := GuestRoundId(One, session);
    assert t[0..0 + |"round_1"|] == "round_1";
    assert ContainsAt(t, "round_1", 0);
  }

  lemma SecondRoundContains(session: string)
    ensures Contains(GuestRoundId(Two, session), "round_1") <==> Contains(session, "round_1")
  {
    var p, q, t := Prefix(Two), "round_1", GuestRoundId(Two, session);
    assert |p| == 8 && |q| == 7;
    forall i | 0 <= i <= |t| && ContainsAt(t, q, i) ensures i >= |p| && ContainsAt(session, q, i - |p|) {
      assert t[i..i + |q|][0] == t[i] == 'r';
      assert t[i..i + |q|][6] == t[i + 6] == '1';
      if i >= |p| {
        assert t[i..i + |q|] == session[i - |p|..i - |p| + |q|];
      }
    }
    forall i | 0 <= i <= |session| && ContainsAt(session, q, i) ensures ContainsAt(t, q, i + |p|) {
      assert t[i + |p|..i + |p| + |q|] == session[i..i + |q|];
    }
    if Contains(session, q) {
      var i :| 0 <= i <= |session| && ContainsAt(session, q, i);
      assert ContainsAt(t, q, i + |p|);
    }
  }

  /** The substring test picks the parser's round exactly when no second-round id hides a "round_1". */
  lemma TestsAgreeIff(n: RoundNumber, session: string)
    ensures FeedbackRound(GuestRoundId(n, session)) == Parse(GuestRoundId(n, session)).value.1
            <==> n == One || !Contains(session, "round_1")
  {
    ParseRoundTrip(n, session);
    if n == One {
      FirstRoundContained(session);
    } else {
      SecondRoundContains(session);
    }
  }

  predicate UuidText(t: string) { forall c :: c in t ==> '0' <= c <= '9' || 'a' <= c <= 'f' || c == '-' }

  /** Session ids are UUIDs, so in practice the two always agree. */
  lemma TestsAgreeOnUuids(n: RoundNumber, session: string)
    requires UuidText(session)
    ensures Parse(GuestRoundId(n, session)) == Some((session, n))
    ensures FeedbackRound(GuestRoundId(n, session)) == n
  {
    TestsAgreeIff(n, session);
    ParseRoundTrip(n, session);
    forall i | 0 <= i <= |session| ensures !ContainsAt(session, "round_1", i) {
      NoRoundInUuid(session, i);
    }
  }

  lemma NoRoundInUuid(session: string, i: nat)
    requires UuidText(session) && i <= |session|
    ensures !ContainsAt(session, "round_1", i)
  {
    if i + 7 <= |session| {
      assert session[i..i + 7][0] == session[i] && session[i] in session && "round_1"[0] == 'r';
    }
  }

  // ---- Field names -----------------------------------------------------------------------------

  function RoundDigit(n: RoundNumber): string { if n.One? then "1" else "2" }

  /** The name a field has in the Redis hash. */
  function FieldName(f: Guests.Field): string {
    match f
    case UserA => "user_a"
    case UserB => "user_b"
    case Room => "room_id"
    case Mode => "mode"
    case StatusOfSession => "status"
    case CreatedAt => "created_at"
    case Version => "version"
    case StartedAt => "started_at"
    case CompletedAt => "completed_at"
    case Of(n, part) =>
      match part
      case FeedbackBy(user) => "feedback_" + RoundDigit(n) + "_" + user
      case StatusOfRound => "round_" + RoundDigit(n) + "_status"
      case StartOfRound => "round_" + RoundDigit(n) + "_started_at"
      case EndOfRound => "round_" + RoundDigit(n) + "_ended_at"
      case ChosenProblem => "round_" + RoundDigit(n) + "_problem_id"
      case ChosenText => "round_" + RoundDigit(n) + "_custom_text"
      case Code => "round_" + RoundDigit(n) + "_code"
      case CodeLanguage => "round_" + RoundDigit(n) + "_code_language"
      case CodeSubmittedAt => "round_" + RoundDigit(n) + "_code_submitted_at"
  }

  lemma SameNameSameKind(f: Guests.Field, g: Guests.Field)
    requires FieldName(f) == FieldName(g)
    ensures f.Of? == g.Of?
    ensures f.Of? ==> f.part.FeedbackBy? == g.part.FeedbackBy?
  {
    assert FieldName(f)[0] == FieldName(g)[0] && FieldName(f)[1] == FieldName(g)[1] && FieldName(f)[2] == FieldName(g)[2];
  }

  /** Distinct fields have distinct names, so the hash can be read field by field. */
  lemma FieldNamesDiffer(f: Guests.Field, g: Guests.Field)
    requires FieldName(f) == FieldName(g)
    ensures f == g
  {
    SameNameSameKind(f, g);
    var t := FieldName(f);
    if f.Of? && f.part.FeedbackBy? {
      assert t[9] == RoundDigit(f.n)[0] && FieldName(g)[9] == RoundDigit(g.n)[0];
      assert t[11..] == f.part.user && FieldName(g)[11..] == g.part.user;
    } else if f.Of? {
      assert t[6] == RoundDigit(f.n)[0] && FieldName(g)[6] == RoundDigit(g.n)[0];
      assert t[8] == FieldName(g)[8] && |t| == |FieldName(g)|;
    } else {
      assert t[0] == FieldName(g)[0] && |t| == |FieldName(g)| && t[|t| - 1] == FieldName(g)[|t| - 1];
    }
  }
}

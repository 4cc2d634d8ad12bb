/** How numbers and statuses are written into, and read back from, a Redis hash. */
module Texts {
  import opened Wrappers
  import opened Sessions

  const DIGITS: string := "0123456789"

  function Number(n: nat): (t: string)
    ensures t != ""
  {
    if n < 10 then [DIGITS[n]] else Number(n / 10) + [DIGITS[n % 10]]
  }

  function Digit(c: char): nat { if '0' <= c <= '9' then c as nat - '0' as nat else 0 }

  function Value(t: string): nat {
    if t == "" then 0 else 10 * Value(t[..|t| - 1]) + Digit(t[|t| - 1])
  }

  lemma {:induction false} NumberReadsBack(n: nat)
    ensures Value(Number(n)) == n
  {
    if n >= 10 {
      NumberReadsBack(n / 10);
      assert Number(n)[..|Number(n)| - 1] == Number(n / 10);
    } else {
      assert Number(n)[..0] == "";
    }
  }

  // ---- Seconds ---------------------------------------------------------------------------------

  /** Thousandths, as decimals without the zeros at the end; at least one digit stays. */
  function Decimals(n: nat): string
    requires n < 1000
  {
    if n % 100 == 0 then [DIGITS[n / 100]]
    else if n % 10 == 0 then [DIGITS[n / 100], DIGITS[n / 10 % 10]]
    else [DIGITS[n / 100], DIGITS[n / 10 % 10], DIGITS[n % 10]]
  }

  function Thousandths(t: string): nat {
    (if |t| > 0 then 100 * Digit(t[0]) else 0) + (if |t| > 1 then 10 * Digit(t[1]) else 0) + (if |t| > 2 then Digit(t[2]) else 0)
  }

  /** A time as the decimal seconds that `str(now.timestamp())` gives. */
  function Seconds(now: nat): (t: string)
    ensures t != ""
  {
    Number(now / 1000) + "." + Decimals(now % 1000)
  }

  function Point(t: string): (i: nat)
    ensures i <= |t|
  {
    if t == "" || t[0] == '.' then 0 else 1 + Point(t[1..])
  }

  /** What `float` and `fromtimestamp` make of it. */
  function FromSeconds(t: string): nat {
    1000 * Value(t[..Point(t)]) + if Point(t) < |t| then Thousandths(t[Point(t) + 1..]) else 0
  }

  lemma {:induction false} NumberHasNoPoint(n: nat)
    ensures forall c :: c in Number(n) ==> c != '.'
  {
    assert DIGITS[n % 10] != '.' by {
      assert '.' !in DIGITS;
    }
    if n >= 10 {
      NumberHasNoPoint(n / 10);
    }
  }

  lemma {:induction false} PointAfter(t: string, rest: string)
    requires forall c :: c in t ==> c != '.'
    ensures Point(t + "." + rest) == |t|
  {
    if t != "" {
      assert t[0] in t && forall c :: c in t[1..] ==> c in t;
      PointAfter(t[1..], rest);
      assert (t + "." + rest)[1..] == t[1..] + "." + rest;
    }
  }

  lemma DigitsReadBack(n: nat)
    requires n < 10
    ensures Digit(DIGITS[n]) == n
  {
  }

  lemma DecimalDigits(n: nat)
    requires n < 1000
    ensures n == 100 * (n / 100) + 10 * (n / 10 % 10) + n % 10
    ensures n % 100 == 0 <==> n / 10 % 10 == 0 && n % 10 == 0
  {
  }

  lemma DecimalsReadBack(n: nat)
    requires n < 1000
    ensures Thousandths(Decimals(n)) == n
  {
    hide Digit;
    DecimalDigits(n);
    DigitsReadBack(n / 100);
    DigitsReadBack(n / 10 % 10);
    DigitsReadBack(n % 10);
  }

  lemma SecondsReadBack(now: nat)
    ensures FromSeconds(Seconds(now)) == now
  {
    var whole, rest := Number(now / 1000), Decimals(now % 1000);
    var t := Seconds(now);
    NumberHasNoPoint(now / 1000);
    PointAfter(whole, rest);
    assert t[..|whole|] == whole && t[|whole| + 1..] == rest;
    NumberReadsBack(now / 1000);
    DecimalsReadBack(now % 1000);
  }

  // ---- Statuses ----------------------------------------------------------------------------------

  function StatusText(s: Status): string {
    match s
    case Created => "CREATED"
    case Preparation => "PREPARATION"
    case Round1Active => "ROUND_1_ACTIVE"
    case Round1Feedback => "ROUND_1_FEEDBACK"
    case Round2Active => "ROUND_2_ACTIVE"
    case Round2Feedback => "ROUND_2_FEEDBACK"
    case Completed => "COMPLETED"
    case Abandoned => "ABANDONED"
    case Canceled => "CANCELED"
  }

  function RoundStatusText(s: RoundStatus): string {
    match s
    case Pending => "PENDING"
    case Active => "ACTIVE"
    case InFeedback => "FEEDBACK"
    case Done => "COMPLETED"
  }

  const STATUSES: seq<Status> :=
    [Created, Preparation, Round1Active, Round1Feedback, Round2Active, Round2Feedback, Completed, Abandoned, Canceled]

  const ROUND_STATUSES: seq<RoundStatus> := [Pending, Active, InFeedback, Done]

  function FindStatus(t: string, among: seq<Status>): Option<Status> {
    if among == [] then None
    else if t == StatusText(among[0]) then Some(among[0])
    else FindStatus(t, among[1..])
  }

  function FindRoundStatus(t: string, among: seq<RoundStatus>): Option<RoundStatus> {
    if among == [] then None
    else if t == RoundStatusText(among[0]) then Some(among[0])
    else FindRoundStatus(t, among[1..])
  }

  function StatusOf(t: string): Option<Status> { FindStatus(t, STATUSES) }

  function RoundStatusOf(t: string): Option<RoundStatus> { FindRoundStatus(t, ROUND_STATUSES) }

  lemma StatusTextsDiffer(s: Status, t: Status)
    requires StatusText(s) == StatusText(t)
    ensures s == t
  {
    assert StatusText(Round1Active)[6] != StatusText(Round2Active)[6];
    assert StatusText(Round1Feedback)[6] != StatusText(Round2Feedback)[6];
    assert StatusText(Completed)[1] != StatusText(Abandoned)[1];
    assert |StatusText(Created)| == 7 && |StatusText(Canceled)| == 8 && |StatusText(Completed)| == 9;
    assert |StatusText(Preparation)| == 11 && |StatusText(Round1Active)| == 14 && |StatusText(Round1Feedback)| == 16;
  }

  lemma RoundStatusTextsDiffer(s: RoundStatus, t: RoundStatus)
    requires RoundStatusText(s) == RoundStatusText(t)
    ensures s == t
  {
    assert |RoundStatusText(Pending)| == 7 && |RoundStatusText(Active)| == 6;
    assert |RoundStatusText(InFeedback)| == 8 && |RoundStatusText(Done)| == 9;
  }

  lemma {:induction false} FindsStatus(s: Status, among: seq<Status>)
    requires s in among
    ensures FindStatus(StatusText(s), among) == Some(s)
  {
    if StatusText(s) == StatusText(among[0]) {
      StatusTextsDiffer(s, among[0]);
    } else {
      FindsStatus(s, among[1..]);
    }
  }

  lemma {:induction false} FindsRoundStatus(s: RoundStatus, among: seq<RoundStatus>)
    requires s in among
    ensures FindRoundStatus(RoundStatusText(s), among) == Some(s)
  {
    if RoundStatusText(s) == RoundStatusText(among[0]) {
      RoundStatusTextsDiffer(s, among[0]);
    } else {
      FindsRoundStatus(s, among[1..]);
    }
  }

  lemma StatusReadsBack(s: Status)
    ensures StatusOf(StatusText(s)) == Some(s)
  {
    assert STATUSES[0] == Created && STATUSES[1] == Preparation && STATUSES[2] == Round1Active
        && STATUSES[3] == Round1Feedback && STATUSES[4] == Round2Active && STATUSES[5] == Round2Feedback
        && STATUSES[6] == Completed && STATUSES[7] == Abandoned && STATUSES[8] == Canceled;
    FindsStatus(s, STATUSES);
  }

  lemma RoundStatusReadsBack(s: RoundStatus)
    ensures RoundStatusOf(RoundStatusText(s)) == Some(s)
  {
    assert ROUND_STATUSES[0] == Pending && ROUND_STATUSES[1] == Active && ROUND_STATUSES[2] == InFeedback && ROUND_STATUSES[3] == Done;
    FindsRoundStatus(s, ROUND_STATUSES);
  }

  lemma {:induction false} EmptyIsNoStatus(among: seq<RoundStatus>)
    ensures FindRoundStatus("", among) == None
  {
    if among != [] {
      assert RoundStatusText(among[0]) != "";
      EmptyIsNoStatus(among[1..]);
    }
  }

  lemma {:induction false} FoundRoundStatusHasText(t: string, among: seq<RoundStatus>)
    ensures FindRoundStatus(t, among).Some? ==> t == RoundStatusText(FindRoundStatus(t, among).value)
  {
    if among != [] && t != RoundStatusText(among[0]) {
      FoundRoundStatusHasText(t, among[1..]);
    }
  }
}

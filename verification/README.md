# Verified model of the interview arena's protocols

The service pairs two users who wait for a mock interview, drives the interview through its timed phases,
connects the two browsers for a call, and counts daily streaks. This project models those four protocols in
Dafny and proves what they promise over every run.

| module | what it holds |
|---|---|
| `Identity`, `SortedSets`, `Redis` | sorted sets, expiring keys, the atomic reservation script |
| `Matchmaking`, `MatchRuns`, `Notes`, `Recovery`, `Credits` | joins as whole requests; runs of joins, leaves, session requests and polls; what a match note means; what a failed creation leaves behind; interview credit |
| `Commands`, `Refinement`, `Bookings`, `DoubleBookings` | the same joins taken apart into single Redis commands, interleaved; that alone they are the joins of `Matchmaking`; when interleaving books a user twice; three runs that do |
| `Sessions`, `Lifecycle`, `Registered` | the interview as a value; its runs and timing; the database rows and the poll loop |
| `Texts`, `Guests` | the second implementation, over a Redis hash of strings, and its simulation of the first |
| `Questions`, `RoundIds` | which question a round shows; the ids of guest rounds |
| `Streaks` | the streak counters and the declarative definition they must meet |
| `WebRtcPeer`, `WebRtcProtocol`, `WebRtcRoles`, `WebRtcStranding`, `WebRtcOrder`, `WebRtcQuiescence`, `WebRtcIce`, `WebRtcGathering`, `WebRtcLostIce` | one client of the call; two clients and their channels; who does what and when the offerer negotiates; when an offerer waits in vain; the order of negotiations; what quiet channels mean; candidates on each client and from end to end, and two runs that lose them |

Code that changes state in place is a class (`RedisClient`, `MatchmakingService`, `InterviewSession`,
`GuestSession`, `StreakTable`, `CallPeer`). The postconditions of its methods give the whole new state by a
specification function on values; runs are sequences of those functions, and the theorems are about runs. Methods
without a loop or an interleaving of their own, such as those of `CallPeer` for single handlers or the request
methods of `InterviewSession`, are proved equal to their functions and have no row below.

## How to read the model

* Times are milliseconds. Each request reads one clock. A key set with an expiry exists strictly before it.
* At request level (`MatchRuns`) one call of the service is one step. `NewIdsFrom` asks that match ids are new; the
  credit theorems need nothing else. `YoungRun` asks besides that no unfinished session reaches the day after which
  its match notes expire; only a registered one can, because the hash of a guest session expires at the same moment
  (`Gone`). `PunctualRun` asks instead that no poll loop of an unfinished session is silent for longer
  than `gap`; `GapBoundIsExact` shows that, with the durations of production, 14,055 seconds is the
  longest gap that will do.
* At command level (`Commands`) every Redis command of every join is a step. `TimelyRun` asks that request and
  match ids are new and that locks are deleted before they expire. `CarefulRun` (in `Bookings`) asks besides that no
  script reserves a user who is being finalized or whose note names an unfinished session, and that such notes do not
  expire.
* Durable creation is stored, refused by a constraint, or fails otherwise (`Creation`). A failure leaves nothing
  stored. A refusal is finalized like a success, as the code does, although no session exists.
* In the WebRTC model every handler is one step, except that `maybeNegotiate` is two, split at `createOffer`.
  Channels keep order and do not duplicate; whether they lose messages is part of the run. A suspended
  `createOffer` may settle after its connection was closed and replaced, and then runs the `finally` block, which
  clears the flag. The operations chain of the W3C WebRTC recommendation leaves the promise of a closed connection
  pending for ever instead; `SettlesOpen` is that reading, and `OpenCallsNeverStrand` shows that nobody is stranded
  under it. Negotiation ids are numbered in the order they are drawn. `RTCPeerConnection` is its signalling state,
  its two descriptions and the candidates added to it, as in section 3.2 of RFC 8829; it gathers candidates only once
  it has a local description (section 3.5). A client that resumes a call
  after a reload is a `Mount` followed by a `Start`.
* The digest that spreads automatic questions is an arbitrary function `Seed`.

## Where the code and its documentation differ

* NFR-01 says that a user is never in two sessions at once. At request level that holds as long as no unfinished
  registered session is a day old, and not beyond (`MatchRuns.NoDoubleBooking`, `MatchRuns.RebookableIffADayOld`). At command
  level it holds as long as no script reserves a user who is being finalized or already has a session
  (`Bookings.CarefulRunsBookOnce`); nothing in the code ensures that. Locks are deleted before the queue entries
  (`DoubleBookings.WindowDoubleBooks`), the check for a match comes before the script
  (`DoubleBookings.SecondRequestDoubleBooks`), and notes can come after the end of their session
  (`DoubleBookings.LateNoteDoubleBooks`). `Bookings.CarelessStepIff` says which script steps do the harm.
* The comment on the script's eviction says an entry goes when it is older than the limit. The command also
  evicts an entry of exactly that age. The invariant `Matchmaking.OneQueueEach` relies on that.
* After a failed creation either user who retries is told of a match that was never created, exactly until the lock
  lapses (`Recovery.RetryReportsPhantomMatch`).
* `submit_feedback` refuses outsiders for registered sessions only
  (`Guests.FeedbackAgreesExactlyForParticipants`). `Guests.RunSimulatesUpToOutsiders` says what that changes in whole
  runs: the replies to outsiders, and one version for each feedback accepted from them.
* An empty code submission shows as empty code in a registered session and as no submission in a guest one
  (`Questions.ViewsAgreeUnlessCodeIsEmpty`).
* A retry is meant to free a stuck negotiation. If an abandoned `createOffer` call can still settle, a retry while one
  is outstanding can cause one: the abandoned call clears the flag of the new one. `WebRtcStranding.ResetStrandsIff`
  says that in every run exactly a reset at such a moment can. The flag itself tells such moments only as long as the
  offerer was never reset while it was set (`WebRtcStranding.PatientResetStrandsIff`). The same overlap can lose
  candidates (`WebRtcLostIce.OutOfStepLosesIce`), exactly when the answerer takes another offer while it already has
  candidates of the negotiation it ends up with (`WebRtcIce.AnswererConservesIceIff`).
* The hook's contract queues candidates that arrive before the remote description is set. In a renegotiation one is set
  already, so if its answer is lost the offerer adds the candidates at once, under the older answer
  (`WebRtcLostIce.LostAnswerMisplacesIce`). Without loss that cannot happen (`WebRtcIce.OffererConservesIce`).

## Model

| member | source | states |
|---|---|---|
| Redis.FirstEligibleIsLeast | backend/app/matchmaking/lua_scripts.py:23-34 | The scan finds the least entry, by score and then id, among users that are unlocked and neither the caller nor the last partner, and finds none exactly when there is none |
| Redis.ScriptIsFair | backend/app/matchmaking/lua_scripts.py:13-49 | Against a specification without eviction or scan: the caller is paired with the earliest candidate, so no earlier eligible waiter is passed over; it is queued exactly when there is no candidate and turned away exactly when locked |
| Redis.ScriptFrame | backend/app/matchmaking/lua_scripts.py:13-49 | The script changes nothing but the stale entries of its queue, the caller's entry there and, on a match, the two locks |
| Redis.RedisClient.ReservePair | backend/app/matchmaking/lua_scripts.py:13-49 | The in-place script with its loop and break leaves the keys and gives the reply of the specification |
| SortedSets.EvictFacts | backend/app/matchmaking/lua_scripts.py:14-15 | Eviction keeps exactly the entries above the bound, in order |
| SortedSets.RemoveFacts | backend/app/matchmaking/service.py:120-120 | Removal takes out exactly the entries of one user and keeps the order |
| SortedSets.AddFacts | backend/app/matchmaking/lua_scripts.py:39-39 | Adding replaces the user's own entry, keeps all others and keeps the set in order without duplicates |
| SortedSets.IdBeforeIsByteOrder | backend/app/matchmaking/lua_scripts.py:23-23 | Ties are broken by the first differing byte of the ids, or by the shorter id |
| Matchmaking.RequeueFacts | backend/app/matchmaking/service.py:36-43 | Switching queues takes the user out of the old queue, disturbs nobody else, and keeps every user in one live queue at most |
| Matchmaking.ReserveKeeps | backend/app/matchmaking/service.py:45-62 | The script keeps one live queue per user and only pairs with users who have no match and whose queue note names this queue |
| Matchmaking.FinalizeKeeps | backend/app/matchmaking/service.py:118-122 | Finalization takes both out of the only queue they are live in, so users with a match are live in none |
| Matchmaking.JoinKeeps | backend/app/matchmaking/service.py:25-152 | Every join keeps one live queue per user; it binds two different users who had no match, or leaves all matches as they were |
| Matchmaking.JoinIsFair | backend/app/matchmaking/service.py:31-71 | The whole reply of a join: a user with a live match or lock is told of that one; anybody else is paired with whoever has waited longest in this queue for less than 15 minutes, unlocked and not the last partner, and is queued if and only if there is nobody |
| Matchmaking.JoinFrame | backend/app/matchmaking/service.py:36-122 | A join of a free user notes its queue for 15 minutes and leaves everybody's entries but stale ones; queued, the user waits there; matched, both are out of the queue and unlocked |
| Matchmaking.LiveInOneQueueAtMost | backend/app/matchmaking/service.py:36-43 | Two live entries of one user are the same entry of the same queue, and its user has no match |
| Matchmaking.LeaveQueueKeeps | backend/app/matchmaking/service.py:154-157 | Leaving a queue keeps the queue invariant |
| Recovery.RaisedMeansReserved | backend/app/matchmaking/service.py:148-152 | When creation fails, exactly the two locks of this attempt and the queue changes remain |
| Recovery.JoinSparesLocked | backend/app/matchmaking/lua_scripts.py:17-34 | A join of anybody leaves the lock and the missing match of a locked user as they are, matches somebody else or nobody, and turns the locked user itself away with the id of its lock |
| Recovery.FailedCreationRecovers | backend/app/matchmaking/service.py:148-152 | For ten seconds after a failure, whatever joins, leaves, requests, polls and clock steps come in between: neither user gets a match or a session or can be paired, retries of either report the failed match, whoever neither retries nor leaves keeps its place while it is fresh, and exactly from the lapse on anybody else may be paired with them |
| Recovery.RetryReportsPhantomMatch | backend/app/matchmaking/service.py:64-69 | A retry of either of the two users, in any queue, reports the match that was never created if and only if the ten seconds of the lock have not passed; afterwards no retry reports any match |
| Matchmaking.MatchmakingService.JoinQueue | backend/app/matchmaking/service.py:25-152 | The keys and the reply are those of the specified join; exactly a stored match adds one new session for its two users, and no other outcome touches the store |
| Matchmaking.MatchmakingService.CreateSession | backend/app/matchmaking/service.py:73-116 | Durable creation adds one new guest or registered session with these seats, or nothing |
| MatchRuns.AlwaysSound | backend/app/matchmaking/service.py:25-157 | The invariant of the service holds after every run of joins, queue leaves, session requests, polls and clock steps, up to and including the step at which an unfinished registered session becomes a day old |
| MatchRuns.MatchIsStored | backend/app/matchmaking/service.py:73-116 | Exactly a stored match adds a session: the joining user interviews first, the waiting one second, in the room and mode of the queue, as a guest session exactly for guests |
| MatchRuns.JoinSparesMatched | backend/app/matchmaking/service.py:31-34 | A join of anybody leaves the note and the lock of every user who has a match as they were |
| MatchRuns.NoDoubleBooking | interview-arena-docs/docs/01-requirements/requirements.md:86-88 | In every run in which no unfinished registered session reaches a day, whatever the age of guest sessions, an unfinished session has two different participants whose match note is alive and names it, and no two unfinished sessions share a user |
| MatchRuns.OneLiveQueue | backend/app/matchmaking/service.py:31-55 | In every such run a live queue entry is its user's only one, the queue note is alive and names that queue, and the user has no match and no unfinished session |
| MatchRuns.LeavingLeaves | backend/app/matchmaking/service.py:154-157 | Leaving a queue takes the user out of that queue and changes nobody else, no other queue and no other key |
| MatchRuns.GoneForever | backend/app/matchmaking/service.py:75-85 | A guest session a day old is over for good: no action of any run with new ids changes it again |
| MatchRuns.RebookableIffADayOld | backend/app/matchmaking/service.py:85-122 | Up to the first moment a registered session can be a day old, a double booking can follow without further delay if and only if some unfinished registered session is a day old; guest sessions are gone by then |
| MatchRuns.GapBoundIsExact | backend/app/interview/lifecycle.py:286-301 | In all runs whose poll gaps are at most a given length nobody is booked twice, if and only if that length is at most 14,055 seconds |
| MatchRuns.PunctualIsYoung | backend/app/interview/lifecycle.py:20-32 | With gaps up to that bound no unfinished session reaches a day |
| MatchRuns.LongGapsReachADay | backend/app/interview/lifecycle.py:74-155 | With gaps one millisecond longer some run brings a session to a day |
| MatchRuns.ForgettingKeeps | backend/app/interview/service.py:307-318 | Deleting the notes of a finished session's users unbinds no other session and breaks no queue |
| MatchRuns.AlwaysPaired | backend/app/matchmaking/lua_scripts.py:26-34 | In every run at all, a session has two different participants |
| Notes.NotesAreTrue | backend/app/interview/lifecycle.py:139-145 | In every run with new match ids a live match note names an unfinished session of its own user and lives for a day from its creation, unless it was left by a refused creation or by a leave that could not read the participants |
| Notes.StatusIff | backend/app/matchmaking/service.py:159-164 | In every such run in which no unfinished registered session reaches a day, a user's status is a match if and only if the user takes part in that session and it is not over |
| Notes.EndFreesBoth | backend/app/interview/service.py:276-318 | Exactly the request or poll that ends a session deletes the match and queue notes of both participants, and no others, so that their next joins search anew |
| Commands.AlwaysExclusive | backend/app/matchmaking/service.py:31-122 | However single commands interleave, every outstanding reservation holds both of its locks until they are deleted |
| Refinement.LoneCommandsJoin | backend/app/matchmaking/service.py:25-152 | From every state, ten commands of one request with nothing in between leave the keys of the join of `Matchmaking`, finish with its result, and store its session exactly if it is a match |
| Refinement.LeavingLeaves | backend/app/matchmaking/service.py:154-157 | At command level a queue leave takes the user out of that queue and changes nothing else, running requests included |
| Refinement.EndingFrees | backend/app/interview/service.py:307-318 | At command level the end of a session deletes the notes of both users and of nobody else, and the next request of either, run alone, searches anew |
| Commands.ReservationsAreExclusive | backend/app/matchmaking/lua_scripts.py:17-44 | At command level, outstanding reservations of any number of joins share no user, and both users of each hold live locks with exactly its match id |
| Redis.ReserveLocks | backend/app/matchmaking/lua_scripts.py:17-44 | The script locks two different users who had no live lock, both for its match, or nobody |
| Bookings.AlwaysOrderly | backend/app/matchmaking/service.py:31-122 | In every careful run joins, sessions and notes stay apart: who is reserved, stored or noted for one match is so for no other |
| Bookings.CarefulRunsBookOnce | interview-arena-docs/docs/01-requirements/requirements.md:86-88 | At command level, in every run whose scripts reserve nobody who is being finalized or whose note names an unfinished session, no user is in two unfinished sessions |
| Bookings.CarelessStepIff | backend/app/matchmaking/service.py:52-122 | At any script step of such a run: once the reserved pair is stored, a user is in two sessions if and only if the script took someone who had the note of an unfinished session or was being finalized for one |
| DoubleBookings.WindowDoubleBooks | backend/app/matchmaking/service.py:119-120 | A run, all reservations finalized in time, in which a script between the deletion of the locks and the removal from the queue books a user twice |
| DoubleBookings.SecondRequestDoubleBooks | backend/app/matchmaking/service.py:31-55 | Another one, in which no script runs during any finalization: a second request passes its check before the match and queues its user again after it |
| DoubleBookings.LateNoteDoubleBooks | backend/app/matchmaking/service.py:118-122 | A third, in which no script takes anybody engaged to an unfinished match: a finalization outlives its own session, and its late note replaces that of the next one |
| Credits.CreditedExactlyOnce | backend/app/interview/lifecycle.py:127-137 | In every run with new match ids, however long loops sleep, each participant of a registered session has one interview credit if it completed and none otherwise |
| Credits.StreakCountsCompletedInterviews | backend/app/interview/lifecycle.py:133-136 | In every such run the interview streak counts the consecutive UTC days on which a registered interview completed, and the longest such run |
| Credits.PollingAccounts | backend/app/interview/lifecycle.py:127-137 | A poll credits two users if it completes a registered session, and nobody otherwise |
| Sessions.NewSessionIsValid | backend/app/matchmaking/service.py:88-115 | A new session satisfies the session invariant |
| Sessions.AdvanceKeepsValid | backend/app/interview/lifecycle.py:64-137 | Every poll keeps it: the status determines both round statuses, and the published deadline is phase start plus phase length |
| Sessions.HandleKeepsValid | backend/app/interview/service.py:276-599 | So does every request: roles stay, only participants give feedback, a round has one question at most |
| Sessions.AdvanceKeepsContent | backend/app/interview/lifecycle.py:64-137 | A poll moves rounds along without touching feedback, picks, code or roles |
| Sessions.StripTrims | backend/app/interview/service.py:542-543 | What a custom text loses is exactly the white space at its two ends |
| Sessions.SpacesAre | backend/app/interview/service.py:542-543 | The white space that is stripped is that of Python's `str.strip` |
| Sessions.PickReply | backend/app/interview/service.py:513-595 | A pick is accepted if and only if it comes from the round's interviewer, the round is not over, and it gives either a problem of this room or a text of 1 to 2,000 characters without the white space around it; each refusal has its status and changes nothing |
| Lifecycle.ValidAlways | backend/app/interview/lifecycle.py:34-155 | The session invariant holds after every run of polls and requests |
| Lifecycle.OneRoundAtATime | backend/app/interview/lifecycle.py:74-137 | In every run at most one round is active or in feedback, and it is the round the status names |
| Lifecycle.TerminalForever | backend/app/interview/lifecycle.py:50-51 | A session that is over stays over in the same way, whatever is asked of it |
| Lifecycle.PhaseEndsIff | backend/app/interview/lifecycle.py:74-137 | A poll ends a timed phase if and only if its published deadline has passed or, in feedback, both participants have given theirs |
| Lifecycle.PhaseStartsAtPoll | backend/app/interview/lifecycle.py:139-155 | A phase starts at the poll that enters it, and its deadline is published with it |
| Lifecycle.DeadlinesAre | backend/app/interview/lifecycle.py:20-32 | In every run the published deadlines are 30 s of preparation, 15 or 5 min of interview, 2 or 1 min of feedback after the start of the phase, and the shorter ones of test runs |
| Lifecycle.LeaveEnds | backend/app/interview/service.py:276-303 | Leaving abandons an unfinished session and leaves one that is over alone |
| Lifecycle.VersionCountsChanges | backend/app/interview/lifecycle.py:74-137 | In every run the version of a session is one more than the number of polls and requests that changed it |
| Lifecycle.AskKeepsClock | backend/app/interview/service.py:276-435 | No request moves the clock; only leaving changes the status, and only to abandoned |
| Lifecycle.PollOnTime | backend/app/interview/lifecycle.py:74-137 | Polls at most a gap apart keep every phase between its earliest and its latest start |
| Lifecycle.RealTimeBounds | backend/app/interview/lifecycle.py:20-32 | A completed interview took at least preparation and two rounds, and at most all its phases and five gaps, less one tick a phase |
| Lifecycle.LiveSessionIsYoung | backend/app/interview/lifecycle.py:20-32 | An unfinished session is at most as old as all its phases and six gaps, less one tick a phase |
| Lifecycle.PollsAreSpent | backend/app/interview/lifecycle.py:286-301 | With polls at least two seconds apart every poll of an unfinished session lowers the number of polls it can still take |
| Lifecycle.AskSpendsNoPolls | backend/app/interview/service.py:276-435 | No request raises that number |
| Registered.InterviewSession.AdvanceState | backend/app/interview/lifecycle.py:39-155 | Exactly a completion credits both participants today and deletes their keys; any other poll leaves streaks and keys alone |
| Registered.InterviewSession.CreditParticipants | backend/app/interview/lifecycle.py:135-136 | Both participants' interview counters advance by today and nobody else's row changes |
| Registered.InterviewSession.LeaveSession | backend/app/interview/service.py:276-303 | Leaving abandons an unfinished session and, if participants are loaded, deletes their keys; leaving a finished one changes nothing |
| Registered.InterviewSession.StartSessionLifecycle | backend/app/interview/lifecycle.py:286-301 | Whatever requests interleave, the loop plays exactly its polls and those requests, up to the first poll after which the session is over; that comes after at most the sum of the phases' poll counts and one, 1,036 or 376 polls in production |
| Texts.NumberReadsBack | backend/app/interview/lifecycle.py:169-169 | A version written to the hash reads back as itself |
| Texts.SecondsReadBack | backend/app/interview/lifecycle.py:183-194 | A time written as decimal seconds reads back as itself, to the millisecond |
| Texts.StatusReadsBack | backend/app/interview/lifecycle.py:164-165 | A session status written to the hash reads back as itself |
| Texts.RoundStatusReadsBack | backend/app/interview/service.py:217-217 | A round status written to the hash reads back as itself |
| Guests.NewGuestIsNewSession | backend/app/matchmaking/service.py:75-85 | Read with its defaults, the six fields of a new guest hash are a new session |
| Guests.AdvanceSimulates | backend/app/interview/lifecycle.py:157-284 | From every valid state a poll of the hash is the registered poll of what the hash stands for |
| Guests.LeaveSimulates | backend/app/interview/service.py:307-318 | Leaving the hash is leaving the session |
| Guests.FeedbackSimulates | backend/app/interview/service.py:411-426 | A participant's feedback gets the same reply and the same new state |
| Guests.FeedbackAgreesExactlyForParticipants | backend/app/interview/service.py:411-426 | The guest and the registered branch agree on a feedback request if and only if its user takes part |
| Guests.PickSimulates | backend/app/interview/service.py:561-595 | Picks get the same reply and the same new state |
| Guests.SubmitSimulates | backend/app/interview/service.py:701-723 | Code submissions get the same reply and the same new state |
| Guests.HandleSimulates | backend/app/interview/service.py:276-746 | All requests together |
| Guests.RunSimulatesUpToOutsiders | backend/app/interview/service.py:411-431 | From every valid state, whoever gives feedback: runs of the two implementations give the same replies to exactly the requests that are no feedback of an outsider, and the same states up to one version for each feedback accepted from an outsider |
| Guests.RunSimulates | backend/app/interview/lifecycle.py:34-284 | So with feedback of participants only, from every valid state, they give the same replies and the same states |
| Guests.GuestSimulatesRegistered | backend/app/interview/lifecycle.py:34-284 | From creation on, a guest interview and a registered one that see the same events cannot be told apart |
| Guests.GuestSession.MoveOn | backend/app/interview/lifecycle.py:179-262 | Collecting the fields of a transition first and writing them with the next version in one HSET makes exactly the specified transition of the hash |
| Guests.GuestSession.AdvanceState | backend/app/interview/lifecycle.py:157-284 | Exactly a completion deletes both guests' keys |
| Guests.GuestSession.Serve | backend/app/interview/service.py:307-318 | Replies and hash are those of the specification, and exactly a leave that ends the session deletes both guests' keys |
| Guests.GuestSession.StartSessionLifecycle | backend/app/interview/lifecycle.py:286-301 | The loop of a guest session plays exactly its polls and the requests in between, outsiders' feedback included, up to the first poll after which the session is over, within the same number of polls |
| Guests.OutsiderOnlyBumps | backend/app/interview/service.py:411-426 | Feedback of an outsider is accepted once a round and changes nothing but the version of the session the hash stands for, where the registered branch refuses it |
| Questions.AcceptedPickIsShown | backend/app/interview/service.py:88-129 | An accepted pick is what the round shows: the bank problem of this room with that id, or the stripped text; the other round is not touched |
| Questions.ShownQuestion | backend/app/interview/service.py:71-129 | What a round shows, in every state: the picked problem while the room has it and nothing once it is gone; else the interviewer's text; else, once started, of the problems of its room and slot the one whose number in their order is the digest modulo their count |
| Questions.ViewShowsRoles | backend/app/interview/service.py:150-172 | In every run the view names the roles of the round, which change between the rounds, and calls a round active or in feedback exactly if the session is in that phase |
| Questions.SubmissionIsShown | backend/app/interview/service.py:697-745 | Code is accepted if and only if it comes from the interviewee, in one of nine languages and with at most 50,000 characters; then it is what the view shows, and nothing else of the view changes |
| Questions.FeedbackIsShown | backend/app/interview/service.py:340-410 | Feedback is accepted once from each participant of the round, and then shows in the view |
| Questions.UnpickedQuestion | backend/app/interview/service.py:71-86 | An unpicked round shows nothing before it starts, then a problem of its room and slot, or nothing exactly if there is none |
| Questions.OneChoiceAtMost | backend/app/interview/service.py:528-546 | In every run a round has a bank problem or a text, never both |
| Questions.ChoiceSurvives | backend/app/interview/service.py:513-556 | Every event except an accepted pick for this round leaves its choice alone |
| Questions.QuestionIsStable | backend/app/interview/service.py:97-129 | Over any run without an accepted pick for it, a started round shows one question |
| Questions.QuestionIsFinal | backend/app/interview/service.py:525-526 | Over any run at all, a finished round shows one question |
| Questions.ViewsAgree | backend/app/interview/service.py:150-252 | The two branches of the session view show the same round if and only if no empty code was submitted |
| Questions.ViewsAgreeUnlessCodeIsEmpty | backend/app/interview/service.py:131-271 | After matching runs, whoever gave feedback, the guest and the registered view of a round are the same if and only if no empty code was submitted |
| RoundIds.ParseRoundTrip | backend/app/interview/service.py:239-239 | Parsing the id of a guest round gives back its session and number, for every session id |
| RoundIds.ParsedIsNamed | backend/app/interview/service.py:467-477 | The parser accepts nothing but such ids |
| RoundIds.TestsAgreeIff | backend/app/interview/service.py:413-413 | The substring test picks the parser's round if and only if the round is the first or the session id does not contain the tested text |
| RoundIds.TestsAgreeOnUuids | backend/app/interview/service.py:413-413 | For ids over UUID characters both always pick the round the id names |
| RoundIds.FieldNamesDiffer | backend/app/interview/service.py:585-592 | Distinct fields of the guest hash have distinct names, for every user id |
| Streaks.StreakIsRunLength | backend/app/identity/streaks.py:20-31 | After check-ins on non-decreasing days the counter is the length of the maximal run of consecutive days ending at the last one, and the record is the longest run anywhere |
| Streaks.TracksNext | backend/app/identity/streaks.py:24-31 | One check-in keeps that agreement |
| Streaks.AnyOtherDayStartsOver | backend/app/identity/streaks.py:24-31 | A check-in dated before the last one or after a gap starts a new run and keeps the record |
| Streaks.MaximalRunIsUnique | backend/app/identity/streaks.py:20-31 | The declarative run length is unique, so the counter is determined by the days |
| Streaks.LongestRunIsUnique | backend/app/identity/streaks.py:20-31 | So is the longest run |
| Streaks.CountersAreIndependent | backend/app/identity/streaks.py:53-61 | Each counter is a function of its own kind of check-in alone |
| Streaks.StreakTable.RecordCheckin | backend/app/identity/streaks.py:34-62 | The user's row, created if missing, advances by one check-in of this kind and no other row changes |
| WebRtcPeer.CallPeer.ResumeNegotiation | frontend/src/hooks/useWebRTC.ts:143-151 | Sends its own offer only on the stable connection it started from; the flag is cleared either way |
| WebRtcPeer.CallPeer.FlushPendingIce | frontend/src/hooks/useWebRTC.ts:115-128 | The loop adds exactly the candidates of the current negotiation, in order, and empties the queue |
| WebRtcPeer.CallPeer.Receive | frontend/src/hooks/useWebRTC.ts:307-371 | Each signal leaves the refs and sends the messages of the specification |
| WebRtcProtocol.SafeAlways | frontend/src/hooks/useWebRTC.ts:130-152 | The agreement invariant holds after every run, with any losses and any teardowns or retries of either side |
| WebRtcProtocol.AnswerFitsLocalOffer | frontend/src/hooks/useWebRTC.ts:346-353 | In every run, an answer that has an effect was produced for the offer that is the current local description |
| WebRtcProtocol.StableEndsAgree | frontend/src/hooks/useWebRTC.ts:326-353 | In every run, ends that are on one negotiation with a stable offerer hold each other's descriptions crosswise |
| WebRtcRoles.RolesAreFixed | frontend/src/hooks/useWebRTC.ts:130-153 | Only the offerer makes offers and takes answers, only the other client answers |
| WebRtcRoles.RepeatsAreIgnored | frontend/src/hooks/useWebRTC.ts:326-353 | A second offer of an answered negotiation and a second answer change nothing and are not replied to |
| WebRtcRoles.ResetStartsOver | frontend/src/hooks/useWebRTC.ts:394-407 | A teardown leaves a client as it was created but for its role, its wish for a call and calls still pending; a retry then has a new connection and asks for the call |
| WebRtcRoles.OccasionsBegin | frontend/src/hooks/useWebRTC.ts:130-142 | On an idle, stable connection a start, a call request, the arrival of media and a request to renegotiate each begin a negotiation at once, if nothing else is missing |
| WebRtcRoles.ConnectedIff | frontend/src/hooks/useWebRTC.ts:154-170 | In every run a client has a connection if and only if it mounted, started, retried or was reached by a signal since it last unmounted |
| WebRtcRoles.ActiveIff | frontend/src/hooks/useWebRTC.ts:307-330 | In every run a client takes part in the call if and only if it started or retried it, was asked for it, or took an offer |
| WebRtcRoles.NegotiatesIff | frontend/src/hooks/useWebRTC.ts:130-142 | In every run the offerer has a negotiation if and only if it takes part in the call and has acquired media since its last reset: it neither negotiates unasked nor waits for anything else |
| WebRtcStranding.WaitingIsAnsweredIff | frontend/src/hooks/useWebRTC.ts:307-353 | Without loss, whatever is torn down or retried and however calls overlap: a waiting offerer waits on an offer it sent, and its current offer or the matching answer is in flight if and only if the offer it waits on is its current one |
| WebRtcStranding.StrandedIff | frontend/src/hooks/useWebRTC.ts:139-151 | In every run, losses and resets included, the offerer comes to wait under another negotiation id than that of its offer if and only if some suspended call sent its offer under another id |
| WebRtcStranding.StrandedByOutOfStep | frontend/src/hooks/useWebRTC.ts:139-151 | Exactly the step that sends such an offer strands the offerer |
| WebRtcStranding.StrandedStays | frontend/src/hooks/useWebRTC.ts:346-353 | Nothing but a teardown or retry of its own ends the wait of a stranded offerer |
| WebRtcStranding.WaitingIsAnswered | frontend/src/hooks/useWebRTC.ts:307-353 | Without loss and such offers, resets of either side included, whoever waits has its offer or the matching answer in flight |
| WebRtcStranding.WaitsForItsOwnOffer | frontend/src/hooks/useWebRTC.ts:130-152 | Without such offers, losses and resets included, a waiting offerer has the offer of its current negotiation as local description and would accept its answer |
| WebRtcStranding.TidyIsInStep | frontend/src/hooks/useWebRTC.ts:139-151 | If no abandoned call settles while one on the current connection is suspended, no such offer is sent |
| WebRtcStranding.OneCallIsAnswered | frontend/src/hooks/useWebRTC.ts:130-152 | With one `createOffer` at a time and no loss, whoever waits is answered, whatever either side resets |
| WebRtcStranding.OpenCallsNeverStrand | frontend/src/hooks/useWebRTC.ts:139-151 | If calls on closed connections never settle, every run, losses and resets included, has one live call at most, and a waiting offerer waits under the id of its own offer |
| WebRtcStranding.ResetStrandsIff | frontend/src/hooks/useWebRTC.ts:394-407 | In every run, losses and earlier resets included: a reset of the offerer can be followed by a lossless run, without further resets of it, that strands it, if and only if some `createOffer` call is outstanding |
| WebRtcStranding.PatientResetStrandsIff | frontend/src/hooks/useWebRTC.ts:133-151 | As long as the offerer was never reset while making an offer, that is if and only if it is making one |
| WebRtcStranding.RetryCanStrandTheOfferer | frontend/src/hooks/useWebRTC.ts:387-407 | A run without loss in which a retry during `createOffer` strands the offerer |
| WebRtcOrder.NewestAlways | frontend/src/hooks/useWebRTC.ts:139-151 | In every run the current negotiation of the offerer is at least as new as every offer it sent and every call it has outstanding |
| WebRtcOrder.InOrderAlways | frontend/src/hooks/useWebRTC.ts:139-151 | Without offers out of step, losses and resets included: offers and candidates reach the answerer in the order of their negotiations, none of them older than anything it answered or received |
| WebRtcQuiescence.QuietEndsAgreeIff | frontend/src/hooks/useWebRTC.ts:307-353 | Without loss and offers out of step, whatever either side resets: when nothing is in flight both ends are stable on the offerer's current negotiation with matching descriptions if and only if its offer was sent and the answerer has a negotiation. It was sent if no call is outstanding on the current connection; then the answerer has one if it started or retried after its last teardown |
| WebRtcQuiescence.AskedEndsAgree | frontend/src/hooks/useWebRTC.ts:387-407 | So a retry of either side recovers: once nothing is in flight and no call is outstanding on the current connection, both ends agree |
| WebRtcQuiescence.UndisturbedEndsAgree | frontend/src/hooks/useWebRTC.ts:307-353 | Without loss and resets, empty channels and no outstanding call mean that both ends agree, also on having no negotiation |
| WebRtcQuiescence.FlightIsCurrentAlways | frontend/src/hooks/useWebRTC.ts:130-152 | As long as the offerer is not reset, with any losses and whatever the answerer does, every offer and answer in flight belongs to the one negotiation the offerer waits for |
| WebRtcIce.AnswererConservesIceIff | frontend/src/hooks/useWebRTC.ts:115-128 | In every run, with any losses, resets and overlapping calls: every candidate the answerer received for its negotiation was added once, in order, under that negotiation's offer, if and only if it did not, since its last reset, take another negotiation's offer when such a candidate was already there; none is left in the queue |
| WebRtcIce.AnswererConservesIce | frontend/src/hooks/useWebRTC.ts:355-364 | So if every offer is sent under its own id, losses and resets included, the answerer has added all candidates of its negotiation |
| WebRtcLostIce.OutOfStepLosesIce | frontend/src/hooks/useWebRTC.ts:115-151 | A run without loss, a retry during `createOffer` and a renegotiation, in which an offer sent under another id makes the answerer lose a candidate of its current negotiation |
| WebRtcIce.OffererConservesIceIff | frontend/src/hooks/useWebRTC.ts:355-364 | In every run, with any losses, resets and overlapping calls: the offerer loses no candidate received for its negotiation, and queues none once an answer is in force; all are added under that negotiation's answer if and only if none was taken before that answer while an older one was in force; before there is an answer none is received |
| WebRtcIce.OffererConservesIce | frontend/src/hooks/useWebRTC.ts:355-364 | So in every run without loss they are added once, in order, under that answer, or wait in the queue as long as no answer is in force |
| WebRtcIce.AnswererAddsRightly | frontend/src/hooks/useWebRTC.ts:115-128 | In every run at all, whatever candidate the answerer ever adds, of whatever negotiation, it adds under the offer of that negotiation |
| WebRtcIce.OffererAddsRightly | frontend/src/hooks/useWebRTC.ts:355-364 | So does the offerer, except for negotiations of which it took a candidate before the answer while an older one was in force |
| WebRtcGathering.OfferersCandidatesArrive | frontend/src/hooks/useWebRTC.ts:160-168 | In every run without loss, whatever is reset: what the offerer's browser gathered for a negotiation is what the answerer received and a reset wiped out, what it has received since, and what is on the way, in this order |
| WebRtcGathering.AnswerersCandidatesArrive | frontend/src/hooks/useWebRTC.ts:160-168 | The same in the other direction |
| WebRtcGathering.GatheredIsAdded | frontend/src/hooks/useWebRTC.ts:355-364 | From end to end: without loss and offers out of step, the answerer has added, once, in order and under the right offer, exactly what the offerer gathered for its negotiation, except what a reset of the answerer wiped out and what is on the way |
| WebRtcGathering.GatheredIsAddedBack | frontend/src/hooks/useWebRTC.ts:355-364 | Without loss the offerer has added under its answer, or queued until that comes, exactly what the answerer gathered for its negotiation, except what is on the way |
| WebRtcLostIce.LostAnswerMisplacesIce | frontend/src/hooks/useWebRTC.ts:355-364 | A run with one lost answer in which a candidate of the current negotiation is added under the answer of an older one |
| WebRtcIce.FlushDropsSuperseded | frontend/src/hooks/useWebRTC.ts:115-128 | If every offer is sent under its own id, what the answerer throws away with an offer belongs to negotiations already superseded |
| WebRtcIce.AnswerFlushDropsSuperseded | frontend/src/hooks/useWebRTC.ts:346-353 | In every run at all, what the offerer throws away with the answer it accepts belongs to negotiations already superseded |

## Left out

- Presence and the disconnect timeout: they abandon a guest session without looking at its status.
- Logout and account deletion: they delete the match and queue notes without leaving the queue or ending the session, so the runs of `MatchRuns` do not contain them.
- Registered.InterviewSession.LeaveSession: whether the participants can be read after the commit is a parameter, because the code reads them without loading them first. The run theorems hold either way.
- Lifecycle.PollsAreSpent: an exception inside a poll is not modelled, so the loop never has to repeat one.
- MatchRuns.NoDoubleBooking: one service call is one step; what can go wrong between the commands of a join is in `Bookings`.
- Commands.ReservationsAreExclusive: durable creation and session end are single steps there, sessions are only their two users, and creation succeeds or fails; the branch that finalizes a refused creation is in `Matchmaking` only.
- Bookings.CarefulRunsBookOnce: also asks that scripts spare users who are still being finalized for a match that has already ended, whose late note would replace a newer one; `DoubleBookings.LateNoteDoubleBooks` shows that this is needed, although reserving such a user does not by itself book anyone twice, so that `Bookings.CarelessStepIff` leaves it out.
- WebRtcQuiescence.QuietEndsAgreeIff: handlers other than `maybeNegotiate` are single steps, so their own awaits do not interleave.
- Guests.GuestSession.Serve: the time of a code submission is kept as a number, not as the ISO text that the code writes and the session view passes on.
- Sessions that do not exist, round ids of other sessions and malformed ids: their 404 and 400 replies are single guards.
- A registered session always has its two rounds and two participants, so the guards for missing ones are not modelled.
- UUIDs are compared as text in one spelling.
- A feedback sent for a guest hash that has expired: the code starts a new hash that holds nothing else. The expiry of the `ends_at` key after 24 hours.
- The content of feedback, the difficulty of problems, and the publication of session events.
- Running and formatting code, test cases, OAuth, tokens, passwords, profiles and chat: I/O, or facts of one guard.
- Media devices, connection-state timers and the ICE restart option: a negotiation they ask for is the event `Negotiate`.
- SHA-256 in the automatic choice of a problem: any function of session and round.

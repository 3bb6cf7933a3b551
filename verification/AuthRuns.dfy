/** Every run of logins, authentications, logouts and password changes under a clock that
    never goes back. */
module AuthRuns {
  import opened Wrappers
  import opened Auth

  datatype State = State(sessions: Sessions, users: Users, now: Instant)

  datatype Call =
    | Login(hash: string, userId: string, csrf: string)
    | Authenticate(hash: string, stored: bool)
    | Logout(hash: string)
    | ChangePassword(hash: string, stored: bool, changed: bool)
    | Users(users: Users)

  /** A call and the time that has passed since the one before. */
  datatype Step = Step(call: Call, elapsed: nat)

  /** `changed` says whether the password was verified and the transaction committed; other
      code may replace the users at any time. */
  function Apply(times: Times, s: State, step: Step): State {
    var now := s.now + step.elapsed;
    match step.call
    case Login(hash, userId, csrf) =>
      State(if hash in s.sessions || userId !in s.users then s.sessions
            else s.sessions[hash := NewSession(times, userId, csrf, now)], s.users, now)
    case Authenticate(hash, stored) =>
      State(Authenticated(times, s.sessions, s.users, hash, now, stored).0, s.users, now)
    case Logout(hash) => State(s.sessions - {hash}, s.users, now)
    case ChangePassword(hash, stored, changed) =>
      var (after, r) := Authenticated(times, s.sessions, s.users, hash, now, stored);
      State(if r.Ok? && changed then WithoutOthers(after, r.value.userId, hash) else after, s.users, now)
    case Users(users) => State(s.sessions, users, now)
  }

  function After(times: Times, start: Instant, steps: seq<Step>): State {
    if steps == [] then State(map[], map[], start)
    else Apply(times, After(times, start, steps[..|steps| - 1]), steps[|steps| - 1])
  }

  ghost predicate Inv(times: Times, s: State) {
    AllSlide(times, s.sessions, s.now)
  }

  ghost predicate AllSlide(times: Times, sessions: Sessions, now: Instant) {
    forall hash :: hash in sessions ==> Sliding(times, sessions[hash]) && sessions[hash].lastSeenAt <= now
  }

  lemma AuthenticatedSlides(times: Times, sessions: Sessions, users: Users, hash: string, now: Instant, stored: bool)
    requires AllSlide(times, sessions, now)
    ensures AllSlide(times, Authenticated(times, sessions, users, hash, now, stored).0, now)
  {
  }

  lemma FewerSlide(times: Times, sessions: Sessions, now: Instant, userId: string, keep: string)
    requires AllSlide(times, sessions, now)
    ensures AllSlide(times, WithoutOthers(sessions, userId, keep), now)
    ensures AllSlide(times, sessions - {keep}, now)
  {
  }

  lemma StepKeepsInv(times: Times, s: State, step: Step)
    requires Inv(times, s) && times.idle <= times.absolute
    ensures Inv(times, Apply(times, s, step))
  {
    var now := s.now + step.elapsed;
    assert AllSlide(times, s.sessions, now);
    match step.call {
      case Authenticate(hash, stored) => AuthenticatedSlides(times, s.sessions, s.users, hash, now, stored);
      case Logout(hash) => FewerSlide(times, s.sessions, now, "", hash);
      case ChangePassword(hash, stored, changed) =>
        AuthenticatedSlides(times, s.sessions, s.users, hash, now, stored);
        var (after, r) := Authenticated(times, s.sessions, s.users, hash, now, stored);
        if r.Ok? {
          FewerSlide(times, after, now, r.value.userId, hash);
        }
      case _ =>
    }
    hide Authenticated, WithoutOthers;
  }

  /** Every stored session expires at its last use plus the idle time, or at its absolute
      end if that comes first. */
  lemma {:induction false} AlwaysSliding(times: Times, start: Instant, steps: seq<Step>)
    requires times.idle <= times.absolute
    ensures Inv(times, After(times, start, steps))
  {
    if steps != [] {
      AlwaysSliding(times, start, steps[..|steps| - 1]);
      StepKeepsInv(times, After(times, start, steps[..|steps| - 1]), steps[|steps| - 1]);
    }
  }

  /** Without that order of the two lifetimes a new session already breaks the rule. */
  lemma NewSessionSlides(times: Times, userId: string, csrf: string, now: Instant)
    ensures Sliding(times, NewSession(times, userId, csrf, now)) <==> times.idle <= times.absolute
  {
  }

  /** The row of a session stays as it is while it is not used, logged out, or swept away by
      a password change of its user. */
  predicate LeavesAlone(s: State, step: Step, hash: string) {
    match step.call
    case Authenticate(other, _) => other != hash
    case Logout(other) => other != hash
    case ChangePassword(other, _, changed) =>
      other != hash && !(changed && other in s.sessions && hash in s.sessions && s.sessions[other].userId == s.sessions[hash].userId)
    case _ => true
  }

  ghost predicate Unused(times: Times, start: Instant, steps: seq<Step>, more: seq<Step>, hash: string) {
    forall k :: 0 <= k < |more| ==> LeavesAlone(After(times, start, steps + more[..k]), more[k], hash)
  }

  lemma StepLeavesRow(times: Times, s: State, step: Step, hash: string)
    requires hash in s.sessions && LeavesAlone(s, step, hash)
    ensures hash in Apply(times, s, step).sessions && Apply(times, s, step).sessions[hash] == s.sessions[hash]
  {
  }

  lemma UnusedPrefix(times: Times, start: Instant, steps: seq<Step>, more: seq<Step>, hash: string)
    requires more != [] && Unused(times, start, steps, more, hash)
    ensures Unused(times, start, steps, more[..|more| - 1], hash)
    ensures LeavesAlone(After(times, start, steps + more[..|more| - 1]), more[|more| - 1], hash)
  {
    hide After, LeavesAlone;
    var n := |more| - 1;
    forall k | 0 <= k < n
      ensures LeavesAlone(After(times, start, steps + more[..n][..k]), more[..n][k], hash)
    {
      assert more[..n][..k] == more[..k];
    }
  }

  lemma AfterOneMore(times: Times, start: Instant, steps: seq<Step>, step: Step)
    ensures After(times, start, steps + [step]) == Apply(times, After(times, start, steps), step)
  {
    hide Apply;
    assert (steps + [step])[..|steps + [step]| - 1] == steps;
  }

  lemma {:induction false} UnusedStays(times: Times, start: Instant, steps: seq<Step>, more: seq<Step>, hash: string)
    requires hash in After(times, start, steps).sessions && Unused(times, start, steps, more, hash)
    ensures
      var s, t := After(times, start, steps), After(times, start, steps + more);
      hash in t.sessions && t.sessions[hash] == s.sessions[hash] && t.now >= s.now
    decreases |more|
  {
    hide Apply, LeavesAlone, After, Unused;
    if more == [] {
      assert steps + more == steps;
    } else {
      var n := |more| - 1;
      UnusedPrefix(times, start, steps, more, hash);
      UnusedStays(times, start, steps, more[..n], hash);
      AfterOneMore(times, start, steps + more[..n], more[n]);
      assert steps + more == steps + more[..n] + [more[n]];
      StepLeavesRow(times, After(times, start, steps + more[..n]), more[n], hash);
      NowGrows(times, After(times, start, steps + more[..n]), more[n]);
    }
  }

  lemma NowGrows(times: Times, s: State, step: Step)
    ensures Apply(times, s, step).now == s.now + step.elapsed
  {
  }

  /** The window of a session accepted at `t`: usable until min(t + idle - touch, absolute
      end), not usable from min(t + idle, absolute end). */
  lemma Window(times: Times, session: Session, t: Instant, u: Instant)
    requires Sliding(times, session) && session.lastSeenAt <= t && Usable(session, t) && t <= u && times.touch >= 0
    ensures
      var after := Touched(times, session, t);
      && after.absoluteExpiresAt == session.absoluteExpiresAt && after.userId == session.userId
      && (u < Min(t + times.idle - times.touch, session.absoluteExpiresAt) ==> Usable(after, u))
      && (u >= Min(t + times.idle, session.absoluteExpiresAt) ==> !Usable(after, u))
  {
  }

  ghost function Accepts(times: Times, s: State, hash: string, elapsed: nat, stored: bool): Result<Session, Error> {
    Authenticated(times, s.sessions, s.users, hash, s.now + elapsed, stored).1
  }

  lemma AcceptedRow(times: Times, s: State, hash: string, elapsed: nat, stored: bool)
    requires Accepts(times, s, hash, elapsed, stored).Ok?
    ensures
      var t := Apply(times, s, Step(Authenticate(hash, stored), elapsed));
      && hash in s.sessions && Usable(s.sessions[hash], s.now + elapsed) && hash in t.sessions && t.now == s.now + elapsed
      && t.sessions[hash] == Touched(times, s.sessions[hash], s.now + elapsed)
  {
  }

  /** After acceptance at `t` and while it is not used or revoked, in any run, the session
      is accepted until min(t + idle - touch, absolute end), as long as its user exists and
      a due touch can be stored, and refused from min(t + idle, absolute end) on. */
  lemma AcceptedUntil(times: Times, start: Instant, steps: seq<Step>, elapsed: nat, more: seq<Step>, later: nat, hash: string)
    requires times.idle <= times.absolute && times.touch >= 0
    requires Accepts(times, After(times, start, steps), hash, elapsed, true).Ok?
    requires Unused(times, start, steps + [Step(Authenticate(hash, true), elapsed)], more, hash)
    ensures
      var s := After(times, start, steps);
      var t := s.now + elapsed;
      var end := After(times, start, steps + [Step(Authenticate(hash, true), elapsed)] + more);
      var u := end.now + later;
      && hash in s.sessions
      && (u < Min(t + times.idle - times.touch, s.sessions[hash].absoluteExpiresAt) && s.sessions[hash].userId in end.users ==>
            Accepts(times, end, hash, later, true).Ok?)
      && (u >= Min(t + times.idle, s.sessions[hash].absoluteExpiresAt) ==>
            Accepts(times, end, hash, later, true) == Err(InvalidSession)
            && hash !in Apply(times, end, Step(Authenticate(hash, true), later)).sessions)
  {
    hide After, Apply, Touched, Usable, Accepts, Sliding, Min, Unused, LeavesAlone;
    var s := After(times, start, steps);
    var step := Step(Authenticate(hash, true), elapsed);
    var end := After(times, start, steps + [step] + more);
    AlwaysSliding(times, start, steps);
    AcceptedRow(times, s, hash, elapsed, true);
    AfterOneMore(times, start, steps, step);
    UnusedStays(times, start, steps + [step], more, hash);
    Window(times, s.sessions[hash], s.now + elapsed, end.now + later);
    LaterDecision(times, end, hash, later);
  }

  lemma LaterDecision(times: Times, s: State, hash: string, elapsed: nat)
    requires hash in s.sessions
    ensures Usable(s.sessions[hash], s.now + elapsed) && s.sessions[hash].userId in s.users ==>
      Accepts(times, s, hash, elapsed, true).Ok?
    ensures !Usable(s.sessions[hash], s.now + elapsed) ==>
      Accepts(times, s, hash, elapsed, true) == Err(InvalidSession)
      && hash !in Apply(times, s, Step(Authenticate(hash, true), elapsed)).sessions
  {
  }

  /** A password change ends exactly the user's other sessions. */
  lemma ChangeEndsOthers(times: Times, s: State, hash: string, elapsed: nat, other: string)
    requires Accepts(times, s, hash, elapsed, true).Ok?
    ensures
      var after := Apply(times, s, Step(ChangePassword(hash, true, true), elapsed)).sessions;
      && (other in after <==> other in s.sessions && (other == hash || s.sessions[other].userId != s.sessions[hash].userId))
      && (other in after && other != hash ==> after[other] == s.sessions[other])
  {
  }
}

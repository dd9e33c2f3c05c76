/** The loop-breaker of the route guard (web/src/app/auth/RequireAuth.tsx): a sliding
    window of login attempts kept in session storage. */
module LoginLimiter {

  const MAX_ATTEMPTS := 3
  const WINDOW_MS := 30_000

  datatype Status = Loading | Unauthenticated | Authenticated
  datatype Outcome = Ignored | Cleared | Blocked | LoggedIn

  // arr.filter((t) => now - t < WINDOW_MS)
  function Recent(stored: seq<int>, now: int): seq<int> {
    if stored == [] then []
    else
      var front, t := Recent(stored[..|stored| - 1], now), stored[|stored| - 1];
      if now - t < WINDOW_MS then front + [t] else front
  }

  // One run of the effect; the clock is read when checking, when filtering and when
  // stamping the attempt.
  datatype Visit = Visit(status: Status, authError: bool, check: int, filter: int, stamp: int)

  function Effect(stored: seq<int>, v: Visit): (seq<int>, Outcome) {
    if v.status == Authenticated then ([], Cleared)
    else if v.status != Unauthenticated then (stored, Ignored)
    else if v.authError || |Recent(stored, v.check)| >= MAX_ATTEMPTS then (stored, Blocked)
    else
      var arr := Recent(stored, v.filter) + [v.stamp];
      (arr, if |arr| >= MAX_ATTEMPTS then Blocked else LoggedIn)
  }

  // An automatic login is made exactly for a signed-out visitor without an error, of
  // whom fewer than two attempts are in the window when the new one is recorded.
  ghost predicate MayLogin(stored: seq<int>, v: Visit) {
    && v.status == Unauthenticated && !v.authError
    && |Recent(stored, v.check)| <= 2 && |Recent(stored, v.filter)| <= 1
  }

  class LoginGuard {
    var stored: seq<int>
    var blocked: bool

    constructor ()
      ensures stored == [] && !blocked
    {
      stored, blocked := [], false;
    }

    method RecordAttempt(filter: int, stamp: int) returns (n: nat)
      modifies this`stored
      ensures stored == Recent(old(stored), filter) + [stamp] && n == |stored|
    {
      var arr := Recent(stored, filter);
      arr := arr + [stamp];
      stored := arr;
      n := |arr|;
    }

    method ClearAttempts()
      modifies this`stored
      ensures stored == []
    {
      stored := [];
    }

    // login is whether login() is called.
    method RunEffect(v: Visit) returns (login: bool)
      modifies this
      ensures stored == Effect(old(stored), v).0
      ensures login <==> Effect(old(stored), v).1 == LoggedIn
      ensures blocked <==> old(blocked) || Effect(old(stored), v).1 == Blocked
      ensures v.status == Authenticated ==> stored == [] && !login && blocked == old(blocked)
      ensures v.status == Loading ==> stored == old(stored) && !login && blocked == old(blocked)
      ensures v.status == Unauthenticated ==> (blocked <==> old(blocked) || !login)
      ensures login <==> MayLogin(old(stored), v)
    {
      if v.status == Authenticated {
        ClearAttempts();
        return false;
      }
      if v.status != Unauthenticated {
        return false;
      }
      if v.authError || |Recent(stored, v.check)| >= MAX_ATTEMPTS {
        blocked := true;
        return false;
      }
      var n := RecordAttempt(v.filter, v.stamp);
      if n >= MAX_ATTEMPTS {
        blocked := true;
        return false;
      }
      login := true;
    }
  }

  // ------------------------------------------------------------------------ runs

  // What is stored, and the stamps of the automatic logins so far.
  datatype State = State(stored: seq<int>, logins: seq<int>)

  function Next(s: State, v: Visit): State {
    var (stored, outcome) := Effect(s.stored, v);
    State(stored, if outcome == LoggedIn then s.logins + [v.stamp] else s.logins)
  }

  function Run(s: State, visits: seq<Visit>): State {
    if visits == [] then s else Next(Run(s, visits[..|visits| - 1]), visits[|visits| - 1])
  }

  // The clock does not go back, and nobody gets authenticated.
  ghost predicate Running(visits: seq<Visit>, from: int, to: int) {
    && from <= to
    && (visits != [] ==>
          var v := visits[|visits| - 1];
          && v.status != Authenticated
          && from <= v.check <= v.filter <= v.stamp <= to
          && Running(visits[..|visits| - 1], from, v.check))
  }

  // Every login stamp still in the window is still stored, as often as it occurred.
  ghost predicate Remembers(s: State, clock: int) {
    forall x: int :: clock - x < WINDOW_MS ==> multiset(s.logins)[x] <= multiset(s.stored)[x]
  }

  ghost predicate Sorted(xs: seq<int>, clock: int) {
    && (forall i, j :: 0 <= i < j < |xs| ==> xs[i] <= xs[j])
    && (forall i :: 0 <= i < |xs| ==> xs[i] <= clock)
  }

  ghost predicate Spaced(xs: seq<int>) {
    forall i :: 0 <= i && i + 2 < |xs| ==> xs[i + 2] - xs[i] >= WINDOW_MS
  }

  ghost predicate Limited(s: State, clock: int) {
    && |s.stored| <= MAX_ATTEMPTS
    && Remembers(s, clock) && Sorted(s.logins, clock) && Spaced(s.logins)
  }

  lemma {:induction false} RecentCounts(xs: seq<int>, now: int, x: int)
    ensures multiset(Recent(xs, now))[x] == if now - x < WINDOW_MS then multiset(xs)[x] else 0
  {
    if xs != [] {
      var front, t := xs[..|xs| - 1], xs[|xs| - 1];
      RecentCounts(front, now, x);
      assert xs == front + [t];
    }
  }

  // No more logins than stored attempts are recent.
  lemma RecentLoginsAreStored(s: State, now: int)
    requires Remembers(s, now)
    ensures |Recent(s.logins, now)| <= |Recent(s.stored, now)|
  {
    var a, b := multiset(Recent(s.logins, now)), multiset(Recent(s.stored, now));
    forall x: int
      ensures a[x] <= b[x]
    {
      RecentCounts(s.logins, now, x);
      RecentCounts(s.stored, now, x);
    }
    assert b == a + (b - a);
    assert |a| == |Recent(s.logins, now)| && |b| == |Recent(s.stored, now)|;
  }

  // If the last but one login is recent, two are.
  lemma LastTwoRecent(xs: seq<int>, now: int)
    requires |xs| >= 2 && now - xs[|xs| - 2] < WINDOW_MS && xs[|xs| - 2] <= xs[|xs| - 1]
    ensures |Recent(xs, now)| >= 2
  {
  }

  // The filter and the push forget nothing that is still in the window.
  lemma RecordingRemembers(s: State, v: Visit, clock: int)
    requires Remembers(s, clock) && clock <= v.filter <= v.stamp
    requires v.status == Unauthenticated && !v.authError && |Recent(s.stored, v.check)| < MAX_ATTEMPTS
    ensures Remembers(Next(s, v), v.stamp)
  {
    var s' := Next(s, v);
    forall x: int | v.stamp - x < WINDOW_MS
      ensures multiset(s'.logins)[x] <= multiset(s'.stored)[x]
    {
      RecentCounts(s.stored, v.filter, x);
    }
  }

  lemma {:induction false} FilterLater(xs: seq<int>, a: int, b: int)
    requires a <= b
    ensures |Recent(xs, b)| <= |Recent(xs, a)|
  {
    if xs != [] {
      FilterLater(xs[..|xs| - 1], a, b);
    }
  }

  lemma LimitedLater(s: State, clock: int, later: int)
    requires Limited(s, clock) && clock <= later
    ensures Limited(s, later)
  {
  }

  // A login is made only if the last but one before it has left the window.
  lemma LoginIsSpaced(s: State, v: Visit)
    requires Remembers(s, v.filter) && Sorted(s.logins, v.filter) && Spaced(s.logins)
    requires v.filter <= v.stamp && Effect(s.stored, v).1 == LoggedIn
    ensures Spaced(s.logins + [v.stamp]) && Sorted(s.logins + [v.stamp], v.stamp)
  {
    RecentLoginsAreStored(s, v.filter);
    var n := |s.logins|;
    if n >= 2 && v.filter - s.logins[n - 2] < WINDOW_MS {
      LastTwoRecent(s.logins, v.filter);
    }
  }

  lemma NextIsLimited(s: State, v: Visit, clock: int)
    requires Limited(s, clock) && clock <= v.check <= v.filter <= v.stamp
    requires v.status != Authenticated
    ensures Limited(Next(s, v), v.stamp)
  {
    LimitedLater(s, clock, v.filter);
    LimitedLater(s, clock, v.stamp);
    if v.status == Unauthenticated && !v.authError && |Recent(s.stored, v.check)| < MAX_ATTEMPTS {
      FilterLater(s.stored, v.check, v.filter);
      RecordingRemembers(s, v, v.filter);
      if Effect(s.stored, v).1 == LoggedIn {
        LoginIsSpaced(s, v);
      }
    }
  }

  // In every run without a clear, any three automatic logins span at least the
  // window, and at most three attempts are ever stored.
  lemma {:induction false} LoginsAreSpaced(visits: seq<Visit>, from: int, to: int)
    requires Running(visits, from, to)
    ensures Limited(Run(State([], []), visits), to)
  {
    if visits != [] {
      var front, v := visits[..|visits| - 1], visits[|visits| - 1];
      LoginsAreSpaced(front, from, v.check);
      NextIsLimited(Run(State([], []), front), v, v.check);
      LimitedLater(Run(State([], []), visits), v.stamp, to);
    }
  }

  lemma AnyThreeLoginsSpan(visits: seq<Visit>, from: int, to: int, i: nat, j: nat, k: nat)
    requires Running(visits, from, to)
    requires var logins := Run(State([], []), visits).logins;
             i < j < k < |logins|
    ensures var logins := Run(State([], []), visits).logins;
            logins[k] - logins[i] >= WINDOW_MS
  {
    LoginsAreSpaced(visits, from, to);
    var logins := Run(State([], []), visits).logins;
    assert logins[i + 2] - logins[i] >= WINDOW_MS;
    assert logins[i + 2] <= logins[k];
  }

  // --------------------------------------------------------------------- sign-ins

  // What a visit does to the attempts and what comes of it, case by case.
  lemma EffectCases(stored: seq<int>, v: Visit)
    ensures var (after, outcome) := Effect(stored, v);
            && (v.status == Authenticated ==> after == [] && outcome == Cleared)
            && (v.status == Loading ==> after == stored && outcome == Ignored)
            && (outcome == LoggedIn <==> MayLogin(stored, v))
            && (v.status == Unauthenticated && outcome != LoggedIn ==> outcome == Blocked)
            && (v.status == Unauthenticated ==>
                  if v.authError || |Recent(stored, v.check)| >= 3 then after == stored
                  else |after| > 0 && after[|after| - 1] == v.stamp
                       && forall x: int :: x != v.stamp ==>
                            multiset(after)[x] == if v.filter - x < 30_000 then multiset(stored)[x] else 0)
  {
    forall x: int
      ensures multiset(Recent(stored, v.filter))[x] == if v.filter - x < WINDOW_MS then multiset(stored)[x] else 0
    {
      RecentCounts(stored, v.filter, x);
    }
  }

  // Whatever was stored, a sign-in forgets it: signing out again, without an error, leads
  // to a login at once.
  lemma SignInStartsOver(stored: seq<int>, signedIn: Visit, v: Visit)
    requires signedIn.status == Authenticated && v.status == Unauthenticated && !v.authError
    ensures Effect(Effect(stored, signedIn).0, v) == ([v.stamp], LoggedIn)
  {
    assert Recent([], v.check) == [] && Recent([], v.filter) == [];
    assert [] + [v.stamp] == [v.stamp];
  }

  lemma {:induction false} LoginsAddUp(s: State, visits: seq<Visit>)
    ensures Run(s, visits).stored == Run(State(s.stored, []), visits).stored
    ensures Run(s, visits).logins == s.logins + Run(State(s.stored, []), visits).logins
  {
    if visits != [] {
      LoginsAddUp(s, visits[..|visits| - 1]);
    }
  }

  lemma {:induction false} RunInTwo(s: State, a: seq<Visit>, b: seq<Visit>)
    ensures Run(s, a + b) == Run(Run(s, a), b)
  {
    if b == [] {
      assert a + b == a;
    } else {
      RunInTwo(s, a, b[..|b| - 1]);
      assert (a + b)[..|a + b| - 1] == a + b[..|b| - 1];
    }
  }

  // Any three of the logins from position n on span at least the window.
  ghost predicate SpacedFrom(logins: seq<int>, n: nat) {
    forall i, k :: n <= i && i + 2 <= k < |logins| ==> logins[k] - logins[i] >= 30_000
  }

  lemma SegmentIsSpaced(visits: seq<Visit>, from: int, to: int)
    requires Running(visits, from, to)
    ensures SpacedFrom(Run(State([], []), visits).logins, 0) && |Run(State([], []), visits).stored| <= 3
  {
    LoginsAreSpaced(visits, from, to);
    var logins := Run(State([], []), visits).logins;
    forall i, k | 0 <= i && i + 2 <= k < |logins|
      ensures logins[k] - logins[i] >= 30_000
    {
      AnyThreeLoginsSpan(visits, from, to, i, i + 1, k);
    }
  }

  lemma SpacedAfter(xs: seq<int>, ys: seq<int>)
    requires SpacedFrom(ys, 0)
    ensures SpacedFrom(xs + ys, |xs|)
  {
  }

  // In any run, between one sign-in and the next: any three automatic logins span at
  // least the window, and at most three attempts are stored.
  lemma LoginsSinceSignIn(a: seq<Visit>, b: seq<Visit>, from: int, to: int)
    requires a == [] || a[|a| - 1].status == Authenticated
    requires Running(b, from, to)
    ensures var before, after := Run(State([], []), a), Run(State([], []), a + b);
            && before.logins <= after.logins
            && |after.stored| <= 3
            && SpacedFrom(after.logins, |before.logins|)
  {
    var before, made := Run(State([], []), a), Run(State([], []), b);
    RunInTwo(State([], []), a, b);
    LoginsAddUp(before, b);
    assert before.stored == [];
    SegmentIsSpaced(b, from, to);
    SpacedAfter(before.logins, made.logins);
  }

  function At(t: int): Visit { Visit(Unauthenticated, false, t, t, t) }

  lemma TwoAtOnce(at: int)
    ensures Run(State([], []), [At(at), At(at)]) == State([at, at], [at, at])
  {
    assert [At(at), At(at)][..1] == [At(at)] && [At(at)][..0] == [];
    assert Run(State([], []), [At(at)]) == State([at], [at]);
    assert [at][..0] == [];
    assert Recent([at], at) == [at];
  }

  lemma BothHavePassed(at: int)
    ensures Recent([at, at], at + WINDOW_MS) == []
  {
    assert [at, at][..1] == [at] && [at][..0] == [];
    assert Recent([at], at + WINDOW_MS) == [];
  }

  // The bound is tight: two logins may follow each other at once, and a third is
  // made as soon as the window has passed.
  lemma BoundIsTight(at: int)
    ensures Run(State([], []), [At(at), At(at), At(at + WINDOW_MS)]).logins == [at, at, at + WINDOW_MS]
  {
    var visits := [At(at), At(at), At(at + WINDOW_MS)];
    assert visits[..2] == [At(at), At(at)];
    TwoAtOnce(at);
    BothHavePassed(at);
  }
}

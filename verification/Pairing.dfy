/** Pairing a chat with a secret key: attempt windows, lockout, and how many wrong keys can be tried. */
module Pairing {
  import opened GateTypes
  import opened StepText

  /** Times are in nanoseconds. */
  const SECOND := 1_000_000_000
  const LOCKOUT := 900 * SECOND
  const WINDOW := 900 * SECOND
  const MAX_FAILS := 5

  datatype PairResult = Paired | Wrong | AlreadyAuthorized | NoSecret | Throttled(secs: nat)

  datatype Attempt = Attempt(fails: nat, windowStart: int, lockedUntil: Option<int>)

  // ---------- One chat's attempts ----------

  predicate Locked(a: Option<Attempt>, now: int) {
    a.Some? && a.value.lockedUntil.Some? && a.value.lockedUntil.value > now
  }

  /** The window a comparison at `now` counts in. */
  function WindowAt(a: Option<Attempt>, now: int): Attempt {
    if a.None? || now - a.value.windowStart > WINDOW then Attempt(0, now, None) else a.value
  }

  function Failed(a: Attempt, now: int): Attempt {
    if a.fails + 1 >= MAX_FAILS then Attempt(0, now, Some(now + LOCKOUT)) else a.(fails := a.fails + 1)
  }

  function FailResult(a: Attempt): PairResult {
    if a.fails + 1 >= MAX_FAILS then Throttled(900) else Wrong
  }

  // ---------- The guard ----------

  datatype Guard = Guard(authorized: set<int>, attempts: map<int, Attempt>)

  function AttemptOf(g: Guard, chat: int): Option<Attempt> {
    if chat in g.attempts then Some(g.attempts[chat]) else None
  }

  /** Whether the key is really compared with the secret. */
  predicate Compares(g: Guard, secret: Option<string>, chat: int, now: int) {
    secret.Some? && chat !in g.authorized && !Locked(AttemptOf(g, chat), now)
  }

  function Tried(g: Guard, secret: Option<string>, chat: int, key: string, now: int): Guard {
    if !Compares(g, secret, chat, now) then g
    else if Trim(key) == secret.value then Guard(g.authorized + {chat}, g.attempts - {chat})
    else g.(attempts := g.attempts[chat := Failed(WindowAt(AttemptOf(g, chat), now), now)])
  }

  function ResultOf(g: Guard, secret: Option<string>, chat: int, key: string, now: int): PairResult {
    if secret.None? then NoSecret
    else if chat in g.authorized then AlreadyAuthorized
    else if Locked(AttemptOf(g, chat), now) then Throttled((g.attempts[chat].lockedUntil.value - now) / SECOND + 1)
    else if Trim(key) == secret.value then Paired
    else FailResult(WindowAt(AttemptOf(g, chat), now))
  }

  class Auth {
    const allowedEnv: set<int>
    const secret: Option<string>
    var authorized: set<int>
    var attempts: map<int, Attempt>

    constructor (allowedEnv: set<int>, secret: Option<string>, saved: set<int>)
      ensures this.secret == secret && View() == Guard(allowedEnv + saved, map[])
    {
      this.allowedEnv, this.secret := allowedEnv, secret;
      authorized, attempts := saved, map[];
    }

    function View(): Guard
      reads this
    {
      Guard(allowedEnv + authorized, attempts)
    }

    method TryPair(chat: int, key: string, now: int) returns (r: PairResult)
      modifies this
      ensures r == ResultOf(old(View()), secret, chat, key, now)
      ensures View() == Tried(old(View()), secret, chat, key, now)
    {
      if secret.None? {
        return NoSecret;
      }
      if chat in allowedEnv || chat in authorized {
        return AlreadyAuthorized;
      }
      if chat in attempts {
        var a := attempts[chat];
        if a.lockedUntil.Some? && a.lockedUntil.value > now {
          return Throttled((a.lockedUntil.value - now) / SECOND + 1);
        }
      }
      var window: Option<Attempt> := None;
      if chat in attempts {
        window := Some(attempts[chat]);
        if now - window.value.windowStart > WINDOW {
          window := Some(window.value.(fails := 0, windowStart := now, lockedUntil := None));
        }
      }
      if Trim(key) == secret.value {
        attempts := attempts - {chat};
        authorized := authorized + {chat};
        assert View().authorized == old(View()).authorized + {chat};
        return Paired;
      }
      var a := if window.Some? then window.value else Attempt(0, now, None);
      a := a.(fails := a.fails + 1);
      if a.fails >= MAX_FAILS {
        attempts := attempts[chat := Attempt(0, now, Some(now + LOCKOUT))];
        return Throttled(900);
      }
      attempts := attempts[chat := a];
      return Wrong;
    }
  }

  // ---------- Runs ----------

  datatype Try = Try(chat: int, key: string, at: int)

  function After(secret: Option<string>, authorized: set<int>, tries: seq<Try>): Guard {
    if tries == [] then Guard(authorized, map[])
    else
      var t := tries[|tries| - 1];
      Tried(After(secret, authorized, tries[..|tries| - 1]), secret, t.chat, t.key, t.at)
  }

  /** A key is compared exactly if there is a secret, the chat is not yet authorized, and it is not locked out; only the
      right key authorizes, and only its own chat. The result says which of these it was. */
  lemma ResultsAreExact(g: Guard, secret: Option<string>, chat: int, key: string, now: int)
    ensures var r := ResultOf(g, secret, chat, key, now);
            var after := Tried(g, secret, chat, key, now);
            && (r == NoSecret <==> secret.None?)
            && (r == AlreadyAuthorized <==> secret.Some? && chat in g.authorized)
            && (r == Paired <==> Compares(g, secret, chat, now) && Trim(key) == secret.value)
            && (r == Wrong || r.Throttled? <==> secret.Some? && chat !in g.authorized && r != Paired)
            && after.authorized == g.authorized + (if r == Paired then {chat} else {})
            && (forall other :: other != chat ==> AttemptOf(after, other) == AttemptOf(g, other))
            && (!Compares(g, secret, chat, now) ==> after == g)
            && (r == Paired ==> AttemptOf(after, chat) == None)
  {
    var r, after := ResultOf(g, secret, chat, key, now), Tried(g, secret, chat, key, now);
    assert g.authorized + {} == g.authorized;
  }

  /** A chat that may not try again is told so, and told a time by which the lock has gone: less than a second late. */
  lemma LockIsTold(g: Guard, secret: Option<string>, chat: int, key: string, now: int)
    requires secret.Some? && chat !in g.authorized
    ensures var r := ResultOf(g, secret, chat, key, now);
            var after := AttemptOf(Tried(g, secret, chat, key, now), chat);
            && (r.Throttled? <==> Locked(after, now))
            && (r.Throttled? ==>
                  after.value.lockedUntil.value <= now + r.secs * 1_000_000_000 <= after.value.lockedUntil.value + 1_000_000_000)
  {
  }

  /** Some attempt of the chat brought the right key while it was compared. */
  ghost predicate Earned(secret: Option<string>, authorized: set<int>, tries: seq<Try>, chat: int) {
    exists k :: 0 <= k < |tries| && EarnedAt(secret, authorized, tries, chat, k)
  }

  ghost predicate EarnedAt(secret: Option<string>, authorized: set<int>, tries: seq<Try>, chat: int, k: nat)
    requires k < |tries|
  {
    && tries[k].chat == chat && Compares(After(secret, authorized, tries[..k]), secret, chat, tries[k].at)
    && Trim(tries[k].key) == secret.value
  }

  lemma EarnedOnward(secret: Option<string>, authorized: set<int>, tries: seq<Try>, chat: int)
    requires tries != []
    ensures Earned(secret, authorized, tries, chat)
       <==> Earned(secret, authorized, tries[..|tries| - 1], chat)
            || EarnedAt(secret, authorized, tries, chat, |tries| - 1)
  {
    var n := |tries| - 1;
    assert forall k :: 0 <= k < n ==> tries[..n][..k] == tries[..k];
    if Earned(secret, authorized, tries[..n], chat) {
      var k: nat :| k < n && EarnedAt(secret, authorized, tries[..n], chat, k);
      assert EarnedAt(secret, authorized, tries, chat, k);
    }
    if Earned(secret, authorized, tries, chat) && !EarnedAt(secret, authorized, tries, chat, n) {
      var k: nat :| k < |tries| && EarnedAt(secret, authorized, tries, chat, k);
      assert EarnedAt(secret, authorized, tries[..n], chat, k);
    }
  }

  /** Over any run: exactly those chats are authorized that were at the start or that brought the right key while not
      locked out. */
  lemma {:induction false} AuthorizedExactly(secret: Option<string>, authorized: set<int>, tries: seq<Try>, chat: int)
    ensures chat in After(secret, authorized, tries).authorized
       <==> chat in authorized || Earned(secret, authorized, tries, chat)
  {
    if tries != [] {
      var n := |tries| - 1;
      AuthorizedExactly(secret, authorized, tries[..n], chat);
      EarnedOnward(secret, authorized, tries, chat);
      ResultsAreExact(After(secret, authorized, tries[..n]), secret, tries[n].chat, tries[n].key, tries[n].at);
    }
  }

  ghost predicate InOrder(tries: seq<Try>) {
    forall i, j :: 0 <= i < j < |tries| ==> tries[i].at <= tries[j].at
  }

  predicate WrongCompare(g: Guard, secret: Option<string>, t: Try, chat: int, from: int) {
    t.chat == chat && from <= t.at < from + 900_000_000_000
    && Compares(g, secret, chat, t.at) && secret.Some? && Trim(t.key) != secret.value
  }

  /** Wrong keys of `chat` really compared in the half-open interval of 900 seconds from `from`. */
  function WrongCompares(secret: Option<string>, authorized: set<int>, tries: seq<Try>, chat: int, from: int): nat {
    if tries == [] then 0
    else
      var front := tries[..|tries| - 1];
      WrongCompares(secret, authorized, front, chat, from)
      + if WrongCompare(After(secret, authorized, front), secret, tries[|tries| - 1], chat, from) then 1 else 0
  }

  /** What the attempt on record says of the comparisons since `from`: those of the window it counts,
      at most four of an earlier one, and none after a lock within the interval. */
  ghost predicate Accounts(a: Option<Attempt>, from: int, last: int, count: nat) {
    match a
    case None => count == 0
    case Some(w) =>
      && w.windowStart <= last && w.fails < MAX_FAILS
      && (w.lockedUntil.Some? ==> w.lockedUntil.value == w.windowStart + LOCKOUT)
      && (w.windowStart < from ==> count <= w.fails)
      && (w.windowStart >= from && w.lockedUntil.None? ==> count <= 4 + w.fails)
  }

  ghost predicate Bounded(g: Guard, chat: int, from: int, last: int, count: nat) {
    && count <= 9 && (last < from ==> count == 0)
    && (last < from + WINDOW && chat !in g.authorized ==> Accounts(AttemptOf(g, chat), from, last, count))
  }

  lemma TryKeepsBound(g: Guard, secret: Option<string>, t: Try, chat: int, from: int, last: int, count: nat)
    requires Bounded(g, chat, from, last, count) && last <= t.at
    ensures Bounded(Tried(g, secret, t.chat, t.key, t.at), chat, from, t.at,
                    count + if WrongCompare(g, secret, t, chat, from) then 1 else 0)
  {
  }

  lemma {:induction false} RunIsBounded(secret: Option<string>, authorized: set<int>, tries: seq<Try>, chat: int, from: int, last: int)
    requires InOrder(tries) && (tries != [] ==> last == tries[|tries| - 1].at)
    ensures Bounded(After(secret, authorized, tries), chat, from, last,
                    WrongCompares(secret, authorized, tries, chat, from))
  {
    if tries != [] {
      var front, t := tries[..|tries| - 1], tries[|tries| - 1];
      var before := if front == [] then t.at else front[|front| - 1].at;
      RunIsBounded(secret, authorized, front, chat, from, before);
      TryKeepsBound(After(secret, authorized, front), secret, t, chat, from, before,
                    WrongCompares(secret, authorized, front, chat, from));
    }
  }

  /** For every chat and every run of attempts in time order, at most nine wrong keys are compared in
      any half-open interval of 900 seconds. */
  lemma AtMostNineWrongKeys(secret: Option<string>, authorized: set<int>, tries: seq<Try>, chat: int, from: int)
    requires InOrder(tries)
    ensures WrongCompares(secret, authorized, tries, chat, from) <= 9
  {
    RunIsBounded(secret, authorized, tries, chat, from, if tries == [] then 0 else tries[|tries| - 1].at);
  }

  // ---------- The bound is met ----------

  /** Where a chat that has only sent wrong keys stands: the window it would count in, and how many
      comparisons fell in the interval. */
  ghost predicate Stands(secret: Option<string>, tries: seq<Try>, chat: int, from: int, at: int, window: Attempt, count: nat) {
    var g := After(secret, {}, tries);
    && chat !in g.authorized && !Locked(AttemptOf(g, chat), at) && WindowAt(AttemptOf(g, chat), at) == window
    && WrongCompares(secret, {}, tries, chat, from) == count
  }

  function Repeated(tries: seq<Try>, t: Try, n: nat): seq<Try> {
    if n == 0 then tries else Repeated(tries, t, n - 1) + [t]
  }

  lemma OneWrong(secret: Option<string>, tries: seq<Try>, t: Try, from: int, window: Attempt, count: nat)
    requires secret.Some? && Trim(t.key) != secret.value && from <= t.at < from + WINDOW
    requires Stands(secret, tries, t.chat, from, t.at, window, count)
    ensures AttemptOf(After(secret, {}, tries + [t]), t.chat) == Some(Failed(window, t.at))
    ensures After(secret, {}, tries + [t]).authorized == After(secret, {}, tries).authorized
    ensures WrongCompares(secret, {}, tries + [t], t.chat, from) == count + 1
  {
    assert (tries + [t])[..|tries|] == tries;
  }

  lemma {:induction false} SeveralWrong(secret: Option<string>, tries: seq<Try>, t: Try, n: nat, from: int, window: Attempt, count: nat)
    requires secret.Some? && Trim(t.key) != secret.value && from <= t.at < from + WINDOW
    requires window.fails + n < MAX_FAILS && t.at - window.windowStart <= WINDOW
    requires window.lockedUntil.Some? ==> window.lockedUntil.value <= t.at
    requires Stands(secret, tries, t.chat, from, t.at, window, count)
    ensures Stands(secret, Repeated(tries, t, n), t.chat, from, t.at, window.(fails := window.fails + n), count + n)
  {
    if n > 0 {
      SeveralWrong(secret, tries, t, n - 1, from, window, count);
      OneWrong(secret, Repeated(tries, t, n - 1), t, from, window.(fails := window.fails + n - 1), count + n - 1);
    }
  }

  /** A moment after 900 seconds a window that is not full starts afresh. */
  lemma WindowRestarts(secret: Option<string>, tries: seq<Try>, chat: int, from: int, at: int, window: Attempt, count: nat)
    requires Stands(secret, tries, chat, from, at, window, count) && window.fails > 0 && at - window.windowStart == WINDOW
    requires window.lockedUntil.Some? ==> window.lockedUntil.value <= at
    ensures Stands(secret, tries, chat, from, at + 1, Attempt(0, at + 1, None), count)
  {
  }

  /** A first lockout, four wrong keys as it ends, and five more a moment later. */
  function NineTries(chat: int, key: string): seq<Try> {
    var a, b, c := Try(chat, key, 0), Try(chat, key, WINDOW), Try(chat, key, WINDOW + 1);
    Repeated(Repeated(Repeated([], a, 4) + [a], b, 4), c, 4) + [c]
  }

  lemma NineInOrder(chat: int, key: string)
    ensures InOrder(NineTries(chat, key))
  {
    var a, b, c := Try(chat, key, 0), Try(chat, key, WINDOW), Try(chat, key, WINDOW + 1);
    var first := Repeated([], a, 4) + [a];
    RepeatedInOrder([], a, 4);
    RepeatedInOrder(first, b, 4);
    RepeatedInOrder(Repeated(first, b, 4), c, 4);
  }

  lemma FourAsLockoutEnds(secret: Option<string>, first: seq<Try>, b: Try)
    requires secret.Some? && Trim(b.key) != secret.value && b.at == WINDOW
    requires Stands(secret, first, b.chat, WINDOW, WINDOW, Attempt(0, 0, Some(LOCKOUT)), 0)
    ensures Stands(secret, Repeated(first, b, 4), b.chat, WINDOW, WINDOW + 1, Attempt(0, WINDOW + 1, None), 4)
  {
    SeveralWrong(secret, first, b, 4, WINDOW, Attempt(0, 0, Some(LOCKOUT)), 0);
    WindowRestarts(secret, Repeated(first, b, 4), b.chat, WINDOW, WINDOW, Attempt(4, 0, Some(LOCKOUT)), 4);
  }

  lemma FiveInNextWindow(secret: Option<string>, second: seq<Try>, c: Try)
    requires secret.Some? && Trim(c.key) != secret.value && c.at == WINDOW + 1
    requires Stands(secret, second, c.chat, WINDOW, WINDOW + 1, Attempt(0, WINDOW + 1, None), 4)
    ensures WrongCompares(secret, {}, Repeated(second, c, 4) + [c], c.chat, WINDOW) == 9
  {
    SeveralWrong(secret, second, c, 4, WINDOW, Attempt(0, WINDOW + 1, None), 4);
    OneWrong(secret, Repeated(second, c, 4), c, WINDOW, Attempt(4, WINDOW + 1, None), 8);
  }

  /** The bound is met. */
  lemma NineIsReached(secret: Option<string>, chat: int, key: string)
    requires secret.Some? && Trim(key) != secret.value
    ensures InOrder(NineTries(chat, key))
    ensures WrongCompares(secret, {}, NineTries(chat, key), chat, WINDOW) == 9
  {
    var a, b, c := Try(chat, key, 0), Try(chat, key, WINDOW), Try(chat, key, WINDOW + 1);
    var first := Repeated([], a, 4) + [a];
    NineInOrder(chat, key);
    FirstLockout(secret, a);
    FourAsLockoutEnds(secret, first, b);
    FiveInNextWindow(secret, Repeated(first, b, 4), c);
  }

  lemma {:induction false} RepeatedInOrder(tries: seq<Try>, t: Try, n: nat)
    requires InOrder(tries) && forall i :: 0 <= i < |tries| ==> tries[i].at <= t.at
    ensures InOrder(Repeated(tries, t, n)) && forall i :: 0 <= i < |Repeated(tries, t, n)| ==> Repeated(tries, t, n)[i].at <= t.at
  {
    if n > 0 {
      RepeatedInOrder(tries, t, n - 1);
    }
  }

  /** Five wrong keys at time 0 lock the chat until 900 seconds; none of them is in the next interval. */
  lemma FirstLockout(secret: Option<string>, a: Try)
    requires secret.Some? && Trim(a.key) != secret.value && a.at == 0
    ensures Stands(secret, Repeated([], a, 4) + [a], a.chat, WINDOW, WINDOW, Attempt(0, 0, Some(LOCKOUT)), 0)
  {
    SeveralWrong(secret, [], a, 4, 0, Attempt(0, 0, None), 0);
    var four := Repeated([], a, 4);
    OneWrong(secret, four, a, 0, Attempt(4, 0, None), 4);
    RepeatedInOrder([], a, 4);
    NoneBefore(secret, four + [a], a.chat, WINDOW);
  }

  lemma {:induction false} NoneBefore(secret: Option<string>, tries: seq<Try>, chat: int, from: int)
    requires forall i :: 0 <= i < |tries| ==> tries[i].at < from
    ensures WrongCompares(secret, {}, tries, chat, from) == 0
  {
    if tries != [] {
      NoneBefore(secret, tries[..|tries| - 1], chat, from);
    }
  }
}

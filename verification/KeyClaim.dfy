/** Callers racing for a digest key file that is made on first use: by hard-link claim (the dossier key) or by
    plain replacement (the artifact key). */
module KeyClaim {

  type Key = nat

  /** Key files appear whole: a reader sees no file, some file that is not a key, or a key. */
  datatype KeyFile = Missing | Invalid | Valid(key: Key)

  datatype Caller =
    | Starting
    | Generated(own: Key)
    | Lost(own: Key)
    | Overwriting(own: Key)
    | Returned(key: Key)

  datatype System = System(file: KeyFile, callers: map<nat, Caller>)

  /** One caller's next file operation; `drawn` is the key it would draw. */
  datatype Turn = Turn(caller: nat, drawn: Key)

  function CallerOf(s: System, c: nat): Caller {
    if c in s.callers then s.callers[c] else Starting
  }

  function With(s: System, c: nat, next: Caller): System {
    s.(callers := s.callers[c := next])
  }

  function Wrote(s: System, c: nat, own: Key): System {
    With(s, c, Returned(own)).(file := Valid(own))
  }

  function Step(claims: bool, s: System, t: Turn): System {
    match CallerOf(s, t.caller)
    case Starting =>
      if s.file.Valid? then With(s, t.caller, Returned(s.file.key))
      else if claims then With(s, t.caller, Generated(t.drawn))
      else With(s, t.caller, Overwriting(t.drawn))
    case Generated(own) => if s.file.Missing? then Wrote(s, t.caller, own) else With(s, t.caller, Lost(own))
    case Lost(own) =>
      if s.file.Valid? then With(s, t.caller, Returned(s.file.key)) else With(s, t.caller, Overwriting(own))
    case Overwriting(own) => Wrote(s, t.caller, own)
    case Returned(_) => s
  }

  function Run(claims: bool, start: KeyFile, turns: seq<Turn>): System {
    if turns == [] then System(start, map[])
    else Step(claims, Run(claims, start, turns[..|turns| - 1]), turns[|turns| - 1])
  }

  /** Every key that was handed out is the one in the file. */
  ghost predicate Agree(s: System) {
    forall c :: c in s.callers && s.callers[c].Returned? ==> s.file == Valid(s.callers[c].key)
  }

  ghost predicate Settled(s: System) {
    && Agree(s)
    && !s.file.Invalid?
    && forall c :: c in s.callers ==> !s.callers[c].Overwriting? && (s.callers[c].Lost? ==> s.file.Valid?)
  }

  lemma {:induction false} ClaimsStaySettled(start: KeyFile, turns: seq<Turn>)
    requires !start.Invalid?
    ensures Settled(Run(true, start, turns))
  {
    if turns != [] {
      ClaimsStaySettled(start, turns[..|turns| - 1]);
    }
  }

  lemma {:induction false} ValidFileStays(claims: bool, key: Key, turns: seq<Turn>)
    ensures var s := Run(claims, Valid(key), turns);
            s.file == Valid(key) && forall c :: c in s.callers ==> s.callers[c] == Returned(key)
  {
    if turns != [] {
      ValidFileStays(claims, key, turns[..|turns| - 1]);
    }
  }

  lemma {:induction false} OnceHandedOutItStays(start: KeyFile, turns: seq<Turn>, more: seq<Turn>, c: nat)
    requires !start.Invalid? && c in Run(true, start, turns).callers
    requires Run(true, start, turns).callers[c].Returned?
    ensures Run(true, start, turns + more).file == Valid(Run(true, start, turns).callers[c].key)
  {
    ClaimsStaySettled(start, turns);
    if more == [] {
      assert turns + more == turns;
    } else {
      var front := more[..|more| - 1];
      OnceHandedOutItStays(start, turns, front, c);
      ClaimsStaySettled(start, turns + front);
      assert (turns + more)[..|turns + more| - 1] == turns + front;
    }
  }

  lemma OneTurn(claims: bool, start: KeyFile, turns: seq<Turn>, t: Turn)
    ensures Run(claims, start, turns + [t]) == Step(claims, Run(claims, start, turns), t)
  {
    assert (turns + [t])[..|turns|] == turns;
  }

  /** Two callers whose operations alternate both end up writing their own key. */
  lemma TwoCallersDisagree(claims: bool, start: KeyFile, a: Key, b: Key) returns (turns: seq<Turn>)
    requires if claims then start.Invalid? else !start.Valid?
    ensures CallerOf(Run(claims, start, turns), 0) == Returned(a)
    ensures CallerOf(Run(claims, start, turns), 1) == Returned(b)
    ensures Run(claims, start, turns).file == Valid(b)
  {
    turns := [];
    var rounds := if claims then 4 else 2;
    var i := 0;
    while i < rounds
      invariant 0 <= i <= rounds
      invariant CallerOf(Run(claims, start, turns), 0) == Stage(claims, a, i)
      invariant CallerOf(Run(claims, start, turns), 1) == Stage(claims, b, i)
      invariant Run(claims, start, turns).file == if i < rounds then start else Valid(b)
    {
      OneTurn(claims, start, turns, Turn(0, a));
      OneTurn(claims, start, turns + [Turn(0, a)], Turn(1, b));
      turns := turns + [Turn(0, a)] + [Turn(1, b)];
      i := i + 1;
    }
  }

  function Stage(claims: bool, own: Key, i: nat): Caller {
    if i == 0 then Starting
    else if !claims then if i == 1 then Overwriting(own) else Returned(own)
    else if i == 1 then Generated(own)
    else if i == 2 then Lost(own)
    else if i == 3 then Overwriting(own)
    else Returned(own)
  }

  ghost predicate AlwaysAgrees(claims: bool, start: KeyFile) {
    forall turns: seq<Turn> :: Agree(Run(claims, start, turns))
  }

  /** For any number of callers and any interleaving: claiming keeps all keys equal exactly when the file does
      not start out as something other than a key; replacing does only when the key is already there. */
  lemma AgreementExactly(claims: bool, start: KeyFile)
    ensures AlwaysAgrees(claims, start) <==> start.Valid? || (claims && start.Missing?)
  {
    if start.Valid? || (claims && start.Missing?) {
      forall turns: seq<Turn> ensures Agree(Run(claims, start, turns)) {
        if start.Valid? {
          ValidFileStays(claims, start.key, turns);
        } else {
          ClaimsStaySettled(start, turns);
        }
      }
    } else {
      var turns := TwoCallersDisagree(claims, start, 1, 2);
      var s := Run(claims, start, turns);
      assert 0 in s.callers && s.callers[0].Returned? && s.file != Valid(1);
      assert !Agree(s);
    }
  }
}

/** An invitation is settled once: the row lock and the reload inside it make
    every later accept, decline or revoke of the same row fail. */
module TenancyTransitions {
  import opened Common
  import opened Tenancy
  import opened TenancyMachine
  import opened TenancyInvariants
  import opened TenancyRuns
  import opened TenancyEvolution
  import S = TenancySteps

  /** `a` is an accept, decline or revoke of invitation `i`, with whatever copy of it. */
  predicate Settling(a: Action, i: Id) {
    match a
    case OnInvite(Accept(_, j, _, _)) => i == j
    case OnInvite(Decline(_, j, _, _)) => i == j
    case OnInvite(Revoke(_, j, _, _)) => i == j
    case _ => false
  }

  /** A transition that commits uses the row up; one that fails writes nothing. */
  lemma SettlingIsAllOrNothing(db: Tables, a: Action, i: Id)
    requires Settling(a, i)
    ensures var r := Step(db, a);
            if r.reply == S.Done then i in db.invitations && i !in r.db.invitations else r.db == db
  {
    hide ValidUpdate, ValidNew;
  }

  /** How many steps of the run commit a transition of invitation `i`. */
  ghost function Settlements(db: Tables, run: seq<Action>, i: Id): nat
    decreases run
  {
    if run == [] then 0
    else (if Settling(run[0], i) && Step(db, run[0]).reply == S.Done then 1 else 0)
         + Settlements(Step(db, run[0]).db, run[1..], i)
  }

  lemma {:induction false} GoneIsNeverSettled(db: Tables, run: seq<Action>, i: Id)
    requires Inv(db) && i < db.nextId && i !in db.invitations
    ensures Settlements(db, run, i) == 0
    decreases run
  {
    if run != [] {
      var a := run[0];
      StepKeepsInv(db, a);
      StepAdvances(db, a);
      if Settling(a, i) { SettlingIsAllOrNothing(db, a, i); }
      hide Inv, Step, Settling;
      GoneIsNeverSettled(Step(db, a).db, run[1..], i);
    }
  }

  /** Whatever copies of the row their callers hold, at most one transition of an
      invitation ever commits. */
  lemma {:induction false} SettledAtMostOnce(db: Tables, run: seq<Action>, i: Id)
    requires Inv(db)
    ensures Settlements(db, run, i) <= 1
    decreases run
  {
    if run != [] {
      var a := run[0];
      var r := Step(db, a);
      assert i in db.invitations ==> i < db.nextId;
      StepKeepsInv(db, a);
      StepAdvances(db, a);
      hide Inv, Step;
      if Settling(a, i) && r.reply == S.Done {
        SettlingIsAllOrNothing(db, a, i);
        GoneIsNeverSettled(r.db, run[1..], i);
      } else {
        SettledAtMostOnce(r.db, run[1..], i);
      }
    }
  }
}

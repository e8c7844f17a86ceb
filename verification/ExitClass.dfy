/** Exit classes and their precedence (internal/cli/plan.go). */
module ExitClass {

  datatype Exit = OK | Failed | Usage | FreshPlan | Uncertain

  function Rank(e: Exit): nat {
    match e
    case Usage => 4
    case Failed => 3
    case Uncertain => 2
    case FreshPlan => 1
    case OK => 0
  }

  function Worse(a: Exit, b: Exit): Exit {
    if Rank(b) > Rank(a) then b else a
  }

  /** The class that wins among those raised, OK when none is. */
  ghost predicate IsWorst(code: Exit, raised: seq<Exit>) {
    && (code == OK || code in raised)
    && (forall e | e in raised :: Rank(e) <= Rank(code))
  }

  /** The winner depends on which classes were raised, never on their order or number. */
  lemma WorstIgnoresOrder(a: Exit, b: Exit, raised: seq<Exit>, shuffled: seq<Exit>)
    requires IsWorst(a, raised) && IsWorst(b, shuffled)
    requires forall e :: e in raised <==> e in shuffled
    ensures a == b
  {
    assert Rank(a) == Rank(b);
  }

  /** One more class raised: worseExit keeps the winner. */
  lemma WorstStep(code: Exit, raised: seq<Exit>, e: Exit)
    requires IsWorst(code, raised)
    ensures IsWorst(Worse(code, e), raised + [e])
  {
  }

  /** The documented precedence: usage before failed before uncertain before a fresh
      plan before ok. */
  lemma PrecedenceMeans(code: Exit, raised: seq<Exit>)
    requires IsWorst(code, raised)
    ensures code == Usage <==> Usage in raised
    ensures code == Failed <==> Failed in raised && Usage !in raised
    ensures code == Uncertain <==> Uncertain in raised && Failed !in raised && Usage !in raised
    ensures code == FreshPlan <==>
      FreshPlan in raised && Uncertain !in raised && Failed !in raised && Usage !in raised
    ensures code == OK <==> forall e | e in raised :: e == OK
  {
    assert forall e | e in {Usage, Failed, Uncertain, FreshPlan} && e in raised :: Rank(e) <= Rank(code);
  }
}

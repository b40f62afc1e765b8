/** The dashboard's in-memory ledger (the STATE object of dashboard.js):
    income and expense movements, savings goals and the XP and coin
    counters, with the quick-add form, the goal form, the delete buttons, the
    goal-progress heuristic and the summary totals. */
module Ledger {
  import opened Builtins

  /** A movement; `tipo` is 'ingreso' or 'egreso' when it comes from the
      quick-add form, but stored records may carry anything. */
  datatype Movement = Movement(id: string, tipo: string, monto: real, fecha: string, categoria: string, nota: string)

  datatype Goal = Goal(id: string, titulo: string, tipo: string, target: real, createdAt: string)

  const Ingreso: string := "ingreso"
  const Egreso: string := "egreso"

  function MovementId(m: Movement): string { m.id }

  function GoalId(g: Goal): string { g.id }

  // ---------------------------------------------------------------------
  // Quick-add rewards.

  /** XP for a quick-added movement: Math.round(Math.min(10, |monto| / 10)). */
  function XpReward(monto: real): (r: int)
    ensures 0 <= r <= 10
    ensures r == 10 <==> Abs(monto) >= 95.0
    ensures r == 0 <==> Abs(monto) < 5.0
  {
    Round(MinReal(10.0, Abs(monto) / 10.0))
  }

  /** Coins for a quick-added movement: Math.round(Math.min(5, |monto| / 20)). */
  function CoinReward(monto: real): (r: int)
    ensures 0 <= r <= 5
    ensures r == 5 <==> Abs(monto) >= 90.0
    ensures r == 0 <==> Abs(monto) < 10.0
  {
    Round(MinReal(5.0, Abs(monto) / 20.0))
  }

  /** The category typed in the form, or the default for the movement's kind. */
  function QuickCategory(tipo: string, typed: string): (c: string)
    ensures c != ""
    ensures typed != "" ==> c == typed
    ensures typed == "" && tipo == Ingreso ==> c == "Varios"
    ensures typed == "" && tipo != Ingreso ==> c == "Gastos Varios"
  {
    if typed != "" then typed else if tipo == Ingreso then "Varios" else "Gastos Varios"
  }

  // ---------------------------------------------------------------------
  // Deleting by id: Array.prototype.filter(x => x.id !== id).

  function RemoveId<T(!new)>(xs: seq<T>, key: T -> string, id: string): (r: seq<T>)
    ensures forall x :: x in r <==> x in xs && key(x) != id
  {
    if xs == [] then []
    else (if key(xs[0]) != id then [xs[0]] else []) + RemoveId(xs[1..], key, id)
  }

  /** a can be obtained from b by deleting elements (greedy matching). */
  ghost predicate IsSubsequence<T>(a: seq<T>, b: seq<T>)
    decreases |b|
  {
    a == [] || (b != [] && if a[0] == b[0] then IsSubsequence(a[1..], b[1..]) else IsSubsequence(a, b[1..]))
  }

  function CountId<T>(xs: seq<T>, key: T -> string, id: string): nat
  {
    if xs == [] then 0 else (if key(xs[0]) == id then 1 else 0) + CountId(xs[1..], key, id)
  }

  /** Deleting by id keeps every other record, each as often as before and
      in the original order, and drops exactly the records with that id. */
  lemma RemoveIdFacts<T(!new)>(xs: seq<T>, key: T -> string, id: string)
    ensures IsSubsequence(RemoveId(xs, key, id), xs)
    ensures forall x :: multiset(RemoveId(xs, key, id))[x] == if key(x) != id then multiset(xs)[x] else 0
    ensures |RemoveId(xs, key, id)| == |xs| - CountId(xs, key, id)
  {
    RemoveIdKeepsOrder(xs, key, id);
    forall x
      ensures multiset(RemoveId(xs, key, id))[x] == if key(x) != id then multiset(xs)[x] else 0
    {
      RemoveIdMultiplicity(xs, key, id, x);
    }
    RemoveIdLength(xs, key, id);
  }

  lemma {:induction false} RemoveIdKeepsOrder<T(!new)>(xs: seq<T>, key: T -> string, id: string)
    ensures IsSubsequence(RemoveId(xs, key, id), xs)
  {
    if xs != [] {
      var r := RemoveId(xs, key, id);
      var r' := RemoveId(xs[1..], key, id);
      RemoveIdKeepsOrder(xs[1..], key, id);
      if key(xs[0]) != id {
        assert r == [xs[0]] + r';
        assert r[1..] == r';
      } else {
        assert r == r';
        if r' != [] {
          assert r'[0] in r';
        }
      }
    }
  }

  lemma {:induction false} RemoveIdMultiplicity<T(!new)>(xs: seq<T>, key: T -> string, id: string, x: T)
    ensures multiset(RemoveId(xs, key, id))[x] == if key(x) != id then multiset(xs)[x] else 0
  {
    if xs != [] {
      RemoveIdMultiplicity(xs[1..], key, id, x);
      assert xs == [xs[0]] + xs[1..];
      assert multiset(xs) == multiset([xs[0]]) + multiset(xs[1..]);
    }
  }

  lemma {:induction false} RemoveIdLength<T(!new)>(xs: seq<T>, key: T -> string, id: string)
    ensures |RemoveId(xs, key, id)| == |xs| - CountId(xs, key, id)
  {
    if xs != [] {
      RemoveIdLength(xs[1..], key, id);
    }
  }

  // ---------------------------------------------------------------------
  // Totals (updateSummary) and goal progress (computeGoalProgress).

  /** The sum of the amounts of the movements of the given kind. */
  function KindTotal(ms: seq<Movement>, tipo: string): real
  {
    if ms == [] then 0.0
    else (if ms[0].tipo == tipo then ms[0].monto else 0.0) + KindTotal(ms[1..], tipo)
  }

  datatype Summary = Summary(ingresos: real, egresos: real, balance: real)

  function SummaryOf(ms: seq<Movement>): Summary
  {
    var ingresos := KindTotal(ms, Ingreso);
    var egresos := KindTotal(ms, Egreso);
    Summary(ingresos, egresos, ingresos - egresos)
  }

  /** The amount a movement adds to the balance. */
  function Signed(m: Movement): real
  {
    if m.tipo == Ingreso then m.monto else if m.tipo == Egreso then -m.monto else 0.0
  }

  /** The displayed balance is the sum of the signed amounts: income counts
      up, expenses count down, other kinds not at all. */
  lemma {:induction false} BalanceIsSignedSum(ms: seq<Movement>)
    ensures SummaryOf(ms).balance == SignedTotal(ms)
  {
    if ms != [] {
      BalanceIsSignedSum(ms[1..]);
    }
  }

  function SignedTotal(ms: seq<Movement>): real
  {
    if ms == [] then 0.0 else Signed(ms[0]) + SignedTotal(ms[1..])
  }

  /** computeGoalProgress: income total over the target, where a target of
      0 counts as 1, capped at 1. */
  function GoalProgress(g: Goal, ms: seq<Movement>): real
  {
    MinReal(1.0, KindTotal(ms, Ingreso) / (if g.target == 0.0 then 1.0 else g.target))
  }

  /** Progress never exceeds 1; for a positive target it is 1 exactly when
      the income reaches the target, and it is never negative when the
      income is not; a zero target is read as 1. */
  lemma GoalProgressFacts(g: Goal, ms: seq<Movement>)
    ensures GoalProgress(g, ms) <= 1.0
    ensures g.target > 0.0 ==> (GoalProgress(g, ms) == 1.0 <==> KindTotal(ms, Ingreso) >= g.target)
    ensures g.target > 0.0 && KindTotal(ms, Ingreso) >= 0.0 ==> GoalProgress(g, ms) >= 0.0
    ensures g.target == 0.0 ==> GoalProgress(g, ms) == MinReal(1.0, KindTotal(ms, Ingreso))
  {
    var inc := KindTotal(ms, Ingreso);
    if g.target > 0.0 {
      assert inc / g.target >= 1.0 <==> inc >= g.target by {
        assert inc == (inc / g.target) * g.target;
      }
    }
  }

  /** Only income is summed: a movement of any other kind leaves every
      goal's progress unchanged, and an income movement adds its amount. */
  lemma GoalProgressCountsIncomeOnly(g: Goal, m: Movement, ms: seq<Movement>)
    ensures m.tipo != Ingreso ==> GoalProgress(g, [m] + ms) == GoalProgress(g, ms)
    ensures KindTotal([m] + ms, Ingreso) == KindTotal(ms, Ingreso) + (if m.tipo == Ingreso then m.monto else 0.0)
  {
    assert ([m] + ms)[1..] == ms;
  }

  // ---------------------------------------------------------------------
  // The dashboard state.

  class Dashboard {
    var movimientos: seq<Movement>
    var metas: seq<Goal>
    var xp: int
    var coins: int

    /** The state as loaded from the profile and the stored lists. */
    constructor(movimientos0: seq<Movement>, metas0: seq<Goal>, xp0: int, coins0: int)
      ensures movimientos == movimientos0 && metas == metas0 && xp == xp0 && coins == coins0
    {
      movimientos, metas, xp, coins := movimientos0, metas0, xp0, coins0;
    }

    function Totals(): Summary
      reads this
    {
      SummaryOf(movimientos)
    }

    /** The quick-add button. `monto` is the amount field read as a number
        (blank or unreadable reads as 0); `newId` and `now` stand for uid()
        and the current ISO date. */
    method QuickAdd(monto: real, tipo: string, categoria: string, newId: string, now: string)
      returns (added: bool)
      modifies this
      ensures added <==> monto != 0.0
      ensures !added ==> movimientos == old(movimientos) && xp == old(xp) && coins == old(coins)
      ensures added ==> movimientos == [Movement(newId, tipo, monto, now, QuickCategory(tipo, categoria), "Registro r\U{00E1}pido")] + old(movimientos)
      ensures added ==> xp == old(xp) + XpReward(monto) && coins == old(coins) + CoinReward(monto)
      ensures added ==> old(xp) <= xp <= old(xp) + 10 && old(coins) <= coins <= old(coins) + 5
      ensures added ==> Totals().balance == old(Totals()).balance + Signed(movimientos[0])
      ensures metas == old(metas)
    {
      if monto == 0.0 {
        return false;
      }
      var mv := Movement(newId, tipo, monto, now, QuickCategory(tipo, categoria), "Registro r\U{00E1}pido");
      BalanceIsSignedSum(movimientos);
      movimientos := [mv] + movimientos;
      assert movimientos[1..] == old(movimientos);
      BalanceIsSignedSum(movimientos);
      xp := xp + XpReward(monto);
      coins := coins + CoinReward(monto);
      added := true;
    }

    /** The add-goal button: the trimmed title must be non-blank and the
        target positive; the type defaults to 'ahorro'. */
    method AddGoal(title: string, target: real, tipo: string, newId: string, now: string)
      returns (added: bool)
      modifies this
      ensures added <==> Trim(title) != "" && target > 0.0
      ensures added ==> metas == old(metas) + [Goal(newId, Trim(title), if tipo != "" then tipo else "ahorro", target, now)]
      ensures !added ==> metas == old(metas)
      ensures movimientos == old(movimientos) && xp == old(xp) && coins == old(coins)
    {
      var titulo := Trim(title);
      if titulo == "" || target <= 0.0 {
        return false;
      }
      metas := metas + [Goal(newId, titulo, if tipo != "" then tipo else "ahorro", target, now)];
      added := true;
    }

    /** A movement's delete button. */
    method DeleteMovement(id: string)
      modifies this
      ensures movimientos == RemoveId(old(movimientos), MovementId, id)
      ensures forall m :: m in movimientos ==> m.id != id
      ensures metas == old(metas) && xp == old(xp) && coins == old(coins)
    {
      movimientos := RemoveId(movimientos, MovementId, id);
    }

    /** A goal's delete button. */
    method DeleteGoal(id: string)
      modifies this
      ensures metas == RemoveId(old(metas), GoalId, id)
      ensures forall g :: g in metas ==> g.id != id
      ensures movimientos == old(movimientos) && xp == old(xp) && coins == old(coins)
    {
      metas := RemoveId(metas, GoalId, id);
    }
  }
}

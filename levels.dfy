/** The level ladder of the home page (firebase-config.js): twelve lessons
    that are locked, unlocked or completed, the profile's XP and coins, the
    header's XP bar and badge, the mentor's advice, and the buttons that
    complete a level, run the demo, unlock everything, reset progress and
    open the first lesson. */
module Levels {
  import opened Builtins

  const TotalLevels: nat := 12

  datatype Status = Locked | Unlocked | Completed

  datatype Level = Level(id: int, status: Status, bestScore: int, tries: int)

  /** What initLevels writes: ids 1..TotalLevels, only the first unlocked,
      no score and no tries. */
  ghost predicate IsFreshLadder(levels: seq<Level>)
  {
    && |levels| == TotalLevels
    && forall i :: 0 <= i < |levels| ==> levels[i] == Level(i + 1, if i == 0 then Unlocked else Locked, 0, 0)
  }

  /** initLevels: the loop that builds the fresh ladder. */
  method InitLevels() returns (levels: seq<Level>)
    ensures IsFreshLadder(levels)
  {
    levels := [];
    var i := 1;
    while i <= TotalLevels
      invariant 1 <= i <= TotalLevels + 1
      invariant |levels| == i - 1
      invariant forall j :: 0 <= j < |levels| ==> levels[j] == Level(j + 1, if j == 0 then Unlocked else Locked, 0, 0)
    {
      levels := levels + [Level(i, if i == 1 then Unlocked else Locked, 0, 0)];
      i := i + 1;
    }
  }

  /** The shape every reachable ladder has: the first level is open, and no
      locked level comes before an open one. */
  ghost predicate IsLadder(levels: seq<Level>)
  {
    && (|levels| > 0 ==> levels[0].status != Locked)
    && forall i, j :: 0 <= i < j < |levels| && levels[j].status != Locked ==> levels[i].status != Locked
  }

  lemma FreshIsLadder(levels: seq<Level>)
    requires IsFreshLadder(levels)
    ensures IsLadder(levels)
  {
  }

  // ---------------------------------------------------------------------
  // completeLevel.

  /** levels.findIndex(l => l.id === id), with |levels| for -1. */
  function FindIndex(levels: seq<Level>, id: int): (i: nat)
    ensures i <= |levels|
    ensures forall j :: 0 <= j < i ==> levels[j].id != id
    ensures i < |levels| ==> levels[i].id == id
  {
    if levels == [] then 0
    else if levels[0].id == id then 0
    else 1 + FindIndex(levels[1..], id)
  }

  /** Unlocks a locked level, leaves any other as it is. */
  function Open(l: Level): (r: Level)
    ensures r.status != Locked
    ensures r.id == l.id && r.bestScore == l.bestScore && r.tries == l.tries
    ensures l.status != Locked ==> r == l
  {
    if l.status == Locked then l.(status := Unlocked) else l
  }

  /** The ladder after completing the level at idx with a drawn score: that
      level completed, its best score raised to the draw, one more try, and
      the next level opened if it was locked. */
  function CompleteAt(levels: seq<Level>, idx: nat, draw: int): (r: seq<Level>)
    requires idx < |levels|
    ensures |r| == |levels|
    ensures r[idx].id == levels[idx].id && r[idx].status == Completed
    ensures r[idx].bestScore >= levels[idx].bestScore && r[idx].bestScore >= draw
    ensures r[idx].bestScore == levels[idx].bestScore || r[idx].bestScore == draw
    ensures r[idx].tries == levels[idx].tries + 1
    ensures idx + 1 < |levels| ==> r[idx + 1] == Open(levels[idx + 1])
    ensures forall j :: 0 <= j < |levels| && j != idx && j != idx + 1 ==> r[j] == levels[j]
  {
    var l := levels[idx];
    var done := Level(l.id, Completed, if l.bestScore < draw then draw else l.bestScore, l.tries + 1);
    var r := levels[idx := done];
    if idx + 1 < |r| then r[idx + 1 := Open(r[idx + 1])] else r
  }

  /** Completing an open level keeps the ladder shape. (The page only offers
      "complete" for levels that are not locked.) */
  lemma CompleteKeepsLadder(levels: seq<Level>, idx: nat, draw: int)
    requires IsLadder(levels) && idx < |levels| && levels[idx].status != Locked
    ensures IsLadder(CompleteAt(levels, idx, draw))
  {
    var r := CompleteAt(levels, idx, draw);
    forall i, j | 0 <= i < j < |r| && r[j].status != Locked
      ensures r[i].status != Locked
    {
      if j > idx + 1 {
        assert levels[j].status != Locked;
      }
    }
  }

  // ---------------------------------------------------------------------
  // The demo button: one pass over the first three levels.

  /** Step i of the demo: an unlocked level i is completed, then a locked
      level i + 1 is unlocked. */
  function SimStep(levels: seq<Level>, i: nat): (r: seq<Level>)
    requires i < |levels|
    ensures |r| == |levels|
  {
    var r := if levels[i].status == Unlocked then levels[i := levels[i].(status := Completed)] else levels;
    if i + 1 < |r| then r[i + 1 := Open(r[i + 1])] else r
  }

  /** The ladder after the demo's first k steps. */
  function SimulateUpTo(levels: seq<Level>, k: nat): (r: seq<Level>)
    requires k <= |levels|
    ensures |r| == |levels|
  {
    if k == 0 then levels else SimStep(SimulateUpTo(levels, k - 1), k - 1)
  }

  /** The demo only ever changes statuses, and never locks anything. */
  lemma {:induction false} SimulateOnlyOpens(levels: seq<Level>, k: nat)
    requires k <= |levels|
    ensures forall j :: 0 <= j < |levels| ==>
      && SimulateUpTo(levels, k)[j].id == levels[j].id
      && SimulateUpTo(levels, k)[j].bestScore == levels[j].bestScore
      && SimulateUpTo(levels, k)[j].tries == levels[j].tries
      && (levels[j].status != Locked ==> SimulateUpTo(levels, k)[j].status != Locked)
      && (j > k ==> SimulateUpTo(levels, k)[j] == levels[j])
  {
    if k > 0 {
      SimulateOnlyOpens(levels, k - 1);
    }
  }

  /** After k steps of the demo on a ladder, the first k + 1 levels are open
      and the first k completed, and the ladder shape is kept. */
  lemma {:induction false} SimulateKeepsLadder(levels: seq<Level>, k: nat)
    requires IsLadder(levels) && 0 < k <= |levels|
    ensures IsLadder(SimulateUpTo(levels, k))
    ensures forall j :: 0 <= j < k ==> SimulateUpTo(levels, k)[j].status == Completed
    ensures k < |levels| ==> SimulateUpTo(levels, k)[k].status != Locked
  {
    var r := SimulateUpTo(levels, k);
    var p := SimulateUpTo(levels, k - 1);
    SimulateOnlyOpens(levels, k - 1);
    if k > 1 {
      SimulateKeepsLadder(levels, k - 1);
    } else {
      assert p == levels;
    }
    assert p[k - 1].status != Locked;
    forall i, j | 0 <= i < j < |r| && r[j].status != Locked
      ensures r[i].status != Locked
    {
      if j > k {
        assert r[j] == p[j];
        assert p[i].status != Locked;
      }
    }
  }

  /** On the fresh ladder the demo leaves levels 1-3 completed, level 4
      unlocked and the rest locked. */
  lemma SimulateFresh(levels: seq<Level>)
    requires IsFreshLadder(levels)
    ensures forall j :: 0 <= j < |levels| ==>
      SimulateUpTo(levels, 3)[j].status == (if j < 3 then Completed else if j == 3 then Unlocked else Locked)
  {
    FreshIsLadder(levels);
    SimulateKeepsLadder(levels, 3);
    SimulateOnlyOpens(levels, 3);
    SimulateOnlyOpens(levels, 2);
    assert SimulateUpTo(levels, 2)[3] == levels[3];
  }

  // ---------------------------------------------------------------------
  // The header and the mentor.

  /** The next XP target shown in the header. */
  function NextTarget(xp: int): (t: int)
    ensures t == 100 || t == 350 || t == 800 || t == 1500
    ensures xp < 800 ==> xp < t
    ensures xp >= 800 ==> t == 1500
  {
    if xp < 100 then 100 else if xp < 350 then 350 else if xp < 800 then 800 else 1500
  }

  /** The level badge. */
  function Badge(xp: int): string
  {
    if xp < 100 then "Novato" else if xp < 350 then "Aprendiz" else if xp < 800 then "Estratega" else "Maestro"
  }

  /** The badge and the target move together: each badge belongs to exactly
      one target, and both only go up with XP. */
  lemma BandsAgree(xp: int, more: int)
    requires xp <= more
    ensures Badge(xp) == "Novato" <==> NextTarget(xp) == 100
    ensures Badge(xp) == "Aprendiz" <==> NextTarget(xp) == 350
    ensures Badge(xp) == "Estratega" <==> NextTarget(xp) == 800
    ensures Badge(xp) == "Maestro" <==> NextTarget(xp) == 1500
    ensures NextTarget(xp) <= NextTarget(more)
  {
  }

  /** The width of the XP bar: xp / target as a rounded percentage, capped
      at 100. The bar is full exactly from 99.5% of the target on, which
      before the last band happens a few XP short of the target. */
  function XpBar(xp: int): (pct: int)
    ensures pct <= 100
    ensures xp >= 0 ==> pct >= 0
    ensures pct == 100 <==> 200 * xp >= 199 * NextTarget(xp)
  {
    var next := NextTarget(xp);
    var x := xp as real / next as real * 100.0;
    FullBar(xp, next);
    MinInt(100, Round(x))
  }

  lemma FullBar(xp: int, next: int)
    requires next > 0
    ensures Round(xp as real / next as real * 100.0) >= 100 <==> 200 * xp >= 199 * next
    ensures xp >= 0 ==> Round(xp as real / next as real * 100.0) >= 0
  {
    var q := xp as real / next as real;
    assert q * next as real == xp as real;
    var x := q * 100.0;
    assert x >= 99.5 <==> 200 * xp >= 199 * next by {
      assert x >= 99.5 <==> q >= 0.995;
      assert q >= 0.995 <==> xp as real >= 0.995 * next as real by {
        MulMonotone(q, 0.995, next as real);
      }
    }
    if xp >= 0 {
      assert q >= 0.0;
    }
  }

  lemma MulMonotone(a: real, b: real, n: real)
    requires n > 0.0
    ensures a >= b <==> a * n >= b * n
  {
    if a >= b {
      assert (a - b) * n >= 0.0;
    } else {
      assert (b - a) * n > 0.0;
    }
  }

  /** The mentor's comment, by XP. */
  datatype Advice = StartLessonOne | KeepCompletingShortLessons | KeepTheStreak | OpenInvestmentSimulator

  function MentorAdvice(xp: int): Advice
  {
    if xp >= 350 then OpenInvestmentSimulator
    else if xp >= 100 then KeepTheStreak
    else if xp > 0 then KeepCompletingShortLessons
    else StartLessonOne
  }

  function AdviceTier(a: Advice): nat
  {
    match a
    case StartLessonOne => 0
    case KeepCompletingShortLessons => 1
    case KeepTheStreak => 2
    case OpenInvestmentSimulator => 3
  }

  /** More XP never gives earlier advice; the advice changes at the first
      two badge thresholds but not at the third, and a player with no XP is
      sent to lesson 1. */
  lemma AdviceFollowsXp(xp: int, more: int)
    requires xp <= more
    ensures AdviceTier(MentorAdvice(xp)) <= AdviceTier(MentorAdvice(more))
    ensures MentorAdvice(xp) == StartLessonOne <==> xp <= 0
    ensures Badge(xp) == "Novato" <==> AdviceTier(MentorAdvice(xp)) <= 1
    ensures Badge(xp) == "Aprendiz" <==> MentorAdvice(xp) == KeepTheStreak
    ensures Badge(xp) == "Estratega" || Badge(xp) == "Maestro" <==> MentorAdvice(xp) == OpenInvestmentSimulator
  {
  }

  /** The reset prompt accepts exactly the answers that spell CONFIRMAR
      letter by letter in either case. */
  lemma ResetAnswer(s: string)
    ensures ToUpper(s) == "CONFIRMAR" <==>
      |s| == 9 && forall i :: 0 <= i < 9 ==> s[i] == "CONFIRMAR"[i] || s[i] as int == "CONFIRMAR"[i] as int + 32
  {
    UpperMatches(s, "CONFIRMAR");
  }

  // ---------------------------------------------------------------------
  // The page state.

  class Ladder {
    var levels: seq<Level>
    var name: string
    var totalXP: int
    var coins: int

    /** readLevels: the stored ladder, or the fresh one when there is none. */
    constructor(stored: Option<seq<Level>>, name0: string, xp0: int, coins0: int)
      ensures stored.None? ==> IsFreshLadder(levels)
      ensures stored.Some? ==> levels == stored.value
      ensures name == name0 && totalXP == xp0 && coins == coins0
    {
      var ls := if stored.Some? then stored.value else [];
      if stored.None? {
        ls := InitLevels();
      }
      levels, name, totalXP, coins := ls, name0, xp0, coins0;
    }

    /** completeLevel: an unknown id changes nothing; otherwise the level is
        completed with the drawn score (Math.floor(Math.random() * 100),
        passed in as `draw`) and the profile gets 120 XP and 20 coins. */
    method CompleteLevel(id: int, draw: int) returns (found: bool)
      requires 0 <= draw < 100
      modifies this
      ensures found <==> exists j :: 0 <= j < |old(levels)| && old(levels)[j].id == id
      ensures !found ==> levels == old(levels) && totalXP == old(totalXP) && coins == old(coins)
      ensures found ==> levels == CompleteAt(old(levels), FindIndex(old(levels), id), draw)
      ensures found ==> totalXP == old(totalXP) + 120 && coins == old(coins) + 20
      ensures name == old(name)
    {
      var idx := FindIndex(levels, id);
      if idx == |levels| {
        return false;
      }
      levels := CompleteAt(levels, idx, draw);
      totalXP := totalXP + 120;
      coins := coins + 20;
      found := true;
    }

    /** The demo button: for the first min(3, n) levels, an unlocked level
        is completed and a locked successor unlocked; +300 XP, +50 coins. */
    method Simulate()
      modifies this
      ensures levels == SimulateUpTo(old(levels), MinInt(3, |old(levels)|))
      ensures totalXP == old(totalXP) + 300 && coins == old(coins) + 50 && name == old(name)
    {
      var n := MinInt(3, |levels|);
      for i := 0 to n
        invariant |levels| == |old(levels)|
        invariant levels == SimulateUpTo(old(levels), i)
        invariant totalXP == old(totalXP) && coins == old(coins) && name == old(name)
      {
        if levels[i].status == Unlocked {
          levels := levels[i := levels[i].(status := Completed)];
        }
        if i + 1 < |levels| && levels[i + 1].status == Locked {
          levels := levels[i + 1 := levels[i + 1].(status := Unlocked)];
        }
      }
      totalXP := totalXP + 300;
      coins := coins + 50;
    }

    /** The unlock-all button: once confirmed, every level is set to
        unlocked, completed ones included. */
    method UnlockAll(confirmed: bool)
      modifies this
      ensures !confirmed ==> levels == old(levels)
      ensures |levels| == |old(levels)|
      ensures confirmed ==> forall j :: 0 <= j < |levels| ==> levels[j] == old(levels)[j].(status := Unlocked)
      ensures totalXP == old(totalXP) && coins == old(coins) && name == old(name)
    {
      if !confirmed {
        return;
      }
      for i := 0 to |levels|
        invariant |levels| == |old(levels)|
        invariant forall j :: 0 <= j < i ==> levels[j] == old(levels)[j].(status := Unlocked)
        invariant forall j :: i <= j < |levels| ==> levels[j] == old(levels)[j]
        invariant totalXP == old(totalXP) && coins == old(coins) && name == old(name)
      {
        levels := levels[i := levels[i].(status := Unlocked)];
      }
    }

    /** The reset button: `answer` is what the prompt returned (None when
        cancelled). Only an answer whose upper-case form is CONFIRMAR
        restores the fresh ladder and the default profile. */
    method Reset(answer: Option<string>) returns (done: bool)
      modifies this
      ensures done <==> answer.Some? && ToUpper(answer.value) == "CONFIRMAR"
      ensures done ==> IsFreshLadder(levels) && name == "Explorador" && totalXP == 0 && coins == 0
      ensures !done ==> levels == old(levels) && name == old(name) && totalXP == old(totalXP) && coins == old(coins)
    {
      if answer.None? || answer.value == "" || ToUpper(answer.value) != "CONFIRMAR" {
        return false;
      }
      var ls := InitLevels();
      levels, name, totalXP, coins := ls, "Explorador", 0, 0;
      done := true;
    }

    /** The start-first-lesson button: a locked first level is unlocked
        before leaving the page. On an empty ladder the handler fails before
        changing anything. */
    method StartFirstLesson()
      modifies this
      ensures |levels| == |old(levels)|
      ensures |levels| > 0 ==> levels[0] == Open(old(levels)[0]) && levels[0].status != Locked
      ensures forall j :: 0 < j < |levels| ==> levels[j] == old(levels)[j]
      ensures IsLadder(old(levels)) ==> levels == old(levels)
      ensures totalXP == old(totalXP) && coins == old(coins) && name == old(name)
    {
      if |levels| > 0 && levels[0].status == Locked {
        levels := levels[0 := levels[0].(status := Unlocked)];
      }
    }
  }

  /** Unlocking everything gives a ladder, whatever it was before. */
  lemma UnlockAllIsLadder(levels: seq<Level>)
    requires forall j :: 0 <= j < |levels| ==> levels[j].status == Unlocked
    ensures IsLadder(levels)
  {
  }
}

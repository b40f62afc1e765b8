/** The learning map page (aprender.js): eight categories laid out as map
    nodes, a per-category progress record keyed by category id, the
    "complete section" simulation with its rewards, the quick challenge, the
    demo generator, the difficulty filter, the links drawn between nodes and
    the monthly XP bar. */
module Learn {
  import opened Builtins

  datatype Category = Category(id: string, title: string, color: string, difficulty: string)

  const Categories: seq<Category> := [
    Category("presupuesto", "Presupuesto", "#10B981", "beginner"),
    Category("ahorro", "Ahorro", "#F97316", "beginner"),
    Category("deuda", "Deuda", "#FB7185", "beginner"),
    Category("fondo_emergencia", "Fondo Emergencia", "#8B5CF6", "med"),
    Category("inversion", "Inversi\U{00F3}n", "#06B6D4", "med"),
    Category("seguros", "Seguros", "#F59E0B", "med"),
    Category("impuestos", "Impuestos", "#9333EA", "adv"),
    Category("retiro", "Retiro", "#0EA5A4", "adv")
  ]

  /** The category ids in map order (the id fields of Categories, see
      CategoryIdsDistinct). */
  const CategoryIds: seq<string> :=
    ["presupuesto", "ahorro", "deuda", "fondo_emergencia", "inversion", "seguros", "impuestos", "retiro"]

  /** One entry of the progress map. */
  datatype Progress = Progress(pct: int, completed: bool, unlocked: bool)

  predicate Distinct(xs: seq<string>)
  {
    forall i, j :: 0 <= i < j < |xs| ==> xs[i] != xs[j]
  }

  lemma CategoryIdsDistinct()
    ensures |CategoryIds| == |Categories| == 8 && Distinct(CategoryIds)
    ensures forall i :: 0 <= i < |Categories| ==> Categories[i].id == CategoryIds[i]
  {
  }

  /** The progress map written on first visit: the first category started
      (20%) and completed, the first two unlocked, the rest untouched; the
      keys are the category ids in map order. */
  ghost predicate IsFresh(order: seq<string>, progress: map<string, Progress>)
  {
    && order == CategoryIds
    && (forall k :: k in progress <==> k in order)
    && (forall i :: 0 <= i < |order| ==> order[i] in progress && progress[order[i]] == Progress(if i == 0 then 20 else 0, i == 0, i < 2))
  }

  /** The loop that seeds an empty progress map, one category at a time. */
  method FreshProgress() returns (order: seq<string>, progress: map<string, Progress>)
    ensures IsFresh(order, progress) && Distinct(order)
  {
    CategoryIdsDistinct();
    order, progress := [], map[];
    for i := 0 to |Categories|
      invariant order == CategoryIds[..i]
      invariant forall k :: k in progress <==> k in order
      invariant forall j :: 0 <= j < i ==> order[j] in progress && progress[order[j]] == Progress(if j == 0 then 20 else 0, j == 0, j < 2)
    {
      var id := CategoryIds[i];
      assert CategoryIds[..i + 1] == CategoryIds[..i] + [id];
      assert id !in order;
      progress := progress[id := Progress(if i == 0 then 20 else 0, i == 0, i < 2)];
      order := order + [id];
    }
    assert CategoryIds[..|Categories|] == CategoryIds;
  }

  // ---------------------------------------------------------------------
  // Progress steps.

  /** The entry simulateCompleteLevel starts from: the stored one, or a
      fresh unlocked one. */
  function EntryOr(progress: map<string, Progress>, id: string): Progress
  {
    if id in progress then progress[id] else Progress(0, false, true)
  }

  /** One "complete section": +40 points above 60%, +30 otherwise, capped at
      100; reaching 100 marks the entry completed. */
  function Advance(st: Progress): (r: Progress)
    ensures r.pct <= 100
    ensures st.pct <= 100 ==> st.pct <= r.pct
    ensures st.pct > 60 ==> r.pct == MinInt(100, st.pct + 40)
    ensures st.pct <= 60 ==> r.pct == MinInt(100, st.pct + 30)
    ensures r.completed <==> st.completed || r.pct == 100
    ensures r.unlocked == st.unlocked
  {
    var pct := MinInt(100, st.pct + (if st.pct > 60 then 40 else 30));
    st.(pct := pct, completed := st.completed || pct >= 100)
  }

  /** Four "complete section" clicks finish any entry whose percentage is
      not negative, and a fresh entry needs all four. */
  lemma AdvanceCompletesInFour(st: Progress)
    requires st.pct >= 0
    ensures Advance(Advance(Advance(Advance(st)))).completed
    ensures Advance(Advance(Advance(Advance(st)))).pct == 100
    ensures st.pct == 0 && !st.completed ==> !Advance(Advance(Advance(st))).completed
  {
  }

  /** The quick challenge's step: +25 points capped at 100. */
  function Bump(st: Progress): (r: Progress)
    ensures r.pct <= 100
    ensures st.pct <= 100 ==> st.pct <= r.pct
    ensures r.pct == MinInt(100, st.pct + 25)
    ensures r.completed <==> st.completed || r.pct == 100
    ensures r.unlocked == st.unlocked
  {
    var pct := MinInt(100, st.pct + 25);
    st.(pct := pct, completed := st.completed || pct >= 100)
  }

  /** Object.keys(progressState).find(k => progressState[k].unlocked): the
      position of the first unlocked key in insertion order, or |order|
      when there is none. */
  function FirstUnlocked(order: seq<string>, progress: map<string, Progress>): (i: nat)
    requires forall k :: k in order ==> k in progress
    ensures i <= |order|
    ensures forall j :: 0 <= j < i ==> !progress[order[j]].unlocked
    ensures i < |order| ==> progress[order[i]].unlocked
  {
    if order == [] then 0
    else if progress[order[0]].unlocked then 0
    else 1 + FirstUnlocked(order[1..], progress)
  }

  /** Adds a key at the end of the insertion order unless already present. */
  function Insert(order: seq<string>, k: string): (r: seq<string>)
    ensures k in r && forall x :: x in r <==> x in order || x == k
    ensures Distinct(order) ==> Distinct(r)
    ensures r == order || r == order + [k]
  {
    if k in order then order else order + [k]
  }

  /** The insertion order after assigning the keys ks one after another. */
  function InsertAll(order: seq<string>, ks: seq<string>): (r: seq<string>)
    ensures forall x :: x in r <==> x in order || x in ks
    ensures |order| <= |r| && r[..|order|] == order
  {
    if ks == [] then order else Insert(InsertAll(order, ks[..|ks| - 1]), ks[|ks| - 1])
  }

  /** Lines of the monthly bar: (totalXP % 800) / 8 capped at 100. The
      remainder follows the sign of the XP, as JavaScript's % does. */
  function MonthlyBar(totalXP: int): (r: real)
    ensures totalXP >= 0 ==> 0.0 <= r < 100.0
    ensures totalXP < 0 ==> -100.0 < r <= 0.0
  {
    MinReal(100.0, JsRem(totalXP, 800) as real / 8.0)
  }

  /** The bar starts over every 800 XP, and within a cycle every 8 XP add one
      percentage point. */
  lemma MonthlyBarCycle(xp: int, k: int)
    requires xp >= 0 && 0 <= k && (xp % 800) + k < 800
    ensures MonthlyBar(xp + 800) == MonthlyBar(xp)
    ensures MonthlyBar(xp + k) == MonthlyBar(xp) + k as real / 8.0
  {
    assert (xp + 800) % 800 == xp % 800;
    assert (xp + k) % 800 == xp % 800 + k;
  }

  // ---------------------------------------------------------------------
  // The map: which nodes buildMap places and the links between them.

  predicate Shown(filter: string, k: nat)
    requires k < |Categories|
  {
    filter == "all" || Categories[k].difficulty == filter
  }

  /** The category indices buildMap places from index k on, in order. */
  function PlacedFrom(filter: string, k: nat): (r: seq<nat>)
    requires k <= |Categories|
    ensures forall m :: m in r <==> k <= m < |Categories| && Shown(filter, m)
    ensures forall j :: 0 <= j < |r| ==> k <= r[j] < |Categories|
    ensures forall a, b :: 0 <= a < b < |r| ==> r[a] < r[b]
    decreases |Categories| - k
  {
    if k == |Categories| then []
    else if Shown(filter, k) then [k] + PlacedFrom(filter, k + 1)
    else PlacedFrom(filter, k + 1)
  }

  function Placed(filter: string): (r: seq<nat>)
    ensures forall m: nat :: m in r <==> m < |Categories| && Shown(filter, m)
    ensures forall j :: 0 <= j < |r| ==> r[j] < |Categories|
    ensures forall a, b :: 0 <= a < b < |r| ==> r[a] < r[b]
  {
    PlacedFrom(filter, 0)
  }

  lemma {:induction false} PlacedFromAll(k: nat)
    requires k <= |Categories|
    ensures PlacedFrom("all", k) == seq(|Categories| - k, j => k + j)
    decreases |Categories| - k
  {
    if k < |Categories| {
      PlacedFromAll(k + 1);
      RangeCons(k, |Categories|);
    }
  }

  lemma RangeCons(k: nat, n: nat)
    requires k < n
    ensures seq(n - k, j => k + j) == [k] + seq(n - (k + 1), j => k + 1 + j)
  {
  }

  /** 'all' places every category, in map order. */
  lemma PlacedAll()
    ensures Placed("all") == seq(|Categories|, j => j)
  {
    PlacedFromAll(0);
  }

  /** The three levels of difficulty split the eight categories 3 + 3 + 2,
      in map order. */
  lemma PlacedBeginner()
    ensures Placed("beginner") == [0, 1, 2]
  {
    assert PlacedFrom("beginner", 6) == [];
    assert PlacedFrom("beginner", 3) == [];
  }

  lemma PlacedMed()
    ensures Placed("med") == [3, 4, 5]
  {
    assert PlacedFrom("med", 6) == [];
    assert PlacedFrom("med", 3) == [3, 4, 5];
  }

  lemma PlacedAdv()
    ensures Placed("adv") == [6, 7]
  {
    assert PlacedFrom("adv", 6) == [6, 7];
    assert PlacedFrom("adv", 3) == [6, 7];
  }

  /** A filter value other than 'all' and the three levels of difficulty
      places no node at all. */
  lemma PlacedOther(other: string)
    requires other != "all" && other != "beginner" && other != "med" && other != "adv"
    ensures Placed(other) == []
  {
    forall m: nat | m < |Categories|
      ensures !Shown(other, m)
    {
    }
  }

  /** A placed node: locked unless its entry exists and is unlocked,
      completed only when its entry exists and says so. */
  datatype Node = Node(index: nat, locked: bool, completed: bool)

  function NodeAt(k: nat, progress: map<string, Progress>): (n: Node)
    requires k < |Categories|
    ensures n.index == k
    ensures n.locked <==> Categories[k].id !in progress || !progress[Categories[k].id].unlocked
    ensures n.completed <==> Categories[k].id in progress && progress[Categories[k].id].completed
  {
    var st := if Categories[k].id in progress then progress[Categories[k].id] else Progress(0, false, false);
    Node(k, !st.unlocked, st.completed)
  }

  /** buildMap: one node per category the filter shows, in category order;
      a node is locked unless its entry exists and is unlocked, and
      completed only when its entry says so. */
  function MapNodes(filter: string, progress: map<string, Progress>): (r: seq<Node>)
    ensures forall j :: 0 <= j < |r| ==> r[j].index < |Categories| && Shown(filter, r[j].index)
    ensures forall m: nat :: m < |Categories| && Shown(filter, m) ==> exists j :: 0 <= j < |r| && r[j].index == m
    ensures forall a, b :: 0 <= a < b < |r| ==> r[a].index < r[b].index
    ensures forall j :: 0 <= j < |r| ==>
      var id := Categories[r[j].index].id;
      (r[j].locked <==> id !in progress || !progress[id].unlocked)
      && (r[j].completed <==> id in progress && progress[id].completed)
  {
    var p := Placed(filter);
    var r := seq(|p|, j requires 0 <= j < |p| => NodeAt(p[j], progress));
    NodesCover(filter, p, r);
    r
  }

  /** Nodes built position by position from the placed indices cover
      exactly the shown categories. */
  lemma NodesCover(filter: string, p: seq<nat>, r: seq<Node>)
    requires p == Placed(filter) && |r| == |p|
    requires forall j :: 0 <= j < |r| ==> r[j].index == p[j]
    ensures forall m: nat :: m < |Categories| && Shown(filter, m) ==> exists j :: 0 <= j < |r| && r[j].index == m
  {
    forall m: nat | m < |Categories| && Shown(filter, m)
      ensures exists j :: 0 <= j < |r| && r[j].index == m
    {
      var j := IndexIn(p, m);
      assert r[j].index == m;
    }
  }

  /** A position of m in p. */
  function IndexIn(p: seq<nat>, m: nat): (j: nat)
    requires m in p
    ensures j < |p| && p[j] == m
  {
    if p[0] == m then 0 else 1 + IndexIn(p[1..], m)
  }

  /** drawConnections over n placed nodes (positions in placement order):
      each node linked to the next, plus 1-4 when there are at least five
      nodes and 2-6 when there are at least seven. */
  method Connections(n: nat) returns (links: seq<(nat, nat)>)
    ensures |links| == (if n == 0 then 0 else n - 1) + (if n >= 5 then 1 else 0) + (if n >= 7 then 1 else 0)
    ensures forall i :: 0 <= i < |links| ==> links[i].0 < links[i].1 < n
    ensures forall i :: 0 <= i < n - 1 ==> links[i] == (i, i + 1)
    ensures n >= 5 ==> (1, 4) in links
    ensures n >= 7 ==> (2, 6) in links
  {
    links := [];
    if n == 0 {
      return;
    }
    var i := 0;
    while i < n - 1
      invariant 0 <= i <= n - 1
      invariant |links| == i
      invariant forall j :: 0 <= j < i ==> links[j] == (j, j + 1)
    {
      links := links + [(i, i + 1)];
      i := i + 1;
    }
    if n >= 5 {
      links := links + [(1, 4)];
    }
    if n >= 7 {
      links := links + [(2, 6)];
    }
  }

  // ---------------------------------------------------------------------
  // The page state.

  class LearnMap {
    /** The keys of the progress map in insertion order. */
    var order: seq<string>
    var progress: map<string, Progress>
    var totalXP: int
    var coins: int
    var stars: int

    ghost predicate Valid()
      reads this
    {
      (forall k :: k in progress <==> k in order) && Distinct(order)
    }

    /** Loads the stored map, keys in insertion order; an empty (or absent)
        one is replaced by the fresh map. */
    constructor(storedOrder: seq<string>, stored: map<string, Progress>, xp0: int, coins0: int, stars0: int)
      requires (forall k :: k in stored <==> k in storedOrder) && Distinct(storedOrder)
      ensures Valid()
      ensures storedOrder == [] ==> IsFresh(order, progress)
      ensures storedOrder != [] ==> order == storedOrder && progress == stored
      ensures totalXP == xp0 && coins == coins0 && stars == stars0
    {
      if storedOrder == [] {
        var o, p := FreshProgress();
        order, progress := o, p;
      } else {
        order, progress := storedOrder, stored;
      }
      totalXP, coins, stars := xp0, coins0, stars0;
    }

    /** simulateCompleteLevel: advances the entry (creating it unlocked if
        missing), pays 25 coins and 75 XP, and a star whenever the entry is
        completed afterwards. */
    method CompleteSection(id: string)
      requires Valid()
      modifies this
      ensures Valid()
      ensures progress == old(progress)[id := Advance(EntryOr(old(progress), id))]
      ensures order == Insert(old(order), id)
      ensures coins == old(coins) + 25 && totalXP == old(totalXP) + 75
      ensures stars == old(stars) + (if progress[id].completed then 1 else 0)
    {
      var st := Advance(EntryOr(progress, id));
      progress := progress[id := st];
      order := Insert(order, id);
      coins := coins + 25;
      totalXP := totalXP + 75;
      if st.completed {
        stars := stars + 1;
      }
    }

    /** The quick action: bumps the first unlocked entry by 25 points, or
        changes nothing when no entry is unlocked. The found key is tested
        for truthiness, so a first unlocked key "" also changes nothing. */
    method QuickChallenge() returns (found: bool)
      requires Valid()
      modifies this
      ensures order == old(order) && totalXP == old(totalXP) && coins == old(coins) && stars == old(stars)
      ensures Valid()
      ensures found <==> FirstUnlocked(order, old(progress)) < |order| && order[FirstUnlocked(order, old(progress))] != ""
      ensures found ==> progress == old(progress)[order[FirstUnlocked(order, old(progress))] := Bump(old(progress)[order[FirstUnlocked(order, old(progress))]])]
      ensures !found ==> progress == old(progress)
    {
      var i := FirstUnlocked(order, progress);
      if i == |order| || order[i] == "" {
        return false;
      }
      var k := order[i];
      progress := progress[k := Bump(progress[k])];
      found := true;
    }

    /** progressState[id] = st: replaces the entry, or adds it at the end of
        the key order when the id is new. */
    method SetEntry(id: string, st: Progress)
      requires Valid()
      modifies this
      ensures Valid()
      ensures progress == old(progress)[id := st] && order == Insert(old(order), id)
      ensures totalXP == old(totalXP) && coins == old(coins) && stars == old(stars)
    {
      progress := progress[id := st];
      order := Insert(order, id);
    }

    /** The demo button: once confirmed, the loop gives every category
        the drawn entry (see DemoFacts); nothing else changes. `draws`
        stands for the random draws. */
    method Demo(confirmed: bool, draws: seq<(int, bool)>)
      requires Valid()
      requires |draws| == |Categories|
      requires forall i :: 0 <= i < |draws| ==> 0 <= draws[i].0 < 100
      modifies this
      ensures Valid()
      ensures !confirmed ==> progress == old(progress) && order == old(order)
      ensures confirmed ==> progress == DemoFill(old(progress), CategoryIds, draws, |CategoryIds|)
      ensures confirmed ==> order == InsertAll(old(order), CategoryIds)
      ensures totalXP == old(totalXP) && coins == old(coins) && stars == old(stars)
    {
      if !confirmed {
        return;
      }
      CategoryIdsDistinct();
      for i := 0 to |CategoryIds|
        invariant Valid()
        invariant progress == DemoFill(old(progress), CategoryIds, draws, i)
        invariant order == InsertAll(old(order), CategoryIds[..i])
        invariant totalXP == old(totalXP) && coins == old(coins) && stars == old(stars)
      {
        DemoStep(old(order), i);
        SetEntry(CategoryIds[i], DemoEntry(draws, i));
      }
      assert CategoryIds[..|CategoryIds|] == CategoryIds;
    }
  }

  /** The entry the demo writes for category i. */
  function DemoEntry(draws: seq<(int, bool)>, i: nat): Progress
    requires i < |draws|
  {
    Progress(draws[i].0, draws[i].1, true)
  }

  /** The progress map after the demo has written the entries of the first
      n ids. */
  function DemoFill(p: map<string, Progress>, ids: seq<string>, draws: seq<(int, bool)>, n: nat): map<string, Progress>
    requires n <= |draws| && n <= |ids|
  {
    if n == 0 then p else DemoFill(p, ids, draws, n - 1)[ids[n - 1] := DemoEntry(draws, n - 1)]
  }

  /** After the demo's first n writes over distinct ids: those ids hold
      their drawn entry, unlocked, and every other key keeps its old entry;
      no key is dropped. */
  lemma {:induction false} DemoFillFacts(p: map<string, Progress>, ids: seq<string>, draws: seq<(int, bool)>, n: nat)
    requires n <= |draws| && n <= |ids| && Distinct(ids)
    ensures forall k :: k in DemoFill(p, ids, draws, n) <==> k in p || k in ids[..n]
    ensures forall i :: 0 <= i < n ==> ids[i] in DemoFill(p, ids, draws, n) && DemoFill(p, ids, draws, n)[ids[i]] == DemoEntry(draws, i)
    ensures forall k :: k in p && k !in ids[..n] ==> DemoFill(p, ids, draws, n)[k] == p[k]
  {
    if n > 0 {
      DemoFillFacts(p, ids, draws, n - 1);
      assert ids[..n] == ids[..n - 1] + [ids[n - 1]];
    }
  }

  /** What the confirmed demo leaves: every category unlocked with its drawn
      percentage and flag, every other key untouched, no key dropped. */
  lemma DemoFacts(p: map<string, Progress>, draws: seq<(int, bool)>)
    requires |draws| == |Categories|
    ensures forall i :: 0 <= i < |CategoryIds| ==>
      && CategoryIds[i] in DemoFill(p, CategoryIds, draws, |CategoryIds|)
      && DemoFill(p, CategoryIds, draws, |CategoryIds|)[CategoryIds[i]] == Progress(draws[i].0, draws[i].1, true)
    ensures forall k :: k in DemoFill(p, CategoryIds, draws, |CategoryIds|) <==> k in p || k in CategoryIds
    ensures forall k :: k in p && k !in CategoryIds ==> DemoFill(p, CategoryIds, draws, |CategoryIds|)[k] == p[k]
  {
    CategoryIdsDistinct();
    DemoFillFacts(p, CategoryIds, draws, |CategoryIds|);
    assert CategoryIds[..|CategoryIds|] == CategoryIds;
  }

  lemma DemoStep(order: seq<string>, i: nat)
    requires i < |CategoryIds|
    ensures CategoryIds[..i + 1] == CategoryIds[..i] + [CategoryIds[i]]
    ensures InsertAll(order, CategoryIds[..i + 1]) == Insert(InsertAll(order, CategoryIds[..i]), CategoryIds[i])
    ensures forall k :: k in CategoryIds[..i + 1] <==> k in CategoryIds[..i] || k == CategoryIds[i]
  {
    assert CategoryIds[..i + 1][..i] == CategoryIds[..i];
  }

  /** On a fresh map the quick challenge works on the first category, which
      is already completed, and the first locked category is the third. */
  lemma FreshQuickTarget(order: seq<string>, progress: map<string, Progress>)
    requires IsFresh(order, progress)
    ensures FirstUnlocked(order, progress) == 0 && order[0] != ""
    ensures Bump(progress[order[0]]) == Progress(45, true, true)
    ensures forall i :: 0 <= i < |order| ==> (progress[order[i]].unlocked <==> i < 2)
  {
    CategoryIdsDistinct();
  }

  /** A completed entry stays completed and an unlocked one stays unlocked
      under both steps, and neither step takes a percentage of at most 100
      backwards. */
  lemma StepsKeepAchievements(st: Progress)
    ensures st.completed ==> Advance(st).completed && Bump(st).completed
    ensures st.unlocked ==> Advance(st).unlocked && Bump(st).unlocked
    ensures st.pct <= 100 ==> st.pct <= Advance(st).pct && st.pct <= Bump(st).pct
  {
  }
}

/**
  The "Producer simulator": three production stages (pre-production, shoot,
  post-production), one picked choice per stage, niche and difficulty
  modifiers, random events that add to an impact accumulator, step
  navigation, a reset, the final verdict and the signed-number formatting of
  the scores. The React setters become whole-value transitions of a `Game`
  record; the two random draws of an event become the parameters `roll` and
  `pick`.
 */
module Producer {

  datatype Option<T> = None | Some(value: T)

  /** Points on the three axes: picture, time and money. */
  datatype Score = Score(img: int, time: int, money: int)

  const ZERO: Score := Score(0, 0, 0)

  /** Component-wise sum. */
  function Add(a: Score, b: Score): Score {
    var Score(i1, t1, m1) := a;
    var Score(i2, t2, m2) := b;
    Score(i1 + i2, t1 + t2, m1 + m2)
  }

  /** `Partial<Score>`: a modifier may leave any axis out. */
  datatype Partial = Partial(img: Option<int>, time: Option<int>, money: Option<int>)

  /** `x ?? 0`. */
  function OrZero(o: Option<int>): int {
    match o
    case Some(v) => v
    case None => 0
  }

  /** A modifier with its missing axes read as 0. */
  function Filled(p: Partial): Score {
    Score(OrZero(p.img), OrZero(p.time), OrZero(p.money))
  }

  datatype Niche = Food | Beauty | Gadgets
  datatype Difficulty = Easy | Normal | Hard

  /** `NICHE_MOD`. */
  function NicheMod(n: Niche): Partial {
    match n
    case Food => Partial(Some(1), None, Some(-1))
    case Beauty => Partial(Some(1), Some(-1), None)
    case Gadgets => Partial(Some(0), Some(0), Some(0))
  }

  /** `DIFF_MOD`. */
  function DiffMod(d: Difficulty): Partial {
    match d
    case Easy => Partial(None, Some(1), Some(1))
    case Normal => Partial(None, None, None)
    case Hard => Partial(None, Some(-1), Some(-1))
  }

  /** The niche and difficulty modifiers added together, missing axes as 0. */
  function Modifiers(n: Niche, d: Difficulty): Score {
    Add(Filled(NicheMod(n)), Filled(DiffMod(d)))
  }

  /** Every combination of niche and difficulty shifts the picture by 0 or
      +1 and time and money by at most 2 either way; the neutral pair
      (gadgets, normal) shifts nothing. */
  lemma ModifiersRange(n: Niche, d: Difficulty)
    ensures 0 <= Modifiers(n, d).img <= 1
    ensures -2 <= Modifiers(n, d).time <= 2 && -2 <= Modifiers(n, d).money <= 2
    ensures Modifiers(Gadgets, Normal) == ZERO
  {
  }

  /** A choice as the scoring sees it (its title and description are display text). */
  datatype Choice = Choice(id: string, score: Score)

  /** A stage: its key in `picked` and its choices. */
  datatype Stage = Stage(key: string, choices: seq<Choice>)

  /** `STAGES_BASE`. */
  function Stages(): seq<Stage> {
    [Stage("pre", [Choice("story", Score(2, 1, -1)),
                   Choice("cast", Score(0, 2, 1)),
                   Choice("loc", Score(1, 1, 2))]),
     Stage("shoot", [Choice("light", Score(3, -1, -2)),
                     Choice("handy", Score(1, 1, 2)),
                     Choice("drone", Score(2, 0, -1))]),
     Stage("post", [Choice("color", Score(2, -1, -1)),
                    Choice("motion", Score(2, -1, -1)),
                    Choice("subs", Score(1, 0, -1))])]
  }

  /** No two choices of a stage share an id, and no id is empty. */
  predicate IdsDistinct(cs: seq<Choice>) {
    && (forall i, j :: 0 <= i < j < |cs| ==> cs[i].id != cs[j].id)
    && (forall i :: 0 <= i < |cs| ==> cs[i].id != "")
  }

  /** The stage list has the keys `pre`, `shoot`, `post` in that order, and
      each stage offers three choices with distinct non-empty ids. */
  lemma StagesShape()
    ensures |Stages()| == 3
    ensures Stages()[0].key == "pre" && Stages()[1].key == "shoot" && Stages()[2].key == "post"
    ensures forall j :: 0 <= j < 3 ==> |Stages()[j].choices| == 3 && IdsDistinct(Stages()[j].choices)
  {
  }

  /** A random event: the stage it may follow, its log text and its impact. */
  datatype EventCard = EventCard(id: string, when: string, text: string, impact: Score)

  /** `EVENTS`. */
  function Events(): seq<EventCard> {
    [EventCard("battery", "shoot", "Сел аккум у дрона — перестановка сетапа", Score(0, -1, -1)),
     EventCard("actor", "shoot", "Актёр опоздал, но сыграл отлично", Score(1, -1, 0)),
     EventCard("client", "pre", "Клиент прислал референсы вовремя", Score(1, 1, 0)),
     EventCard("render", "post", "Рендеры тяжелые — оптимизируем графику", Score(0, -1, 1))]
  }

  /* ---------- picks and totals ---------- */

  /** `picked`: stage key (or an event's hidden `__id` key) to a choice id or `null`. */
  type Picks = map<string, Option<string>>

  /** `picked[k]`, where a key never written reads as `undefined`, which
      behaves like `null` everywhere it is used. */
  function Lookup(p: Picks, k: string): Option<string> {
    if k in p then p[k] else None
  }

  /** JavaScript truthiness of `picked[k]`: neither `null` nor the empty string. */
  predicate Truthy(o: Option<string>) {
    o.Some? && o.value != ""
  }

  /** `choices.find(c => c.id === id)`: the first choice carrying `id`;
      `null` and `undefined` match no choice. */
  function Find(cs: seq<Choice>, id: Option<string>): (r: Option<Choice>)
    ensures r.Some? ==> r.value in cs && id == Some(r.value.id)
    ensures r.None? ==> forall c :: c in cs ==> id != Some(c.id)
  {
    if cs == [] then None
    else if id == Some(cs[0].id) then Some(cs[0])
    else Find(cs[1..], id)
  }

  /** When ids are distinct, the choice found for the id of the `i`-th
      choice is that choice. */
  lemma {:induction false} FindDistinct(cs: seq<Choice>, i: int)
    requires IdsDistinct(cs) && 0 <= i < |cs|
    ensures Find(cs, Some(cs[i].id)) == Some(cs[i])
  {
    var r := Find(cs, Some(cs[i].id));
    var j :| 0 <= j < |cs| && cs[j] == r.value;
    assert j == i;
  }

  /** What one stage adds to the totals: the picked choice's score, or nothing. */
  function Contribution(s: Stage, p: Picks): Score {
    match Find(s.choices, Lookup(p, s.key))
    case Some(c) => c.score
    case None => ZERO
  }

  /** The choices' part of `totals`, over `stages` in order. */
  function PickedSum(stages: seq<Stage>, p: Picks): Score {
    if stages == [] then ZERO
    else Add(PickedSum(stages[..|stages| - 1], p), Contribution(stages[|stages| - 1], p))
  }

  /** `totals`: every stage's picked score, then the niche and difficulty modifiers. */
  function TotalsOf(n: Niche, d: Difficulty, p: Picks): Score {
    Add(PickedSum(Stages(), p), Modifiers(n, d))
  }

  /** The `totals` memo: the loop over the stages, then the modifiers added
      with missing axes as 0. */
  method Totals(n: Niche, d: Difficulty, p: Picks) returns (base: Score)
    ensures base == TotalsOf(n, d, p)
  {
    base := SumPicks(Stages(), p);
    var nm, dm := NicheMod(n), DiffMod(d);
    base := Score(base.img + (OrZero(nm.img) + OrZero(dm.img)),
                  base.time + (OrZero(nm.time) + OrZero(dm.time)),
                  base.money + (OrZero(nm.money) + OrZero(dm.money)));
  }

  /** The loop of `totals`: for each stage in order, add the score of the
      choice its key holds, if it names one. */
  method SumPicks(stages: seq<Stage>, p: Picks) returns (base: Score)
    ensures base == PickedSum(stages, p)
  {
    base := ZERO;
    var i := 0;
    while i < |stages|
      invariant 0 <= i <= |stages|
      invariant base == PickedSum(stages[..i], p)
    {
      var s := stages[i];
      var ch := Find(s.choices, Lookup(p, s.key));
      if ch.Some? {
        base := Score(base.img + ch.value.score.img,
                      base.time + ch.value.score.time,
                      base.money + ch.value.score.money);
      }
      assert stages[..i + 1][..i] == stages[..i];
      i := i + 1;
    }
    assert stages[..i] == stages;
  }

  /** The choices' part depends only on what the stage keys hold. */
  lemma {:induction false} PickedSumFrame(stages: seq<Stage>, p: Picks, q: Picks)
    requires forall i :: 0 <= i < |stages| ==> Lookup(p, stages[i].key) == Lookup(q, stages[i].key)
    ensures PickedSum(stages, p) == PickedSum(stages, q)
  {
    if stages != [] {
      var k := |stages| - 1;
      assert forall i :: 0 <= i < k ==> stages[..k][i] == stages[i];
      PickedSumFrame(stages[..k], p, q);
    }
  }

  /** With no stage picked, the choices add nothing. */
  lemma {:induction false} PickedSumNone(stages: seq<Stage>, p: Picks)
    requires forall i :: 0 <= i < |stages| ==> Lookup(p, stages[i].key) == None
    ensures PickedSum(stages, p) == ZERO
  {
    if stages != [] {
      var k := |stages| - 1;
      assert forall i :: 0 <= i < k ==> stages[..k][i] == stages[i];
      PickedSumNone(stages[..k], p);
    }
  }

  /** A key that names no stage. */
  predicate Hidden(k: string) {
    forall i :: 0 <= i < |Stages()| ==> Stages()[i].key != k
  }

  /** Writing a key that names no stage (such as an event's `__id`) leaves
      the totals as they were. */
  lemma HiddenKeyIgnored(n: Niche, d: Difficulty, p: Picks, k: string, v: Option<string>)
    requires Hidden(k)
    ensures TotalsOf(n, d, p[k := v]) == TotalsOf(n, d, p)
  {
    PickedSumFrame(Stages(), p[k := v], p);
  }

  /** With every stage unpicked the totals are exactly the modifiers. */
  lemma NoPicksTotals(n: Niche, d: Difficulty, p: Picks)
    requires forall i :: 0 <= i < |Stages()| ==> Lookup(p, Stages()[i].key) == None
    ensures TotalsOf(n, d, p) == Modifiers(n, d)
  {
    PickedSumNone(Stages(), p);
  }

  /** The totals are the three stages' contributions, in stage order, plus the modifiers. */
  lemma TotalsByStage(n: Niche, d: Difficulty, p: Picks)
    ensures TotalsOf(n, d, p) ==
              Add(Add(Add(Add(ZERO, Contribution(Stages()[0], p)), Contribution(Stages()[1], p)),
                      Contribution(Stages()[2], p)),
                  Modifiers(n, d))
  {
    var S := Stages();
    assert S[..3] == S && S[..3][..2] == S[..2] && S[..2][..1] == S[..1] && S[..1][..0] == [];
    assert PickedSum(S[..1], p) == Add(ZERO, Contribution(S[0], p));
    assert PickedSum(S[..2], p) == Add(PickedSum(S[..1], p), Contribution(S[1], p));
  }

  /* ---------- the game record and its transitions ---------- */

  /** Everything the component keeps in state. */
  datatype Game = Game(
    niche: Niche,
    diff: Difficulty,
    step: int,
    picked: Picks,
    log: seq<string>,
    eventImpact: Score)

  /** Every stage key set to `null`. */
  function NoPicks(): Picks {
    map["pre" := None, "shoot" := None, "post" := None]
  }

  /** The state a fresh component starts in. */
  function Start(): Game {
    Game(Gadgets, Normal, 0, NoPicks(), [], ZERO)
  }

  /** `grand`: the totals plus the accumulated event impact, axis by axis. */
  function Grand(g: Game): Score {
    Add(TotalsOf(g.niche, g.diff, g.picked), g.eventImpact)
  }

  /** `current = stages[step]`, undefined off the end. */
  function Current(step: int): Option<Stage> {
    if 0 <= step < |Stages()| then Some(Stages()[step]) else None
  }

  /** `finished = step >= stages.length`. */
  predicate Finished(g: Game) {
    g.step >= |Stages()|
  }

  /** On a step that is never negative, the game is finished exactly when
      there is no current stage. */
  lemma FinishedIffNoStage(g: Game)
    requires 0 <= g.step
    ensures Finished(g) <==> Current(g.step).None?
    ensures !Finished(g) ==> Current(g.step) == Some(Stages()[g.step])
  {
  }

  /** `choose(k, id)`: clicking the picked choice again clears it, any other
      click picks `id`; no other key and nothing else in the game changes. */
  function Choose(g: Game, k: string, id: string): (r: Game)
    ensures Lookup(g.picked, k) == Some(id) ==> Lookup(r.picked, k) == None
    ensures Lookup(g.picked, k) != Some(id) ==> Lookup(r.picked, k) == Some(id)
    ensures forall k' :: k' != k ==> Lookup(r.picked, k') == Lookup(g.picked, k')
    ensures r.(picked := g.picked) == g
  {
    g.(picked := g.picked[k := if Lookup(g.picked, k) == Some(id) then None else Some(id)])
  }

  /** Choosing the same id twice in a row gives back the pick the stage had,
      when it held nothing or that id. */
  lemma ChooseTwice(g: Game, k: string, id: string)
    requires Lookup(g.picked, k) == None || Lookup(g.picked, k) == Some(id)
    ensures forall k' :: Lookup(Choose(Choose(g, k, id), k, id).picked, k') == Lookup(g.picked, k')
  {
  }

  /** Picking the `i`-th choice of stage `j` makes that stage contribute
      exactly that choice's score. */
  lemma ChooseScores(g: Game, j: int, i: int)
    requires 0 <= j < 3 && 0 <= i < |Stages()[j].choices|
    requires Lookup(g.picked, Stages()[j].key) != Some(Stages()[j].choices[i].id)
    ensures Contribution(Stages()[j], Choose(g, Stages()[j].key, Stages()[j].choices[i].id).picked)
              == Stages()[j].choices[i].score
  {
    StagesShape();
    FindDistinct(Stages()[j].choices, i);
  }

  /** Choosing in one stage leaves every other stage's contribution as it was. */
  lemma ChooseKeepsOthers(g: Game, j: int, id: string)
    requires 0 <= j < 3
    ensures forall j' :: 0 <= j' < 3 && j' != j ==>
              Contribution(Stages()[j'], Choose(g, Stages()[j].key, id).picked)
                == Contribution(Stages()[j'], g.picked)
  {
    StagesShape();
  }

  /** The random draw inside `maybeEvent`: the events tied to `key`, in list order. */
  function Pool(evs: seq<EventCard>, key: string): (p: seq<EventCard>)
    ensures forall e :: e in p <==> e in evs && e.when == key
  {
    if evs == [] then []
    else (if evs[0].when == key then [evs[0]] else []) + Pool(evs[1..], key)
  }

  /** The filter keeps every matching event as many times as it is listed
      and drops every other one. */
  lemma {:induction false} PoolCount(evs: seq<EventCard>, key: string, e: EventCard)
    ensures multiset(Pool(evs, key))[e] == if e.when == key then multiset(evs)[e] else 0
  {
    if evs != [] {
      assert evs == [evs[0]] + evs[1..];
      PoolCount(evs[1..], key, e);
    }
  }

  /** The filter keeps the list's order: filtering a concatenation is
      concatenating the filtered parts. */
  lemma {:induction false} PoolAppend(a: seq<EventCard>, b: seq<EventCard>, key: string)
    ensures Pool(a + b, key) == Pool(a, key) + Pool(b, key)
  {
    if a == [] {
      assert a + b == b;
    } else {
      var head := if a[0].when == key then [a[0]] else [];
      assert (a + b)[0] == a[0] && (a + b)[1..] == a[1..] + b;
      PoolAppend(a[1..], b, key);
      calc {
        Pool(a + b, key);
        head + Pool(a[1..] + b, key);
        head + (Pool(a[1..], key) + Pool(b, key));
        (head + Pool(a[1..], key)) + Pool(b, key);
        Pool(a, key) + Pool(b, key);
      }
    }
  }

  /** `Math.floor(pick * n)` for `pick` in `[0, 1)`: an index into a list of `n`. */
  function PickIndex(pick: real, n: int): (i: int)
    requires 0.0 <= pick < 1.0 && 0 < n
    ensures 0 <= i < n
  {
    assert pick * n as real < n as real;
    (pick * n as real).Floor
  }

  /** The event `maybeEvent` applies, if any: none unless `roll < 0.25`, then
      one of the events tied to `key`, chosen by `pick`. */
  function Drawn(key: string, roll: real, pick: real): (r: Option<EventCard>)
    requires 0.0 <= pick < 1.0
    ensures r.Some? ==> roll < 0.25 && r.value in Events() && r.value.when == key
    ensures r.Some? <== roll < 0.25 && exists e :: e in Events() && e.when == key
  {
    if !(roll < 0.25) then None
    else
      var pool := Pool(Events(), key);
      if |pool| == 0 then None else Some(pool[PickIndex(pick, |pool|)])
  }

  /** Every stage key has at least one event, so below the 0.25 threshold an
      event always fires. */
  lemma EveryStageHasEvents(j: int)
    requires 0 <= j < 3
    ensures exists e :: e in Events() && e.when == Stages()[j].key
  {
    var k := Stages()[j].key;
    if j == 0 {
      assert Events()[2] in Events() && Events()[2].when == k;
    } else if j == 1 {
      assert Events()[0] in Events() && Events()[0].when == k;
    } else {
      assert Events()[3] in Events() && Events()[3].when == k;
    }
  }

  /** `impactStr(s)`: the three labelled signed scores, picture, time and
      money in that order, joined by " · " and wrapped in parentheses. */
  function ImpactStr(s: Score): string {
    "(Картинка " + (Fmt(s.img) + (" · Сроки " + (Fmt(s.time) + (" · Бюджет " + (Fmt(s.money) + ")")))))
  }

  /** The log line an event adds. */
  function LogLine(e: EventCard): string {
    "Событие: " + e.text + " " + ImpactStr(e.impact)
  }

  /** The hidden `picked` key an event writes. */
  function HiddenKeyOf(e: EventCard): string {
    "__" + e.id
  }

  /** The three setter calls of an applied event. */
  function Apply(g: Game, e: EventCard): Game {
    g.(log := g.log + [LogLine(e)],
       picked := g.picked[HiddenKeyOf(e) := Some("1")],
       eventImpact := Add(g.eventImpact, e.impact))
  }

  /** `maybeEvent(key)`: the drawn event, if any, is applied; with none
      drawn nothing changes. */
  function MaybeEvent(g: Game, key: string, roll: real, pick: real): (r: Game)
    requires 0.0 <= pick < 1.0
    ensures r.niche == g.niche && r.diff == g.diff && r.step == g.step
    ensures Drawn(key, roll, pick).None? ==> r == g
    ensures Drawn(key, roll, pick).Some? ==> r == Apply(g, Drawn(key, roll, pick).value)
  {
    match Drawn(key, roll, pick)
    case None => g
    case Some(e) => Apply(g, e)
  }

  /** An applied event adds one log line, grows `eventImpact` by exactly its
      impact and so moves `grand` by exactly that impact: the hidden key it
      writes into `picked` counts for nothing, and no stage's pick changes. */
  lemma EventShiftsGrand(g: Game, e: EventCard)
    ensures Apply(g, e).log == g.log + [LogLine(e)]
    ensures Apply(g, e).eventImpact == Add(g.eventImpact, e.impact)
    ensures Grand(Apply(g, e)) == Add(Grand(g), e.impact)
    ensures forall i :: 0 <= i < |Stages()| ==>
              Lookup(Apply(g, e).picked, Stages()[i].key) == Lookup(g.picked, Stages()[i].key)
  {
    var k := HiddenKeyOf(e);
    assert k[0] == '_';
    HiddenKeyIgnored(g.niche, g.diff, g.picked, k, Some("1"));
  }

  /** `next()`: nothing happens when finished or when the current stage has
      no truthy pick; otherwise an event may fire and the step moves on by one. */
  function Next(g: Game, roll: real, pick: real): (r: Game)
    requires 0.0 <= pick < 1.0
    ensures r.niche == g.niche && r.diff == g.diff
    ensures r.step == g.step + 1 <==> Current(g.step).Some? && Truthy(Lookup(g.picked, Current(g.step).value.key))
    ensures r.step != g.step + 1 ==> r == g
    ensures Finished(g) ==> r == g
    ensures 0 <= g.step <= 3 ==> 0 <= r.step <= 3
    ensures r.step == g.step + 1 ==> r == MaybeEvent(g, Current(g.step).value.key, roll, pick).(step := g.step + 1)
  {
    match Current(g.step)
    case None => g
    case Some(s) =>
      if !Truthy(Lookup(g.picked, s.key)) then g
      else MaybeEvent(g, s.key, roll, pick).(step := g.step + 1)
  }

  /** Back: `step := max(0, step - 1)`, nothing else changes. */
  function Back(g: Game): (r: Game)
    ensures g.step > 0 ==> r.step == g.step - 1
    ensures g.step <= 0 ==> r.step == 0
    ensures 0 <= g.step ==> 0 <= r.step <= g.step
    ensures r.(step := g.step) == g
  {
    g.(step := if g.step - 1 >= 0 then g.step - 1 else 0)
  }

  /** Going back after a step forward returns to the stage just left. */
  lemma NextThenBack(g: Game, roll: real, pick: real)
    requires 0.0 <= pick < 1.0
    requires 0 <= g.step && Next(g, roll, pick).step == g.step + 1
    ensures Back(Next(g, roll, pick)).step == g.step
  {
  }

  /** Picking a choice of the current stage and pressing "next" always
      advances the game. */
  lemma ChooseThenNext(g: Game, i: int, roll: real, pick: real)
    requires 0.0 <= pick < 1.0
    requires 0 <= g.step < 3 && 0 <= i < |Stages()[g.step].choices|
    requires Lookup(g.picked, Stages()[g.step].key) != Some(Stages()[g.step].choices[i].id)
    ensures Next(Choose(g, Stages()[g.step].key, Stages()[g.step].choices[i].id), roll, pick).step == g.step + 1
  {
    StagesShape();
  }

  /** `resetAll`: back to the first stage with nothing picked, an empty log
      and no event impact; niche and difficulty stay. */
  function Reset(g: Game): (r: Game)
    ensures r.niche == g.niche && r.diff == g.diff
    ensures r.step == 0 && r.log == [] && r.eventImpact == ZERO
    ensures forall k :: Lookup(r.picked, k) == None
  {
    Game(g.niche, g.diff, 0, NoPicks(), [], ZERO)
  }

  /** After a reset `grand` is exactly the niche and difficulty modifiers,
      and a second reset changes nothing. */
  lemma ResetGrand(g: Game)
    ensures Grand(Reset(g)) == Modifiers(g.niche, g.diff)
    ensures Reset(Reset(g)) == Reset(g)
    ensures Reset(Start()) == Start()
  {
    NoPicksTotals(g.niche, g.diff, NoPicks());
  }

  /** The niche buttons: the niche becomes `n`, nothing else changes. */
  function SetNiche(g: Game, n: Niche): (r: Game)
    ensures r.niche == n && r.(niche := g.niche) == g
  {
    g.(niche := n)
  }

  /** The difficulty buttons: the difficulty becomes `d`, nothing else changes. */
  function SetDiff(g: Game, d: Difficulty): (r: Game)
    ensures r.diff == d && r.(diff := g.diff) == g
  {
    g.(diff := d)
  }

  /** Switching niche or difficulty moves `grand` by exactly the change in
      the modifiers: the picks and the event impact keep their part. */
  lemma ModifierSwitch(g: Game, n: Niche, d: Difficulty)
    ensures Add(Grand(SetNiche(g, n)), Modifiers(g.niche, g.diff)) == Add(Grand(g), Modifiers(n, g.diff))
    ensures Add(Grand(SetDiff(g, d)), Modifiers(g.niche, g.diff)) == Add(Grand(g), Modifiers(g.niche, d))
  {
  }

  /** Every transition keeps the step inside `[0, 3]`. */
  lemma StepStaysInRange(g: Game, k: string, id: string, roll: real, pick: real)
    requires 0.0 <= pick < 1.0
    requires 0 <= g.step <= 3
    ensures 0 <= Choose(g, k, id).step <= 3
    ensures 0 <= Next(g, roll, pick).step <= 3
    ensures 0 <= Back(g).step <= 3
    ensures 0 <= Reset(g).step <= 3
    ensures MaybeEvent(g, k, roll, pick).step == g.step
  {
  }

  /* ---------- verdict ---------- */

  /** The four verdict titles (each comes with its own tip). */
  datatype Title = Ready | Candy | Risky | Burning

  /** A verdict: its title and the niche whose note is shown beneath it. */
  datatype Verdict = Verdict(title: Title, note: Niche)

  /** The `verdict` memo: start from the default, then let each later test
      override the earlier ones. Burning time wins over everything, a weak
      picture or overspend over the "candy" case; the candy case needs no
      override at all, since its conditions exclude the other two. The note
      follows the niche alone. */
  method ComputeVerdict(grand: Score, niche: Niche) returns (v: Verdict)
    ensures v.title == Burning <==> grand.time < -2
    ensures v.title == Risky <==> grand.time >= -2 && (grand.img <= 2 || grand.money < -3)
    ensures v.title == Candy <==> grand.img >= 7 && grand.time >= 1 && grand.money >= 0
    ensures v.title == Ready <==>
              && grand.time >= -2 && grand.img > 2 && grand.money >= -3
              && !(grand.img >= 7 && grand.time >= 1 && grand.money >= 0)
    ensures v.note == niche
  {
    var title := Ready;
    if grand.img >= 7 && grand.time >= 1 && grand.money >= 0 {
      title := Candy;
    }
    if grand.img <= 2 || grand.money < -3 {
      title := Risky;
    }
    if grand.time < -2 {
      title := Burning;
    }
    v := Verdict(title, niche);
  }

  /* ---------- number formatting ---------- */

  /** The character of one decimal digit. */
  function Digit(d: int): char
    requires 0 <= d < 10
  {
    (48 + d) as char
  }

  predicate IsDigit(c: char) {
    '0' <= c <= '9'
  }

  predicate AllDigits(s: string) {
    forall i :: 0 <= i < |s| ==> IsDigit(s[i])
  }

  /** The decimal spelling of a natural number, without leading zeros. */
  function Decimal(n: nat): (s: string)
    ensures 1 <= |s| && AllDigits(s)
    ensures s[0] == '0' ==> n == 0
  {
    if n < 10 then [Digit(n)] else Decimal(n / 10) + [Digit(n % 10)]
  }

  /** The value of a digit string. */
  function ValueOf(s: string): int
    requires AllDigits(s)
  {
    if s == [] then 0 else 10 * ValueOf(s[..|s| - 1]) + (s[|s| - 1] as int - 48)
  }

  /** Reading back a decimal spelling gives the number. */
  lemma {:induction false} DecimalRoundTrip(n: nat)
    ensures ValueOf(Decimal(n)) == n
  {
    if n >= 10 {
      DecimalRoundTrip(n / 10);
      var s := Decimal(n);
      assert s[..|s| - 1] == Decimal(n / 10);
    }
  }

  /** `fmt(n)`: a leading `+` on positive numbers, JavaScript's own spelling
      (with `-` for negatives, `0` for zero) otherwise. */
  function Fmt(n: int): (s: string)
    ensures n > 0 ==> s == "+" + Decimal(n)
    ensures n < 0 ==> s == "-" + Decimal(-n)
    ensures n == 0 ==> s == "0"
  {
    if n > 0 then "+" + Decimal(n) else if n < 0 then "-" + Decimal(-n) else Decimal(0)
  }

  /** Reads a signed number as `fmt` writes it. */
  function ParseSigned(s: string): Option<int> {
    if |s| >= 2 && s[0] == '+' && AllDigits(s[1..]) then Some(ValueOf(s[1..]))
    else if |s| >= 2 && s[0] == '-' && AllDigits(s[1..]) then Some(-ValueOf(s[1..]))
    else if |s| >= 1 && AllDigits(s) then Some(ValueOf(s))
    else None
  }

  /** `fmt` loses nothing: reading its output back gives the number. */
  lemma FmtRoundTrip(n: int)
    ensures ParseSigned(Fmt(n)) == Some(n)
  {
    if n > 0 {
      DecimalRoundTrip(n);
      assert Fmt(n)[1..] == Decimal(n);
    } else if n < 0 {
      DecimalRoundTrip(-n);
      assert Fmt(n)[1..] == Decimal(-n);
    } else {
      assert Fmt(n) == [Digit(0)];
    }
  }

  /** A character `fmt` may write. */
  predicate NumChar(c: char) {
    c == '+' || c == '-' || IsDigit(c)
  }

  /** Length of the longest prefix made of number characters. */
  function NumSpan(s: string): (k: nat)
    ensures k <= |s|
  {
    if s == [] || !NumChar(s[0]) then 0 else 1 + NumSpan(s[1..])
  }

  /** A run of number characters followed by anything else is read whole. */
  lemma {:induction false} NumSpanOf(a: string, t: string)
    requires forall i :: 0 <= i < |a| ==> NumChar(a[i])
    requires t != [] && !NumChar(t[0])
    ensures NumSpan(a + t) == |a|
  {
    if a != [] {
      assert (a + t)[1..] == a[1..] + t;
      NumSpanOf(a[1..], t);
    }
  }

  /** After `tag`, a signed number and the rest of the string. */
  function ReadField(s: string, tag: string): Option<(int, string)> {
    if tag <= s then
      var rest := s[|tag|..];
      var k := NumSpan(rest);
      match ParseSigned(rest[..k])
      case Some(v) => Some((v, rest[k..]))
      case None => None
    else None
  }

  /** `fmt` writes number characters only. */
  lemma FmtChars(n: int)
    ensures forall i :: 0 <= i < |Fmt(n)| ==> NumChar(Fmt(n)[i])
  {
    if n > 0 {
      assert forall i :: 1 <= i < |Fmt(n)| ==> Fmt(n)[i] == Decimal(n)[i - 1];
    } else if n < 0 {
      assert forall i :: 1 <= i < |Fmt(n)| ==> Fmt(n)[i] == Decimal(-n)[i - 1];
    }
  }

  /** A tag, a formatted number and a tail that does not start with a
      number character read back as that number and that tail. */
  lemma ReadFieldOf(tag: string, n: int, t: string)
    requires t != [] && !NumChar(t[0])
    ensures ReadField(tag + (Fmt(n) + t), tag) == Some((n, t))
  {
    var f := Fmt(n);
    var s := tag + (f + t);
    assert tag <= s;
    assert s[|tag|..] == f + t;
    FmtChars(n);
    NumSpanOf(f, t);
    assert (f + t)[..|f|] == f;
    assert (f + t)[|f|..] == t;
    FmtRoundTrip(n);
  }

  /** Reads the three scores back out of an `impactStr` text. */
  function ReadImpact(s: string): Option<Score> {
    match ReadField(s, "(Картинка ")
    case None => None
    case Some((a, r1)) =>
      match ReadField(r1, " · Сроки ")
      case None => None
      case Some((b, r2)) =>
        match ReadField(r2, " · Бюджет ")
        case None => None
        case Some((c, r3)) => if r3 == ")" then Some(Score(a, b, c)) else None
  }

  /** `impactStr` spells picture, time and money in that fixed order and
      loses none of them: the score can be read back from the text. */
  lemma ImpactRoundTrip(s: Score)
    ensures ReadImpact(ImpactStr(s)) == Some(s)
  {
    var t3 := ")";
    var t2 := " · Бюджет " + (Fmt(s.money) + t3);
    var t1 := " · Сроки " + (Fmt(s.time) + t2);
    assert !NumChar(t3[0]) && !NumChar(t2[0]) && !NumChar(t1[0]);
    ReadFieldOf("(Картинка ", s.img, t1);
    ReadFieldOf(" · Сроки ", s.time, t2);
    ReadFieldOf(" · Бюджет ", s.money, t3);
  }
}

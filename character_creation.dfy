/**
 * The character-creation wizard: four steps (name, origin, belief,
 * faction), a step change that takes effect when its animation ends, and
 * the completion record built from the selected table entries.
 *
 * The origin, belief and faction tables are a parameter of the wizard
 * (`Tables`); `CreationTables()` holds the game's own entries.
 */
module CharacterCreation {
  import opened Common

  datatype GiftKind = Item | Spell

  datatype Gift = Gift(name: string, description: string, kind: GiftKind)

  datatype Origin = Origin(id: string, title: string, description: string)

  datatype Belief = Belief(id: string, title: string, description: string, affinity: string)

  datatype Faction = Faction(id: string, title: string, description: string, gift: Gift)

  datatype Tables = Tables(origins: seq<Origin>, beliefs: seq<Belief>, factions: seq<Faction>)

  /** The ORIGINS table. */
  function Origins(): seq<Origin>
  {
    [ Origin("dying-world", "A Dying World",
        "Your world was ending. You fell through the cracks as reality collapsed."),
        Origin("spell-gone-wrong", "A Spell Gone Wrong",
        "You were reaching for power and reached too far. The magic tore you loose."),
        Origin("pursued", "Pursued by Something",
        "You were running from something that no longer exists — but you still feel it behind you."),
        Origin("simply-lost", "Simply Lost",
        "You wandered too far from the known paths. Tasern's gravity caught you.") ]
  }

  /** The BELIEFS table. */
  function Beliefs(): seq<Belief>
  {
    [ Belief("strength", "Strength overcomes all",
        "Raw force, endurance, defiance of what would break you.", "Combat: shielding, striking"),
        Belief("knowledge", "Knowledge is the true power",
        "Secrets, understanding, the patterns behind everything.", "Perception: scrying, lore, detection"),
        Belief("nature", "The natural world provides",
        "Growth, balance, the living cycle that sustains all things.", "Nature: healing, shaping, growth"),
        Belief("freedom", "Freedom cannot be taken",
        "Independence, movement, defiance of every cage and chain.", "Chaos: illusion, escape, mobility") ]
  }

  /** The FACTIONS table; only the druids' gift is a spell. */
  function Factions(): seq<Faction>
  {
    [ Faction("elves", "Elves of Elpha", "Patient crafters, thousand-year plans",
        Gift("Everlight Candle", "A flame that remembers what it has seen", Item)),
        Faction("dwarves", "Dwarves of Argenti", "Solitary perfectionists of stone",
        Gift("Stoneheart Ring", "Warms when danger is near", Item)),
        Faction("durgan", "Durgan Dynasty", "Human traders, flying ships",
        Gift("Diplomat's Coin", "Flips to reveal hidden intentions", Item)),
        Faction("pirates", "Pirates", "Freedom, chaos, stolen beliefs",
        Gift("Smuggler's Compass", "Points to what you desire most", Item)),
        Faction("igypt", "Igypt", "Fear is sacred, the dead watch",
        Gift("Vigilant Wrapping", "A bandage that heals while you sleep", Item)),
        Faction("dragons", "Dragons", "Immortal if fed, tribute is law",
        Gift("Dragon Scale Shard", "Absorbs one flame", Item)),
        Faction("orks", "Orks of Orklin", "Industry and war machines",
        Gift("Spark Gauntlet", "Ignites anything on contact", Item)),
        Faction("druids", "Druids", "Balance keepers, growth and rot",
        Gift("Living Seed", "Grows into whatever you need most", Spell)) ]
  }

  function CreationTables(): Tables
  {
    Tables(Origins(), Beliefs(), Factions())
  }

  /** The `id` of every entry, in table order. */
  function Ids<T>(entries: seq<T>, key: T -> string): (ids: seq<string>)
    ensures |ids| == |entries|
    ensures forall k :: 0 <= k < |entries| ==> ids[k] == key(entries[k])
  {
    if |entries| == 0 then [] else [key(entries[0])] + Ids(entries[1..], key)
  }

  function OriginId(o: Origin): string { o.id }
  function BeliefId(b: Belief): string { b.id }
  function FactionId(f: Faction): string { f.id }

  function OriginIds(t: Tables): seq<string> { Ids(t.origins, OriginId) }
  function BeliefIds(t: Tables): seq<string> { Ids(t.beliefs, BeliefId) }
  function FactionIds(t: Tables): seq<string> { Ids(t.factions, FactionId) }

  /** `table.find((e) => e.id === id)`, as the position of the first match. */
  function FindIndex(ids: seq<string>, id: Option<string>): (r: Option<nat>)
    ensures r.Some? ==> r.value < |ids| && id == Some(ids[r.value])
    ensures r.Some? ==> forall j :: 0 <= j < r.value ==> Some(ids[j]) != id
    ensures r.None? <==> id.None? || id.value !in ids
  {
    if id.None? || |ids| == 0 then None
    else if ids[0] == id.value then Some(0)
    else
      var rest := FindIndex(ids[1..], id);
      if rest.Some? then Some(rest.value + 1) else None
  }

  /** No two entries of a table share an id. */
  predicate DistinctIds(ids: seq<string>)
  {
    forall i, j :: 0 <= i < j < |ids| ==> ids[i] != ids[j]
  }

  /** With distinct ids, finding the id of the k-th entry gives back k. */
  lemma FindIndexOfDistinct(ids: seq<string>, k: nat)
    requires DistinctIds(ids) && k < |ids|
    ensures FindIndex(ids, Some(ids[k])) == Some(k)
  {
  }

  /** What `onComplete` receives. */
  datatype CharacterChoices = CharacterChoices(
    name: string,
    origin: string,
    belief: string,
    faction: string,
    startingGift: Gift)

  const TotalSteps: nat := 4
  const NameMaxLength: nat := 40

  /** Every field of the wizard; `pendingStep` is the step the running
      transition timer will set. */
  datatype WizardState = WizardState(
    step: int,
    isTransitioning: bool,
    pendingStep: Option<int>,
    name: string,
    origin: Option<string>,
    belief: Option<string>,
    faction: Option<string>)

  function InitialWizard(): WizardState
  {
    WizardState(0, false, None, "", None, None, None)
  }

  /** The step and any pending step are in range; a timer runs exactly while
      transitioning; each selection is an id from its table; and every step
      past a choice (current or pending) has that choice made. */
  predicate WizardValid(t: Tables, st: WizardState)
  {
    && 0 <= st.step < TotalSteps
    && (st.isTransitioning <==> st.pendingStep.Some?)
    && (st.pendingStep.Some? ==> 0 <= st.pendingStep.value < TotalSteps)
    && (st.origin.Some? ==> st.origin.value in OriginIds(t))
    && (st.belief.Some? ==> st.belief.value in BeliefIds(t))
    && (st.faction.Some? ==> st.faction.value in FactionIds(t))
    && (st.step >= 2 ==> st.origin.Some?)
    && (st.step >= 3 ==> st.belief.Some?)
    && (st.pendingStep.Some? && st.pendingStep.value >= 2 ==> st.origin.Some?)
    && (st.pendingStep.Some? && st.pendingStep.value >= 3 ==> st.belief.Some?)
  }

  /** `canContinue`. */
  predicate CanContinue(st: WizardState)
  {
    if st.step == 0 then true
    else if st.step == 1 then st.origin.Some?
    else if st.step == 2 then st.belief.Some?
    else if st.step == 3 then st.faction.Some?
    else false
  }

  /** `transition(fn)`: ignored while another transition runs. */
  function RequestTransition(st: WizardState, target: int): WizardState
  {
    if st.isTransitioning then st else st.(isTransitioning := true, pendingStep := Some(target))
  }

  /** The transition timer fires: the pending step takes effect. */
  function AfterElapsed(st: WizardState): WizardState
  {
    if st.pendingStep.Some? then st.(step := st.pendingStep.value, isTransitioning := false, pendingStep := None)
    else st
  }

  /** The completion record, or None where one of the source's non-null
      assertions on a `find` would fail. */
  function Completion(t: Tables, st: WizardState): Option<CharacterChoices>
  {
    var o := FindIndex(OriginIds(t), st.origin);
    var b := FindIndex(BeliefIds(t), st.belief);
    var f := FindIndex(FactionIds(t), st.faction);
    if o.None? || b.None? || f.None? then None
    else Some(CharacterChoices(Trim(st.name), t.origins[o.value].title, t.beliefs[b.value].title,
                               t.factions[f.value].title, t.factions[f.value].gift))
  }

  /** `handleContinue`: the new state and what was passed to `onComplete`. */
  function AfterContinue(t: Tables, st: WizardState): (WizardState, Option<CharacterChoices>)
  {
    if !CanContinue(st) then (st, None)
    else if st.step < TotalSteps - 1 then (RequestTransition(st, st.step + 1), None)
    else (st, Completion(t, st))
  }

  /** `handleBack`. */
  function AfterBack(st: WizardState): WizardState
  {
    if st.step > 0 then RequestTransition(st, st.step - 1) else st
  }

  /** Continue, back and the timer keep the wizard valid. */
  lemma StepsKeepValid(t: Tables, st: WizardState)
    requires WizardValid(t, st)
    ensures WizardValid(t, AfterContinue(t, st).0)
    ensures WizardValid(t, AfterBack(st))
    ensures WizardValid(t, AfterElapsed(st))
  {
  }

  /** Choosing a card, or typing a name, keeps the wizard valid. */
  lemma SelectionsKeepValid(t: Tables, st: WizardState, k: nat, name: string)
    requires WizardValid(t, st)
    ensures k < |t.origins| ==> WizardValid(t, st.(origin := Some(t.origins[k].id)))
    ensures k < |t.beliefs| ==> WizardValid(t, st.(belief := Some(t.beliefs[k].id)))
    ensures k < |t.factions| ==> WizardValid(t, st.(faction := Some(t.factions[k].id)))
    ensures WizardValid(t, st.(name := name))
  {
    if k < |t.origins| { assert OriginIds(t)[k] == t.origins[k].id; }
    if k < |t.beliefs| { assert BeliefIds(t)[k] == t.beliefs[k].id; }
    if k < |t.factions| { assert FactionIds(t)[k] == t.factions[k].id; }
  }

  /** Continue does nothing until the current step's choice is made; before
      the last step it moves exactly one step on once its timer fires, and is
      ignored while a transition runs; on the last step it does not move and
      always produces the record (the non-null assertions never fail). */
  lemma ContinueSpec(t: Tables, st: WizardState)
    requires WizardValid(t, st)
    ensures !CanContinue(st) ==> AfterContinue(t, st) == (st, None)
    ensures CanContinue(st) && st.step < TotalSteps - 1 && !st.isTransitioning ==>
      AfterContinue(t, st).1.None? && AfterElapsed(AfterContinue(t, st).0).step == st.step + 1
    ensures st.isTransitioning && st.step < TotalSteps - 1 ==> AfterContinue(t, st) == (st, None)
    ensures st.step == TotalSteps - 1 && st.faction.Some? ==>
      AfterContinue(t, st).0 == st && AfterContinue(t, st).1.Some?
  {
  }

  /** Back moves exactly one step down once its timer fires, never below the
      first step, and is ignored while a transition runs. */
  lemma BackSpec(st: WizardState)
    ensures st.step <= 0 || st.isTransitioning ==> AfterBack(st) == st
    ensures st.step > 0 && !st.isTransitioning ==> AfterElapsed(AfterBack(st)).step == st.step - 1
  {
  }

  /** A table whose ids are, in order, a list of distinct strings has
      distinct ids. */
  lemma DistinctIdsOf<T>(entries: seq<T>, key: T -> string, ids: seq<string>)
    requires |entries| == |ids| && DistinctIds(ids)
    requires forall k :: 0 <= k < |ids| ==> key(entries[k]) == ids[k]
    ensures DistinctIds(Ids(entries, key))
  {
  }

  /** The game's own tables name every origin, belief and faction once
      (`CreationTables()` is made of exactly these three tables). */
  lemma OriginIdsDistinct()
    ensures DistinctIds(Ids(Origins(), OriginId))
  {
    var os := Origins();
    assert |os| == 4 && os[0].id == "dying-world" && os[1].id == "spell-gone-wrong" &&
      os[2].id == "pursued" && os[3].id == "simply-lost";
    DistinctIdsOf(os, OriginId, ["dying-world", "spell-gone-wrong", "pursued", "simply-lost"]);
  }

  lemma BeliefIdsDistinct()
    ensures DistinctIds(Ids(Beliefs(), BeliefId))
  {
    var bs := Beliefs();
    assert |bs| == 4 && bs[0].id == "strength" && bs[1].id == "knowledge" &&
      bs[2].id == "nature" && bs[3].id == "freedom";
    DistinctIdsOf(bs, BeliefId, ["strength", "knowledge", "nature", "freedom"]);
  }

  lemma FactionIdsDistinct()
    ensures DistinctIds(Ids(Factions(), FactionId))
  {
    var fs := Factions();
    assert |fs| == 8 && fs[0].id == "elves" && fs[1].id == "dwarves" && fs[2].id == "durgan" &&
      fs[3].id == "pirates" && fs[4].id == "igypt" && fs[5].id == "dragons" &&
      fs[6].id == "orks" && fs[7].id == "druids";
    DistinctIdsOf(fs, FactionId,
      ["elves", "dwarves", "durgan", "pirates", "igypt", "dragons", "orks", "druids"]);
  }

  /** When the tables' ids are distinct, the record carries the trimmed name,
      the titles of the chosen origin, belief and faction cards, and the
      faction's gift. */
  lemma CompletionSpec(t: Tables, st: WizardState, i: nat, j: nat, k: nat)
    requires DistinctIds(OriginIds(t)) && DistinctIds(BeliefIds(t)) && DistinctIds(FactionIds(t))
    requires i < |t.origins| && j < |t.beliefs| && k < |t.factions|
    requires st.origin == Some(t.origins[i].id) && st.belief == Some(t.beliefs[j].id)
    requires st.faction == Some(t.factions[k].id)
    ensures Completion(t, st) == Some(CharacterChoices(Trim(st.name), t.origins[i].title, t.beliefs[j].title,
                                                       t.factions[k].title, t.factions[k].gift))
  {
    FindIndexOfDistinct(OriginIds(t), i);
    FindIndexOfDistinct(BeliefIds(t), j);
    FindIndexOfDistinct(FactionIds(t), k);
  }

  class Wizard {
    const tables: Tables
    var step: int
    var isTransitioning: bool
    var pendingStep: Option<int>
    var name: string
    var origin: Option<string>
    var belief: Option<string>
    var faction: Option<string>

    function Snapshot(): WizardState
      reads this
    {
      WizardState(step, isTransitioning, pendingStep, name, origin, belief, faction)
    }

    predicate Valid()
      reads this
    {
      WizardValid(tables, Snapshot())
    }

    /** The screen builds it over `CreationTables()`. */
    constructor (t: Tables)
      ensures tables == t && Valid() && Snapshot() == InitialWizard()
    {
      tables := t;
      step, isTransitioning, pendingStep := 0, false, None;
      name, origin, belief, faction := "", None, None, None;
    }

    /** The name field; the input accepts at most 40 characters. */
    method SetName(value: string)
      requires Valid() && |value| <= NameMaxLength
      modifies this
      ensures Valid() && Snapshot() == old(Snapshot()).(name := value)
    {
      SelectionsKeepValid(tables, Snapshot(), 0, value);
      name := value;
    }

    /** Clicking the k-th origin card. */
    method SelectOrigin(k: nat)
      requires Valid() && k < |tables.origins|
      modifies this
      ensures Valid() && Snapshot() == old(Snapshot()).(origin := Some(tables.origins[k].id))
    {
      SelectionsKeepValid(tables, Snapshot(), k, name);
      origin := Some(tables.origins[k].id);
    }

    method SelectBelief(k: nat)
      requires Valid() && k < |tables.beliefs|
      modifies this
      ensures Valid() && Snapshot() == old(Snapshot()).(belief := Some(tables.beliefs[k].id))
    {
      SelectionsKeepValid(tables, Snapshot(), k, name);
      belief := Some(tables.beliefs[k].id);
    }

    method SelectFaction(k: nat)
      requires Valid() && k < |tables.factions|
      modifies this
      ensures Valid() && Snapshot() == old(Snapshot()).(faction := Some(tables.factions[k].id))
    {
      SelectionsKeepValid(tables, Snapshot(), k, name);
      faction := Some(tables.factions[k].id);
    }

    method RequestStep(target: int)
      modifies this
      ensures Snapshot() == RequestTransition(old(Snapshot()), target)
    {
      if isTransitioning {
        return;
      }
      isTransitioning := true;
      pendingStep := Some(target);
    }

    /** `handleContinue`; returns what was passed to `onComplete`, if anything. */
    method Continue() returns (completed: Option<CharacterChoices>)
      requires Valid()
      modifies this
      ensures Valid()
      ensures (Snapshot(), completed) == AfterContinue(tables, old(Snapshot()))
    {
      StepsKeepValid(tables, Snapshot());
      if !CanContinue(Snapshot()) {
        return None;
      }
      if step < TotalSteps - 1 {
        RequestStep(step + 1);
        completed := None;
      } else {
        completed := Completion(tables, Snapshot());
      }
    }

    method Back()
      requires Valid()
      modifies this
      ensures Valid()
      ensures Snapshot() == AfterBack(old(Snapshot()))
    {
      StepsKeepValid(tables, Snapshot());
      if step > 0 {
        RequestStep(step - 1);
      }
    }

    /** The 200 ms transition timer fires. */
    method TransitionElapsed()
      requires Valid()
      modifies this
      ensures Valid()
      ensures Snapshot() == AfterElapsed(old(Snapshot()))
    {
      StepsKeepValid(tables, Snapshot());
      if pendingStep.Some? {
        step := pendingStep.value;
        isTransitioning := false;
        pendingStep := None;
      }
    }
  }
}

/**
 * The in-memory data model of the story: characters with emotions, beliefs,
 * goals and estimates of what the other characters believe, and the world
 * that owns them together with a free-form state store and an event history.
 */
module CharacterWorld {

  /** A world-state value: whatever JSON value the narrator sends back. */
  datatype Json =
    | Null
    | Bool(b: bool)
    | Number(n: real)
    | Str(s: string)
    | Array(items: seq<Json>)
    | Object(fields: seq<(string, Json)>)

  /** Largest change `initialize_theory_of_mind` applies to a belief when seeding an estimate. */
  const MaxVariation: real := 0.2

  /** Number of history entries a prompt snapshot shows. */
  const RecentHistoryLength: nat := 5

  /** `max(0.0, min(1.0, v))`: the value pulled into the unit interval. */
  function Clamp(v: real): (r: real)
    ensures 0.0 <= r <= 1.0
    ensures 0.0 <= v <= 1.0 ==> r == v
    ensures v < 0.0 ==> r == 0.0
    ensures v > 1.0 ==> r == 1.0
  {
    var capped := if v < 1.0 then v else 1.0;
    if capped > 0.0 then capped else 0.0
  }

  predicate UnitValues(m: map<string, real>) {
    forall k :: k in m ==> 0.0 <= m[k] <= 1.0
  }

  predicate UnitNested(m: map<string, map<string, real>>) {
    forall o :: o in m ==> UnitValues(m[o])
  }

  /** Everything a character knows and feels; also its prompt snapshot. */
  datatype CharacterState = CharacterState(
    name: string,
    emotions: map<string, real>,
    beliefs: map<string, real>,
    theoryOfMind: map<string, map<string, real>>,
    goals: map<string, map<string, real>>)

  /** The fields `update_state` always clamps hold values in [0,1]. */
  predicate ClampedFieldsInRange(s: CharacterState) {
    UnitValues(s.beliefs) && UnitNested(s.theoryOfMind) && UnitNested(s.goals)
  }

  /** The range invariant the data model intends: every number in [0,1]. */
  predicate InRange(s: CharacterState) {
    UnitValues(s.emotions) && ClampedFieldsInRange(s)
  }

  /**
   * The emotion merge of `update_state`: a supplied key already present is
   * set to the clamped value, a supplied key not yet present is added raw.
   */
  function MergeEmotions(cur: map<string, real>, upd: map<string, real>): (r: map<string, real>)
    ensures r.Keys == cur.Keys + upd.Keys
    ensures forall k :: k in upd && k in cur ==> r[k] == Clamp(upd[k])
    ensures forall k :: k in upd && k !in cur ==> r[k] == upd[k]
    ensures forall k :: k in cur && k !in upd ==> r[k] == cur[k]
  {
    map k | k in cur.Keys + upd.Keys ::
      if k in upd then (if k in cur then Clamp(upd[k]) else upd[k]) else cur[k]
  }

  /** The belief merge of `update_state`: every supplied key is stored clamped. */
  function MergeClamped(cur: map<string, real>, upd: map<string, real>): (r: map<string, real>)
    ensures r.Keys == cur.Keys + upd.Keys
    ensures forall k :: k in upd ==> r[k] == Clamp(upd[k])
    ensures forall k :: k in cur && k !in upd ==> r[k] == cur[k]
    ensures UnitValues(cur) ==> UnitValues(r)
  {
    map k | k in cur.Keys + upd.Keys :: if k in upd then Clamp(upd[k]) else cur[k]
  }

  /**
   * The theory-of-mind and goal merge of `update_state`: a missing outer key
   * starts as an empty map, then every supplied inner value is stored
   * clamped. What it keeps and what it changes is `NestedMergeEntries`.
   */
  function MergeNested(cur: map<string, map<string, real>>, upd: map<string, map<string, real>>)
    : map<string, map<string, real>>
  {
    map o | o in cur.Keys + upd.Keys ::
      if o in upd then MergeClamped(if o in cur then cur[o] else map[], upd[o]) else cur[o]
  }

  /**
   * After the nested merge, every supplied inner value is stored clamped,
   * every other inner and outer entry is kept, and values in [0,1] stay there.
   */
  lemma NestedMergeEntries(cur: map<string, map<string, real>>, upd: map<string, map<string, real>>)
    ensures var r := MergeNested(cur, upd);
            && r.Keys == cur.Keys + upd.Keys
            && (forall o :: o in upd && o !in cur ==> r[o].Keys == upd[o].Keys)
            && (forall o :: o in upd && o in cur ==> r[o].Keys == cur[o].Keys + upd[o].Keys)
            && (forall o, k :: o in upd && k in upd[o] ==> r[o][k] == Clamp(upd[o][k]))
            && (forall o, k :: o in upd && o in cur && k in cur[o] && k !in upd[o] ==> r[o][k] == cur[o][k])
            && (forall o :: o in cur && o !in upd ==> r[o] == cur[o])
            && (UnitNested(cur) ==> UnitNested(r))
  {
  }

  /** The state after `update_state(newEmotions, newBeliefs, newTom, newGoals)`. */
  function Updated(s: CharacterState, newEmotions: map<string, real>, newBeliefs: map<string, real>,
                   newTom: map<string, map<string, real>>, newGoals: map<string, map<string, real>>)
    : (r: CharacterState)
    ensures r.name == s.name
    ensures ClampedFieldsInRange(s) ==> ClampedFieldsInRange(r)
    ensures newEmotions == map[] && newBeliefs == map[] && newTom == map[] && newGoals == map[] ==> r == s
  {
    NestedMergeEntries(s.theoryOfMind, newTom);
    NestedMergeEntries(s.goals, newGoals);
    CharacterState(s.name,
                   MergeEmotions(s.emotions, newEmotions),
                   MergeClamped(s.beliefs, newBeliefs),
                   MergeNested(s.theoryOfMind, newTom),
                   MergeNested(s.goals, newGoals))
  }

  /**
   * The full range invariant survives an update exactly when no emotion key
   * is introduced with a value outside [0,1].
   */
  lemma UpdateKeepsRange(s: CharacterState, newEmotions: map<string, real>, newBeliefs: map<string, real>,
                         newTom: map<string, map<string, real>>, newGoals: map<string, map<string, real>>)
    requires InRange(s)
    ensures InRange(Updated(s, newEmotions, newBeliefs, newTom, newGoals))
            <==> forall k :: k in newEmotions && k !in s.emotions ==> 0.0 <= newEmotions[k] <= 1.0
  {
    var r := Updated(s, newEmotions, newBeliefs, newTom, newGoals);
    if forall k :: k in newEmotions && k !in s.emotions ==> 0.0 <= newEmotions[k] <= 1.0 {
      assert UnitValues(r.emotions);
    } else {
      var k :| k in newEmotions && k !in s.emotions && !(0.0 <= newEmotions[k] <= 1.0);
      assert r.emotions[k] == newEmotions[k];
    }
  }

  /** One seeded estimate: each own belief moved by its draw and clamped. */
  function Estimate(beliefs: map<string, real>, i: nat, variation: (nat, string) -> real)
    : (r: map<string, real>)
    ensures r.Keys == beliefs.Keys
    ensures UnitValues(r)
    ensures forall k :: k in beliefs && 0.0 <= beliefs[k] <= 1.0
                        && -MaxVariation <= variation(i, k) <= MaxVariation
                        ==> -MaxVariation <= r[k] - beliefs[k] <= MaxVariation
  {
    map k | k in beliefs :: Clamp(beliefs[k] + variation(i, k))
  }

  /** The estimate for the i-th other, built one belief at a time from an empty entry. */
  method StoreEstimate(beliefs: map<string, real>, i: nat, variation: (nat, string) -> real)
    returns (estimate: map<string, real>)
    ensures estimate == Estimate(beliefs, i, variation)
  {
    estimate := map[];
    var pending := beliefs.Keys;
    while pending != {}
      invariant pending <= beliefs.Keys
      invariant estimate.Keys == beliefs.Keys - pending
      invariant forall k :: k in estimate ==> estimate[k] == Clamp(beliefs[k] + variation(i, k))
      decreases pending
    {
      var k :| k in pending;
      estimate := estimate[k := Clamp(beliefs[k] + variation(i, k))];
      pending := pending - {k};
    }
  }

  /**
   * The theory of mind after `initialize_theory_of_mind` walks `others` (their
   * names, in order): every name other than `own` gets a fresh estimate that
   * replaces any previous one, and the draws for the i-th other are `variation(i, _)`.
   */
  function SeedTheoryOfMind(tom: map<string, map<string, real>>, own: string, beliefs: map<string, real>,
                            others: seq<string>, variation: (nat, string) -> real)
    : (r: map<string, map<string, real>>)
    ensures forall n :: n in r ==> n in tom || (n in others && n != own)
    ensures forall n :: n in tom ==> n in r
    decreases |others|
  {
    if others == [] then tom
    else
      var last := |others| - 1;
      var earlier := SeedTheoryOfMind(tom, own, beliefs, others[..last], variation);
      if others[last] == own then earlier
      else earlier[others[last] := Estimate(beliefs, last, variation)]
  }

  /** Seeding one more name: the new entry is the estimate drawn at that name's position. */
  lemma SeedStep(tom: map<string, map<string, real>>, own: string, beliefs: map<string, real>,
                 others: seq<string>, i: nat, variation: (nat, string) -> real)
    requires i < |others|
    ensures var earlier := SeedTheoryOfMind(tom, own, beliefs, others[..i], variation);
            SeedTheoryOfMind(tom, own, beliefs, others[..i + 1], variation)
            == if others[i] == own then earlier else earlier[others[i] := Estimate(beliefs, i, variation)]
  {
    assert others[..i + 1][..i] == others[..i];
  }

  /** A name that is not among the others (or is the character's own) keeps its previous entry. */
  lemma {:induction false} SeedKeepsUnnamed(tom: map<string, map<string, real>>, own: string, beliefs: map<string, real>,
                                            others: seq<string>, variation: (nat, string) -> real, n: string)
    requires n in tom
    requires n == own || n !in others
    ensures SeedTheoryOfMind(tom, own, beliefs, others, variation)[n] == tom[n]
    decreases |others|
  {
    if others != [] {
      var last := |others| - 1;
      SeedKeepsUnnamed(tom, own, beliefs, others[..last], variation, n);
    }
  }

  /** Every other character, except one bearing the caller's own name, gets an estimate of exactly the caller's belief keys, in [0,1]. */
  lemma {:induction false} SeedCoversOthers(tom: map<string, map<string, real>>, own: string, beliefs: map<string, real>,
                                            others: seq<string>, variation: (nat, string) -> real, n: string)
    requires n in others && n != own
    ensures var r := SeedTheoryOfMind(tom, own, beliefs, others, variation);
            n in r && r[n].Keys == beliefs.Keys && UnitValues(r[n])
    decreases |others|
  {
    var last := |others| - 1;
    if n != others[last] {
      var i :| 0 <= i < |others| && others[i] == n;
      assert others[..last][i] == n;
      SeedCoversOthers(tom, own, beliefs, others[..last], variation, n);
    }
  }

  /**
   * The entry for the i-th other, when no later other has the same name, is
   * that character's estimate: a repeated name is replaced wholesale.
   */
  lemma {:induction false} SeedUsesLastDraw(tom: map<string, map<string, real>>, own: string, beliefs: map<string, real>,
                                            others: seq<string>, variation: (nat, string) -> real, i: nat)
    requires i < |others| && others[i] != own
    requires forall j :: i < j < |others| ==> others[j] != others[i]
    ensures var r := SeedTheoryOfMind(tom, own, beliefs, others, variation);
            others[i] in r && r[others[i]] == Estimate(beliefs, i, variation)
    decreases |others|
  {
    var last := |others| - 1;
    var prefix := others[..last];
    if i < last {
      assert others[last] != others[i];
      assert forall j :: i < j < last ==> prefix[j] == others[j];
      SeedUsesLastDraw(tom, own, beliefs, prefix, variation, i);
      assert prefix[i] == others[i];
    }
  }

  /** Every seeded estimate lies within `MaxVariation` of the seeding character's own in-range belief. */
  lemma {:induction false} SeededEstimateNearOwnBelief(
    tom: map<string, map<string, real>>, own: string, beliefs: map<string, real>,
    others: seq<string>, variation: (nat, string) -> real, n: string, k: string)
    requires n in others && n != own
    requires k in beliefs && 0.0 <= beliefs[k] <= 1.0
    requires forall i, k' :: -MaxVariation <= variation(i, k') <= MaxVariation
    ensures var r := SeedTheoryOfMind(tom, own, beliefs, others, variation);
            n in r && k in r[n] && -MaxVariation <= r[n][k] - beliefs[k] <= MaxVariation
    decreases |others|
  {
    var last := |others| - 1;
    if n != others[last] {
      var i :| 0 <= i < |others| && others[i] == n;
      assert others[..last][i] == n;
      SeededEstimateNearOwnBelief(tom, own, beliefs, others[..last], variation, n, k);
    }
  }

  /** The names of `cs`, in order. */
  function Names(cs: seq<Character>): (r: seq<string>)
    ensures |r| == |cs|
    ensures forall i :: 0 <= i < |cs| ==> r[i] == cs[i].name
  {
    if cs == [] then [] else Names(cs[..|cs| - 1]) + [cs[|cs| - 1].name]
  }

  /**
   * The `characters` table the World constructor builds: keyed by name, and
   * when two characters share a name the later one in `cs` is kept.
   */
  function Table(cs: seq<Character>): (t: map<string, Character>)
    ensures forall n :: n in t ==> t[n].name == n
    decreases |cs|
  {
    if cs == [] then map[]
    else
      var last := cs[|cs| - 1];
      Table(cs[..|cs| - 1])[last.name := last]
  }

  /** Every entry of the table is one of the given characters. */
  lemma {:induction false} TableEntriesFromList(cs: seq<Character>, n: string)
    requires n in Table(cs)
    ensures Table(cs)[n] in cs
    decreases |cs|
  {
    var last := |cs| - 1;
    if cs[last].name != n {
      TableEntriesFromList(cs[..last], n);
    }
  }

  /**
   * Every given character's name is a key, and the character filed under it
   * is the last one in `cs` bearing that name.
   */
  lemma {:induction false} TableKeepsLast(cs: seq<Character>, i: nat)
    requires i < |cs|
    requires forall j :: i < j < |cs| ==> cs[j].name != cs[i].name
    ensures cs[i].name in Table(cs) && Table(cs)[cs[i].name] == cs[i]
    decreases |cs|
  {
    var last := |cs| - 1;
    var prefix := cs[..last];
    if i < last {
      assert cs[last].name != cs[i].name;
      assert forall j :: i < j < last ==> prefix[j] == cs[j];
      TableKeepsLast(prefix, i);
      assert prefix[i] == cs[i];
    }
  }

  /** Every given character's name is a key of the table. */
  lemma {:induction false} TableHasEveryName(cs: seq<Character>, i: nat)
    requires i < |cs|
    ensures cs[i].name in Table(cs)
    decreases |cs|
  {
    var last := |cs| - 1;
    if i < last {
      assert cs[..last][i] == cs[i];
      TableHasEveryName(cs[..last], i);
    }
  }

  /** `history[-5:] if history else []`: the last entries a snapshot shows. */
  function RecentHistory(history: seq<string>): (r: seq<string>)
    ensures |r| == if |history| < RecentHistoryLength then |history| else RecentHistoryLength
    ensures forall i :: 0 <= i < |r| ==> r[i] == history[|history| - |r| + i]
  {
    if |history| == 0 then []
    else if |history| <= RecentHistoryLength then history
    else history[|history| - RecentHistoryLength..]
  }

  /** The whole of a world, with its characters as values. */
  datatype WorldState = WorldState(
    setting: string,
    background: string,
    state: map<string, Json>,
    history: seq<string>,
    characters: map<string, CharacterState>)

  /** What `World.get_state_for_prompt` returns. */
  datatype WorldView = WorldView(
    setting: string,
    background: string,
    state: map<string, Json>,
    characters: map<string, CharacterState>,
    recentHistory: seq<string>)

  /** The prompt snapshot of a world: everything but the history, which is cut to its recent tail. */
  function ViewOf(w: WorldState): (v: WorldView)
    ensures v.setting == w.setting && v.background == w.background
    ensures v.state == w.state && v.characters == w.characters
    ensures v.recentHistory == RecentHistory(w.history)
  {
    WorldView(w.setting, w.background, w.state, w.characters, RecentHistory(w.history))
  }

  /** After seven events the snapshot shows exactly the last five, oldest first. */
  lemma SnapshotShowsLastFive(e: seq<string>)
    requires |e| == 7
    ensures RecentHistory(e) == e[2..]
  {
    assert |RecentHistory(e)| == 5;
  }

  class Character {
    const name: string
    var emotions: map<string, real>
    var beliefs: map<string, real>
    var goals: map<string, map<string, real>>
    var theoryOfMind: map<string, map<string, real>>

    /** A character owns its initial maps; its theory of mind starts empty. */
    constructor (name: string, initialEmotions: map<string, real>, initialBeliefs: map<string, real>,
                 initialGoals: map<string, map<string, real>>)
      ensures State() == CharacterState(name, initialEmotions, initialBeliefs, map[], initialGoals)
    {
      this.name := name;
      emotions := initialEmotions;
      beliefs := initialBeliefs;
      goals := initialGoals;
      theoryOfMind := map[];
    }

    /** `get_state_for_prompt`: the character's state as a value. */
    function State(): CharacterState
      reads this
    {
      CharacterState(name, emotions, beliefs, theoryOfMind, goals)
    }

    /**
     * Seeds an estimate of every other character's beliefs from this
     * character's own; `variation(i, k)` is the random draw for belief `k`
     * of the i-th character in `others`.
     */
    method InitializeTheoryOfMind(others: seq<Character>, variation: (nat, string) -> real)
      modifies this
      ensures theoryOfMind == SeedTheoryOfMind(old(theoryOfMind), name, beliefs, Names(others), variation)
      ensures emotions == old(emotions) && beliefs == old(beliefs) && goals == old(goals)
    {
      ghost var names := Names(others);
      ghost var seeded := theoryOfMind;
      var i := 0;
      while i < |others|
        invariant 0 <= i <= |others|
        invariant emotions == old(emotions) && beliefs == old(beliefs) && goals == old(goals)
        invariant theoryOfMind == SeedTheoryOfMind(seeded, name, beliefs, names[..i], variation)
      {
        SeedStep(seeded, name, beliefs, names, i, variation);
        var other := others[i].name;
        if other != name {
          var estimate := StoreEstimate(beliefs, i, variation);
          theoryOfMind := theoryOfMind[other := estimate];
        }
        i := i + 1;
      }
      assert names[..|others|] == names;
    }

    /**
     * Merges four partial updates into the character's state in place:
     * emotions by `MergeEmotions`, beliefs by `MergeClamped`, theory of mind
     * and goals by `MergeNested`; the name never changes.
     */
    method UpdateState(newEmotions: map<string, real>, newBeliefs: map<string, real>,
                       newTom: map<string, map<string, real>>, newGoals: map<string, map<string, real>>)
      modifies this
      ensures State() == Updated(old(State()), newEmotions, newBeliefs, newTom, newGoals)
    {
      emotions := StoreEmotions(emotions, newEmotions);
      beliefs := StoreClamped(beliefs, newBeliefs);
      theoryOfMind := StoreNested(theoryOfMind, newTom);
      goals := StoreNested(goals, newGoals);
    }
  }

  /** The emotion loop of `update_state`, run on the field's value. */
  method StoreEmotions(cur: map<string, real>, upd: map<string, real>) returns (r: map<string, real>)
    ensures r == MergeEmotions(cur, upd)
  {
    r := cur;
    var pending := upd.Keys;
    while pending != {}
      invariant pending <= upd.Keys
      invariant r.Keys == cur.Keys + (upd.Keys - pending)
      invariant forall k :: k in r && k in upd && k !in pending ==>
                  r[k] == if k in cur then Clamp(upd[k]) else upd[k]
      invariant forall k :: k in r && (k !in upd || k in pending) ==> r[k] == cur[k]
      decreases pending
    {
      var k :| k in pending;
      if k in r {
        r := r[k := Clamp(upd[k])];
      } else {
        r := r[k := upd[k]];
      }
      pending := pending - {k};
    }
  }

  /** The belief loop of `update_state` (and the inner loop of the nested ones), run on a map value. */
  method StoreClamped(cur: map<string, real>, upd: map<string, real>) returns (r: map<string, real>)
    ensures r == MergeClamped(cur, upd)
  {
    r := cur;
    var pending := upd.Keys;
    while pending != {}
      invariant pending <= upd.Keys
      invariant r.Keys == cur.Keys + (upd.Keys - pending)
      invariant forall k :: k in r && k in upd && k !in pending ==> r[k] == Clamp(upd[k])
      invariant forall k :: k in r && (k !in upd || k in pending) ==> r[k] == cur[k]
      decreases pending
    {
      var k :| k in pending;
      r := r[k := Clamp(upd[k])];
      pending := pending - {k};
    }
  }

  /** The theory-of-mind and goal loops of `update_state`, run on the field's value. */
  method StoreNested(cur: map<string, map<string, real>>, upd: map<string, map<string, real>>)
    returns (r: map<string, map<string, real>>)
    ensures r == MergeNested(cur, upd)
  {
    ghost var merged := MergeNested(cur, upd);
    r := cur;
    var pending := upd.Keys;
    while pending != {}
      invariant pending <= upd.Keys
      invariant r.Keys == cur.Keys + (upd.Keys - pending)
      invariant forall o :: o in r ==> r[o] == if o in pending || o !in upd then cur[o] else merged[o]
      decreases pending
    {
      var o :| o in pending;
      var entry := if o in r then r[o] else map[];
      var inner := StoreClamped(entry, upd[o]);
      r := r[o := inner];
      pending := pending - {o};
    }
    assert r.Keys == merged.Keys;
  }


  /** `c` is `s` with its theory of mind seeded from the cast `names` by the draws `variation`. */
  ghost predicate SeededFrom(c: Character, s: CharacterState, names: seq<string>, variation: (nat, string) -> real)
    reads c
  {
    && c.name == s.name
    && c.theoryOfMind == SeedTheoryOfMind(s.theoryOfMind, s.name, s.beliefs, names, variation)
    && c.emotions == s.emotions && c.beliefs == s.beliefs && c.goals == s.goals
  }

  /** The seeding loop of the World constructor: every character seeds its theory of mind from the whole cast. */
  method SeedCast(cs: seq<Character>, variations: seq<(nat, string) -> real>)
    requires |variations| == |cs|
    requires forall i, j :: 0 <= i < j < |cs| ==> cs[i] != cs[j]
    modifies set c | c in cs
    ensures forall j :: 0 <= j < |cs| ==> SeededFrom(cs[j], old(cs[j].State()), Names(cs), variations[j])
  {
    ghost var names := Names(cs);
    var j := 0;
    while j < |cs|
      invariant 0 <= j <= |cs|
      invariant forall i :: 0 <= i < j ==> SeededFrom(cs[i], old(cs[i].State()), names, variations[i])
      invariant forall i :: j <= i < |cs| ==> cs[i].State() == old(cs[i].State())
    {
      cs[j].InitializeTheoryOfMind(cs, variations[j]);
      forall i | 0 <= i < |cs| && i != j
        ensures cs[i] != cs[j]
      {
        if i < j { assert cs[i] != cs[j]; } else { assert cs[j] != cs[i]; }
      }
      j := j + 1;
    }
  }

  class World {
    const setting: string
    const background: string
    const characters: map<string, Character>
    var state: map<string, Json>
    var history: seq<string>

    /** Every character is filed under its own name. */
    ghost predicate Valid() {
      forall n :: n in characters ==> characters[n].name == n
    }

    /**
     * Files the characters by name (the later of two same-named characters
     * wins), starts with an empty state and history, and seeds every
     * character's theory of mind from the whole cast; `variations[j]` holds
     * the random draws of the j-th character.
     */
    constructor (setting: string, background: string, cs: seq<Character>,
                 variations: seq<(nat, string) -> real>)
      requires |variations| == |cs|
      requires forall i, j :: 0 <= i < j < |cs| ==> cs[i] != cs[j]
      modifies set c | c in cs
      ensures Valid()
      ensures this.setting == setting && this.background == background
      ensures characters == Table(cs)
      ensures state == map[] && history == []
      ensures forall j :: 0 <= j < |cs| ==> SeededFrom(cs[j], old(cs[j].State()), Names(cs), variations[j])
    {
      this.setting := setting;
      this.background := background;
      characters := Table(cs);
      state := map[];
      history := [];
      new;
      SeedCast(cs, variations);
    }

    /** The world as a value. */
    function Model(): WorldState
      reads this, characters.Values
    {
      WorldState(setting, background, state, history, map n | n in characters :: characters[n].State())
    }

    /** `get_state_for_prompt`. */
    function StateForPrompt(): (v: WorldView)
      reads this, characters.Values
      ensures v == ViewOf(Model())
    {
      WorldView(setting, background, state, map n | n in characters :: characters[n].State(),
                RecentHistory(history))
    }

    /** Overwrites every supplied key, unclamped, and keeps the others. */
    method UpdateWorldState(newState: map<string, Json>)
      modifies this
      ensures state == old(state) + newState
      ensures history == old(history)
    {
      var pending := newState.Keys;
      while pending != {}
        invariant pending <= newState.Keys
        invariant history == old(history)
        invariant state == old(state) + map k | k in newState.Keys - pending :: newState[k]
        decreases pending
      {
        var k :| k in pending;
        state := state[k := newState[k]];
        pending := pending - {k};
      }
    }

    /** Appends one event; earlier entries are kept as they were. */
    method AddToHistory(event: string)
      modifies this
      ensures history == old(history) + [event]
      ensures state == old(state)
    {
      history := history + [event];
    }
  }
}

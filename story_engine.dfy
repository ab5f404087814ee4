/**
 * The turn loop of the story: what happens to the world after the narrator
 * has answered a player's input, or has chosen what the non-player
 * characters do, and the test that ends the interactive session.
 *
 * The narrator and the appraiser are remote language-model services. Their
 * parsed replies come in as values: a narrator reply is a parameter, the
 * appraiser a function from a character, a world snapshot and an action text
 * to a parsed reply.
 */
module Story {
  import opened Wrappers
  import opened CharacterWorld

  /** A parsed appraisal reply; a key the reply leaves out is `None`. */
  datatype Appraisal = Appraisal(
    emotionalUpdates: Option<map<string, real>>,
    beliefUpdates: Option<map<string, real>>,
    theoryOfMindUpdates: Option<map<string, map<string, real>>>,
    goalUpdates: Option<map<string, map<string, real>>>)

  /** What `appraise_action` answers when the request or the parsing of its reply raises. */
  const NoUpdates: Appraisal := Appraisal(Some(map[]), Some(map[]), Some(map[]), Some(map[]))

  /** The remote appraisal: a parsed reply, or `None` when the request or the parsing raised. */
  type Appraiser = (CharacterState, WorldView, string) -> Option<Appraisal>

  /** A parsed narrator reply; a key the reply leaves out is `None`. */
  datatype TurnResult = TurnResult(
    narrative: Option<string>,
    characterActions: Option<seq<(string, string)>>,
    worldStateUpdates: Option<map<string, Json>>)

  /** What a turn returns: the text to show, and the parsed reply (`None` for the empty dict after an error). */
  datatype Reply = Reply(text: string, result: Option<TurnResult>)

  const PlayerErrorPrefix: string := "Error processing your input: "
  const NpcErrorPrefix: string := "Error generating NPC actions: "

  /** The message of the `KeyError` raised when a narrator reply has no "narrative". */
  const MissingNarrative: string := "'narrative'"

  /** The updates a character receives for an action; a failed appraisal gives all-empty updates. */
  function AppraiseAction(appraiser: Appraiser, c: CharacterState, view: WorldView, action: string): (a: Appraisal)
    ensures appraiser(c, view, action).None? ==> ApplyAppraisal(c, a) == c
  {
    match appraiser(c, view, action)
    case Some(reply) => reply
    case None => NoUpdates
  }

  /**
   * `update_state` fed from an appraisal, each missing key read as `{}`;
   * a reply that supplies no non-empty update leaves the character as it was.
   */
  function ApplyAppraisal(c: CharacterState, a: Appraisal): (r: CharacterState)
    ensures r.name == c.name
    ensures ClampedFieldsInRange(c) ==> ClampedFieldsInRange(r)
    ensures a.emotionalUpdates.GetOr(map[]) == map[] && a.beliefUpdates.GetOr(map[]) == map[]
            && a.theoryOfMindUpdates.GetOr(map[]) == map[] && a.goalUpdates.GetOr(map[]) == map[]
            ==> r == c
  {
    Updated(c, a.emotionalUpdates.GetOr(map[]), a.beliefUpdates.GetOr(map[]),
            a.theoryOfMindUpdates.GetOr(map[]), a.goalUpdates.GetOr(map[]))
  }

  /** Whether `character_actions` may touch the character `name`: a known character that the player does not control. */
  predicate Appraised(w: WorldState, player: string, name: string) {
    name in w.characters && name != player
  }

  /**
   * The effect of one entry of `character_actions`: at most the named
   * character changes, and an entry naming an unknown character or the
   * player changes nothing.
   */
  function ReactTo(w: WorldState, player: string, name: string, action: string, appraiser: Appraiser)
    : (r: WorldState)
    ensures r.setting == w.setting && r.background == w.background
    ensures r.state == w.state && r.history == w.history
    ensures r.characters.Keys == w.characters.Keys
    ensures forall n :: n in w.characters && n != name ==> r.characters[n] == w.characters[n]
    ensures !Appraised(w, player, name) ==> r == w
  {
    if Appraised(w, player, name) then
      var c := w.characters[name];
      w.(characters := w.characters[name := ApplyAppraisal(c, AppraiseAction(appraiser, c, ViewOf(w), action))])
    else w
  }

  /**
   * The effect of the whole `character_actions` loop, in order: only the
   * characters update; the player's state, and that of every character no
   * action names, stay as they were.
   */
  function ReactToAll(w: WorldState, player: string, actions: seq<(string, string)>, appraiser: Appraiser)
    : (r: WorldState)
    ensures r.setting == w.setting && r.background == w.background
    ensures r.state == w.state && r.history == w.history
    ensures r.characters.Keys == w.characters.Keys
    ensures player in w.characters ==> r.characters[player] == w.characters[player]
    decreases |actions|
  {
    if actions == [] then w
    else
      var last := |actions| - 1;
      ReactTo(ReactToAll(w, player, actions[..last], appraiser), player, actions[last].0, actions[last].1, appraiser)
  }

  /** A character that no action names keeps its state. */
  lemma {:induction false} UnnamedCharacterUnchanged(w: WorldState, player: string, actions: seq<(string, string)>,
                                                     appraiser: Appraiser, n: string)
    requires n in w.characters
    requires forall i :: 0 <= i < |actions| ==> actions[i].0 != n
    ensures ReactToAll(w, player, actions, appraiser).characters[n] == w.characters[n]
    decreases |actions|
  {
    if actions != [] {
      var last := |actions| - 1;
      assert forall i :: 0 <= i < last ==> actions[..last][i] == actions[i];
      UnnamedCharacterUnchanged(w, player, actions[..last], appraiser, n);
    }
  }

  /** The beliefs, goals and theory of mind of every character stay in [0,1] through the actions. */
  lemma {:induction false} ClampedFieldsStayInRange(w: WorldState, player: string, actions: seq<(string, string)>,
                                                    appraiser: Appraiser, n: string)
    requires n in w.characters && ClampedFieldsInRange(w.characters[n])
    ensures ClampedFieldsInRange(ReactToAll(w, player, actions, appraiser).characters[n])
    decreases |actions|
  {
    if actions != [] {
      ClampedFieldsStayInRange(w, player, actions[..|actions| - 1], appraiser, n);
    }
  }

  /** The entries of `actions` the loop acts on: known names other than the player's. */
  function Eligible(actions: seq<(string, string)>, known: set<string>, player: string): (e: seq<(string, string)>)
    ensures forall i :: 0 <= i < |e| ==> e[i].0 in known && e[i].0 != player
    ensures forall i :: 0 <= i < |actions| && actions[i].0 in known && actions[i].0 != player ==> actions[i] in e
    ensures forall i :: 0 <= i < |e| ==> e[i] in actions
    ensures |e| <= |actions|
    decreases |actions|
  {
    if actions == [] then []
    else
      var last := |actions| - 1;
      assert forall i :: 0 <= i < last ==> actions[..last][i] == actions[i];
      var earlier := Eligible(actions[..last], known, player);
      if actions[last].0 in known && actions[last].0 != player then earlier + [actions[last]] else earlier
  }

  /**
   * Entries naming an unknown character, or the player, change nothing:
   * dropping them all gives the same world.
   */
  lemma {:induction false} OnlyEligibleActionsMatter(w: WorldState, player: string, actions: seq<(string, string)>,
                                                     appraiser: Appraiser)
    ensures ReactToAll(w, player, actions, appraiser)
            == ReactToAll(w, player, Eligible(actions, w.characters.Keys, player), appraiser)
    decreases |actions|
  {
    if actions != [] {
      var last := |actions| - 1;
      var earlier := Eligible(actions[..last], w.characters.Keys, player);
      OnlyEligibleActionsMatter(w, player, actions[..last], appraiser);
      if actions[last].0 in w.characters && actions[last].0 != player {
        var e := earlier + [actions[last]];
        assert e[..|e| - 1] == earlier;
      }
    }
  }

  /**
   * The world-state merge of a turn, applied only when the reply carries
   * `world_state_updates`: supplied keys take the new values, other keys and
   * everything else in the world are kept.
   */
  function ApplyWorldStateUpdates(w: WorldState, updates: Option<map<string, Json>>): (r: WorldState)
    ensures r.setting == w.setting && r.background == w.background
    ensures r.history == w.history && r.characters == w.characters
    ensures updates.None? ==> r == w
    ensures updates.Some? ==> r.state.Keys == w.state.Keys + updates.value.Keys
    ensures updates.Some? ==> forall k :: k in updates.value ==> r.state[k] == updates.value[k]
    ensures forall k :: k in w.state && (updates.None? || k !in updates.value) ==> r.state[k] == w.state[k]
  {
    match updates
    case Some(u) => w.(state := w.state + u)
    case None => w
  }

  /**
   * The world and the reply after `process_player_input` receives `response`.
   * Its outcome is stated by `PlayerInputFailureChangesNothing`,
   * `PlayerInputOutcome` and `RoundKeepsCast`.
   */
  function AfterPlayerInput(w: WorldState, player: string, userInput: string, response: Result<TurnResult>,
                            appraiser: Appraiser): (r: (WorldState, Reply))
    ensures w.history <= r.0.history && |r.0.history| <= |w.history| + 2
  {
    match response
    case Failure(e) => (w, Reply(PlayerErrorPrefix + e, None))
    case Success(t) =>
      var updated := ApplyWorldStateUpdates(w, t.worldStateUpdates);
      var logged := updated.(history := updated.history + [userInput]);
      match t.narrative
      case None => (logged, Reply(PlayerErrorPrefix + MissingNarrative, None))
      case Some(text) =>
        var told := logged.(history := logged.history + [text]);
        (ReactToAll(told, player, t.characterActions.GetOr([]), appraiser), Reply(text, Some(t)))
  }

  /**
   * The world and the reply after `generate_npc_actions` receives `response`.
   * Its outcome is stated by `NpcActionsFailureChangesNothing`,
   * `NpcActionsOutcome` and `RoundKeepsCast`.
   */
  function AfterNpcActions(w: WorldState, player: string, response: Result<TurnResult>, appraiser: Appraiser)
    : (r: (WorldState, Reply))
    ensures w.history <= r.0.history && |r.0.history| <= |w.history| + 1
  {
    match response
    case Failure(e) => (w, Reply(NpcErrorPrefix + e, None))
    case Success(t) =>
      var updated := ApplyWorldStateUpdates(w, t.worldStateUpdates);
      match t.narrative
      case None => (updated, Reply(NpcErrorPrefix + MissingNarrative, None))
      case Some(text) =>
        var told := updated.(history := updated.history + [text]);
        (ReactToAll(told, player, t.characterActions.GetOr([]), appraiser), Reply(text, Some(t)))
  }

  /** A failed narrator request leaves the world as it was and reports the error. */
  lemma PlayerInputFailureChangesNothing(w: WorldState, player: string, userInput: string, error: string,
                                         appraiser: Appraiser)
    ensures AfterPlayerInput(w, player, userInput, Failure(error), appraiser)
            == (w, Reply(PlayerErrorPrefix + error, None))
  {
  }

  /**
   * A parsed reply to the player's input: the world-state updates (if any)
   * are merged in, the input and then the narrative are appended to the
   * history, and the narrative is returned. A reply without a narrative
   * raises after the input was appended, so no character changes and the
   * error text is returned instead.
   */
  lemma PlayerInputOutcome(w: WorldState, player: string, userInput: string, t: TurnResult, appraiser: Appraiser)
    ensures var (r, reply) := AfterPlayerInput(w, player, userInput, Success(t), appraiser);
            && r.setting == w.setting && r.background == w.background
            && r.state == (if t.worldStateUpdates.Some? then w.state + t.worldStateUpdates.value else w.state)
            && (t.narrative.None? ==>
                  && r.history == w.history + [userInput]
                  && r.characters == w.characters
                  && reply == Reply(PlayerErrorPrefix + MissingNarrative, None))
            && (t.narrative.Some? ==>
                  && r.history == w.history + [userInput, t.narrative.value]
                  && reply == Reply(t.narrative.value, Some(t)))
  {
  }

  /** A failed narrator request for the non-player characters leaves the world as it was. */
  lemma NpcActionsFailureChangesNothing(w: WorldState, player: string, error: string, appraiser: Appraiser)
    ensures AfterNpcActions(w, player, Failure(error), appraiser) == (w, Reply(NpcErrorPrefix + error, None))
  {
  }

  /**
   * A parsed reply for the non-player characters: as for the player's input,
   * except that only the narrative is appended, and a reply without a
   * narrative appends nothing.
   */
  lemma NpcActionsOutcome(w: WorldState, player: string, t: TurnResult, appraiser: Appraiser)
    ensures var (r, reply) := AfterNpcActions(w, player, Success(t), appraiser);
            && r.setting == w.setting && r.background == w.background
            && r.state == (if t.worldStateUpdates.Some? then w.state + t.worldStateUpdates.value else w.state)
            && (t.narrative.None? ==>
                  && r.history == w.history
                  && r.characters == w.characters
                  && reply == Reply(NpcErrorPrefix + MissingNarrative, None))
            && (t.narrative.Some? ==>
                  && r.history == w.history + [t.narrative.value]
                  && reply == Reply(t.narrative.value, Some(t)))
  {
  }

  /** One round of the interactive loop: the line the player types and the narrator's two replies. */
  datatype Turn = Turn(input: string, playerResponse: Result<TurnResult>, npcResponse: Result<TurnResult>)

  /** The world after one round: the player's input, then the non-player characters' actions. */
  function AfterRound(w: WorldState, player: string, turn: Turn, appraiser: Appraiser): (r: WorldState)
    ensures w.history <= r.history && |r.history| <= |w.history| + 3
  {
    var afterPlayer := AfterPlayerInput(w, player, turn.input, turn.playerResponse, appraiser).0;
    AfterNpcActions(afterPlayer, player, turn.npcResponse, appraiser).0
  }

  /** The world after playing `turns` in order; the history only grows, by at most three entries a round. */
  function AfterTurns(w: WorldState, player: string, turns: seq<Turn>, appraiser: Appraiser): (r: WorldState)
    ensures w.history <= r.history && |r.history| <= |w.history| + 3 * |turns|
    decreases |turns|
  {
    if turns == [] then w
    else
      var last := |turns| - 1;
      AfterRound(AfterTurns(w, player, turns[..last], appraiser), player, turns[last], appraiser)
  }

  /** Playing one more round of the script is one more `AfterRound`. */
  lemma TurnsStep(w: WorldState, player: string, turns: seq<Turn>, i: nat, appraiser: Appraiser)
    requires i < |turns|
    ensures AfterTurns(w, player, turns[..i + 1], appraiser)
            == AfterRound(AfterTurns(w, player, turns[..i], appraiser), player, turns[i], appraiser)
  {
    assert turns[..i + 1][..i] == turns[..i];
  }

  /** The setting, the background and the cast are kept, and the player's character is unchanged. */
  predicate KeepsCast(w: WorldState, r: WorldState, player: string) {
    && r.setting == w.setting && r.background == w.background
    && r.characters.Keys == w.characters.Keys
    && (player in w.characters ==> r.characters[player] == w.characters[player])
  }

  /** The player's input never changes the cast or the player's character. */
  lemma PlayerInputKeepsCast(w: WorldState, player: string, userInput: string, response: Result<TurnResult>,
                             appraiser: Appraiser)
    ensures KeepsCast(w, AfterPlayerInput(w, player, userInput, response, appraiser).0, player)
  {
  }

  /** The non-player characters' actions never change the cast or the player's character. */
  lemma NpcActionsKeepCast(w: WorldState, player: string, response: Result<TurnResult>, appraiser: Appraiser)
    ensures KeepsCast(w, AfterNpcActions(w, player, response, appraiser).0, player)
  {
  }

  /** A round keeps the cast and never changes the player's character. */
  lemma RoundKeepsCast(w: WorldState, player: string, turn: Turn, appraiser: Appraiser)
    ensures KeepsCast(w, AfterRound(w, player, turn, appraiser), player)
  {
    var afterPlayer := AfterPlayerInput(w, player, turn.input, turn.playerResponse, appraiser).0;
    PlayerInputKeepsCast(w, player, turn.input, turn.playerResponse, appraiser);
    NpcActionsKeepCast(afterPlayer, player, turn.npcResponse, appraiser);
  }

  /** However many rounds are played, the cast stays the same and the player's character never changes. */
  lemma {:induction false} PlayerCharacterNeverChanges(w: WorldState, player: string, turns: seq<Turn>,
                                                       appraiser: Appraiser)
    ensures KeepsCast(w, AfterTurns(w, player, turns, appraiser), player)
    decreases |turns|
  {
    if turns != [] {
      var last := |turns| - 1;
      PlayerCharacterNeverChanges(w, player, turns[..last], appraiser);
      RoundKeepsCast(AfterTurns(w, player, turns[..last], appraiser), player, turns[last], appraiser);
    }
  }

  /** Python's `str.lower` on one character, for the ASCII letters. */
  function LowerChar(c: char): (r: char)
    ensures 'A' <= c <= 'Z' ==> r as int == c as int + 32
    ensures !('A' <= c <= 'Z') ==> r == c
    ensures !('A' <= r <= 'Z')
  {
    if 'A' <= c <= 'Z' then (c as int - 'A' as int + 'a' as int) as char else c
  }

  /** `s.lower()`, character by character. */
  function Lower(s: string): (r: string)
    ensures |r| == |s|
    ensures forall i :: 0 <= i < |s| ==> r[i] == LowerChar(s[i])
    decreases |s|
  {
    if s == [] then [] else [LowerChar(s[0])] + Lower(s[1..])
  }

  /** `p` occurs in `s` starting at index `i`. */
  ghost predicate OccursAt(p: string, s: string, i: int) {
    0 <= i <= |s| - |p| && s[i..i + |p|] == p
  }

  /** `p` occurs in `s` as a contiguous substring. */
  ghost predicate Occurs(p: string, s: string) {
    exists i :: OccursAt(p, s, i)
  }

  /** Python's `p in s` on strings. */
  function Contains(s: string, p: string): (r: bool)
    ensures r <==> Occurs(p, s)
    decreases |s|
  {
    if |s| < |p| then false
    else if s[..|p|] == p then assert OccursAt(p, s, 0); true
    else
      OccursInTail(s, p);
      Contains(s[1..], p)
  }

  /** When `p` is not a prefix of `s`, it occurs in `s` exactly when it occurs in `s[1..]`. */
  lemma OccursInTail(s: string, p: string)
    requires |s| >= |p| && s[..|p|] != p
    ensures Occurs(p, s) <==> Occurs(p, s[1..])
  {
    if Occurs(p, s) {
      var i :| OccursAt(p, s, i);
      assert i != 0;
      assert s[1..][i - 1..i - 1 + |p|] == s[i..i + |p|];
      assert OccursAt(p, s[1..], i - 1);
    }
    if Occurs(p, s[1..]) {
      var i :| OccursAt(p, s[1..], i);
      assert s[1..][i..i + |p|] == s[i + 1..i + 1 + |p|];
      assert OccursAt(p, s, i + 1);
    }
  }

  /** The test that ends the interactive loop. */
  function ShouldQuit(userInput: string): (r: bool)
    ensures r <==> Occurs("quit", Lower(userInput)) || Occurs("exit", Lower(userInput))
  {
    var lowered := Lower(userInput);
    Contains(lowered, "quit") || Contains(lowered, "exit")
  }

  /** The test ignores case. */
  lemma QuitIgnoresCase()
    ensures ShouldQuit("QUIT")
  {
    assert Lower("QUIT") == "quit";
    assert OccursAt("quit", Lower("QUIT"), 0);
  }

  /** The test matches anywhere in the line. */
  lemma ExitInsideSentence()
    ensures ShouldQuit("I Exit")
  {
    var lowered := Lower("I Exit");
    assert lowered[2] == 'e' && lowered[3] == 'x' && lowered[4] == 'i' && lowered[5] == 't';
    assert lowered[2..6] == "exit";
    assert OccursAt("exit", lowered, 2);
  }

  /** Other commands go through. */
  lemma LookDoesNotQuit()
    ensures !ShouldQuit("look")
  {
    assert Lower("look") == "look";
    assert forall i :: OccursAt("quit", "look", i) || OccursAt("exit", "look", i) ==> i == 0;
  }

  class StoryEngine {
    const world: World
    const playerCharacter: string

    constructor (world: World, playerCharacter: string)
      ensures this.world == world && this.playerCharacter == playerCharacter
    {
      this.world := world;
      this.playerCharacter := playerCharacter;
    }

    /**
     * The `character_actions` loop of both turn kinds: each action of a
     * known character other than the player is appraised against the current
     * world snapshot and fed to that character's `update_state`.
     */
    method ReactToCharacterActions(actions: seq<(string, string)>, appraiser: Appraiser)
      requires world.Valid()
      modifies world.characters.Values
      ensures world.Model() == ReactToAll(old(world.Model()), playerCharacter, actions, appraiser)
    {
      ghost var start := world.Model();
      var i := 0;
      while i < |actions|
        invariant 0 <= i <= |actions|
        invariant world.Model() == ReactToAll(start, playerCharacter, actions[..i], appraiser)
      {
        assert actions[..i + 1][..i] == actions[..i];
        ReactToAction(actions[i].0, actions[i].1, appraiser);
        i := i + 1;
      }
      assert actions[..|actions|] == actions;
    }

    /** One pass of the `character_actions` loop. */
    method ReactToAction(name: string, action: string, appraiser: Appraiser)
      requires world.Valid()
      modifies world.characters.Values
      ensures world.Model() == ReactTo(old(world.Model()), playerCharacter, name, action, appraiser)
    {
      if name in world.characters && name != playerCharacter {
        ghost var before := world.Model();
        var c := world.characters[name];
        var a := AppraiseAction(appraiser, c.State(), world.StateForPrompt(), action);
        ghost var reacted := ApplyAppraisal(before.characters[name], a);
        forall n | n in world.characters && n != name
          ensures world.characters[n] != c
        {
          assert world.characters[n].name == n;
        }
        c.UpdateState(a.emotionalUpdates.GetOr(map[]), a.beliefUpdates.GetOr(map[]),
                      a.theoryOfMindUpdates.GetOr(map[]), a.goalUpdates.GetOr(map[]));
        assert c.State() == reacted;
        assert world.Model().characters == before.characters[name := reacted];
      }
    }

    /** `process_player_input`, from the point where the narrator's reply has been parsed (or has failed). */
    method ProcessPlayerInput(userInput: string, response: Result<TurnResult>, appraiser: Appraiser)
      returns (reply: Reply)
      requires world.Valid() && playerCharacter in world.characters
      modifies world, world.characters.Values
      ensures (world.Model(), reply)
              == AfterPlayerInput(old(world.Model()), playerCharacter, userInput, response, appraiser)
    {
      if response.Failure? {
        return Reply(PlayerErrorPrefix + response.error, None);
      }
      var t := response.value;
      if t.worldStateUpdates.Some? {
        world.UpdateWorldState(t.worldStateUpdates.value);
      }
      ghost var updated := world.Model();
      assert updated == ApplyWorldStateUpdates(old(world.Model()), t.worldStateUpdates);
      world.AddToHistory(userInput);
      ghost var logged := world.Model();
      assert logged == updated.(history := updated.history + [userInput]);
      if t.narrative.None? {
        return Reply(PlayerErrorPrefix + MissingNarrative, None);
      }
      world.AddToHistory(t.narrative.value);
      assert world.Model() == logged.(history := logged.history + [t.narrative.value]);
      ReactToCharacterActions(t.characterActions.GetOr([]), appraiser);
      reply := Reply(t.narrative.value, Some(t));
    }

    /** `generate_npc_actions`, from the point where the narrator's reply has been parsed (or has failed). */
    method GenerateNpcActions(response: Result<TurnResult>, appraiser: Appraiser) returns (reply: Reply)
      requires world.Valid()
      modifies world, world.characters.Values
      ensures (world.Model(), reply) == AfterNpcActions(old(world.Model()), playerCharacter, response, appraiser)
    {
      if response.Failure? {
        return Reply(NpcErrorPrefix + response.error, None);
      }
      var t := response.value;
      if t.worldStateUpdates.Some? {
        world.UpdateWorldState(t.worldStateUpdates.value);
      }
      ghost var updated := world.Model();
      assert updated == ApplyWorldStateUpdates(old(world.Model()), t.worldStateUpdates);
      if t.narrative.None? {
        return Reply(NpcErrorPrefix + MissingNarrative, None);
      }
      world.AddToHistory(t.narrative.value);
      assert world.Model() == updated.(history := updated.history + [t.narrative.value]);
      ReactToCharacterActions(t.characterActions.GetOr([]), appraiser);
      reply := Reply(t.narrative.value, Some(t));
    }

    /** One pass of the interactive loop after the quit test. */
    method PlayRound(turn: Turn, appraiser: Appraiser)
      requires world.Valid() && playerCharacter in world.characters
      modifies world, world.characters.Values
      ensures world.Model() == AfterRound(old(world.Model()), playerCharacter, turn, appraiser)
    {
      var _ := ProcessPlayerInput(turn.input, turn.playerResponse, appraiser);
      var _ := GenerateNpcActions(turn.npcResponse, appraiser);
    }

    /**
     * `run_interactive_story` over a finite script of rounds: it stops at
     * the first input that asks to quit, before that round's requests, and
     * otherwise plays every round.
     */
    method RunInteractiveStory(turns: seq<Turn>, appraiser: Appraiser) returns (played: nat)
      requires world.Valid() && playerCharacter in world.characters
      modifies world, world.characters.Values
      ensures played <= |turns|
      ensures forall i :: 0 <= i < played ==> !ShouldQuit(turns[i].input)
      ensures played < |turns| ==> ShouldQuit(turns[played].input)
      ensures world.Model() == AfterTurns(old(world.Model()), playerCharacter, turns[..played], appraiser)
    {
      ghost var start := world.Model();
      played := 0;
      while played < |turns|
        invariant played <= |turns|
        invariant forall i :: 0 <= i < played ==> !ShouldQuit(turns[i].input)
        invariant world.Model() == AfterTurns(start, playerCharacter, turns[..played], appraiser)
      {
        if ShouldQuit(turns[played].input) {
          break;
        }
        TurnsStep(start, playerCharacter, turns, played, appraiser);
        PlayRound(turns[played], appraiser);
        played := played + 1;
      }
    }
  }
}

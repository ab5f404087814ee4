# Goal-driven characters: the state model of an interactive story

This project models the in-memory state of a small interactive-fiction
engine and proves properties of it. The world holds a setting, a
background, a free-form state store, an append-only event history and a
cast of characters. Each character has emotions, beliefs, goals (by
category) and a theory of mind (what it thinks each other character
believes). A language model narrates each turn and appraises each
character's action. The model takes its parsed replies as values and
proves what the engine then does to the world and the characters.

- `wrappers.dfy`: module `Wrappers`, holding `Option` and `Result`.
- `character_world.dfy`: module `CharacterWorld`, modelling `character_world_classes.py`.
  - `Character` and `World` are classes whose methods update their fields in place.
  - Each method is proved against a function on values. `Character.State()` gives a character as a `CharacterState`. `World.Model()` gives a world as a `WorldState`. `ViewOf` and `World.StateForPrompt()` give the prompt snapshot, a `WorldView`.
  - The update loops of `update_state` are the methods `StoreEmotions`, `StoreClamped` and `StoreNested`. They are proved equal to the merge functions `MergeEmotions`, `MergeClamped` and `MergeNested`.
  - Seeding the theory of mind is the method `InitializeTheoryOfMind`. It is proved equal to the function `SeedTheoryOfMind`, and lemmas state what that function yields.
- `story_engine.dfy`: module `Story`, modelling the state-changing part of `story_engine.py`.
  - The narrator's parsed reply is a `Result<TurnResult>`. `Failure` stands for an exception raised by the request or by the parsing.
  - The appraiser is a function `Appraiser`. It returns `None` where the remote appraisal raised.
  - `StoryEngine`'s methods change the `World` and its `Character` objects in place. They are proved equal to the functions `AfterPlayerInput`, `AfterNpcActions`, `AfterRound` and `AfterTurns`, and lemmas state what those functions do.
- The random draw of `random.uniform(-0.2, 0.2)` is a parameter `variation(i, k)`. It gives the draw for belief `k` of the i-th character in the list being walked. The World constructor takes one such function per character.

Two behaviours of the code are modelled as written:

- Two characters with the same name collapse to the later one when the World is built (character_world_classes.py:98).
- `initialize_theory_of_mind` is given the whole cast, the character itself included, and skips its own name (character_world_classes.py:27, 103-104).

## Model

| member | source | states |
|---|---|---|
| CharacterWorld.Clamp | character_world_classes.py:34 | the result lies in [0,1]; a value already in [0,1] is unchanged; a value below 0 gives 0 and one above 1 gives 1 |
| CharacterWorld.MergeEmotions | character_world_classes.py:43-47 | the keys are the old and the supplied ones; a supplied key already present is set to the clamped value; a supplied new key gets the raw value; unsupplied keys keep their values |
| CharacterWorld.MergeClamped | character_world_classes.py:50-51 | every supplied belief, new or existing, is stored clamped into [0,1]; other beliefs keep their values; all values in [0,1] stay so |
| CharacterWorld.MergeNested | character_world_classes.py:54-65 | the theory-of-mind and goal merge; its contract is the lemma `NestedMergeEntries`: a missing outer key starts empty, supplied inner values are stored clamped, and everything else is kept |
| CharacterWorld.NestedMergeEntries | character_world_classes.py:54-65 | a missing outer key gets a fresh inner map; every supplied inner value is stored clamped; unsupplied inner keys and untouched outer keys keep their values; values in [0,1] stay so |
| CharacterWorld.Updated | character_world_classes.py:39-65 | the name never changes; beliefs, goals and theory of mind stay in [0,1]; four empty updates leave the state unchanged |
| CharacterWorld.UpdateKeepsRange | character_world_classes.py:43-47 | starting from a state with every number in [0,1], the update keeps that invariant exactly when no new emotion key arrives with a value outside [0,1] |
| CharacterWorld.StoreEmotions | character_world_classes.py:43-47 | the emotion loop computes `MergeEmotions` of the field and the update |
| CharacterWorld.StoreClamped | character_world_classes.py:50-51 | the belief loop computes `MergeClamped` of the field and the update |
| CharacterWorld.StoreNested | character_world_classes.py:54-65 | the theory-of-mind and goal loops compute `MergeNested` of the field and the update |
| CharacterWorld.Estimate | character_world_classes.py:30-34 | an estimate has exactly the character's belief keys, every value in [0,1], and each within 0.2 of an in-range belief when the draw is in [-0.2,0.2] |
| CharacterWorld.StoreEstimate | character_world_classes.py:28-37 | the inner loop builds, from an empty entry, exactly the estimate for the i-th other character |
| CharacterWorld.SeedTheoryOfMind | character_world_classes.py:24-37 | seeding adds entries only for names of other characters and never drops an existing entry |
| CharacterWorld.SeedStep | character_world_classes.py:26-37 | one more character in the list adds that character's estimate, or nothing when it bears the caller's own name |
| CharacterWorld.SeedKeepsUnnamed | character_world_classes.py:26-28 | an entry for the caller's own name, or for a name not in the list, keeps its previous value |
| CharacterWorld.SeedCoversOthers | character_world_classes.py:26-37 | every other name in the list gets an entry whose keys are exactly the caller's belief keys, with values in [0,1] |
| CharacterWorld.SeedUsesLastDraw | character_world_classes.py:27-28 | the entry of a name is the estimate drawn at its last occurrence in the list: a previous entry is replaced wholesale |
| CharacterWorld.SeededEstimateNearOwnBelief | character_world_classes.py:33-34 | with draws in [-0.2,0.2], every seeded value lies within 0.2 of the caller's own belief, when that belief is in [0,1] |
| CharacterWorld.Table | character_world_classes.py:98 | every character in the table is filed under its own name |
| CharacterWorld.TableEntriesFromList | character_world_classes.py:98 | every character in the table is one of the given characters |
| CharacterWorld.TableHasEveryName | character_world_classes.py:98 | the name of every given character is a key of the table |
| CharacterWorld.TableKeepsLast | character_world_classes.py:98 | when names collide, the table keeps the last character bearing the name |
| CharacterWorld.RecentHistory | character_world_classes.py:122 | the snapshot history has min(5, length) entries: the last ones, in their original order |
| CharacterWorld.SnapshotShowsLastFive | character_world_classes.py:122 | after seven events the snapshot shows exactly the last five |
| CharacterWorld.ViewOf | character_world_classes.py:115-123 | the prompt snapshot keeps setting, background, state and characters, and shows only the recent history |
| CharacterWorld.Character.State | character_world_classes.py:67-75 | `get_state_for_prompt`: the character's name and its four maps as one value; being a function, it changes nothing |
| CharacterWorld.Character.constructor | character_world_classes.py:6-22 | a new character holds the given maps and an empty theory of mind |
| CharacterWorld.Character.InitializeTheoryOfMind | character_world_classes.py:24-37 | the theory of mind becomes `SeedTheoryOfMind` of the old one over the names of the given characters; emotions, beliefs and goals are untouched |
| CharacterWorld.Character.UpdateState | character_world_classes.py:39-65 | the new state is `Updated` of the old state and the four partial updates |
| CharacterWorld.SeedCast | character_world_classes.py:103-104 | each character's theory of mind is seeded from the names of the whole cast with its own draws; nothing else of it changes |
| CharacterWorld.World.constructor | character_world_classes.py:87-104 | characters are filed by name with the later duplicate winning, state and history start empty, and every character is seeded from the whole cast |
| CharacterWorld.World.StateForPrompt | character_world_classes.py:115-123 | the snapshot is `ViewOf` the world, and taking it changes nothing |
| CharacterWorld.World.UpdateWorldState | character_world_classes.py:106-109 | every supplied key is overwritten with its value, unclamped; other keys are kept; the history is untouched |
| CharacterWorld.World.AddToHistory | character_world_classes.py:111-113 | exactly one event is appended at the end; earlier entries and the state are kept |
| Story.AppraiseAction | story_engine.py:171-180 | a failed appraisal gives updates that leave the character unchanged |
| Story.ApplyAppraisal | story_engine.py:315-320 | the name is kept, the clamped fields stay in [0,1], and a reply whose four updates are missing or empty leaves the character unchanged |
| Story.ReactTo | story_engine.py:305-320 | one entry of the action loop changes at most the named character; setting, background, state, history and the cast are kept; an entry naming an unknown character or the player changes nothing |
| Story.ReactToAll | story_engine.py:304-320 | the action loop changes only characters: setting, background, state and history are kept, the cast is the same, and the player's character is unchanged |
| Story.UnnamedCharacterUnchanged | story_engine.py:304-305 | a character that no action names keeps its state |
| Story.ClampedFieldsStayInRange | story_engine.py:315-320 | beliefs, goals and theory of mind of every character stay in [0,1] through the action loop |
| Story.Eligible | story_engine.py:305-308 | an action is retained exactly when it names a known character other than the player; every retained entry is one of the given actions |
| Story.OnlyEligibleActionsMatter | story_engine.py:305-308 | dropping every action that names an unknown character or the player gives the same world |
| Story.ApplyWorldStateUpdates | story_engine.py:296-297 | without `world_state_updates` the world is unchanged; with them every supplied key takes its new value and every other key, the history and the characters are kept |
| Story.AfterPlayerInput | story_engine.py:295-326 | the history only grows, by at most two entries; the full outcome is `PlayerInputOutcome` and `PlayerInputFailureChangesNothing` |
| Story.AfterNpcActions | story_engine.py:388-414 | the history only grows, by at most one entry; the full outcome is `NpcActionsOutcome` and `NpcActionsFailureChangesNothing` |
| Story.AfterRound | story_engine.py:431-437 | one round only appends to the history, at most three entries |
| Story.AfterTurns | story_engine.py:422-437 | over any number of rounds the history is append-only: the old history is a prefix of the new, which grows by at most three entries a round |
| Story.TurnsStep | story_engine.py:422-437 | playing one more round of the script is one more `AfterRound` on the world reached so far |
| Story.PlayerInputFailureChangesNothing | story_engine.py:324-326 | a failed narrator request leaves the world unchanged and returns the error text with an empty result |
| Story.PlayerInputOutcome | story_engine.py:295-322 | world-state updates are merged only when present; the input and then the narrative are appended; a reply without a narrative leaves the input appended, changes no character and returns the error |
| Story.NpcActionsFailureChangesNothing | story_engine.py:412-414 | a failed narrator request leaves the world unchanged and returns the error text with an empty result |
| Story.NpcActionsOutcome | story_engine.py:388-410 | world-state updates are merged only when present; exactly the narrative is appended; a reply without a narrative appends nothing and changes no character |
| Story.PlayerInputKeepsCast | story_engine.py:304-308 | the player's turn keeps the cast and never changes the player's character |
| Story.NpcActionsKeepCast | story_engine.py:396-397 | the non-player turn keeps the cast and never changes the player's character |
| Story.RoundKeepsCast | story_engine.py:432-436 | a round keeps the cast and never changes the player's character |
| Story.PlayerCharacterNeverChanges | story_engine.py:422-437 | however many rounds are played, the cast is the same and the player's character is unchanged |
| Story.LowerChar | story_engine.py:427 | an ASCII upper-case letter maps to its lower-case letter (32 code points up), every other character is kept, and the result is never an upper-case letter |
| Story.Lower | story_engine.py:427 | lower-casing keeps the length and lower-cases each character in place |
| Story.Contains | story_engine.py:427 | the search answers true exactly when the pattern occurs as a contiguous substring |
| Story.ShouldQuit | story_engine.py:427 | the loop ends exactly when the lower-cased input contains "quit" or "exit" |
| Story.QuitIgnoresCase | story_engine.py:427 | "QUIT" ends the loop |
| Story.ExitInsideSentence | story_engine.py:427 | "I Exit" ends the loop: the word may sit anywhere in the line |
| Story.LookDoesNotQuit | story_engine.py:427 | "look" does not end the loop |
| Story.StoryEngine.constructor | story_engine.py:184-194 | the engine holds the given world and player name |
| Story.StoryEngine.ReactToCharacterActions | story_engine.py:304-320 | running the action loop in place yields `ReactToAll` of the old world |
| Story.StoryEngine.ReactToAction | story_engine.py:305-320 | one action updates, in place, only the named character, and only when it is known and not the player |
| Story.StoryEngine.ProcessPlayerInput | story_engine.py:270-326 | the world and the reply are `AfterPlayerInput` of the old world, whose outcome `PlayerInputOutcome` states |
| Story.StoryEngine.GenerateNpcActions | story_engine.py:365-414 | the world and the reply are `AfterNpcActions` of the old world, whose outcome `NpcActionsOutcome` states |
| Story.StoryEngine.PlayRound | story_engine.py:431-437 | a round is the player's turn followed by the non-player turn |
| Story.StoryEngine.RunInteractiveStory | story_engine.py:416-437 | the loop plays rounds until the first input that asks to quit, which is not sent; every earlier input does not ask to quit; the world is `AfterTurns` of the rounds played |

## Left out

- The remote language-model requests for narration and appraisal are not modelled. The parsed reply is a parameter and the appraisal is the `Appraiser` function.
- Prompt construction (the text templates and their JSON rendering) is not modelled. Those templates hold the numeric appraisal rules, which are instructions to the remote model and not code.
- The regular-expression and JSON extraction of replies is not modelled. A reply that fails to parse is `Failure`, or `None` for the appraiser.
- Replies whose values have the wrong JSON type are not modelled; in the model every reply is well typed. In the source some such values raise partway through a turn, for example a `null` or non-object `world_state_updates` or `character_actions`. Others are stored as they are, without error:
  - a new emotion key with a non-number value is stored raw (character_world_classes.py:47);
  - `true` or `false` in a clamped update passes the clamp as 1.0 or 0.0, because a Python bool is an int (character_world_classes.py:45, 51, 58, 65);
  - a non-string `narrative` is appended to the history (story_engine.py:301, 393);
  - a non-string action goes into the appraisal prompt (story_engine.py:312, 400).
- `character_actions` is modelled as a list of (name, action) pairs. The parsed dictionary never repeats a key, since the JSON reader keeps the last value of a repeated name, so such a list is more general than the source's dictionary.
- The appraisal's `appraisal_explanation` is not modelled; nothing in the core reads it.
- Python floats are modelled as exact reals. Float rounding is not modelled: `belief_value + variation` rounds in the source, so the 0.2 bound of `Estimate` and `SeededEstimateNearOwnBelief` holds exactly only over reals. NaN and ±Infinity are not modelled either: the JSON reader accepts them, the clamp maps NaN and +Infinity to 1.0 and -Infinity to 0.0, and a new emotion key stores them raw.
- The appraiser is a pure function, so the same character, snapshot and action always get the same reply. The remote appraisal samples at temperature 0.7 (story_engine.py:147-155) and can answer differently; no proved property depends on this.
- Randomness is not modelled: `random.uniform(-0.2, 0.2)` is the caller-supplied `variation`, and the bounds lemmas assume draws in [-0.2,0.2].
- Console input and output are not modelled: the introduction, the printed narratives, the end of input, and the debug prompt and printing of character states (story_engine.py:418-443). The players' lines and the narrator's replies are given as a finite list of `Turn`s.
- The debug string forms (`__str__`), the environment and API-key setup, and main.py are not part of this model.
- Python aliasing is not modelled. A character owns its maps: the dictionaries passed to the constructor, and those returned by the snapshots, are never shared with the caller.
- Story.StoryEngine.ProcessPlayerInput: requires the player's character to be in the world. The source builds the prompt at story_engine.py:221 outside its `try`, so a missing player raises out of the method; the model does not capture that exception.
- Story.StoryEngine.RunInteractiveStory: requires the player's character to be in the world, for the same reason.
- Story.StoryEngine.PlayRound: requires the player's character to be in the world, for the same reason.
- CharacterWorld.World.constructor: requires the listed Character objects to be distinct. The source accepts the same object twice and seeds it twice; the model does not cover that aliasing.
- CharacterWorld.SeedCast: requires distinct Character objects, for the same reason.
- Story.LowerChar: lower-cases only the ASCII letters, while Python's `str.lower` also maps other Unicode letters. The quit test is unaffected. Only U+0130 and U+212A lower-case to something containing an ASCII letter: "i" plus a combining dot, and "k". An "i" followed by a combining dot can never be followed by "t", and neither letter can complete "quit" or "exit", so `ShouldQuit` gives Python's answer on every input.

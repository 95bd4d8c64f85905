# complex_memory_gen_addon: chat chunking, progress store and memory bookkeeping

This project models the core of `script.py` from the memory-generation add-on for a
chat-oriented text-generation web UI. The add-on feeds a chunk of a chat log to the
language model and appends the memory records the model emits to the character's file.
It remembers, for each model, character and chat, how far into the chat log it has got.

- `Types` holds the values shared by every part:
  - the exceptions the add-on raises or lets through, as an `Error` datatype;
  - settings values (strings and integers);
  - the JSON files the add-on owns, each missing, corrupt or present;
  - chat-log turns, with the `<|BEGIN-VISIBLE-CHAT|>` greeting turn;
  - memory entries and character files.
- `Strings` models Python's `str.replace` for a non-empty pattern (every non-overlapping occurrence,
  leftmost first) and `str(int)`, with its round trip.
- `Chunker` holds the pure half of `load_chat`:
  - `Prepare` fills the `instruction` and `primer` templates, raises the exceptions Python raises, and adds
    the header's trailing newline.
  - `Walk` is the forward walk over the turns, as a recursive function. The lemmas about the walk are
    stated on it.
  - `CollectTurns` is the `while` loop over `i`, `j` and `chat_str`, proved equal to `Walk`.
- `ProgressStore` models `save.json` as a three-level map, model → character → chat id → index. It gives
  what `save_progress` writes and what `load_progress` returns and heals.
- `Settings` covers the key-set check of `load_settings` and the overwrite of `update_settings`.
- `Addon` holds two things:
  - the class `MemoryGen`, whose fields are the module's globals (`settings`, `character`, `progress`,
    the model name) and the files the add-on reads and writes, with one method per source function;
  - `ChunkOutcome`, the functional specification of one `load_chat` call, with the lemmas about it.

Four behaviours of `load_chat` and `add_memories` are easy to misread:

- `load_chat` does not write the progress store after its walk. It only sets the global `progress`
  (script.py:207). The store is advanced later, and only by `add_memories` after a successful parse and
  append (script.py:113-120). The store is written during `load_chat` only when `load_progress` misses
  and heals the path with 0 (`ProgressStore.Healed`: a hit leaves the file as it was). So when a stored
  index is already at the end of the log, nothing is written (`Addon.ExhaustedIsStable`).
- `load_chat` returns None exactly when the walk reads no turn (`Addon.ChunkNone`). That happens when:
  - the stored index is at or past the end of the log;
  - `chunk_size <= 0`;
  - the turn at the stored index is a pair over the token budget.

  In every case `j` stays 0 (`Addon.ChunkProgress`: a prompt comes back exactly when the walk moved). A
  greeting turn at the stored index is read without a token check. So a walk that stops in front of the
  pair after it still returns the greeting-only prompt.
- The greeting turn is appended without any token check. A prompt that ends with the greeting turn is
  therefore not proved to be within `max_seq_len` (`Chunker.PromptWithinBudget` covers a prompt whose
  last turn is a pair).
- `add_memories` commits the global `progress` under the chat id it is passed, whichever chat `load_chat`
  walked last (script.py:113-120, script.py:221-230). Committed to the chat just walked, the stored index
  only moves forward (`Addon.CommitNeverMovesBack`). Committed to another chat, it can move that chat's
  stored index back (`Addon.CommitToOtherChatCanMoveBack`).

## Model

| member | source | states |
|---|---|---|
| `Strings.ReplaceAll` | script.py:190-191 | replacing the placeholder by itself leaves the template unchanged |
| `Strings.ReplaceAbsent` | script.py:190-191 | a template in which the placeholder does not occur comes back unchanged |
| `Strings.ReplaceFirst` | script.py:190-191 | the leftmost occurrence is replaced and the scan resumes after it; with ReplaceAbsent this pins down `str.replace` on every string |
| `Strings.NatToDecimal` | script.py:190 | the digits of a natural number: non-empty, all digits, no leading zero |
| `Strings.Decimal` | script.py:190 | `str(count)`: a leading minus exactly for negative numbers, digits otherwise |
| `Strings.NatToDecimalRoundTrip` | script.py:190 | reading back the digits of n gives n |
| `Strings.DecimalRoundTrip` | script.py:190 | reading back `str(n)` gives n, for every integer |
| `Strings.DecimalInjective` | script.py:190 | different counts give different `{count}` texts |
| `Chunker.Prepare` | script.py:189-193 | header and primer exist exactly when both templates fill (`Fill` is `settings[key].replace(...).replace(...)` with its exceptions) and the instruction is non-empty; the KeyError/AttributeError of the instruction comes first, then the primer's, then IndexError for an empty instruction; the header is the filled instruction plus at most one character and ends with a newline, and is the filled instruction itself when that already ends with a newline; the primer is the filled primer |
| `Chunker.SubstitutePlain` | script.py:190-191 | a template with no `{` is neither changed by the `{char}` nor by the `{count}` substitution |
| `Chunker.Walk` | script.py:194-206 | the walk never moves back; it reads a turn exactly when it counts one; from inside the log it stays inside it; `j` ends at most `chunk_size + 1` |
| `Chunker.WalkMoves` | script.py:196-203 | the walk reads the turn at `i` exactly when fewer than `chunk_size` turns are counted, the log has a turn there, and it is the greeting or a pair within the token budget; a walk that reads nothing leaves `i`, `j` and `chat_str` as they were |
| `Chunker.WalkExtends` | script.py:198-204 | the walk only appends to `chat_str` |
| `Chunker.WalkCounts` | script.py:196-205 | the final `j` is 1 for each greeting turn read plus 2 for each pair read |
| `Chunker.WalkText` | script.py:196-206 | the final `chat_str` is the start text followed by the lines of exactly the turns read, in order |
| `Chunker.WalkReads` | script.py:196-206 | both of the above, and the walk stays inside the log |
| `Chunker.PairTaken` | script.py:200-204 | each pair read at index k passed the lookahead token check against the text as it was at k |
| `Chunker.WalkWithinBudget` | script.py:200-204 | every pair the walk read passed the token check when it was read |
| `Chunker.WalkStops` | script.py:196-203 | the walk stops only at the end of the log, with `chunk_size` spent, or in front of a pair over the budget, and then `i` points at that pair |
| `Chunker.PromptWithinBudget` | script.py:201-209 | when the last turn read is a pair, the returned prompt is exactly the text last counted and is within `max_seq_len` |
| `Chunker.WalkFromEnd` | script.py:196 | a walk that starts at or past the end of the log reads nothing |
| `Chunker.SixTurnScenario` | script.py:194-207 | a greeting and five pairs with `chunk_size` 3 from index 0: the greeting and one pair are read, the walk stops at index 2 with `j` = 3 |
| `Chunker.CollectTurns` | script.py:194-206 | the loop computes the walk; `i` never moves back and stays in the log; nothing is read when the start is past the end or `chunk_size <= 0`; `j > 0` exactly when `i` moved; `j <= chunk_size + 1`; the header is kept as a prefix |
| `ProgressStore.SetLeaf` | script.py:227 | the `setdefault` chain sets the one leaf, creates the missing levels and leaves every other leaf as it was |
| `ProgressStore.StartIndex` | script.py:243-256 | `load_progress` returns the stored index (`StoredIndex` is the lookup `save_json[model][character][chat_id]`), or 0 when the file or any level of the path is missing |
| `ProgressStore.Saved` | script.py:221-230 | after `save_progress` the file is present, loading the same path returns the saved value, and every other path loads as before |
| `ProgressStore.Healed` | script.py:243-256 | after `load_progress` the path is stored with the index it returned, a hit leaves the file exactly as it was, and every other path is unchanged |
| `ProgressStore.HealedIsStable` | script.py:243-256 | a second `load_progress` changes nothing and returns the same index |
| `Settings.Reloaded` | script.py:57-76 | a missing file is the "Missing Settings" error; a corrupt file is the decode error; a non-empty object with any key set other than the four is the "Invalid Settings" error; an empty object keeps the settings; the exact key set replaces them; well-formed settings stay well-formed |
| `Settings.Updated` | script.py:79-84 | the four fields are overwritten with the new values and any other key is kept |
| `Settings.UpdateThenReload` | script.py:79-85 | what `update_settings` saves is accepted unchanged by the next `load_settings` |
| `Addon.MemoryPathInjective` | script.py:29-32 | `MemoryPath` picks `characters/<name>.yaml`, or the fallback for "None"; two different selections, "None" included, never share a memory file |
| `Addon.OwnFileIsNotFallback` | script.py:29-32 | a selected character's own file is never the shared fallback file |
| `Addon.AppendMemories` | script.py:34-43 | the append fails with KeyError exactly when the file is missing or has no `memory` key; otherwise the new entries follow the old ones and the rest of the card is kept |
| `Addon.ChunkOutcome` | script.py:174-211 | a missing log is FileNotFound; a template error comes next; a corrupt progress file gives the decode error; on success the log exists and the progress file is the healed one |
| `Addon.ChunkProgress` | script.py:194-211 | the new `progress` is at least the stored start and, from inside the log, at most its length; from the end of the log the result is None and `progress` is the start; a prompt is returned exactly when `progress` moved |
| `Addon.ChunkNone` | script.py:194-211 | on success the result is None exactly when the stored index is at or past the end of the log, `chunk_size <= 0`, or the turn there is a pair over the token budget |
| `Addon.ChunkPrompt` | script.py:190-209 | a returned prompt is the header, the lines of exactly the turns from the stored index to the new `progress`, a newline and the primer |
| `Addon.PromptShape` | script.py:209 | `chat_str + "\n" + primer` starts with the header and ends with the primer line |
| `Addon.ExhaustedIsStable` | script.py:194-211 | once the stored index reaches the end of the log, `load_chat` returns None, leaves `progress` at that index, writes nothing when that index was stored, and repeating it changes nothing |
| `Addon.CommitNeverMovesBack` | script.py:194-207 | the index `add_memories` commits to the chat a successful `load_chat` just walked is never behind the index that walk started from |
| `Addon.CommitToOtherChatCanMoveBack` | script.py:113-120 | a walk of chat B that reads one pair leaves `progress` at 1, and committing that under chat A, stored at 10, moves A back to 1 |
| `Addon.MemoryGen.constructor` | script.py:12-16 | the module starts with empty settings, progress 0 and the host's selected character |
| `Addon.MemoryGen.SaveMemories` | script.py:27-47 | the selected character's file (or the shared fallback, as `MemoryPath` picks it) gets the appended list; on KeyError no file changes |
| `Addon.MemoryGen.SaveSettings` | script.py:50-54 | settings.json holds the current settings |
| `Addon.MemoryGen.LoadSettings` | script.py:57-76 | the settings become what `Reloaded` gives, and stay as they were on every error |
| `Addon.MemoryGen.UpdateSettings` | script.py:79-85 | the settings are `Updated` and have exactly the four keys, and settings.json holds them |
| `Addon.MemoryGen.SaveProgress` | script.py:214-230 | a corrupt save.json raises and is untouched; otherwise the file becomes `Saved` with the global `progress` |
| `Addon.MemoryGen.LoadProgress` | script.py:233-256 | returns `StartIndex`, leaves the file `Healed`, and sets `progress` to 0 exactly on a miss |
| `Addon.MemoryGen.LoadChat` | script.py:174-211 | the result, the global `progress` and the progress file are those of `ChunkOutcome` for the selected character's chat log |
| `Addon.MemoryGen.GenerateMemories` | script.py:92-98 | a prompt goes to the generator; None becomes the "entire chat-log" warning; errors pass through |
| `Addon.MemoryGen.AddMemories` | script.py:113-120 | a parse failure raises "Invalid json!" and changes no file; a failed append changes no file; otherwise the memories are appended and then `progress` is committed to the store |

## Left out

- The Gradio UI (`ui`, script.py:128-171) is host framework. Its `gr.Error`/`gr.Warning` exceptions are
  modelled as `Error` values.
- `update_character` (script.py:123-125) only assigns the `character` field. `setup` (script.py:88-89)
  only calls `LoadSettings`. Neither has a member of its own.
- `count_tokens` (script.py:19-22) calls the host tokenizer. It is a parameter `string -> int`.
- `convert_memories` (script.py:101-110) depends on Python's `re` and `json`. It is a parameter that returns
  either the parsed entries or a parse error. The bracket/brace regex is not modelled.
- Generation in `generate_memories` is a parameter `string -> string`. It is modelled as one final reply,
  not the streamed sequence of partial replies.
- File I/O, paths on disk and the JSON/YAML formats are modelled as fields:
  - settings.json and save.json are missing, corrupt or present;
  - the chat logs and character files are maps from path to content.

  A chat log that is corrupt or lacks the `internal` key, and a character file that is not valid YAML,
  are not modelled.
- The selected character is a string. Python's `None` as the selection is not modelled; the string
  `"None"` selects the fallback memory file.
- JSON's coercion of dictionary keys to strings is not modelled.
- Progress indices are natural numbers. A negative or non-integer index put into save.json by hand is not
  modelled.
- Settings values are strings or integers only. Other JSON types in a hand-edited settings.json are not
  modelled. A string `count` is shown as itself, and a string `chunk_size` raises TypeError at the
  comparison, as in Python.
- Concurrency and crashes in the middle of a write are not modelled. The add-on runs one UI callback at a
  time, and every write replaces the whole file.

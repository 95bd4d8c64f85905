/** The add-on's process-wide state and the operations over it: the settings, the selected
    character, the model name, the progress of the last chunk built, and the files the add-on
    reads and writes (settings.json, save.json, the chat logs and the character files). */
module Addon {
  import opened Types
  import opened Chunker
  import opened ProgressStore
  import opened Settings

  /** The host's extensions directory. */
  const ExtensionsDir: string := "extensions/"

  /** Where memories go when no character is selected. */
  const FallbackMemoryPath: string := ExtensionsDir + "complex_memory/saved_memories.yaml"

  /** The file `save_memories` appends to: the selected character's file, or the shared fallback
      when the selection is "None". */
  function MemoryPath(character: string): string {
    if character != "None" then "characters/" + character + ".yaml" else FallbackMemoryPath
  }

  /** Two selections never share a memory file: a character's own file is never the shared
      fallback, and different characters get different files. */
  lemma MemoryPathInjective(a: string, b: string)
    requires MemoryPath(a) == MemoryPath(b)
    ensures a == b
  {
    var pa, pb := MemoryPath(a), MemoryPath(b);
    if a != "None" && b != "None" {
      assert |a| == |b|;
      assert a == pa[11..|pa| - 5];
      assert b == pb[11..|pb| - 5];
    } else if a != "None" {
      OwnFileIsNotFallback(a);
      assert false;
    } else if b != "None" {
      OwnFileIsNotFallback(b);
      assert false;
    }
  }

  /** A selected character's own file is never the shared fallback file. */
  lemma OwnFileIsNotFallback(character: string)
    requires character != "None"
    ensures MemoryPath(character) != FallbackMemoryPath
  {
    assert MemoryPath(character)[0] == 'c' && FallbackMemoryPath[0] == ExtensionsDir[0] == 'e';
  }

  /** The chat log `load_chat` opens; it is keyed by the selected character, not by the
      character name passed to `load_chat`. */
  function ChatLogPath(character: string, chatId: string): string {
    "logs/chat/" + character + "/" + chatId + ".json"
  }

  /** The contents of a file, or None when it does not exist. */
  function Open<T>(files: map<string, T>, path: string): Option<T> {
    if path in files then Some(files[path]) else None
  }

  /** `data["memory"] += memories` on the character file read by `save_memories` (`{}` when the
      file is missing): the new entries go after the old ones and the rest of the card is kept;
      a file without a `memory` key, including the `{}` of a missing file, raises KeyError. */
  function AppendMemories(doc: Option<CharacterFile>, memories: seq<Entry>): (r: Result<CharacterFile>)
    ensures r.Err? <==> doc.None? || doc.value.memory.None?
    ensures r.Err? ==> r.error == KeyError("memory")
    ensures r.Ok? ==> r.value.card == doc.value.card
    ensures r.Ok? ==>
      (r.value.memory.Some? &&
       var before := doc.value.memory.value;
       |r.value.memory.value| == |before| + |memories| &&
       r.value.memory.value[..|before|] == before && r.value.memory.value[|before|..] == memories)
  {
    match doc
    case None => Err(KeyError("memory"))
    case Some(data) =>
      match data.memory
      case None => Err(KeyError("memory"))
      case Some(list) => Ok(data.(memory := Some(list + memories)))
  }

  /** What one call of `load_chat` returns, and the global `progress` and the progress file it
      leaves behind. */
  datatype ChatOutcome = ChatOutcome(result: Result<Option<string>>, progress: nat, progressFile: Stored<ProgressTree>)

  /** `load_chat(chat_id, user, char, max_seq_len)` run against `log` (the chat log's "internal"
      turns, None when the file is missing), the settings, the progress file and the global
      `progress`, for the selected model and character. The steps and their exceptions come in
      the source's order: open the log, fill the instruction and the primer, `load_progress`
      (which heals a miss by writing 0 and setting `progress` to 0), compare with `chunk_size`,
      walk, set `progress` to where the walk stopped. The progress file is never advanced here. */
  function ChunkOutcome(
    settings: map<string, Value>, log: Option<seq<Turn>>, progressFile: Stored<ProgressTree>,
    model: string, character: string, chatId: string, progress: nat,
    userName: string, charName: string, maxSeqLen: int, countTokens: string -> int): (o: ChatOutcome)
    requires WellFormed(settings)
    ensures o.result.Ok? ==>
      log.Some? && !progressFile.Corrupt? && o.progressFile == Healed(progressFile, model, character, chatId)
    ensures log.None? ==> o == ChatOutcome(Err(FileNotFound), progress, progressFile)
    ensures log.Some? && Prepare(settings, charName).Err? ==>
      o == ChatOutcome(Err(Prepare(settings, charName).error), progress, progressFile)
    ensures log.Some? && Prepare(settings, charName).Ok? && progressFile.Corrupt? ==>
      o == ChatOutcome(Err(DecodeError), progress, progressFile)
  {
    match log
    case None => ChatOutcome(Err(FileNotFound), progress, progressFile)
    case Some(turns) =>
      match Prepare(settings, charName)
      case Err(e) => ChatOutcome(Err(e), progress, progressFile)
      case Ok(frame) =>
        if progressFile.Corrupt? then ChatOutcome(Err(DecodeError), progress, progressFile)
        else
          var start := StartIndex(progressFile, model, character, chatId);
          var healed := Healed(progressFile, model, character, chatId);
          var progress' := if StoredIndex(TreeOf(progressFile), model, character, chatId).Some? then progress else 0;
          match settings["chunk_size"]
          case Str(_) => ChatOutcome(Err(TypeError), progress', healed)
          case Int(n) =>
            var b := Budget(userName, charName, frame.primer, n, maxSeqLen, countTokens);
            var w := Walk(b, turns, Cursor(start, 0, frame.header));
            var prompt := w.text + "\n" + frame.primer;
            ChatOutcome(Ok(if w.taken > 0 then Some(prompt) else None), w.next, healed)
  }

  /** The walk of `load_chat` never goes back: the index it leaves in `progress` is at least the
      stored index it started from, and at most the length of the log when it started inside it;
      a prompt comes back exactly when it moved. */
  lemma ChunkProgress(
    settings: map<string, Value>, log: Option<seq<Turn>>, progressFile: Stored<ProgressTree>,
    model: string, character: string, chatId: string, progress: nat,
    userName: string, charName: string, maxSeqLen: int, countTokens: string -> int)
    requires WellFormed(settings)
    ensures var o := ChunkOutcome(settings, log, progressFile, model, character, chatId, progress,
                                  userName, charName, maxSeqLen, countTokens);
      o.result.Ok? ==>
        var start := StartIndex(progressFile, model, character, chatId);
        start <= o.progress &&
        (start <= |log.value| ==> o.progress <= |log.value|) &&
        (start >= |log.value| ==> o.result.value.None? && o.progress == start) &&
        (o.result.value.Some? <==> o.progress > start)
  {
  }

  /** `load_chat` returns None exactly when its walk reads no turn: the stored index is at or past
      the end of the log, `chunk_size` is at most 0, or the turn at the stored index is a pair over
      the token budget. A greeting turn at the stored index is always read, so a walk that stops
      in front of the first pair after it still returns a prompt. */
  lemma ChunkNone(
    settings: map<string, Value>, log: Option<seq<Turn>>, progressFile: Stored<ProgressTree>,
    model: string, character: string, chatId: string, progress: nat,
    userName: string, charName: string, maxSeqLen: int, countTokens: string -> int)
    requires WellFormed(settings)
    ensures var o := ChunkOutcome(settings, log, progressFile, model, character, chatId, progress,
                                  userName, charName, maxSeqLen, countTokens);
      o.result.Ok? ==>
        Prepare(settings, charName).Ok? && settings["chunk_size"].Int? &&
        var f := Prepare(settings, charName).value;
        var b := Budget(userName, charName, f.primer, settings["chunk_size"].n, maxSeqLen, countTokens);
        var start := StartIndex(progressFile, model, character, chatId);
        (o.result.value.None? <==>
          start >= |log.value| || b.chunkSize <= 0 ||
          (!IsSentinel(log.value[start]) && OverBudget(b, f.header, log.value[start])))
  {
    var o := ChunkOutcome(settings, log, progressFile, model, character, chatId, progress,
                          userName, charName, maxSeqLen, countTokens);
    if o.result.Ok? {
      var f := Prepare(settings, charName).value;
      var b := Budget(userName, charName, f.primer, settings["chunk_size"].n, maxSeqLen, countTokens);
      WalkMoves(b, log.value, Cursor(StartIndex(progressFile, model, character, chatId), 0, f.header));
    }
  }

  /** A prompt `load_chat` returns is the filled instruction header, the lines of exactly the
      turns it read (from the stored index up to the new `progress`), a newline and the filled
      primer; so it starts with the header and ends with the primer line. */
  lemma ChunkPrompt(
    settings: map<string, Value>, log: Option<seq<Turn>>, progressFile: Stored<ProgressTree>,
    model: string, character: string, chatId: string, progress: nat,
    userName: string, charName: string, maxSeqLen: int, countTokens: string -> int)
    requires WellFormed(settings)
    ensures var o := ChunkOutcome(settings, log, progressFile, model, character, chatId, progress,
                                  userName, charName, maxSeqLen, countTokens);
      o.result.Ok? && o.result.value.Some? ==>
        Prepare(settings, charName).Ok? && settings["chunk_size"].Int? &&
        var f := Prepare(settings, charName).value;
        var b := Budget(userName, charName, f.primer, settings["chunk_size"].n, maxSeqLen, countTokens);
        var start := StartIndex(progressFile, model, character, chatId);
        var p := o.result.value.value;
        start < o.progress <= |log.value| &&
        p == f.header + Lines(b, log.value, start, o.progress) + "\n" + f.primer &&
        f.header <= p && |f.primer| + 1 <= |p| && p[|p| - |f.primer| - 1..] == "\n" + f.primer
  {
    var o := ChunkOutcome(settings, log, progressFile, model, character, chatId, progress,
                          userName, charName, maxSeqLen, countTokens);
    if o.result.Ok? && o.result.value.Some? {
      var f := Prepare(settings, charName).value;
      var b := Budget(userName, charName, f.primer, settings["chunk_size"].n, maxSeqLen, countTokens);
      var c := Cursor(StartIndex(progressFile, model, character, chatId), 0, f.header);
      var w := Walk(b, log.value, c);
      assert o.progress == w.next && o.result.value.value == w.text + "\n" + f.primer;
      assert c.next < w.next <= |log.value| && w.text == f.header + Lines(b, log.value, c.next, w.next) by {
        assert CanTake(b, log.value, c);
        WalkText(b, log.value, c);
      }
      assert f.header <= w.text by {
        WalkExtends(b, log.value, c);
      }
      PromptShape(f.header, w.text, f.primer);
    }
  }

  /** The prompt `chat_str + "\n" + primer` keeps the header `chat_str` started with and ends with
      the primer line. */
  lemma PromptShape(header: string, text: string, primer: string)
    requires header <= text
    ensures var p := text + "\n" + primer;
      header <= p && |primer| + 1 <= |p| && p[|p| - |primer| - 1..] == "\n" + primer
  {
    var p := text + "\n" + primer;
    assert p[..|header|] == text[..|header|];
    assert p[|text|..] == "\n" + primer;
  }

  /** Once the stored index has reached the end of the log, `load_chat` returns None; when that
      index was stored (not a miss healed to 0) the progress file is left as it was; and calling
      it again from the state it leaves returns None again and changes nothing. */
  lemma ExhaustedIsStable(
    settings: map<string, Value>, turns: seq<Turn>, progressFile: Stored<ProgressTree>,
    model: string, character: string, chatId: string, progress: nat,
    userName: string, charName: string, maxSeqLen: int, countTokens: string -> int)
    requires WellFormed(settings) && !progressFile.Corrupt?
    requires StartIndex(progressFile, model, character, chatId) >= |turns|
    requires Prepare(settings, charName).Ok? && settings["chunk_size"].Int?
    ensures var o := ChunkOutcome(settings, Some(turns), progressFile, model, character, chatId, progress,
                                  userName, charName, maxSeqLen, countTokens);
      o.result == Ok(None) &&
      o.progress == StartIndex(progressFile, model, character, chatId) &&
      (StoredIndex(TreeOf(progressFile), model, character, chatId).Some? ==> o.progressFile == progressFile) &&
      ChunkOutcome(settings, Some(turns), o.progressFile, model, character, chatId, o.progress,
                   userName, charName, maxSeqLen, countTokens) == o
  {
    var o := ChunkOutcome(settings, Some(turns), progressFile, model, character, chatId, progress,
                          userName, charName, maxSeqLen, countTokens);
    HealedIsStable(progressFile, model, character, chatId);
    var start := StartIndex(progressFile, model, character, chatId);
    var o2 := ChunkOutcome(settings, Some(turns), o.progressFile, model, character, chatId, o.progress,
                           userName, charName, maxSeqLen, countTokens);
    assert o2.progress == start;
  }

  /** The index `add_memories` commits after a `load_chat` that succeeded is never behind the index
      that `load_chat` started from, when both calls name the same chat: a commit right after the
      walk of the chat it commits to only moves that chat's stored progress forward. */
  lemma CommitNeverMovesBack(
    settings: map<string, Value>, log: Option<seq<Turn>>, progressFile: Stored<ProgressTree>,
    model: string, character: string, chatId: string, progress: nat,
    userName: string, charName: string, maxSeqLen: int, countTokens: string -> int)
    requires WellFormed(settings)
    ensures var o := ChunkOutcome(settings, log, progressFile, model, character, chatId, progress,
                                  userName, charName, maxSeqLen, countTokens);
      o.result.Ok? ==>
        StartIndex(Saved(o.progressFile, model, character, chatId, o.progress), model, character, chatId) >=
        StartIndex(progressFile, model, character, chatId)
  {
  }

  /** `add_memories` commits the global `progress` under whatever chat id it is given, not the chat
      `load_chat` last walked. Chat "A" has stored index 10; a `load_chat` of chat "B", which has no
      entry yet, walks a log of two pairs with `chunk_size` 2 from 0, reads one pair and leaves
      `progress` at 1; committing that under chat "A" moves "A" back from 10 to 1. */
  lemma CommitToOtherChatCanMoveBack(turns: seq<Turn>)
    requires |turns| == 2 && !IsSentinel(turns[0]) && !IsSentinel(turns[1])
    ensures var settings := map["instruction" := Str("x"), "count" := Int(1), "chunk_size" := Int(2), "primer" := Str("p")];
      var file := Present(map["m" := map["ch" := map["A" := 10]]]);
      var o := ChunkOutcome(settings, Some(turns), file, "m", "ch", "B", 0, "You", "Bot", 0, _ => 0);
      o.result.Ok? && o.progress == 1 && StartIndex(file, "m", "ch", "A") == 10 &&
      StartIndex(Saved(o.progressFile, "m", "ch", "A", o.progress), "m", "ch", "A") == 1
  {
    var settings := map["instruction" := Str("x"), "count" := Int(1), "chunk_size" := Int(2), "primer" := Str("p")];
    var file := Present(map["m" := map["ch" := map["A" := 10]]]);
    var f := Prepare(settings, "Bot").value;
    var b := Budget("You", "Bot", f.primer, 2, 0, _ => 0);
    var c1 := Step(b, turns[0], Cursor(0, 0, f.header));
    assert Walk(b, turns, c1) == c1;
    assert Walk(b, turns, Cursor(0, 0, f.header)) == c1;
  }

  class MemoryGen {
    var settings: map<string, Value>
    var settingsFile: Stored<map<string, Value>>
    var character: string
    var modelName: string
    var progress: nat
    var progressFile: Stored<ProgressTree>
    var chatLogs: map<string, seq<Turn>>
    var memoryFiles: map<string, CharacterFile>

    /** The settings are the empty object the module starts with, or have exactly the four keys. */
    ghost predicate Valid()
      reads this
    {
      WellFormed(settings)
    }

    /** Module load: empty settings, the host's selected character, progress 0. */
    constructor (character: string, modelName: string, settingsFile: Stored<map<string, Value>>,
                 progressFile: Stored<ProgressTree>, chatLogs: map<string, seq<Turn>>,
                 memoryFiles: map<string, CharacterFile>)
      ensures Valid() && settings == map[] && progress == 0
      ensures this.character == character && this.modelName == modelName
      ensures this.settingsFile == settingsFile && this.progressFile == progressFile
      ensures this.chatLogs == chatLogs && this.memoryFiles == memoryFiles
    {
      settings := map[];
      this.character := character;
      this.modelName := modelName;
      progress := 0;
      this.settingsFile := settingsFile;
      this.progressFile := progressFile;
      this.chatLogs := chatLogs;
      this.memoryFiles := memoryFiles;
    }

    /** `save_memories`: append the entries to the memory list of the selected character's file,
        or fail with KeyError and leave every file as it was. */
    method SaveMemories(memories: seq<Entry>) returns (r: Outcome)
      modifies this`memoryFiles
      ensures var path := MemoryPath(character);
        var a := AppendMemories(Open(old(memoryFiles), path), memories);
        (a.Err? ==> r == Fail(a.error) && memoryFiles == old(memoryFiles)) &&
        (a.Ok? ==> r == Pass && memoryFiles == old(memoryFiles)[path := a.value])
    {
      var path := MemoryPath(character);
      var updated := AppendMemories(Open(memoryFiles, path), memories);
      if updated.Err? {
        return Fail(updated.error);
      }
      memoryFiles := memoryFiles[path := updated.value];
      return Pass;
    }

    /** `save_settings`: write the settings object to settings.json. */
    method SaveSettings()
      modifies this`settingsFile
      ensures settingsFile == Present(settings)
    {
      settingsFile := Present(settings);
    }

    /** `load_settings`: read settings.json and take it only when it has exactly the four keys. */
    method LoadSettings() returns (r: Outcome)
      requires Valid()
      modifies this`settings
      ensures Valid()
      ensures var n := Reloaded(old(settings), settingsFile);
        (n.Ok? ==> r == Pass && settings == n.value) &&
        (n.Err? ==> r == Fail(n.error) && settings == old(settings))
    {
      match settingsFile
      case Missing =>
        return Fail(MissingSettings);
      case Corrupt =>
        return Fail(DecodeError);
      case Present(data) =>
        if data != map[] {
          if data.Keys == SettingKeys {
            settings := data;
          } else {
            return Fail(InvalidSettings);
          }
        }
        return Pass;
    }

    /** `update_settings`: overwrite the four fields, then save the settings. */
    method UpdateSettings(instruction: string, count: int, chunkSize: int, primer: string)
      requires Valid()
      modifies this`settings, this`settingsFile
      ensures Valid() && settings.Keys == SettingKeys
      ensures settings == Updated(old(settings), instruction, count, chunkSize, primer)
      ensures settingsFile == Present(settings)
    {
      settings := settings["instruction" := Str(instruction)];
      settings := settings["count" := Int(count)];
      settings := settings["chunk_size" := Int(chunkSize)];
      settings := settings["primer" := Str(primer)];
      SaveSettings();
    }

    /** `save_progress`: read save.json (`{}` when missing), set the leaf for the selected model,
        the selected character and `chatId` to the global `progress`, and write it back. */
    method SaveProgress(chatId: string) returns (r: Outcome)
      modifies this`progressFile
      ensures old(progressFile).Corrupt? ==> r == Fail(DecodeError) && progressFile == old(progressFile)
      ensures !old(progressFile).Corrupt? ==>
        r == Pass && progressFile == Saved(old(progressFile), modelName, character, chatId, progress)
    {
      var saveJson: ProgressTree;
      match progressFile {
        case Corrupt =>
          return Fail(DecodeError);
        case Missing =>
          saveJson := map[];
        case Present(t) =>
          saveJson := t;
      }
      var byCharacter: map<string, map<string, nat>> := if modelName in saveJson then saveJson[modelName] else map[];
      var byChat: map<string, nat> := if character in byCharacter then byCharacter[character] else map[];
      byChat := byChat[chatId := progress];
      byCharacter := byCharacter[character := byChat];
      saveJson := saveJson[modelName := byCharacter];
      progressFile := Present(saveJson);
      return Pass;
    }

    /** `load_progress`: the stored index for the selected model and character and `chatId`; on a
        missing file or path, 0, after setting `progress` to 0 and saving it. */
    method LoadProgress(chatId: string) returns (r: Result<nat>)
      modifies this`progress, this`progressFile
      ensures old(progressFile).Corrupt? ==>
        r == Err(DecodeError) && progress == old(progress) && progressFile == old(progressFile)
      ensures !old(progressFile).Corrupt? ==>
        r == Ok(StartIndex(old(progressFile), modelName, character, chatId)) &&
        progressFile == Healed(old(progressFile), modelName, character, chatId) &&
        progress == if StoredIndex(TreeOf(old(progressFile)), modelName, character, chatId).Some?
                    then old(progress) else 0
    {
      match progressFile
      case Corrupt =>
        return Err(DecodeError);
      case Missing =>
        progress := 0;
        var _ := SaveProgress(chatId);
        return Ok(0);
      case Present(saveJson) =>
        match StoredIndex(saveJson, modelName, character, chatId)
        case Some(v) =>
          return Ok(v);
        case None =>
          progress := 0;
          var _ := SaveProgress(chatId);
          return Ok(0);
    }

    /** `load_chat`: build the next chunk's prompt from the chat log, or None when no turn could be
        read, and leave the index where the walk stopped in `progress`. */
    method LoadChat(chatId: string, userName: string, charName: string, maxSeqLen: int,
                    countTokens: string -> int)
      returns (r: Result<Option<string>>)
      requires Valid()
      modifies this`progress, this`progressFile
      ensures Valid()
      ensures ChatOutcome(r, progress, progressFile) ==
        old(ChunkOutcome(settings, Open(chatLogs, ChatLogPath(character, chatId)), progressFile,
                         modelName, character, chatId, progress, userName, charName, maxSeqLen, countTokens))
    {
      var path := ChatLogPath(character, chatId);
      if path !in chatLogs {
        return Err(FileNotFound);
      }
      var chatJson := chatLogs[path];
      var frame := Prepare(settings, charName);
      if frame.Err? {
        return Err(frame.error);
      }
      var i := LoadProgress(chatId);
      if i.Err? {
        return Err(i.error);
      }
      match settings["chunk_size"]
      case Str(_) =>
        return Err(TypeError);
      case Int(chunkSize) =>
        var b := Budget(userName, charName, frame.value.primer, chunkSize, maxSeqLen, countTokens);
        var next, taken, chatStr := CollectTurns(b, chatJson, i.value, frame.value.header);
        progress := next;
        if taken > 0 {
          return Ok(Some(chatStr + "\n" + b.primer));
        } else {
          return Ok(None);
        }
    }

    /** `generate_memories`: the prompt of `load_chat` handed to the host's generator, or the
        "generated memories for entire chat-log" warning when `load_chat` returns None. */
    method GenerateMemories(chatId: string, userName: string, charName: string, maxSeqLen: int,
                            countTokens: string -> int, generate: string -> string)
      returns (r: Result<string>)
      requires Valid()
      modifies this`progress, this`progressFile
      ensures Valid()
      ensures var o := old(ChunkOutcome(settings, Open(chatLogs, ChatLogPath(character, chatId)), progressFile,
                                        modelName, character, chatId, progress, userName, charName, maxSeqLen,
                                        countTokens));
        progress == o.progress && progressFile == o.progressFile &&
        r == match o.result
             case Err(e) => Err(e)
             case Ok(None) => Err(AllGenerated)
             case Ok(Some(prompt)) => Ok(generate(prompt))
    {
      var prompt := LoadChat(chatId, userName, charName, maxSeqLen, countTokens);
      match prompt
      case Err(e) =>
        return Err(e);
      case Ok(None) =>
        return Err(AllGenerated);
      case Ok(Some(p)) =>
        return Ok(generate(p));
    }

    /** `add_memories`: parse the model output; only when it parses, append the entries to the
        memory file and then commit the global `progress` to the progress file. */
    method AddMemories(output: string, chatId: string, convert: string -> Result<seq<Entry>>)
      returns (r: Outcome)
      modifies this`memoryFiles, this`progressFile
      ensures convert(output).Err? ==>
        r == Fail(InvalidJson) && memoryFiles == old(memoryFiles) && progressFile == old(progressFile)
      ensures convert(output).Ok? ==>
        var a := AppendMemories(Open(old(memoryFiles), MemoryPath(character)), convert(output).value);
        (a.Err? ==> r == Fail(a.error) && memoryFiles == old(memoryFiles) && progressFile == old(progressFile)) &&
        (a.Ok? ==>
          (memoryFiles == old(memoryFiles)[MemoryPath(character) := a.value] &&
           (old(progressFile).Corrupt? ==> r == Fail(DecodeError) && progressFile == old(progressFile)) &&
           (!old(progressFile).Corrupt? ==>
             r == Pass && progressFile == Saved(old(progressFile), modelName, character, chatId, progress))))
    {
      var memories := convert(output);
      if memories.Err? {
        return Fail(InvalidJson);
      }
      var saved := SaveMemories(memories.value);
      if saved.Fail? {
        return saved;
      }
      r := SaveProgress(chatId);
    }
  }
}

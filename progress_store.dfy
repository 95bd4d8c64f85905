/** The progress store `save.json`: for each model, character and chat, the index of the first
    turn of the chat log not yet turned into memories. */
module ProgressStore {
  import opened Types

  /** model name -> character name -> chat id -> index of the next turn to read. */
  type ProgressTree = map<string, map<string, map<string, nat>>>

  /** `save_json[model][character][chat_id]`, or None where Python raises KeyError. */
  function StoredIndex(t: ProgressTree, model: string, character: string, chatId: string): Option<nat> {
    if model in t && character in t[model] && chatId in t[model][character]
    then Some(t[model][character][chatId])
    else None
  }

  /** `save_json.setdefault(model, {}).setdefault(character, {})[chat_id] = v`: the one leaf is
      set, creating the levels above it when missing, and every other leaf stays as it was. */
  function SetLeaf(t: ProgressTree, model: string, character: string, chatId: string, v: nat): (r: ProgressTree)
    ensures StoredIndex(r, model, character, chatId) == Some(v)
    ensures forall m, c, k :: (m, c, k) != (model, character, chatId) ==>
      StoredIndex(r, m, c, k) == StoredIndex(t, m, c, k)
    ensures r.Keys == t.Keys + {model}
    ensures r[model].Keys == (if model in t then t[model].Keys else {}) + {character}
  {
    var byCharacter: map<string, map<string, nat>> := if model in t then t[model] else map[];
    var byChat: map<string, nat> := if character in byCharacter then byCharacter[character] else map[];
    t[model := byCharacter[character := byChat[chatId := v]]]
  }

  /** The tree `save_progress` starts from: the file's contents, or `{}` when the file is missing. */
  function TreeOf(file: Stored<ProgressTree>): ProgressTree
    requires !file.Corrupt?
  {
    if file.Present? then file.value else map[]
  }

  /** What `load_progress` returns: the stored index, or 0 when the file or any level of the
      path is missing. */
  function StartIndex(file: Stored<ProgressTree>, model: string, character: string, chatId: string): (i: nat)
    requires !file.Corrupt?
    ensures file.Missing? ==> i == 0
    ensures StoredIndex(TreeOf(file), model, character, chatId).Some? ==>
      i == StoredIndex(TreeOf(file), model, character, chatId).value
    ensures StoredIndex(TreeOf(file), model, character, chatId).None? ==> i == 0
  {
    match StoredIndex(TreeOf(file), model, character, chatId)
    case Some(v) => v
    case None => 0
  }

  /** The file after `save_progress` writes `v` for one chat (the file must be readable): loading
      that chat returns `v`, and loading any other chat returns what it returned before. */
  function Saved(file: Stored<ProgressTree>, model: string, character: string, chatId: string, v: nat): (f: Stored<ProgressTree>)
    requires !file.Corrupt?
    ensures f.Present?
    ensures StartIndex(f, model, character, chatId) == v
    ensures forall m, c, k :: (m, c, k) != (model, character, chatId) ==>
      StoredIndex(f.value, m, c, k) == StoredIndex(TreeOf(file), m, c, k)
    ensures forall m, c, k :: (m, c, k) != (model, character, chatId) ==>
      StartIndex(f, m, c, k) == StartIndex(file, m, c, k)
  {
    Present(SetLeaf(TreeOf(file), model, character, chatId, v))
  }

  /** The file after `load_progress`: untouched on a hit; on a miss, 0 written at the path. */
  function Healed(file: Stored<ProgressTree>, model: string, character: string, chatId: string): (f: Stored<ProgressTree>)
    requires !file.Corrupt?
    ensures !f.Corrupt?
    ensures StoredIndex(TreeOf(f), model, character, chatId) == Some(StartIndex(file, model, character, chatId))
    ensures StartIndex(f, model, character, chatId) == StartIndex(file, model, character, chatId)
    ensures StoredIndex(TreeOf(file), model, character, chatId).Some? ==> f == file
    ensures forall m, c, k :: (m, c, k) != (model, character, chatId) ==>
      StoredIndex(TreeOf(f), m, c, k) == StoredIndex(TreeOf(file), m, c, k)
  {
    if StoredIndex(TreeOf(file), model, character, chatId).Some? then file
    else Saved(file, model, character, chatId, 0)
  }

  /** Loading twice is loading once: the first load heals the path, so the second is a hit that
      changes nothing and returns the same index. */
  lemma HealedIsStable(file: Stored<ProgressTree>, model: string, character: string, chatId: string)
    requires !file.Corrupt?
    ensures var f := Healed(file, model, character, chatId);
      Healed(f, model, character, chatId) == f &&
      StartIndex(f, model, character, chatId) == StartIndex(file, model, character, chatId)
  {
  }
}

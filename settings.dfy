/** The settings object: exactly the four keys `instruction`, `count`, `chunk_size` and
    `primer`, loaded from `settings.json` and overwritten by edits in the settings tab. */
module Settings {
  import opened Types

  const SettingKeys: set<string> := {"instruction", "count", "chunk_size", "primer"}

  /** What the in-memory settings can be: the empty object it starts as, or an object with
      exactly the four keys. */
  predicate WellFormed(s: map<string, Value>) {
    s == map[] || s.Keys == SettingKeys
  }

  /** The settings after `load_settings` reads `file`, or the error it raises. A missing file and
      an object with any other non-empty key set are errors; an empty object keeps the current
      settings; an object with exactly the four keys replaces them. */
  function Reloaded(current: map<string, Value>, file: Stored<map<string, Value>>): (r: Result<map<string, Value>>)
    ensures file.Missing? ==> r == Err(MissingSettings)
    ensures file.Corrupt? ==> r == Err(DecodeError)
    ensures file.Present? && file.value != map[] && file.value.Keys != SettingKeys ==> r == Err(InvalidSettings)
    ensures file.Present? && file.value == map[] ==> r == Ok(current)
    ensures r.Err? <==> !file.Present? || (file.value != map[] && file.value.Keys != SettingKeys)
    ensures r.Ok? ==> r.value == current || (r.value == file.value && r.value.Keys == SettingKeys)
    ensures file.Present? && file.value.Keys == SettingKeys ==> r == Ok(file.value)
    ensures WellFormed(current) && r.Ok? ==> WellFormed(r.value)
  {
    match file
    case Missing => Err(MissingSettings)
    case Corrupt => Err(DecodeError)
    case Present(data) =>
      if data == map[] then Ok(current)
      else if data.Keys == SettingKeys then Ok(data)
      else Err(InvalidSettings)
  }

  /** The settings after `update_settings`: the four fields overwritten, nothing else touched. */
  function Updated(current: map<string, Value>, instruction: string, count: int, chunkSize: int, primer: string)
    : (r: map<string, Value>)
    ensures r.Keys == current.Keys + SettingKeys
    ensures r["instruction"] == Str(instruction) && r["count"] == Int(count)
    ensures r["chunk_size"] == Int(chunkSize) && r["primer"] == Str(primer)
    ensures forall k :: k in current && k !in SettingKeys ==> r[k] == current[k]
    ensures WellFormed(current) ==> r.Keys == SettingKeys
  {
    current["instruction" := Str(instruction)]["count" := Int(count)]
           ["chunk_size" := Int(chunkSize)]["primer" := Str(primer)]
  }

  /** What `update_settings` writes back is accepted as it is by the next `load_settings`. */
  lemma UpdateThenReload(current: map<string, Value>, instruction: string, count: int, chunkSize: int,
                         primer: string, other: map<string, Value>)
    requires WellFormed(current)
    ensures var s := Updated(current, instruction, count, chunkSize, primer);
      Reloaded(other, Present(s)) == Ok(s)
  {
  }
}

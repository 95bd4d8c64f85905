/** Values shared by every part of the memory-generation add-on: the exceptions it
    raises or lets through, the settings values, the files it reads and writes,
    and the turns of a chat log. */
module Types {

  datatype Option<+T> = None | Some(value: T)

  /** The exceptions of the add-on, as values. */
  datatype Error =
    | MissingSettings      // gr.Error("CMGA Missing Settings!")
    | InvalidSettings      // gr.Error("CMGA Invalid Settings!")
    | InvalidJson          // gr.Error("Invalid json!") raised by add_memories
    | AllGenerated         // gr.Warning raised when load_chat has nothing left to read
    | FileNotFound         // a chat log opened for reading that does not exist
    | DecodeError          // json.JSONDecodeError from a file that is not valid JSON
    | KeyError(key: string)
    | AttributeError       // str.replace called on a value that is not a string
    | TypeError            // `<` between an int and a str
    | IndexError           // chat_str[-1] on an empty string

  datatype Result<+T> = Ok(value: T) | Err(error: Error)

  datatype Outcome = Pass | Fail(error: Error)

  /** A value of the settings object: the add-on stores strings and integers. */
  datatype Value = Str(s: string) | Int(n: int)

  /** A JSON file the add-on owns: absent, present but not valid JSON, or holding a value. */
  datatype Stored<+T> = Missing | Corrupt | Present(value: T)

  /** One entry of a chat log's "internal" list: what the user said and what the character replied. */
  datatype Turn = Turn(user: string, reply: string)

  /** The user half of the greeting turn that opens every chat log. */
  const Sentinel: string := "<|BEGIN-VISIBLE-CHAT|>"

  predicate IsSentinel(t: Turn) {
    t.user == Sentinel
  }

  /** A memory record as the model emits it: a flat JSON object. */
  datatype Entry = Entry(fields: map<string, string>)

  /** A character's YAML file: its `memory` list, when the key is there, and the rest of the card. */
  datatype CharacterFile = CharacterFile(memory: Option<seq<Entry>>, card: map<string, string>)
}

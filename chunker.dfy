/** The pure half of `load_chat`: the prompt header and primer built from the settings
    templates, and the forward walk over a chat log's turns that decides which turns go
    into one chunk. `CollectTurns` is the walk as the add-on runs it, a loop over two
    counters; `Walk` is the same walk as a recursive function, about which the lemmas
    below are stated. */
module Chunker {
  import opened Types
  import opened Strings

  /** Python's `str(v)` of a settings value. */
  function Show(v: Value): string {
    match v
    case Str(s) => s
    case Int(n) => Decimal(n)
  }

  /** `template.replace('{char}', charName).replace('{count}', count)`. */
  function Substitute(template: string, charName: string, count: string): string {
    ReplaceAll(ReplaceAll(template, "{char}", charName), "{count}", count)
  }

  /** `settings[key].replace('{char}', charName).replace('{count}', str(settings["count"]))`,
      with the exceptions Python raises on the way, in the order it raises them. */
  function Fill(settings: map<string, Value>, key: string, charName: string): Result<string> {
    if key !in settings then Err(KeyError(key))
    else match settings[key]
      case Int(_) => Err(AttributeError)
      case Str(t) =>
        if "count" !in settings then Err(KeyError("count"))
        else Ok(Substitute(t, charName, Show(settings["count"])))
  }

  predicate EndsWithNewline(s: string) {
    s != [] && s[|s| - 1] == '\n'
  }

  /** The filled instruction, which opens every prompt, and the filled primer, which closes it. */
  datatype Frame = Frame(header: string, primer: string)

  /** The header and primer of `load_chat`: both templates filled, and a newline added to the
      instruction unless it already ends with one. An instruction that fills to the empty
      string makes `chat_str[-1]` raise IndexError. */
  function Prepare(settings: map<string, Value>, charName: string): (r: Result<Frame>)
    ensures r.Ok? <==>
      Fill(settings, "instruction", charName).Ok? && Fill(settings, "primer", charName).Ok? &&
      Fill(settings, "instruction", charName).value != []
    ensures Fill(settings, "instruction", charName).Err? ==> r == Err(Fill(settings, "instruction", charName).error)
    ensures Fill(settings, "instruction", charName).Ok? && Fill(settings, "primer", charName).Err? ==>
      r == Err(Fill(settings, "primer", charName).error)
    ensures Fill(settings, "instruction", charName) == Ok([]) && Fill(settings, "primer", charName).Ok? ==>
      r == Err(IndexError)
    ensures r.Ok? ==> "instruction" in settings && "primer" in settings && "count" in settings
    ensures r.Ok? ==> EndsWithNewline(r.value.header)
    ensures r.Ok? ==>
      var body := Fill(settings, "instruction", charName).value;
      body <= r.value.header && |r.value.header| <= |body| + 1
    ensures r.Ok? && EndsWithNewline(Fill(settings, "instruction", charName).value) ==>
      r.value.header == Fill(settings, "instruction", charName).value
    ensures r.Ok? ==> r.value.primer == Fill(settings, "primer", charName).value
  {
    var h := Fill(settings, "instruction", charName);
    if h.Err? then Err(h.error)
    else
      var p := Fill(settings, "primer", charName);
      if p.Err? then Err(p.error)
      else if h.value == [] then Err(IndexError)
      else Ok(Frame(if h.value[|h.value| - 1] != '\n' then h.value + "\n" else h.value, p.value))
  }

  /** A template without any `{` has no placeholder to fill and comes back as it is. */
  lemma SubstitutePlain(template: string, charName: string, count: string)
    requires forall i :: 0 <= i < |template| ==> template[i] != '{'
    ensures Substitute(template, charName, count) == template
  {
    forall k: nat | k < |template| ensures !OccursAt(template, "{char}", k) {
      if k + 6 <= |template| { assert template[k..k + 6][0] == template[k]; }
    }
    ReplaceAbsent(template, "{char}", charName);
    forall k: nat | k < |template| ensures !OccursAt(template, "{count}", k) {
      if k + 7 <= |template| { assert template[k..k + 7][0] == template[k]; }
    }
    ReplaceAbsent(template, "{count}", count);
  }

  // ----- the walk -----

  /** What one walk needs besides the turns: the two names, the filled primer, the turn
      budget `chunk_size`, the token budget `max_seq_len`, and the host's token counter. */
  datatype Budget = Budget(
    userName: string,
    charName: string,
    primer: string,
    chunkSize: int,
    maxSeqLen: int,
    countTokens: string -> int)

  /** The walk's state: the next turn to read (`i`), the turns counted so far (`j`) and the
      prompt text built so far (`chat_str`). */
  datatype Cursor = Cursor(next: nat, taken: nat, text: string)

  /** The two lines a user/character pair adds to the prompt. */
  function PairLine(b: Budget, t: Turn): string {
    b.userName + ": " + t.user + "\n" + b.charName + ": " + t.reply + "\n"
  }

  /** The text one turn adds: the greeting turn adds only the character's line. */
  function Line(b: Budget, t: Turn): string {
    if IsSentinel(t) then b.charName + ": " + t.reply + "\n" else PairLine(b, t)
  }

  /** The text the turns at indices `lo` up to (not including) `hi` add, in order. */
  function Lines(b: Budget, turns: seq<Turn>, lo: nat, hi: nat): string
    requires lo <= hi <= |turns|
    decreases hi - lo
  {
    if lo == hi then [] else Line(b, turns[lo]) + Lines(b, turns, lo + 1, hi)
  }

  /** What a turn counts against `chunk_size`: 1 for the greeting, 2 for a pair. */
  function TurnCost(t: Turn): nat {
    if IsSentinel(t) then 1 else 2
  }

  /** A non-empty run of turns is the first turn's line followed by the rest. */
  lemma LinesCons(b: Budget, turns: seq<Turn>, lo: nat, hi: nat)
    requires lo < hi <= |turns|
    ensures Lines(b, turns, lo, hi) == Line(b, turns[lo]) + Lines(b, turns, lo + 1, hi)
  {
  }

  /** What the turns at indices `lo` up to (not including) `hi` count against `chunk_size`. */
  function Cost(turns: seq<Turn>, lo: nat, hi: nat): nat
    requires lo <= hi <= |turns|
    decreases hi - lo
  {
    if lo == hi then 0 else TurnCost(turns[lo]) + Cost(turns, lo + 1, hi)
  }

  /** The text whose tokens are counted before a pair is taken: the prompt so far, the pair,
      a newline and the primer. */
  function Lookahead(b: Budget, text: string, t: Turn): string {
    text + PairLine(b, t) + "\n" + b.primer
  }

  predicate OverBudget(b: Budget, text: string, t: Turn) {
    b.countTokens(Lookahead(b, text, t)) > b.maxSeqLen
  }

  /** The walk reads the turn at `c.next` when fewer than `chunk_size` turns are counted, the
      log has a turn there, and that turn is the greeting or a pair within the token budget. */
  predicate CanTake(b: Budget, turns: seq<Turn>, c: Cursor) {
    c.taken < b.chunkSize && c.next < |turns| &&
    (IsSentinel(turns[c.next]) || !OverBudget(b, c.text, turns[c.next]))
  }

  /** The cursor after reading turn `t`. */
  function Step(b: Budget, t: Turn, c: Cursor): Cursor {
    Cursor(c.next + 1, c.taken + TurnCost(t), c.text + Line(b, t))
  }

  /** The walk of `load_chat` from cursor `c`. It never moves backwards; it reads a turn exactly
      when it counts one; it reads nothing when it starts at or past the end of the log, with
      the turn budget spent, or in front of a pair over the token budget; and it overshoots
      `chunk_size` by at most one. */
  function Walk(b: Budget, turns: seq<Turn>, c: Cursor): (r: Cursor)
    ensures c.next <= r.next && c.taken <= r.taken
    ensures c.next <= |turns| ==> r.next <= |turns|
    ensures (r.next == c.next) == (r.taken == c.taken)
    ensures r.taken <= c.taken || r.taken <= b.chunkSize + 1
    decreases |turns| - c.next
  {
    if CanTake(b, turns, c) then Walk(b, turns, Step(b, turns[c.next], c)) else c
  }

  /** The walk reads the turn at `c.next` exactly when it can take it, and a walk that reads
      nothing leaves the cursor as it was. */
  lemma WalkMoves(b: Budget, turns: seq<Turn>, c: Cursor)
    ensures Walk(b, turns, c).next > c.next <==> CanTake(b, turns, c)
    ensures Walk(b, turns, c).next == c.next ==> Walk(b, turns, c) == c
  {
  }

  /** A walk that can take the turn at `c.next` goes on from the cursor after it. */
  lemma WalkStep(b: Budget, turns: seq<Turn>, c: Cursor)
    requires CanTake(b, turns, c)
    ensures Walk(b, turns, c) == Walk(b, turns, Step(b, turns[c.next], c))
  {
  }

  /** A walk only appends to the prompt. */
  lemma {:induction false} WalkExtends(b: Budget, turns: seq<Turn>, c: Cursor)
    ensures c.text <= Walk(b, turns, c).text
    decreases |turns| - c.next
  {
    if CanTake(b, turns, c) {
      var c' := Step(b, turns[c.next], c);
      WalkExtends(b, turns, c');
      assert c.text <= c'.text;
    }
  }

  /** The text before index `k` is the same whether counted from `c` or from the step after it. */
  lemma TextBeforeShift(b: Budget, turns: seq<Turn>, c: Cursor, k: nat)
    requires c.next < k <= |turns|
    ensures var c' := Step(b, turns[c.next], c);
      c.text + Lines(b, turns, c.next, k) == c'.text + Lines(b, turns, c'.next, k)
  {
    LinesCons(b, turns, c.next, k);
    AppendAssoc(c.text, Line(b, turns[c.next]), Lines(b, turns, c.next + 1, k));
  }

  /** What a walk from `c` counts is the cost of the turns it read, indices `c.next` to `r.next`. */
  lemma {:induction false} WalkCounts(b: Budget, turns: seq<Turn>, c: Cursor)
    requires c.next <= |turns|
    ensures Walk(b, turns, c).next <= |turns|
    ensures Walk(b, turns, c).taken == c.taken + Cost(turns, c.next, Walk(b, turns, c).next)
    decreases |turns| - c.next
  {
    var r := Walk(b, turns, c);
    if r.next > c.next {
      assert CanTake(b, turns, c);
      var c' := Step(b, turns[c.next], c);
      assert r == Walk(b, turns, c');
      WalkCounts(b, turns, c');
    }
  }

  /** What a walk from `c` appends to the prompt is the text of the turns it read. */
  lemma {:induction false} WalkText(b: Budget, turns: seq<Turn>, c: Cursor)
    requires c.next <= |turns|
    ensures Walk(b, turns, c).next <= |turns|
    ensures Walk(b, turns, c).text == c.text + Lines(b, turns, c.next, Walk(b, turns, c).next)
    decreases |turns| - c.next
  {
    WalkMoves(b, turns, c);
    if CanTake(b, turns, c) {
      var c' := Step(b, turns[c.next], c);
      WalkStep(b, turns, c);
      WalkText(b, turns, c');
      TextBeforeShift(b, turns, c, Walk(b, turns, c).next);
    } else {
      AppendEmpty(c.text);
    }
  }

  /** A walk that starts inside the log stays inside it, and what it read, the turns from `c.next` to `r.next`,
      is exactly what it counted and exactly what it appended to the prompt. */
  lemma WalkReads(b: Budget, turns: seq<Turn>, c: Cursor)
    requires c.next <= |turns|
    ensures Walk(b, turns, c).next <= |turns|
    ensures Walk(b, turns, c).taken == c.taken + Cost(turns, c.next, Walk(b, turns, c).next)
    ensures Walk(b, turns, c).text == c.text + Lines(b, turns, c.next, Walk(b, turns, c).next)
  {
    WalkCounts(b, turns, c);
    WalkText(b, turns, c);
  }

  /** The turn at index `k` passed the token check of a walk from `c`, if it is a pair: the prompt
      so far, that pair, a newline and the primer were within `max_seq_len`. */
  predicate PairFits(b: Budget, turns: seq<Turn>, c: Cursor, k: nat)
    requires c.next <= k < |turns|
  {
    IsSentinel(turns[k]) || !OverBudget(b, c.text + Lines(b, turns, c.next, k), turns[k])
  }

  /** Every pair a walk from `c` took before index `end` passed the token check when it was taken. */
  ghost predicate PairsFit(b: Budget, turns: seq<Turn>, c: Cursor, end: nat)
    requires c.next <= end <= |turns|
  {
    forall k :: c.next <= k < end ==> PairFits(b, turns, c, k)
  }

  /** A pair the walk from `c` read at index `k` passed the token check at that point. */
  lemma {:induction false} PairTaken(b: Budget, turns: seq<Turn>, c: Cursor, k: nat)
    requires c.next <= k < Walk(b, turns, c).next && k < |turns|
    ensures PairFits(b, turns, c, k)
    decreases |turns| - c.next
  {
    assert CanTake(b, turns, c);
    if k == c.next {
      AppendEmpty(c.text);
    } else {
      var c' := Step(b, turns[c.next], c);
      assert Walk(b, turns, c) == Walk(b, turns, c');
      PairTaken(b, turns, c', k);
      TextBeforeShift(b, turns, c, k);
    }
  }

  lemma WalkWithinBudget(b: Budget, turns: seq<Turn>, c: Cursor)
    requires c.next <= |turns|
    ensures Walk(b, turns, c).next <= |turns| && PairsFit(b, turns, c, Walk(b, turns, c).next)
  {
    forall k | c.next <= k < Walk(b, turns, c).next ensures PairFits(b, turns, c, k) {
      PairTaken(b, turns, c, k);
    }
  }

  /** Why a walk stops: the log is read to the end, the turn budget is spent, or the next turn is
      a pair that would overflow the token budget. The greeting turn never stops it, and a pair
      that stops it is not read: the walk ends pointing at it. */
  lemma {:induction false} WalkStops(b: Budget, turns: seq<Turn>, c: Cursor)
    ensures var r := Walk(b, turns, c);
      r.next >= |turns| || r.taken >= b.chunkSize ||
      (!IsSentinel(turns[r.next]) && OverBudget(b, r.text, turns[r.next]))
    decreases |turns| - c.next
  {
    var r := Walk(b, turns, c);
    if r.next > c.next {
      var c' := Step(b, turns[c.next], c);
      WalkStops(b, turns, c');
    }
  }

  /** A run of one turn is that turn's line. */
  lemma LinesOne(b: Budget, turns: seq<Turn>, k: nat)
    requires k < |turns|
    ensures Lines(b, turns, k, k + 1) == Lines(b, turns, k, k) + Line(b, turns[k])
  {
    LinesCons(b, turns, k, k + 1);
    AppendEmpty(Line(b, turns[k]));
    EmptyAppend(Line(b, turns[k]));
  }

  /** A non-empty run of turns is the run without its last turn followed by that turn's line. */
  lemma {:induction false} LinesSnoc(b: Budget, turns: seq<Turn>, lo: nat, hi: nat)
    requires lo < hi <= |turns|
    ensures Lines(b, turns, lo, hi) == Lines(b, turns, lo, hi - 1) + Line(b, turns[hi - 1])
    decreases hi - lo
  {
    if lo + 1 == hi {
      LinesOne(b, turns, lo);
    } else {
      LinesCons(b, turns, lo, hi);
      LinesSnoc(b, turns, lo + 1, hi);
      LinesCons(b, turns, lo, hi - 1);
      AppendAssoc(Line(b, turns[lo]), Lines(b, turns, lo + 1, hi - 1), Line(b, turns[hi - 1]));
    }
  }

  /** The prompt `load_chat` returns is `chat_str + "\n" + primer`; when the last turn read is a
      pair, that is exactly the text last counted, so the whole prompt is within `max_seq_len`. */
  lemma PromptWithinBudget(b: Budget, turns: seq<Turn>, c: Cursor)
    requires c.next <= |turns|
    ensures var r := Walk(b, turns, c);
      r.next <= |turns| &&
      (r.next > c.next && !IsSentinel(turns[r.next - 1]) ==>
        b.countTokens(r.text + "\n" + b.primer) <= b.maxSeqLen)
  {
    var r := Walk(b, turns, c);
    if r.next > c.next && !IsSentinel(turns[r.next - 1]) {
      var k := r.next - 1;
      PairTaken(b, turns, c, k);
      WalkText(b, turns, c);
      LinesSnoc(b, turns, c.next, r.next);
      AppendAssoc(c.text, Lines(b, turns, c.next, k), Line(b, turns[k]));
    }
  }

  /** A walk that has nothing to read before the end of the log counts nothing. */
  lemma WalkFromEnd(b: Budget, turns: seq<Turn>, c: Cursor)
    requires c.next >= |turns|
    ensures Walk(b, turns, c) == c
  {
  }

  /** A log of the greeting and five pairs, `chunk_size` 3, a budget no pair exceeds, read from
      index 0: the greeting (1) and one pair (2) spend the budget, and the walk stops at index 2
      with those two turns' lines after the header. */
  lemma SixTurnScenario(header: string, primer: string, turns: seq<Turn>)
    requires |turns| == 6 && IsSentinel(turns[0])
    requires forall k :: 1 <= k < 6 ==> !IsSentinel(turns[k])
    ensures var b := Budget("You", "Bot", primer, 3, 0, _ => 0);
      Walk(b, turns, Cursor(0, 0, header)) ==
        Cursor(2, 3, header + "Bot: " + turns[0].reply + "\n" + PairLine(b, turns[1]))
  {
    var b := Budget("You", "Bot", primer, 3, 0, _ => 0);
    var c1 := Cursor(1, 1, header + Line(b, turns[0]));
    var c2 := Cursor(2, 3, c1.text + Line(b, turns[1]));
    assert Walk(b, turns, c2) == c2;
    assert Walk(b, turns, c1) == c2;
  }

  /** The loop of `load_chat`: from index `start` and the header, take the greeting turn at
      cost 1 and pairs at cost 2 while fewer than `chunk_size` turns are counted and turns
      remain, stopping in front of the first pair that would overflow the token budget. */
  method CollectTurns(b: Budget, turns: seq<Turn>, start: nat, header: string)
    returns (next: nat, taken: nat, text: string)
    ensures Cursor(next, taken, text) == Walk(b, turns, Cursor(start, 0, header))
    ensures start <= next
    ensures start <= |turns| ==> next <= |turns|
    ensures start >= |turns| || b.chunkSize <= 0 ==> next == start && taken == 0 && text == header
    ensures (taken > 0) == (next > start)
    ensures taken <= if b.chunkSize <= 0 then 0 else b.chunkSize + 1
    ensures header <= text
  {
    var i, j, chatStr := start, 0, header;
    while j < b.chunkSize && i < |turns|
      invariant start <= i && (start <= |turns| ==> i <= |turns|)
      invariant (j > 0) == (i > start)
      invariant j <= if b.chunkSize <= 0 then 0 else b.chunkSize + 1
      invariant header <= chatStr
      invariant Walk(b, turns, Cursor(i, j, chatStr)) == Walk(b, turns, Cursor(start, 0, header))
      decreases |turns| - i
    {
      ghost var before := Cursor(i, j, chatStr);
      var t := turns[i];
      if IsSentinel(t) {
        chatStr := chatStr + (b.charName + ": " + t.reply + "\n");
        j := j + 1;
      } else {
        if b.countTokens(chatStr + PairLine(b, t) + "\n" + b.primer) > b.maxSeqLen {
          assert !CanTake(b, turns, before);
          break;
        }
        chatStr := chatStr + PairLine(b, t);
        j := j + 2;
      }
      i := i + 1;
      assert CanTake(b, turns, before) && Cursor(i, j, chatStr) == Step(b, t, before);
    }
    next, taken, text := i, j, chatStr;
  }
}

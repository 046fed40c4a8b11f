/** The system instruction sent with every chat turn: the active persona's
    prompt, then an optional clause naming the last drawn archetype card,
    then an optional clause quoting the newest journal entry. */
module Context {
  import opened Wrappers
  import opened JsString
  import opened Journal

  /** How many characters of the newest entry's body are quoted. */
  const BodyLimit: nat := 100

  function ArchetypeClause(name: string): string {
    "\nContext: The user recently drew the archetype card: " + name + ". Reference this if relevant."
  }

  /** The quoted body part of the journal clause and what follows it. */
  function BodyQuote(latest: JournalEntry): string {
    Prefix(latest.body, BodyLimit) + "...\"."
  }

  function JournalClause(latest: JournalEntry): string {
    "\nContext: The user's most recent journal entry is titled \"" + latest.title + "\". Body: \"" + BodyQuote(latest)
  }

  /** `if (currentArchetype)`: a stored, non-empty card name. */
  predicate HasArchetype(archetype: Option<string>) {
    archetype.Some? && archetype.value != []
  }

  function ArchetypePart(archetype: Option<string>): string {
    if HasArchetype(archetype) then ArchetypeClause(archetype.value) else ""
  }

  /** Only the newest entry, `recentLogs[0]`, is ever quoted. */
  function JournalPart(recent: seq<JournalEntry>): string {
    if |recent| > 0 then JournalClause(recent[0]) else ""
  }

  /** The instruction as the three parts in their fixed order. */
  function Instruction(base: string, archetype: Option<string>, recent: seq<JournalEntry>): string {
    base + ArchetypePart(archetype) + JournalPart(recent)
  }

  /** Lines 650-662: start from the persona prompt and append each clause
      whose context is present. */
  method AssembleInstruction(base: string, archetype: Option<string>, recent: seq<JournalEntry>)
    returns (instruction: string)
    ensures instruction == Instruction(base, archetype, recent)
  {
    instruction := base;
    if archetype.Some? && archetype.value != [] {
      instruction := instruction + ArchetypeClause(archetype.value);
    }
    if |recent| > 0 {
      var latest := recent[0];
      instruction := instruction + JournalClause(latest);
    }
  }

  /** The instruction always begins with the persona's prompt, verbatim. */
  lemma StartsWithBase(base: string, archetype: Option<string>, recent: seq<JournalEntry>)
    ensures base <= Instruction(base, archetype, recent)
  {
    var rest := ArchetypePart(archetype) + JournalPart(recent);
    assert Instruction(base, archetype, recent) == base + rest;
    PrefixOfConcat(base, rest);
  }

  lemma PrefixOfConcat(a: string, b: string)
    ensures a <= a + b
  {
    assert (a + b)[..|a|] == a;
  }

  /** Without a card and without journal entries the prompt is sent unchanged. */
  lemma NoContext(base: string, archetype: Option<string>)
    requires !HasArchetype(archetype)
    ensures Instruction(base, archetype, []) == base
  {
  }

  /** The card clause is there exactly when a card is set: dropping the card
      leaves the instruction unchanged if and only if none was set. */
  lemma ArchetypeClausePresence(base: string, archetype: Option<string>, recent: seq<JournalEntry>)
    ensures Instruction(base, archetype, recent) == Instruction(base, None, recent) <==> !HasArchetype(archetype)
  {
    if HasArchetype(archetype) {
      assert |ArchetypeClause(archetype.value)| > 0;
      assert |Instruction(base, archetype, recent)| > |Instruction(base, None, recent)|;
    }
  }

  /** The journal clause is there exactly when the journal is non-empty. */
  lemma JournalClausePresence(base: string, archetype: Option<string>, recent: seq<JournalEntry>)
    ensures Instruction(base, archetype, recent) == Instruction(base, archetype, []) <==> recent == []
  {
    if recent != [] {
      assert |JournalClause(recent[0])| > 0;
      assert |Instruction(base, archetype, recent)| > |Instruction(base, archetype, [])|;
    }
  }

  /** A card alone adds exactly its clause, which ends the instruction. */
  lemma ArchetypeOnly(base: string, name: string)
    requires name != []
    ensures Instruction(base, Some(name), []) == base + ArchetypeClause(name)
  {
  }

  /** With at least one journal entry, the instruction ends with the first
      `min(100, |body|)` characters of the newest body, then `..."."`. */
  lemma EndsWithBodyQuote(base: string, archetype: Option<string>, recent: seq<JournalEntry>)
    requires |recent| > 0
    ensures var instruction := Instruction(base, archetype, recent);
      var quote := BodyQuote(recent[0]);
      |quote| <= |instruction| && instruction[|instruction| - |quote|..] == quote
    ensures var quoted := Prefix(recent[0].body, BodyLimit);
      quoted <= recent[0].body && |quoted| == if |recent[0].body| < 100 then |recent[0].body| else 100
  {
    var instruction := Instruction(base, archetype, recent);
    var quote := BodyQuote(recent[0]);
    var head := base + ArchetypePart(archetype) + "\nContext: The user's most recent journal entry is titled \""
      + recent[0].title + "\". Body: \"";
    assert instruction == head + quote;
  }

  /** The card clause precedes the journal clause: the instruction with both
      is the instruction with the card alone, followed by the journal clause. */
  lemma ClauseOrder(base: string, name: string, recent: seq<JournalEntry>)
    requires name != [] && |recent| > 0
    ensures Instruction(base, Some(name), recent)
      == Instruction(base, Some(name), []) + JournalClause(recent[0])
  {
  }
}

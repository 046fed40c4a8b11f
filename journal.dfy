/** The persisted collections of the application and the handlers that add
    to them: the text journal, the somatic log, the audio vault and the
    stored API key. Every collection is kept newest first: a save reads the
    stored list, puts the new entry in front and writes the list back. */
module Journal {
  import opened Wrappers
  import opened JsString

  /** A text journal entry (`type: 'text'`); `id` is the save time and
      `date` its locale rendering, both supplied by the caller. */
  datatype JournalEntry = JournalEntry(id: int, date: string, title: string, tags: seq<string>, body: string)

  /** A somatic log entry; `intensity` is the raw slider value, which the
      handler does not validate. */
  datatype SomaticEntry = SomaticEntry(id: int, date: string, part: string, intensity: string)

  /** A recording: the bytes of the audio blob. */
  datatype AudioEntry = AudioEntry(id: int, date: string, blob: seq<bv8>)

  /** The tags field of the journal form: the trimmed field split at every
      comma, each piece trimmed. */
  function ParseTags(field: string): (tags: seq<string>)
    ensures |tags| >= 1
    ensures forall k :: 0 <= k < |tags| ==> IsTrimmed(tags[k])
  {
    TrimAll(Split(Trim(field), ','))
  }

  /** There is one tag more than there are commas in the trimmed field, and
      no tag contains a comma. */
  lemma ParseTagsShape(field: string)
    ensures |ParseTags(field)| == Count(Trim(field), ',') + 1
    ensures forall k :: 0 <= k < |ParseTags(field)| ==> ',' !in ParseTags(field)[k]
  {
    SplitLength(Trim(field), ',');
    SplitNoSeparator(Trim(field), ',');
    TrimAllNoSeparator(Split(Trim(field), ','), ',');
  }

  /** `parts.map(t => t.trim())`. */
  function TrimAll(parts: seq<string>): (r: seq<string>)
    ensures |r| == |parts|
    ensures forall k :: 0 <= k < |r| ==> r[k] == Trim(parts[k])
  {
    if parts == [] then [] else [Trim(parts[0])] + TrimAll(parts[1..])
  }

  lemma TrimAllNoSeparator(parts: seq<string>, sep: char)
    requires forall k :: 0 <= k < |parts| ==> sep !in parts[k]
    ensures forall k :: 0 <= k < |parts| ==> sep !in TrimAll(parts)[k]
  {
    forall k | 0 <= k < |parts| ensures sep !in TrimAll(parts)[k] {
      TrimNoSeparator(parts[k], sep);
    }
  }

  /** Trimming only removes characters, so it cannot introduce a comma. */
  lemma TrimNoSeparator(s: string, sep: char)
    requires sep !in s
    ensures sep !in Trim(s)
  {
    var i := TrimSlice(s);
    forall k | 0 <= k < |Trim(s)| ensures Trim(s)[k] != sep {
      assert Trim(s)[k] == s[i + k];
    }
  }

  /** A blank tags field parses to the single empty tag `[""]`. */
  lemma BlankTagsField(field: string)
    requires IsBlank(field)
    ensures ParseTags(field) == [""]
  {
    assert Trim(field) == [];
  }

  /** A comma-free field parses to the one tag it holds, trimmed. */
  lemma SingleTagField(field: string)
    requires ',' !in field
    ensures ParseTags(field) == [Trim(field)]
  {
    var t := Trim(field);
    assert Split(t, ',') == [t] by {
      TrimNoSeparator(field, ',');
      SplitJoin([t], ',');
    }
    assert TrimAll([t]) == [t] by {
      TrimIdempotent(field);
    }
  }

  /** What the save handler guarantees of every journal entry it writes. */
  predicate WellFormedEntry(e: JournalEntry) {
    && e.title != [] && IsTrimmed(e.title)
    && e.body != [] && IsTrimmed(e.body)
    && |e.tags| >= 1
    && forall k :: 0 <= k < |e.tags| ==> IsTrimmed(e.tags[k])
  }

  /** The persistent store, one field per storage key: `chiron_journal`,
      `somatic_logs`, `audio_vault` and `gemini_api_key`. A key that was
      never written reads as the empty list (`|| []`) or as no key. */
  class Vault {
    var journal: seq<JournalEntry>
    var somatic: seq<SomaticEntry>
    var audio: seq<AudioEntry>
    var apiKey: Option<string>

    /** What the handlers below keep true of the store they write. */
    ghost predicate Valid()
      reads this
    {
      && (forall k :: 0 <= k < |journal| ==> WellFormedEntry(journal[k]))
      && (apiKey.Some? ==> !IsBlank(apiKey.value) && IsTrimmed(apiKey.value))
    }

    constructor ()
      ensures Valid()
      ensures journal == [] && somatic == [] && audio == [] && apiKey == None
    {
      journal, somatic, audio, apiKey := [], [], [], None;
    }

    /** The `save-journal` click handler: both title and body must be
        non-blank after trimming; otherwise the store is left alone. */
    method SaveJournal(titleField: string, bodyField: string, tagsField: string, id: int, date: string)
      returns (saved: bool)
      requires Valid()
      modifies this
      ensures Valid()
      ensures saved <==> !IsBlank(titleField) && !IsBlank(bodyField)
      ensures saved ==> journal == [JournalEntry(id, date, Trim(titleField), ParseTags(tagsField), Trim(bodyField))] + old(journal)
      ensures !saved ==> journal == old(journal)
      ensures somatic == old(somatic) && audio == old(audio) && apiKey == old(apiKey)
    {
      var title := Trim(titleField);
      var body := Trim(bodyField);
      if title == [] || body == [] {
        return false;
      }
      var entry := JournalEntry(id, date, title, ParseTags(tagsField), body);
      assert WellFormedEntry(entry);
      var entries := journal;
      entries := [entry] + entries;
      assert forall k :: 1 <= k < |entries| ==> entries[k] == old(journal)[k - 1];
      journal := entries;
      saved := true;
    }

    /** The `log-somatic` click handler: refused while no body region is
        selected (`selectedPart` null or empty). */
    method LogSomatic(selectedPart: Option<string>, intensity: string, id: int, date: string)
      returns (logged: bool)
      requires Valid()
      modifies this
      ensures Valid()
      ensures logged <==> selectedPart.Some? && selectedPart.value != []
      ensures logged ==> somatic == [SomaticEntry(id, date, selectedPart.value, intensity)] + old(somatic)
      ensures !logged ==> somatic == old(somatic)
      ensures journal == old(journal) && audio == old(audio) && apiKey == old(apiKey)
    {
      if selectedPart.None? || selectedPart.value == [] {
        return false;
      }
      var metrics := somatic;
      metrics := [SomaticEntry(id, date, selectedPart.value, intensity)] + metrics;
      somatic := metrics;
      logged := true;
    }

    /** The recorder's stop handler, after the blob is assembled. */
    method SaveRecording(blob: seq<bv8>, id: int, date: string)
      requires Valid()
      modifies this
      ensures Valid()
      ensures audio == [AudioEntry(id, date, blob)] + old(audio)
      ensures journal == old(journal) && somatic == old(somatic) && apiKey == old(apiKey)
    {
      var audioEntries := audio;
      audioEntries := [AudioEntry(id, date, blob)] + audioEntries;
      audio := audioEntries;
    }

    /** The `save-api-key` click handler: stores the trimmed key unless it
        is blank. */
    method SaveApiKey(field: string) returns (stored: bool)
      requires Valid()
      modifies this
      ensures Valid()
      ensures stored <==> !IsBlank(field)
      ensures apiKey == if stored then Some(Trim(field)) else old(apiKey)
      ensures journal == old(journal) && somatic == old(somatic) && audio == old(audio)
    {
      var key := Trim(field);
      if key != [] {
        TrimIdempotent(field);
        apiKey := Some(key);
        stored := true;
      } else {
        stored := false;
      }
    }
  }

  /** All recorded chunks, in order, as one byte sequence (`new Blob(chunks)`). */
  function Concat(chunks: seq<seq<bv8>>): (blob: seq<bv8>)
    ensures |blob| == TotalLength(chunks)
  {
    if chunks == [] then [] else chunks[0] + Concat(chunks[1..])
  }

  function TotalLength(chunks: seq<seq<bv8>>): nat {
    if chunks == [] then 0 else |chunks[0]| + TotalLength(chunks[1..])
  }

  /** The audio chunks buffered while a recording runs (`audioChunks`). */
  class Recorder {
    var chunks: seq<seq<bv8>>

    constructor ()
      ensures chunks == []
    {
      chunks := [];
    }

    /** `ondataavailable`: the chunk is appended to the buffer. */
    method OnData(chunk: seq<bv8>)
      modifies this
      ensures chunks == old(chunks) + [chunk]
    {
      chunks := chunks + [chunk];
    }

    /** `onstop`: the buffered chunks become one blob, the buffer is reset
        and the recording is saved in front of the audio vault. */
    method OnStop(vault: Vault, id: int, date: string)
      requires vault.Valid()
      modifies this, vault
      ensures vault.Valid()
      ensures chunks == []
      ensures vault.audio == [AudioEntry(id, date, Concat(old(chunks)))] + old(vault.audio)
      ensures vault.journal == old(vault.journal) && vault.somatic == old(vault.somatic)
      ensures vault.apiKey == old(vault.apiKey)
    {
      var blob := Concat(chunks);
      chunks := [];
      vault.SaveRecording(blob, id, date);
    }
  }
}

/**
 * The one-octave piano of src/components/Piano.tsx: the key tables, the rule
 * that lights a key, and the monophonic note slot that the mouse and the
 * keyboard drive. The synthesizer is modelled by whether it exists and by the
 * log of calls made on it.
 */
module Piano {
  import opened Wrappers
  import opened Text

  type Note = string

  /** One key of the keyboard as drawn. */
  datatype PianoKey = PianoKey(note: Note, isBlackKey: bool)

  /** What a handler asks of the synthesizer. */
  datatype SynthCall = Attack(note: Note) | Release

  /** The mouse events a key listens to. */
  datatype KeyMouseEvent = MouseDown | MouseUp | MouseLeave

  /** `pianoKeys`: the thirteen keys from C4 to C5, left to right. */
  const PianoKeys: seq<PianoKey> := [
    PianoKey("C4", false), PianoKey("C#4", true), PianoKey("D4", false), PianoKey("D#4", true),
    PianoKey("E4", false), PianoKey("F4", false), PianoKey("F#4", true), PianoKey("G4", false),
    PianoKey("G#4", true), PianoKey("A4", false), PianoKey("A#4", true), PianoKey("B4", false),
    PianoKey("C5", false)
  ]

  /** `keyMap`: a lower-case keyboard key to the note it plays. */
  const KeyMap: map<string, Note> := map[
    "a" := "C4", "w" := "C#4", "s" := "D4", "e" := "D#4", "d" := "E4",
    "f" := "F4", "t" := "F#4", "g" := "G4", "y" := "G#4", "h" := "A4",
    "u" := "A#4", "j" := "B4", "k" := "C5"
  ]

  /** `keyboardMap`: a note to the keyboard key printed on it. */
  const KeyboardMap: map<Note, string> := map[
    "C4" := "A", "C#4" := "W", "D4" := "S", "D#4" := "E", "E4" := "D",
    "F4" := "F", "F#4" := "T", "G4" := "G", "G#4" := "Y", "A4" := "H",
    "A#4" := "U", "B4" := "J", "C5" := "K"
  ]

  /** The set of notes the piano draws. */
  ghost function Notes(): set<Note> {
    set i | 0 <= i < |PianoKeys| :: PianoKeys[i].note
  }

  /** `keyMap[e.key.toLowerCase()]`: every note is a non-empty string, so the lookup is
      truthy exactly when the lower-cased key is in the table. */
  function NoteFor(key: string): (r: Option<Note>)
    ensures r.Some? <==> Lower(key) in KeyMap
    ensures r.Some? ==> r.value in KeyboardMap && r.value != ""
  {
    KeyMapCoversNotes();
    if Lower(key) in KeyMap then Some(KeyMap[Lower(key)]) else None
  }

  /** `activeNote === key.note`: the one rule that lights a key. */
  predicate IsActive(key: PianoKey, activeNote: Option<Note>) {
    activeNote == Some(key.note)
  }

  /** Every note of the key table is non-empty and has a printed key. */
  lemma KeyMapCoversNotes()
    ensures forall k | k in KeyMap :: KeyMap[k] in KeyboardMap && KeyMap[k] != ""
  {
  }

  /** The keys are drawn once each. */
  lemma PianoKeysDistinct()
    ensures |PianoKeys| == 13
    ensures forall i, j | 0 <= i < j < |PianoKeys| :: PianoKeys[i].note != PianoKeys[j].note
  {
  }

  /** Every drawn key carries a label, and every labelled note is drawn. */
  lemma PianoKeysLabelled()
    ensures forall i | 0 <= i < |PianoKeys| :: PianoKeys[i].note in KeyboardMap
    ensures forall n | n in KeyboardMap :: n in Notes()
  {
    var ns := Notes();
    assert PianoKeys[0].note in ns && PianoKeys[1].note in ns && PianoKeys[2].note in ns;
    assert PianoKeys[3].note in ns && PianoKeys[4].note in ns && PianoKeys[5].note in ns;
    assert PianoKeys[6].note in ns && PianoKeys[7].note in ns && PianoKeys[8].note in ns;
    assert PianoKeys[9].note in ns && PianoKeys[10].note in ns && PianoKeys[11].note in ns;
    assert PianoKeys[12].note in ns;
  }

  /** `keyMap` and `keyboardMap` are inverse: the label printed on the key of a note plays
      that note, and the note a key plays carries that key, upper-cased, as its label. */
  lemma KeyMapsInverse()
    ensures KeyMap.Values == KeyboardMap.Keys
    ensures forall k | k in KeyMap :: KeyboardMap[KeyMap[k]] == Upper(k)
    ensures forall n | n in KeyboardMap :: Lower(KeyboardMap[n]) in KeyMap && KeyMap[Lower(KeyboardMap[n])] == n
  {
    KeyMapCoversNotes();
    KeyLabelsUpper();
    LabelsLower();
    forall n | n in KeyboardMap ensures n in KeyMap.Values {
      assert KeyMap[Lower(KeyboardMap[n])] == n;
    }
  }

  /** The label of the note a key plays is that key upper-cased. */
  lemma KeyLabelsUpper()
    ensures forall k | k in KeyMap :: KeyboardMap[KeyMap[k]] == Upper(k)
  {
  }

  /** Lower-casing the label of a note gives the key that plays it. */
  lemma LabelsLower()
    ensures forall n | n in KeyboardMap :: Lower(KeyboardMap[n]) in KeyMap && KeyMap[Lower(KeyboardMap[n])] == n
  {
    forall n | n in KeyboardMap ensures Lower(KeyboardMap[n]) in KeyMap && KeyMap[Lower(KeyboardMap[n])] == n {
      var l := KeyboardMap[n];
      assert |l| == 1 && l == [l[0]];
      LowerSingle(l[0]);
    }
  }

  /** Pressing the key printed on a note, in either case, plays that note. */
  lemma LabelPlaysItsNote(n: Note)
    requires n in KeyboardMap
    ensures NoteFor(KeyboardMap[n]) == Some(n)
    ensures NoteFor(Lower(KeyboardMap[n])) == Some(n)
  {
    KeyMapsInverse();
    LowerIdempotent(KeyboardMap[n]);
  }

  /** The notes drawn as black keys. */
  ghost function BlackNotes(): set<Note> {
    set i | 0 <= i < |PianoKeys| && PianoKeys[i].isBlackKey :: PianoKeys[i].note
  }

  /** The black keys are C#4, D#4, F#4, G#4 and A#4. */
  lemma BlackKeys()
    ensures BlackNotes() == {"C#4", "D#4", "F#4", "G#4", "A#4"}
  {
    var black := BlackNotes();
    assert PianoKeys[1].note in black && PianoKeys[3].note in black && PianoKeys[6].note in black;
    assert PianoKeys[8].note in black && PianoKeys[10].note in black;
  }

  /** The black keys are played with W, E, T, Y and U, as the instructions say. */
  lemma BlackKeyLabels()
    ensures (set n | n in BlackNotes() :: KeyboardMap[n]) == {"W", "E", "T", "Y", "U"}
  {
    BlackKeys();
    assert KeyboardMap["C#4"] == "W" && KeyboardMap["D#4"] == "E" && KeyboardMap["F#4"] == "T";
    assert KeyboardMap["G#4"] == "Y" && KeyboardMap["A#4"] == "U";
  }

  /** At most one key is lit, and a note of the piano lights exactly its own key. */
  lemma AtMostOneActive(activeNote: Option<Note>, i: nat, j: nat)
    requires i < |PianoKeys| && j < |PianoKeys|
    requires IsActive(PianoKeys[i], activeNote) && IsActive(PianoKeys[j], activeNote)
    ensures i == j
  {
    PianoKeysDistinct();
  }

  /** A note of the piano lights one key. */
  lemma ActiveNoteLightsOneKey(n: Note)
    requires n in KeyboardMap
    ensures exists i | 0 <= i < |PianoKeys| :: IsActive(PianoKeys[i], Some(n))
  {
    PianoKeysLabelled();
    assert n in Notes();
    var i :| 0 <= i < |PianoKeys| && PianoKeys[i].note == n;
    assert IsActive(PianoKeys[i], Some(n));
  }

  /** The piano's state: whether the synthesizer exists, the note slot, and the calls
      made on the synthesizer so far. */
  /** With no active note no key is lit; an active labelled note lights exactly one key,
      the one drawn for that note. */
  lemma LitKeys(activeNote: Option<Note>)
    ensures activeNote.None? ==> forall i | 0 <= i < |PianoKeys| :: !IsActive(PianoKeys[i], activeNote)
    ensures activeNote.Some? && activeNote.value in KeyboardMap ==>
      exists i | 0 <= i < |PianoKeys| ::
        && PianoKeys[i].note == activeNote.value
        && forall j | 0 <= j < |PianoKeys| :: IsActive(PianoKeys[j], activeNote) <==> j == i
  {
    if activeNote.Some? && activeNote.value in KeyboardMap {
      ActiveNoteLightsOneKey(activeNote.value);
      var i :| 0 <= i < |PianoKeys| && IsActive(PianoKeys[i], activeNote);
      forall j | 0 <= j < |PianoKeys| && IsActive(PianoKeys[j], activeNote) ensures j == i {
        AtMostOneActive(activeNote, i, j);
      }
    }
  }

  class PianoState {
    var hasSynth: bool
    var activeNote: Option<Note>
    var calls: seq<SynthCall>

    /** A note is held only while a synthesizer exists, and it is the last note attacked. */
    ghost predicate Valid()
      reads this
    {
      && (activeNote.Some? ==> hasSynth)
      && (activeNote.Some? ==> |calls| > 0 && calls[|calls| - 1] == Attack(activeNote.value))
    }

    constructor ()
      ensures Valid()
      ensures !hasSynth && activeNote == None && calls == []
    {
      hasSynth := false;
      activeNote := None;
      calls := [];
    }

    /** The synthesizer is created once the audio context has started (src/components/Piano.tsx:83-84). */
    method SynthCreated()
      requires Valid()
      modifies this
      ensures Valid()
      ensures hasSynth && activeNote == old(activeNote) && calls == old(calls)
    {
      hasSynth := true;
    }

    /** `handleKeyDown`: with a synthesizer, the note is attacked and becomes the active one,
        replacing any other; without one nothing happens. */
    method HandleKeyDown(note: Note)
      requires Valid()
      modifies this
      ensures Valid()
      ensures hasSynth == old(hasSynth)
      ensures hasSynth ==> activeNote == Some(note) && calls == old(calls) + [Attack(note)]
      ensures !hasSynth ==> activeNote == old(activeNote) && calls == old(calls)
    {
      if hasSynth {
        calls := calls + [Attack(note)];
        activeNote := Some(note);
      }
    }

    /** `handleKeyUp`: with a synthesizer and a truthy (present, non-empty) active note, the
        synthesizer releases and the slot empties; otherwise nothing happens. */
    method HandleKeyUp()
      requires Valid()
      modifies this
      ensures Valid()
      ensures hasSynth == old(hasSynth)
      ensures hasSynth && old(activeNote).Some? && old(activeNote).value != "" ==>
        activeNote == None && calls == old(calls) + [Release]
      ensures !(hasSynth && old(activeNote).Some? && old(activeNote).value != "") ==>
        activeNote == old(activeNote) && calls == old(calls)
    {
      if hasSynth && activeNote.Some? && activeNote.value != "" {
        calls := calls + [Release];
        activeNote := None;
      }
    }

    /** The window's keydown listener: a mapped key that is not auto-repeating plays its
        note; anything else is ignored. */
    method HandleKeyboardDown(key: string, repeat: bool)
      requires Valid()
      modifies this
      ensures Valid()
      ensures hasSynth == old(hasSynth)
      ensures hasSynth && !repeat && NoteFor(key).Some? ==>
        && activeNote == NoteFor(key) && calls == old(calls) + [Attack(NoteFor(key).value)]
        && exists i | 0 <= i < |PianoKeys| :: IsActive(PianoKeys[i], activeNote)
      ensures !(hasSynth && !repeat && NoteFor(key).Some?) ==>
        activeNote == old(activeNote) && calls == old(calls)
    {
      var note := NoteFor(key);
      if note.Some? && !repeat {
        HandleKeyDown(note.value);
        if hasSynth {
          ActiveNoteLightsOneKey(note.value);
        }
      }
    }

    /** The window's keyup listener: any mapped key releases the active note, even when a
        different note is playing. */
    method HandleKeyboardUp(key: string)
      requires Valid()
      modifies this
      ensures Valid()
      ensures hasSynth == old(hasSynth)
      ensures NoteFor(key).Some? && hasSynth && old(activeNote).Some? && old(activeNote).value != "" ==>
        activeNote == None && calls == old(calls) + [Release]
      ensures !(NoteFor(key).Some? && hasSynth && old(activeNote).Some? && old(activeNote).value != "") ==>
        activeNote == old(activeNote) && calls == old(calls)
    {
      if NoteFor(key).Some? {
        HandleKeyUp();
      }
    }

    /** A key's mouse handlers: pressing plays its note, releasing or leaving it releases
        whatever note is active. */
    method HandleKeyMouse(key: PianoKey, event: KeyMouseEvent)
      requires Valid()
      modifies this
      ensures Valid()
      ensures hasSynth == old(hasSynth)
      ensures event == MouseDown && hasSynth ==>
        activeNote == Some(key.note) && IsActive(key, activeNote) && calls == old(calls) + [Attack(key.note)]
      ensures event == MouseDown && !hasSynth ==> activeNote == old(activeNote) && calls == old(calls)
      ensures event != MouseDown && hasSynth && old(activeNote).Some? && old(activeNote).value != "" ==>
        activeNote == None && !IsActive(key, activeNote) && calls == old(calls) + [Release]
      ensures event != MouseDown && !(hasSynth && old(activeNote).Some? && old(activeNote).value != "") ==>
        activeNote == old(activeNote) && calls == old(calls)
    {
      match event
      case MouseDown => HandleKeyDown(key.note);
      case MouseUp => HandleKeyUp();
      case MouseLeave => HandleKeyUp();
    }
  }
}

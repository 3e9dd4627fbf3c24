/** The mood form (components/MoodTracker.tsx): pick one of the declared
    moods, set stress on a 1..5 slider, write a note; a submit builds an entry
    only when a mood is picked, then resets the form. */
module MoodTracker {
  import opened Types

  const InitialStress: int := 3
  const StressMin: int := 1
  const StressMax: int := 5

  /** The value the stress slider (`type="range" min="1" max="5" step="1"`)
      reports for a requested position: the browser clamps it into 1..5, so
      `parseInt` of it is an integer in that range. */
  function SliderValue(position: int): (v: int)
    ensures StressMin <= v <= StressMax
    ensures StressMin <= position <= StressMax ==> v == position
    ensures position < StressMin ==> v == StressMin
    ensures position > StressMax ==> v == StressMax
  {
    if position < StressMin then StressMin else if position > StressMax then StressMax else position
  }

  class MoodForm {
    var selectedMood: Option<MoodName>
    var stressLevel: int
    var note: string

    /** A picked mood is one the form offers, and stress stays on the slider. */
    ghost predicate Valid()
      reads this
    {
      && StressMin <= stressLevel <= StressMax
      && (selectedMood.Some? ==> IsDeclaredMood(selectedMood.value))
    }

    /** The form opens with no mood, stress 3 and an empty note. */
    constructor ()
      ensures Valid() && selectedMood == None && stressLevel == InitialStress && note == ""
    {
      selectedMood := None;
      stressLevel := InitialStress;
      note := "";
    }

    /** One of the mood buttons, which are generated from the declared moods. */
    method SelectMood(m: MoodName)
      requires Valid() && IsDeclaredMood(m)
      modifies this`selectedMood
      ensures Valid() && selectedMood == Some(m)
    {
      selectedMood := Some(m);
    }

    /** The slider's change handler. */
    method SetStress(position: int)
      requires Valid()
      modifies this`stressLevel
      ensures Valid() && stressLevel == SliderValue(position)
    {
      stressLevel := SliderValue(position);
    }

    /** The note's change handler. */
    method SetNote(text: string)
      modifies this`note
      ensures note == text
    {
      note := text;
    }

    /** `handleSubmit`: with no mood picked nothing happens; otherwise the
        entry carries exactly the picked mood, the current stress level and the
        note (`id` and `now` are the clock's readings), and the form resets. */
    method Submit(id: string, now: int) returns (entry: Option<MoodEntry>)
      requires Valid()
      modifies this
      ensures Valid()
      ensures old(selectedMood).None? ==>
                entry == None && selectedMood == None && stressLevel == old(stressLevel) && note == old(note)
      ensures old(selectedMood).Some? ==>
                && entry == Some(MoodEntry(id, now, old(selectedMood).value, old(stressLevel), old(note)))
                && selectedMood == None && stressLevel == InitialStress && note == ""
      ensures entry.Some? ==> IsDeclaredMood(entry.value.mood)
                              && StressMin <= entry.value.stressLevel <= StressMax
    {
      if selectedMood.None? {
        entry := None;
        return;
      }
      entry := Some(MoodEntry(id, now, selectedMood.value, stressLevel, note));
      selectedMood := None;
      stressLevel := InitialStress;
      note := "";
    }
  }
}

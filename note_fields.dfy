/** The Meaning/ExtraInfo field swap on the note under review
    (addon/__init__.py:112-131). A note is its field-name to field-text map;
    Anki's `stripHTMLMedia` is taken as an arbitrary function `strip`. */
module NoteFields {
  import opened Levenshtein

  const PRACTICE_SENTENCE := "practice sentence"
  const MEANING := "Meaning"
  const EXTRA_INFO := "ExtraInfo"

  type Note = map<string, string>

  /** The Meaning text, once stripped of markup, is within edit distance 4 of
      "practice sentence" (`levenshtein(...) < 5`; the declared threshold constant 6 is not used). */
  predicate IsPracticeSentence(meaning: string, strip: string -> string)
  {
    EditDistance(strip(meaning), PRACTICE_SENTENCE) < 5
  }

  /** `swap_meaning_and_extra_info` on a note: nothing happens unless the note
      has both fields; then Meaning always receives the old ExtraInfo, and
      ExtraInfo receives the old Meaning unless that was a practice-sentence
      marker, which is dropped. */
  function SwapMeaningAndExtraInfo(note: Note, strip: string -> string): (r: Note)
    ensures r.Keys == note.Keys
    ensures forall f :: f in note && f != MEANING && f != EXTRA_INFO ==> r[f] == note[f]
    ensures MEANING !in note || EXTRA_INFO !in note ==> r == note
    ensures MEANING in note && EXTRA_INFO in note ==>
              && r[MEANING] == note[EXTRA_INFO]
              && (IsPracticeSentence(note[MEANING], strip) ==> r[EXTRA_INFO] == "")
              && (!IsPracticeSentence(note[MEANING], strip) ==> r[EXTRA_INFO] == note[MEANING])
  {
    if MEANING !in note || EXTRA_INFO !in note then note
    else
      var meaning := note[MEANING];
      var extraInfo := note[EXTRA_INFO];
      if IsPracticeSentence(meaning, strip) then
        note[MEANING := extraInfo][EXTRA_INFO := ""]
      else
        note[MEANING := extraInfo][EXTRA_INFO := meaning]
  }

  /** When neither field looks like the practice-sentence marker, swapping twice
      gives back the original note. */
  lemma SwapTwiceRestores(note: Note, strip: string -> string)
    requires MEANING in note && EXTRA_INFO in note
    requires !IsPracticeSentence(note[MEANING], strip)
    requires !IsPracticeSentence(note[EXTRA_INFO], strip)
    ensures SwapMeaningAndExtraInfo(SwapMeaningAndExtraInfo(note, strip), strip) == note
  {
    var once := SwapMeaningAndExtraInfo(note, strip);
    var twice := SwapMeaningAndExtraInfo(once, strip);
    assert forall f :: f in note ==> twice[f] == note[f];
  }

  /** A Meaning that is literally "practice sentence" (once stripped) is
      discarded: ExtraInfo moves up and ExtraInfo becomes empty. */
  lemma ExactMarkerIsDropped(note: Note, strip: string -> string)
    requires MEANING in note && EXTRA_INFO in note
    requires strip(note[MEANING]) == PRACTICE_SENTENCE
    ensures SwapMeaningAndExtraInfo(note, strip) == note[MEANING := note[EXTRA_INFO]][EXTRA_INFO := ""]
  {
    EditDistanceSelf(PRACTICE_SENTENCE);
  }
}

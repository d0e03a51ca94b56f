/** The word list shown by the search screens: each item is a headword or a
    suggestion, and a headword that has a pending modification is shown as
    that suggestion. */
module WordList {
  import opened Wrappers
  import opened Domain

  const VIEW_TYPE_HEADWORD: int := 0
  const VIEW_TYPE_SUGGESTION: int := 1

  /** getViewTypeCount. */
  const VIEW_TYPE_COUNT: int := 2

  /** getItem: the word displayed at `position`. */
  function GetItem(words: seq<Word>, position: int): (r: Word)
    requires 0 <= position < |words|
    ensures words[position].SuggestionItem? ==> r == words[position]
    ensures words[position].HeadwordItem? && words[position].headword.lastModification.Some? ==>
              r == SuggestionItem(words[position].headword.lastModification.value)
    ensures words[position].HeadwordItem? && words[position].headword.lastModification.None? ==>
              r == words[position]
    ensures r.HeadwordItem? ==> r.headword.lastModification.None?
  {
    match words[position]
    case SuggestionItem(_) => words[position]
    case HeadwordItem(h) => if h.lastModification.Some? then SuggestionItem(h.lastModification.value) else words[position]
  }

  /** getItemViewType: inspects the word getItem returns. */
  function GetItemViewType(words: seq<Word>, position: int): (r: int)
    requires 0 <= position < |words|
    ensures 0 <= r < VIEW_TYPE_COUNT
    ensures r == VIEW_TYPE_SUGGESTION <==> GetItem(words, position).SuggestionItem?
    ensures r == VIEW_TYPE_SUGGESTION <==>
              words[position].SuggestionItem? || words[position].headword.lastModification.Some?
  {
    var word := GetItem(words, position);
    if word.SuggestionItem? then VIEW_TYPE_SUGGESTION
    else if word.headword.lastModification.Some? then VIEW_TYPE_SUGGESTION
    else VIEW_TYPE_HEADWORD
  }

  datatype Colour = Blue | Yellow | Red | Green | Black

  /** The background of a suggestion row, by synchronization status. */
  function StatusColour(status: string): (r: Colour)
    ensures r == Black <==> status !in {STATUS_UNSYNCHRONIZED, STATUS_WAITING, STATUS_REFUSED, STATUS_ACCEPTED}
  {
    if status == STATUS_UNSYNCHRONIZED then Blue
    else if status == STATUS_WAITING then Yellow
    else if status == STATUS_REFUSED then Red
    else if status == STATUS_ACCEPTED then Green
    else Black
  }

  /** Each status has its own colour: the colour of a known status gives the
      status back. */
  lemma StatusColourDistinct(s1: string, s2: string)
    requires StatusColour(s1) != Black
    ensures StatusColour(s1) == StatusColour(s2) <==> s1 == s2
  {
  }
}

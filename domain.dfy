/** The application's domain records (languages, dictionaries, users,
    headwords) and the Suggestion, the one record whose fields are updated in
    place while the user edits and synchronizes it. */
module Domain {
  import opened Wrappers

  // Action types: the first letter says what the suggestion does.
  const ACTION_TYPE_ADDITION: string := "a"
  const ACTION_TYPE_MODIFICATION: string := "m"
  const ACTION_TYPE_DELETION: string := "d"

  // Letters a modification appends to its action type, one per changed field.
  const FIELD_WORD: string := "w"
  const FIELD_ENTRY: string := "e"
  const FIELD_PRONUNCIATION: string := "p"
  const FIELD_PHONETIC: string := "f"
  const FIELD_ALL: string := "a"

  // Synchronization statuses.
  const STATUS_UNSYNCHRONIZED: string := "u"
  const STATUS_WAITING: string := "p"
  const STATUS_ACCEPTED: string := "a"
  const STATUS_REFUSED: string := "d"

  datatype Language = Language(
    code: int,
    abbreviation: Option<string>,
    name: Option<string>,
    nameInEnglish: Option<string>)

  datatype Dictionary = Dictionary(
    code: int,
    languageTo: Option<Language>,
    languageFrom: Option<Language>,
    name: Option<string>,
    version: int)

  datatype User = User(
    id: int,
    firstName: Option<string>,
    lastName: Option<string>,
    email: Option<string>,
    password: Option<string>)

  /** `new Language()`, `new Dictionary()`, `new User()`: every field at its
      Java default. */
  const EmptyLanguage: Language := Language(0, None, None, None)
  const EmptyDictionary: Dictionary := Dictionary(0, None, None, None, 0)
  const EmptyUser: User := User(0, None, None, None, None)

  datatype Headword = Headword(
    id: int,
    word: string,
    entry: string,
    phonetic: Option<string>,
    dictionary: Option<Dictionary>,
    pronunciationExists: bool,
    lastModification: Option<Suggestion>,
    hasDeletionBeenSuggested: bool)

  /** An AbstractWord: what a word list shows and what the edit screen edits. */
  datatype Word = HeadwordItem(headword: Headword) | SuggestionItem(suggestion: Suggestion)

  /** String.startsWith. */
  predicate StartsWith(s: string, prefix: string) {
    |prefix| <= |s| && s[..|prefix|] == prefix
  }

  predicate IsAddition(actionType: string) { StartsWith(actionType, ACTION_TYPE_ADDITION) }
  predicate IsModification(actionType: string) { StartsWith(actionType, ACTION_TYPE_MODIFICATION) }
  predicate IsDeletion(actionType: string) { StartsWith(actionType, ACTION_TYPE_DELETION) }

  /** The three action-type tests look at the first character only, so at
      most one of them holds. */
  lemma ActionTypeByFirstChar(t: string)
    ensures IsAddition(t) <==> |t| > 0 && t[0] == 'a'
    ensures IsModification(t) <==> |t| > 0 && t[0] == 'm'
    ensures IsDeletion(t) <==> |t| > 0 && t[0] == 'd'
    ensures !(IsAddition(t) && IsModification(t))
    ensures !(IsAddition(t) && IsDeletion(t))
    ensures !(IsModification(t) && IsDeletion(t))
  {
    if |t| > 0 {
      assert t[..1] == [t[0]];
    }
  }

  lemma StatusCodesDistinct()
    ensures STATUS_UNSYNCHRONIZED != STATUS_WAITING && STATUS_UNSYNCHRONIZED != STATUS_ACCEPTED
    ensures STATUS_UNSYNCHRONIZED != STATUS_REFUSED && STATUS_WAITING != STATUS_ACCEPTED
    ensures STATUS_WAITING != STATUS_REFUSED && STATUS_ACCEPTED != STATUS_REFUSED
  {
  }

  /** The action type after merging `fields` into `t`: each field letter not
      yet present is appended, in the order of `fields`. */
  function Merged(t: string, fields: string): string
    decreases |fields|
  {
    if fields == [] then t
    else Merged(if fields[0] in t then t else t + [fields[0]], fields[1..])
  }

  /** Merging only appends: the old action type is a prefix of the new one. */
  lemma {:induction false} MergedExtends(t: string, fields: string)
    ensures |t| <= |Merged(t, fields)| && Merged(t, fields)[..|t|] == t
    decreases |fields|
  {
    if fields != [] {
      var t' := if fields[0] in t then t else t + [fields[0]];
      MergedExtends(t', fields[1..]);
      assert t'[..|t|] == t;
    }
  }

  /** Every letter of `fields` occurs in the result, and every letter of the
      result comes from `t` or from `fields`. */
  lemma {:induction false} MergedLetters(t: string, fields: string)
    ensures forall c :: c in Merged(t, fields) <==> c in t || c in fields
    decreases |fields|
  {
    if fields != [] {
      var t' := if fields[0] in t then t else t + [fields[0]];
      MergedLetters(t', fields[1..]);
      assert forall c :: c in fields <==> c == fields[0] || c in fields[1..];
    }
  }

  /** The appended letters are new: none was already in `t`, and none is
      appended twice. */
  lemma {:induction false} MergedAppendsFresh(t: string, fields: string)
    ensures |t| <= |Merged(t, fields)|
    ensures forall i, j :: |t| <= i < j < |Merged(t, fields)| ==> Merged(t, fields)[i] != Merged(t, fields)[j]
    ensures forall i :: |t| <= i < |Merged(t, fields)| ==> Merged(t, fields)[i] !in t
    decreases |fields|
  {
    MergedExtends(t, fields);
    if fields != [] {
      var t' := if fields[0] in t then t else t + [fields[0]];
      MergedAppendsFresh(t', fields[1..]);
      MergedExtends(t', fields[1..]);
      var m := Merged(t, fields);
      assert m == Merged(t', fields[1..]);
      forall i | |t| <= i < |m|
        ensures m[i] !in t
      {
        if i >= |t'| {
          assert m[i] !in t';
          assert forall c :: c in t ==> c in t';
        } else {
          assert m[i] == t'[i] == fields[0];
        }
      }
    }
  }

  /** Merging letters that are all present changes nothing. */
  lemma {:induction false} MergedNoop(t: string, fields: string)
    requires forall c :: c in fields ==> c in t
    ensures Merged(t, fields) == t
    decreases |fields|
  {
    if fields != [] {
      assert fields[0] in t;
      assert forall c :: c in fields[1..] ==> c in fields;
      MergedNoop(t, fields[1..]);
    }
  }

  /** Merging the same fields twice is merging them once. */
  lemma MergedIdempotent(t: string, fields: string)
    ensures Merged(Merged(t, fields), fields) == Merged(t, fields)
  {
    MergedLetters(t, fields);
    MergedNoop(Merged(t, fields), fields);
  }

  class Suggestion {
    var id: int
    var word: string
    var entry: string
    var phonetic: Option<string>
    var dictionary: Option<Dictionary>
    var actionType: string
    var synchroStatus: string
    var headword: Option<Headword>
    var pronunciationRecorded: bool
    var creationDate: Option<int>
    var dictionaryVersion: int

    /** `new Suggestion()`: the strings the source leaves null start empty. */
    constructor ()
      ensures id == 0 && word == "" && entry == "" && phonetic == None
      ensures dictionary == None && actionType == "" && synchroStatus == ""
      ensures headword == None && !pronunciationRecorded && creationDate == None
      ensures dictionaryVersion == 0
    {
      id := 0;
      word := "";
      entry := "";
      phonetic := None;
      dictionary := None;
      actionType := "";
      synchroStatus := "";
      headword := None;
      pronunciationRecorded := false;
      creationDate := None;
      dictionaryVersion := 0;
    }

    method SetIsModifyActionType(fields: string)
      modifies this`actionType
      ensures actionType == ACTION_TYPE_MODIFICATION + fields
      ensures IsModification(actionType) && !IsAddition(actionType) && !IsDeletion(actionType)
    {
      actionType := ACTION_TYPE_MODIFICATION + fields;
      ActionTypeByFirstChar(actionType);
    }

    method SetIsAddActionType()
      modifies this`actionType
      ensures actionType == ACTION_TYPE_ADDITION
      ensures IsAddition(actionType) && !IsModification(actionType) && !IsDeletion(actionType)
    {
      actionType := ACTION_TYPE_ADDITION;
      ActionTypeByFirstChar(actionType);
    }

    method SetIsDeleteActionType()
      modifies this`actionType
      ensures actionType == ACTION_TYPE_DELETION
      ensures IsDeletion(actionType) && !IsAddition(actionType) && !IsModification(actionType)
    {
      actionType := ACTION_TYPE_DELETION;
      ActionTypeByFirstChar(actionType);
    }

    /** Appends each letter of `fields` that the action type lacks. */
    method MergeModifyActionType(fields: string)
      modifies this`actionType
      ensures actionType == Merged(old(actionType), fields)
    {
      var i := 0;
      while i < |fields|
        invariant 0 <= i <= |fields|
        invariant Merged(actionType, fields[i..]) == Merged(old(actionType), fields)
      {
        var current := fields[i];
        assert fields[i..][1..] == fields[i + 1..];
        if current !in actionType {
          actionType := actionType + [current];
        }
        i := i + 1;
      }
    }
  }
}

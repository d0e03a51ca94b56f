/** The edit screen's confirmation: a changed headword becomes a new
    modification suggestion; a changed suggestion is either rewritten in place
    (while it has not been sent) or copied into a new unsynchronized one. */
module ModifyWord {
  import opened Wrappers
  import opened Domain
  import opened AopdsDatabase

  /** The field letters of an edit: "w" when the word differs from the
      original, then "e" when the entry does. */
  function ChangedFields(word: string, entry: string, oldWord: string, oldEntry: string): (r: string)
    ensures |r| <= 2
    ensures FIELD_WORD[0] in r <==> word != oldWord
    ensures FIELD_ENTRY[0] in r <==> entry != oldEntry
    ensures r == [] <==> word == oldWord && entry == oldEntry
    ensures |r| == 2 ==> r == FIELD_WORD + FIELD_ENTRY
  {
    (if word != oldWord then FIELD_WORD else "") + (if entry != oldEntry then FIELD_ENTRY else "")
  }

  /** The string the edit screen builds by successive appends. */
  method FieldsModified(word: string, entry: string, oldWord: string, oldEntry: string)
    returns (fieldsModified: string)
    ensures fieldsModified == ChangedFields(word, entry, oldWord, oldEntry)
  {
    fieldsModified := "";
    if word != oldWord {
      fieldsModified := fieldsModified + FIELD_WORD;
    }
    if entry != oldEntry {
      fieldsModified := fieldsModified + FIELD_ENTRY;
    }
  }

  /** The action type of a suggestion edited in place, with the field letters
      taken against the values before the edit: a modification gains the
      letters of the changed fields; any other type is kept. */
  function InPlaceActionType(t: string, oldWord: string, oldEntry: string, word: string, entry: string)
    : (r: string)
    ensures |t| <= |r| && r[..|t|] == t
    ensures !IsModification(t) ==> r == t
    ensures IsModification(t) ==> IsModification(r)
    ensures IsModification(t) ==> (FIELD_WORD[0] in r <==> FIELD_WORD[0] in t || word != oldWord)
    ensures IsModification(t) ==> (FIELD_ENTRY[0] in r <==> FIELD_ENTRY[0] in t || entry != oldEntry)
    ensures IsModification(t) ==> forall c :: c in r ==> c in t || c in FIELD_WORD + FIELD_ENTRY
  {
    if IsModification(t) then
      var fields := ChangedFields(word, entry, oldWord, oldEntry);
      MergedExtends(t, fields);
      MergedLetters(t, fields);
      Merged(t, fields)
    else t
  }

  /** The action type the in-place edit produces as the screen is written:
      the word and entry are overwritten before the comparison, so each field
      is compared with itself and the changed-field string is empty. */
  function InPlaceActionTypeAsWritten(t: string, oldWord: string, oldEntry: string, word: string, entry: string)
    : (r: string)
    ensures r == t
  {
    if IsModification(t) then Merged(t, ChangedFields(word, entry, word, entry)) else t
  }

  /** A modification whose word changed from "a" to "b": as written, the
      stored type stays "m"; the intended type records the word letter. */
  lemma InPlaceAsWrittenLosesEdit()
    ensures InPlaceActionTypeAsWritten("m", "a", "x", "b", "x") == "m"
    ensures InPlaceActionType("m", "a", "x", "b", "x") == "mw"
  {
  }

  /** Editing again from the same original values records nothing new. */
  lemma InPlaceActionTypeIdempotent(t: string, oldWord: string, oldEntry: string, word: string, entry: string)
    ensures var once := InPlaceActionType(t, oldWord, oldEntry, word, entry);
            InPlaceActionType(once, oldWord, oldEntry, word, entry) == once
  {
    if IsModification(t) {
      MergedIdempotent(t, ChangedFields(word, entry, oldWord, oldEntry));
    }
  }

  /** The action type of a suggestion copied from one already sent: a
      modification is rebuilt from the changed fields; any other type is
      copied verbatim. */
  function CopiedActionType(t: string, word: string, entry: string, oldWord: string, oldEntry: string)
    : (r: string)
    ensures IsModification(r) <==> IsModification(t)
    ensures IsAddition(r) <==> IsAddition(t)
    ensures IsDeletion(r) <==> IsDeletion(t)
    ensures IsModification(t) ==> r[1..] == ChangedFields(word, entry, oldWord, oldEntry)
    ensures !IsModification(t) ==> r == t
  {
    ActionTypeByFirstChar(t);
    ActionTypeByFirstChar(ACTION_TYPE_MODIFICATION + ChangedFields(word, entry, oldWord, oldEntry));
    if IsModification(t) then ACTION_TYPE_MODIFICATION + ChangedFields(word, entry, oldWord, oldEntry) else t
  }

  /** The row stored for a new suggestion the edit screen creates. */
  function NewSuggestionRow(word: string, entry: string, now: int, dictionary: Dictionary,
                            headword: Option<Headword>, actionType: string): (row: SuggestionRow)
    ensures row.synchroStatus == STATUS_UNSYNCHRONIZED && !row.pronunciationRecorded
    ensures row.dictionaryVersion == dictionary.version && row.dictionaryId == Some(dictionary.code)
    ensures row.headwordId.Some? <==> headword.Some? && !IsAddition(actionType)
    ensures row.headwordId.Some? ==> row.headwordId == Some(headword.value.id)
    ensures row.word == word && row.entry == entry && row.actionType == actionType
  {
    SuggestionRow(
      if headword.Some? && !IsAddition(actionType) then Some(headword.value.id) else None,
      Some(dictionary.code), word, None, entry, actionType, false, STATUS_UNSYNCHRONIZED,
      Some(now), dictionary.version)
  }

  /** The row a headword edit adds: a modification of that headword naming
      exactly the fields that differ. */
  function HeadwordEditRow(h: Headword, word: string, entry: string, now: int): (row: SuggestionRow)
    requires h.dictionary.Some?
    ensures row.headwordId == Some(h.id) && row.dictionaryId == Some(h.dictionary.value.code)
    ensures row.synchroStatus == STATUS_UNSYNCHRONIZED && !row.pronunciationRecorded
    ensures row.dictionaryVersion == h.dictionary.value.version
    ensures IsModification(row.actionType) && !IsAddition(row.actionType) && !IsDeletion(row.actionType)
    ensures FIELD_WORD[0] in row.actionType[1..] <==> word != h.word
    ensures FIELD_ENTRY[0] in row.actionType[1..] <==> entry != h.entry
  {
    var t := ACTION_TYPE_MODIFICATION + ChangedFields(word, entry, h.word, h.entry);
    ActionTypeByFirstChar(t);
    assert t[1..] == ChangedFields(word, entry, h.word, h.entry);
    NewSuggestionRow(word, entry, now, h.dictionary.value, Some(h), t)
  }

  /** The row an edit of an already sent suggestion adds: same headword and
      dictionary, same kind of action. */
  function CopyEditRow(m: Suggestion, word: string, entry: string, now: int): (row: SuggestionRow)
    requires m.dictionary.Some?
    reads m
    ensures row.dictionaryId == Some(m.dictionary.value.code)
    ensures row.synchroStatus == STATUS_UNSYNCHRONIZED && !row.pronunciationRecorded
    ensures row.dictionaryVersion == m.dictionary.value.version
    ensures IsAddition(row.actionType) <==> IsAddition(m.actionType)
    ensures IsModification(row.actionType) <==> IsModification(m.actionType)
    ensures IsDeletion(row.actionType) <==> IsDeletion(m.actionType)
    ensures row.headwordId.Some? <==> m.headword.Some? && !IsAddition(m.actionType)
  {
    NewSuggestionRow(word, entry, now, m.dictionary.value, m.headword,
                     CopiedActionType(m.actionType, word, entry, m.word, m.entry))
  }

  /** The new unsynchronized suggestion both edit paths build before adding
      it to the store. */
  method NewSuggestion(word: string, entry: string, now: int, dictionary: Dictionary,
                       headword: Option<Headword>, actionType: string)
    returns (s: Suggestion)
    ensures fresh(s)
    ensures s.word == word && s.entry == entry && s.creationDate == Some(now)
    ensures s.headword == headword && s.dictionary == Some(dictionary)
    ensures s.dictionaryVersion == dictionary.version && s.actionType == actionType
    ensures !s.pronunciationRecorded && s.synchroStatus == STATUS_UNSYNCHRONIZED
    ensures InsertedRow(s) == NewSuggestionRow(word, entry, now, dictionary, headword, actionType)
  {
    s := new Suggestion();
    s.word := word;
    s.entry := entry;
    s.creationDate := Some(now);
    s.dictionaryVersion := dictionary.version;
    s.headword := headword;
    s.dictionary := Some(dictionary);
    s.actionType := actionType;
    s.pronunciationRecorded := false;
    s.synchroStatus := STATUS_UNSYNCHRONIZED;
  }

  /** Builds a new unsynchronized suggestion and adds it to the store; the
      store's answer to the insert is `insertResult`. */
  method CreateSuggestion(db: Database, word: string, entry: string, now: int, dictionary: Dictionary,
                          headword: Option<Headword>, actionType: string, insertResult: int)
    returns (s: Suggestion, r: Outcome<DbError>)
    requires insertResult >= 0 ==> insertResult !in db.suggestions
    modifies db`suggestions
    ensures fresh(s)
    ensures s.word == word && s.entry == entry && s.creationDate == Some(now)
    ensures s.headword == headword && s.dictionary == Some(dictionary)
    ensures s.dictionaryVersion == dictionary.version && s.actionType == actionType
    ensures !s.pronunciationRecorded && s.synchroStatus == STATUS_UNSYNCHRONIZED
    ensures r.Fail? <==> insertResult < 0
    ensures insertResult < 0 ==> r == Fail(DataBaseRuntime) && db.suggestions == old(db.suggestions)
    ensures insertResult >= 0 ==> s.id == insertResult
    ensures insertResult >= 0 ==>
      db.suggestions == old(db.suggestions)[insertResult := NewSuggestionRow(word, entry, now, dictionary, headword, actionType)]
  {
    s := NewSuggestion(word, entry, now, dictionary, headword, actionType);
    r := db.AddSuggestion(s, insertResult);
  }

  /** modifyHeadword: a new modification suggestion of the headword `h`. */
  method ModifyHeadword(db: Database, h: Headword, word: string, entry: string, now: int, insertResult: int)
    returns (s: Suggestion, r: Outcome<DbError>)
    requires h.dictionary.Some?
    requires insertResult >= 0 ==> insertResult !in db.suggestions
    modifies db`suggestions
    ensures fresh(s) && s.headword == Some(h) && s.dictionary == h.dictionary
    ensures s.actionType == ACTION_TYPE_MODIFICATION + ChangedFields(word, entry, h.word, h.entry)
    ensures r.Fail? <==> insertResult < 0
    ensures insertResult < 0 ==> r == Fail(DataBaseRuntime) && db.suggestions == old(db.suggestions)
    ensures insertResult >= 0 ==> s.id == insertResult
    ensures insertResult >= 0 ==> db.suggestions == old(db.suggestions)[insertResult := HeadwordEditRow(h, word, entry, now)]
  {
    var fieldsModified := FieldsModified(word, entry, h.word, h.entry);
    s, r := CreateSuggestion(db, word, entry, now, h.dictionary.value, Some(h),
                             ACTION_TYPE_MODIFICATION + fieldsModified, insertResult);
  }

  /** The in-place edit of an unsynchronized suggestion, with the field
      letters taken against the values before the edit. */
  method EditInPlace(db: Database, m: Suggestion, word: string, entry: string)
    modifies db`suggestions, m`word, m`entry, m`actionType
    ensures m.word == word && m.entry == entry
    ensures m.actionType == InPlaceActionType(old(m.actionType), old(m.word), old(m.entry), word, entry)
    ensures db.suggestions == if m.id in old(db.suggestions)
                              then old(db.suggestions)[m.id := ModifiedRow(old(db.suggestions)[m.id], m)]
                              else old(db.suggestions)
  {
    var fieldsModified := FieldsModified(word, entry, m.word, m.entry);
    m.word := word;
    m.entry := entry;
    if IsModification(m.actionType) {
      m.MergeModifyActionType(fieldsModified);
    }
    db.ModifySuggestion(m);
  }

  /** The in-place edit in the order the screen performs it: the fields are
      overwritten first, so the merge receives an empty field string. */
  method EditInPlaceAsWritten(db: Database, m: Suggestion, word: string, entry: string)
    modifies db`suggestions, m`word, m`entry, m`actionType
    ensures m.word == word && m.entry == entry
    ensures m.actionType == InPlaceActionTypeAsWritten(old(m.actionType), old(m.word), old(m.entry), word, entry)
    ensures db.suggestions == if m.id in old(db.suggestions)
                              then old(db.suggestions)[m.id := ModifiedRow(old(db.suggestions)[m.id], m)]
                              else old(db.suggestions)
  {
    m.word := word;
    m.entry := entry;
    if IsModification(m.actionType) {
      var fieldsModified := FieldsModified(word, entry, m.word, m.entry);
      m.MergeModifyActionType(fieldsModified);
    }
    db.ModifySuggestion(m);
  }

  /** modifySuggestion: an unsynchronized suggestion is edited in place and
      nothing is added (with the action type left as it was, as the code is
      written); any other one is copied into a new suggestion. */
  method ModifySuggestion(db: Database, m: Suggestion, word: string, entry: string, now: int, insertResult: int)
    returns (created: Option<Suggestion>, r: Outcome<DbError>)
    requires m.synchroStatus != STATUS_UNSYNCHRONIZED ==> m.dictionary.Some?
    requires insertResult >= 0 ==> insertResult !in db.suggestions
    modifies db`suggestions, m`word, m`entry, m`actionType
    ensures m.synchroStatus == STATUS_UNSYNCHRONIZED ==>
      created == None && r == Pass && m.word == word && m.entry == entry
      && m.actionType == InPlaceActionTypeAsWritten(old(m.actionType), old(m.word), old(m.entry), word, entry)
      && db.suggestions == if m.id in old(db.suggestions)
                           then old(db.suggestions)[m.id := ModifiedRow(old(db.suggestions)[m.id], m)]
                           else old(db.suggestions)
    ensures m.synchroStatus != STATUS_UNSYNCHRONIZED ==>
      unchanged(m) && created.Some? && fresh(created.value)
      && created.value.headword == m.headword && created.value.dictionary == m.dictionary
      && (r.Fail? <==> insertResult < 0)
      && db.suggestions == if insertResult >= 0
                           then old(db.suggestions)[insertResult := CopyEditRow(m, word, entry, now)]
                           else old(db.suggestions)
  {
    if m.synchroStatus == STATUS_UNSYNCHRONIZED {
      EditInPlaceAsWritten(db, m, word, entry);
      return None, Pass;
    }
    var actionType;
    if IsModification(m.actionType) {
      var fieldsModified := FieldsModified(word, entry, m.word, m.entry);
      actionType := ACTION_TYPE_MODIFICATION + fieldsModified;
    } else {
      actionType := m.actionType;
    }
    var s;
    s, r := CreateSuggestion(db, word, entry, now, m.dictionary.value, m.headword, actionType, insertResult);
    created := Some(s);
  }

  /** The word and entry the screen shows for `w`. */
  function WordText(w: Word): string
    reads if w.SuggestionItem? then {w.suggestion} else {}
  {
    match w
    case HeadwordItem(h) => h.word
    case SuggestionItem(s) => s.word
  }

  function EntryText(w: Word): string
    reads if w.SuggestionItem? then {w.suggestion} else {}
  {
    match w
    case HeadwordItem(h) => h.entry
    case SuggestionItem(s) => s.entry
  }

  function DictionaryOf(w: Word): Option<Dictionary>
    reads if w.SuggestionItem? then {w.suggestion} else {}
  {
    match w
    case HeadwordItem(h) => h.dictionary
    case SuggestionItem(s) => s.dictionary
  }

  /** The suggestion objects an edit of `w` may rewrite. */
  function Edited(w: Word): set<Suggestion> {
    if w.SuggestionItem? then {w.suggestion} else {}
  }

  /** onConfirmModification: nothing is stored unless the word or the entry
      differs from the edited item; otherwise the edit goes to modifyHeadword
      or modifySuggestion and the screen closes (`finished`). */
  method OnConfirmModification(db: Database, modified: Word, word: string, entry: string, now: int, insertResult: int)
    returns (finished: bool, created: Option<Suggestion>, r: Outcome<DbError>)
    requires DictionaryOf(modified).Some?
    requires insertResult >= 0 ==> insertResult !in db.suggestions
    modifies db`suggestions, Edited(modified)`word, Edited(modified)`entry, Edited(modified)`actionType
    ensures finished <==> !(word == old(WordText(modified)) && entry == old(EntryText(modified)))
    ensures !finished ==> created == None && r == Pass && db.suggestions == old(db.suggestions)
    ensures !finished && modified.SuggestionItem? ==> unchanged(modified.suggestion)
    ensures finished && modified.HeadwordItem? ==>
      created.Some? && (r.Fail? <==> insertResult < 0)
      && db.suggestions == if insertResult >= 0
                           then old(db.suggestions)[insertResult := HeadwordEditRow(modified.headword, word, entry, now)]
                           else old(db.suggestions)
    ensures finished && modified.SuggestionItem? && modified.suggestion.synchroStatus == STATUS_UNSYNCHRONIZED ==>
      var m := modified.suggestion;
      created == None && r == Pass && m.word == word && m.entry == entry
      && m.actionType == InPlaceActionTypeAsWritten(old(m.actionType), old(m.word), old(m.entry), word, entry)
      && db.suggestions == if m.id in old(db.suggestions)
                           then old(db.suggestions)[m.id := ModifiedRow(old(db.suggestions)[m.id], m)]
                           else old(db.suggestions)
    ensures finished && modified.SuggestionItem? && modified.suggestion.synchroStatus != STATUS_UNSYNCHRONIZED ==>
      var m := modified.suggestion;
      unchanged(m) && created.Some? && (r.Fail? <==> insertResult < 0)
      && db.suggestions == if insertResult >= 0
                           then old(db.suggestions)[insertResult := CopyEditRow(m, word, entry, now)]
                           else old(db.suggestions)
  {
    if word == WordText(modified) && entry == EntryText(modified) {
      return false, None, Pass;
    }
    match modified {
      case HeadwordItem(h) =>
        var s;
        s, r := ModifyHeadword(db, h, word, entry, now, insertResult);
        created := Some(s);
      case SuggestionItem(m) =>
        created, r := ModifySuggestion(db, m, word, entry, now, insertResult);
    }
    finished := true;
  }
}

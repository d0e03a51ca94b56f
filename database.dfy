/** The SUGGESTION table of the local SQLite store, abstracted as a map from
    row id to row, with the operations that write it, the argument checks of
    two dictionary queries, and the cursor handling shared by every query. */
module AopdsDatabase {
  import opened Wrappers
  import opened JavaText
  import opened Domain
  import opened SeqFacts

  /** One row of the SUGGESTION table. Optional columns hold NULL (None)
      when the inserting code did not supply them. */
  datatype SuggestionRow = SuggestionRow(
    headwordId: Option<int>,
    dictionaryId: Option<int>,
    word: string,
    phonetic: Option<string>,
    entry: string,
    actionType: string,
    pronunciationRecorded: bool,
    synchroStatus: string,
    creationDate: Option<int>,
    dictionaryVersion: int)

  datatype DbError =
    | InvalidParameter      // InvalidParameterException
    | DataBaseRuntime       // DataBaseRuntimeException: the insert was refused

  /** The row addSuggestion inserts for `s`: the headword id only for a
      suggestion that has a headword and is not an addition; the creation date
      and the dictionary only when present. */
  function InsertedRow(s: Suggestion): SuggestionRow
    reads s`headword, s`actionType, s`dictionary, s`word, s`phonetic, s`entry
    reads s`pronunciationRecorded, s`synchroStatus, s`creationDate, s`dictionaryVersion
  {
    SuggestionRow(
      if s.headword.Some? && !IsAddition(s.actionType) then Some(s.headword.value.id) else None,
      if s.dictionary.Some? then Some(s.dictionary.value.code) else None,
      s.word, s.phonetic, s.entry, s.actionType, s.pronunciationRecorded,
      s.synchroStatus, s.creationDate, s.dictionaryVersion)
  }

  /** The row modifySuggestion leaves in place of `row`: SQL UPDATE rewrites
      the columns it is given and keeps the others, so an absent creation date,
      dictionary or headword keeps the stored value. */
  function ModifiedRow(row: SuggestionRow, s: Suggestion): SuggestionRow
    reads s
  {
    row.(
      word := s.word,
      entry := s.entry,
      phonetic := s.phonetic,
      pronunciationRecorded := s.pronunciationRecorded,
      synchroStatus := s.synchroStatus,
      actionType := s.actionType,
      dictionaryVersion := s.dictionaryVersion,
      creationDate := if s.creationDate.Some? then s.creationDate else row.creationDate,
      dictionaryId := if s.dictionary.Some? then Some(s.dictionary.value.code) else row.dictionaryId,
      headwordId := if s.headword.Some? then Some(s.headword.value.id) else row.headwordId)
  }

  /** The table after `UPDATE SUGGESTION SET SYNCHRO_STATUS = status WHERE ID = id`. */
  function WithStatus(rows: map<int, SuggestionRow>, id: int, status: string): (r: map<int, SuggestionRow>)
    ensures r.Keys == rows.Keys
    ensures forall k :: k in rows && k != id ==> r[k] == rows[k]
    ensures id in rows ==> r[id].synchroStatus == status && r[id].(synchroStatus := rows[id].synchroStatus) == rows[id]
  {
    if id in rows then rows[id := rows[id].(synchroStatus := status)] else rows
  }

  /** Modifying a freshly inserted row with the same suggestion gives back
      the inserted row, except that the headword id is now stored for an
      addition too: the two writers disagree only on that column. */
  lemma ModifyAfterInsert(s: Suggestion)
    ensures ModifiedRow(InsertedRow(s), s)
         == InsertedRow(s).(headwordId := if s.headword.Some? then Some(s.headword.value.id) else None)
    ensures !IsAddition(s.actionType) ==> ModifiedRow(InsertedRow(s), s) == InsertedRow(s)
  {
  }

  class Database {
    var suggestions: map<int, SuggestionRow>

    constructor (rows: map<int, SuggestionRow>)
      ensures suggestions == rows
    {
      suggestions := rows;
    }

    /** Inserts `s`. The engine's answer to the INSERT is the parameter
        `insertResult`: the new row id, or a negative value when it refused
        the row. */
    method AddSuggestion(s: Suggestion, insertResult: int) returns (r: Outcome<DbError>)
      requires insertResult >= 0 ==> insertResult !in suggestions
      modifies this`suggestions, s`id
      ensures insertResult < 0 ==> r == Fail(DataBaseRuntime) && suggestions == old(suggestions) && s.id == old(s.id)
      ensures insertResult >= 0 ==> r == Pass && s.id == insertResult
      ensures insertResult >= 0 ==> suggestions == old(suggestions)[insertResult := old(InsertedRow(s))]
    {
      var row := InsertedRow(s);
      if insertResult < 0 {
        return Fail(DataBaseRuntime);
      }
      suggestions := suggestions[insertResult := row];
      s.id := insertResult;
      return Pass;
    }

    /** Rewrites the row whose id is `s.id`; no row, no change. */
    method ModifySuggestion(s: Suggestion)
      modifies this`suggestions
      ensures s.id in old(suggestions) ==> suggestions == old(suggestions)[s.id := ModifiedRow(old(suggestions)[s.id], s)]
      ensures s.id !in old(suggestions) ==> suggestions == old(suggestions)
    {
      if s.id in suggestions {
        suggestions := suggestions[s.id := ModifiedRow(suggestions[s.id], s)];
      }
    }

    /** Writes the synchronization status of `s` into its row and returns the
        number of rows affected. */
    method UpdateSuggestionSynchroStatus(s: Suggestion) returns (affected: int)
      modifies this`suggestions
      ensures suggestions == WithStatus(old(suggestions), s.id, s.synchroStatus)
      ensures affected == if s.id in old(suggestions) then 1 else 0
    {
      affected := if s.id in suggestions then 1 else 0;
      suggestions := WithStatus(suggestions, s.id, s.synchroStatus);
    }
  }

  /** The bound arguments of the searchWord query, after its argument check.
      The pattern is the prefix pattern whatever `exactMatch` says. */
  function SearchWordArguments(dictionaryId: int, wordToMatch: string, exactMatch: bool, addSuggestions: bool)
    : (r: Result<seq<string>, DbError>)
    requires INT_MIN <= dictionaryId <= INT_MAX
    ensures r.Failure? <==> |wordToMatch| == 0
    ensures r.Failure? ==> r.error == InvalidParameter
    ensures r.Success? ==> |r.value| == 7 && r.value[3] == r.value[5] == wordToMatch + "%"
    ensures r.Success? ==> ParseInt(r.value[2]) == Some(dictionaryId) && r.value[4] == r.value[2]
    ensures r.Success? ==> r.value[0] == ACTION_TYPE_DELETION && r.value[1] == r.value[6] == ACTION_TYPE_MODIFICATION
  {
    if |wordToMatch| <= 0 then Failure(InvalidParameter)
    else
      IntRoundTrip(dictionaryId);
      Success([ACTION_TYPE_DELETION, ACTION_TYPE_MODIFICATION, IntToString(dictionaryId), wordToMatch + "%",
               IntToString(dictionaryId), wordToMatch + "%", ACTION_TYPE_MODIFICATION])
  }

  /** The match mode does not reach the query. */
  lemma SearchWordIgnoresExactMatch(dictionaryId: int, wordToMatch: string, addSuggestions: bool)
    requires INT_MIN <= dictionaryId <= INT_MAX
    ensures SearchWordArguments(dictionaryId, wordToMatch, true, addSuggestions)
         == SearchWordArguments(dictionaryId, wordToMatch, false, addSuggestions)
  {
  }

  /** The LIMIT clause of getOrderedWordList, after its argument check. */
  function OrderedWordListLimit(from: int, howMany: int): (r: Result<string, DbError>)
    requires LONG_MIN <= from <= LONG_MAX && INT_MIN <= howMany <= INT_MAX
    ensures r.Failure? <==> from < 0 || howMany < 0
    ensures r.Failure? ==> r.error == InvalidParameter
  {
    if from < 0 || howMany < 0 then Failure(InvalidParameter)
    else Success(IntToString(from) + ", " + IntToString(howMany))
  }

  /** The LIMIT clause reads back as the offset, a comma and a space, and the
      count. */
  lemma OrderedWordListLimitReadsBack(from: int, howMany: int)
    requires 0 <= from <= LONG_MAX && 0 <= howMany <= INT_MAX
    ensures var t := OrderedWordListLimit(from, howMany).value;
            var k := |IntToString(from)|;
            k + 2 <= |t| && ParseLong(t[..k]) == Some(from) && t[k..k + 2] == ", "
            && ParseInt(t[k + 2..]) == Some(howMany)
  {
    ConcatParts(IntToString(from), ", ", IntToString(howMany));
    LongRoundTrip(from);
    IntRoundTrip(howMany);
  }

  /** A query result: its rows and the index of the current row. */
  datatype Cursor<T> = Cursor(rows: seq<T>, position: int)

  /** handleCursor: no cursor and an empty cursor both become None; any other
      cursor is moved to its first row. */
  function HandleCursor<T>(c: Option<Cursor<T>>): (r: Option<Cursor<T>>)
    ensures r.None? <==> c.None? || |c.value.rows| == 0
    ensures r.Some? ==> r.value.rows == c.value.rows && r.value.position == 0
  {
    match c
    case None => None
    case Some(cur) => if |cur.rows| == 0 then None else Some(cur.(position := 0))
  }

  /** The result-building loop of the lookups: after handleCursor, one entry
      per row in cursor order; no rows gives None, never an empty list. */
  method CollectRows<T>(c: Option<Cursor<T>>) returns (r: Option<seq<T>>)
    ensures r.None? <==> c.None? || c.value.rows == []
    ensures r.Some? ==> r.value == c.value.rows && |r.value| > 0
  {
    var res := HandleCursor(c);
    if res.None? {
      return None;
    }
    var cur := res.value;
    var returning: seq<T> := [];
    var more := true;
    while more
      invariant cur.rows == c.value.rows && 0 <= cur.position <= |cur.rows|
      invariant returning == cur.rows[..cur.position]
      invariant more <==> cur.position < |cur.rows|
      decreases |cur.rows| - cur.position
    {
      returning := returning + [cur.rows[cur.position]];
      cur := cur.(position := cur.position + 1);
      more := cur.position < |cur.rows|;
    }
    return Some(returning);
  }
}

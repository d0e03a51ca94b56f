# MesMots (AOPDS) client core, modelled in Dafny

MesMots is an Android dictionary client. Users look up words in local
dictionaries. They also propose suggestions: additions, modifications and
deletions of headwords. Each suggestion is kept in a local SQLite table and
later synchronized with a web service.

This project models the sequential rules around that suggestion lifecycle
and the client's protocol code, and proves properties of them:

- `domain.dfy`: the action-type strings (`a`, `m` + field letters, `d`), the
  synchronization status codes (`u`, `p`, `a`, `d`) and the `Suggestion`
  entity, whose setters mutate it.
- `database.dfy`: the SUGGESTION table as a map from row id to row, with
  `addSuggestion`, `modifySuggestion` and `updateSuggestionSynchroStatus`,
  the argument checks of `searchWord` and `getOrderedWordList`, and
  `handleCursor` with the row-collecting loop of the lookups.
- `synchronize.dfy`: the refresh pass of the synchronization screen. It
  assembles the local list, partitions it for the push, writes statuses back
  and pulls server suggestions into the store.
- `modify_word.dfy`: the edit screen. An edit of a headword, or of an already
  sent suggestion, becomes a new unsynchronized suggestion. An unsent
  suggestion is edited in place.
- `service_params.dfy`: the request parameters, an append-only list of
  name/value pairs with indexed names such as `name[3][word]`.
- `return_handler.dfy` and `return_handler_properties.dfy`: the reader of the
  service's XML answers. The pull-parser is abstracted as the sequence of
  events it reports. The entity and array handlers (`HandleError`,
  `HandleUser`, `HandleLanguage`, `HandleDictionary`, `HandleSuggestion`,
  `HandleArray`) and the main loop (`ParseSource`) are methods with the
  source's loops, each proved equal to a recursive specification function.
  The scalar readers (`handleString`, `handleInt`, `handleBoolean`,
  `handleLong`) have no loop and are functions. The properties
  file proves what the answers mean: the envelope is required, an error
  element becomes a server error, and the last value wins.
- `preferences.dfy` and `user_manager.dfy`: the two observable state
  holders. Listeners are recorded as the sequence of notifications they
  receive.
- `sign_up.dfy` and `form_error.dfy`: the sign-up form check and its error
  accumulator.
- `word_list.dfy` and `language_spinner.dfy`: item resolution and status
  colours of the word list, and the abbreviation lookup of the language
  chooser.
- `logger.dfy`: the logger, which cuts long messages into numbered pieces of
  70 characters. The platform log is a ghost sequence of entries.
- `java_text.dfy`: decimal text of integers, and `Integer.parseInt` /
  `Long.parseLong`, with their round trip.
- `wrappers.dfy` and `seq_facts.dfy`: `Option`/`Result`/`Outcome` and a few
  facts about sequence concatenation.

Paths below are relative to the repository root.

## Model

| member | source | states |
|---|---|---|
| Domain.ActionTypeByFirstChar | AOPDS/src/com/aopds/aopdsData/domain/Suggestion.java:109-119 | Each of isAdd/isModify/isDeleteActionType holds iff the type starts with `a`/`m`/`d`; at most one of them holds. |
| Domain.StatusCodesDistinct | AOPDS/src/com/aopds/aopdsData/domain/Suggestion.java:18-21 | The four synchronization status codes are pairwise distinct. |
| Domain.MergedExtends | AOPDS/src/com/aopds/aopdsData/domain/Suggestion.java:87-99 | A merge only appends: the old action type is a prefix of the merged one. |
| Domain.MergedLetters | AOPDS/src/com/aopds/aopdsData/domain/Suggestion.java:92-98 | A character occurs in the merged type iff it occurs in the old type or in the merged fields. |
| Domain.MergedAppendsFresh | AOPDS/src/com/aopds/aopdsData/domain/Suggestion.java:95-97 | The appended characters are pairwise distinct and none of them occurs in the old type. |
| Domain.MergedNoop | AOPDS/src/com/aopds/aopdsData/domain/Suggestion.java:95-97 | Merging fields whose letters are all present already leaves the type unchanged. |
| Domain.MergedIdempotent | AOPDS/src/com/aopds/aopdsData/domain/Suggestion.java:92-98 | Merging the same fields twice equals merging them once. |
| Domain.Suggestion.constructor | AOPDS/src/com/aopds/aopdsData/domain/Suggestion.java:35-36 | A new suggestion has id 0, empty texts, no headword, dictionary or date, and pronunciation not recorded. |
| Domain.Suggestion.SetIsModifyActionType | AOPDS/src/com/aopds/aopdsData/domain/Suggestion.java:83-85 | The type becomes `m` followed by the fields; afterwards it is a modification, neither an addition nor a deletion. |
| Domain.Suggestion.SetIsAddActionType | AOPDS/src/com/aopds/aopdsData/domain/Suggestion.java:101-103 | The type becomes exactly `a`, and of the three kinds only addition holds. |
| Domain.Suggestion.SetIsDeleteActionType | AOPDS/src/com/aopds/aopdsData/domain/Suggestion.java:105-107 | The type becomes exactly `d`, and of the three kinds only deletion holds. |
| Domain.Suggestion.MergeModifyActionType | AOPDS/src/com/aopds/aopdsData/domain/Suggestion.java:87-99 | The loop leaves the merged type, whose properties are the Merged lemmas above. |
| AopdsDatabase.WithStatus | AOPDS/src/com/aopds/aopdsData/AopdsDatabase.java:1941-1954 | Only the status column of the row with the given id changes; every other row and column, and the key set, are kept. |
| AopdsDatabase.ModifyAfterInsert | AOPDS/src/com/aopds/aopdsData/AopdsDatabase.java:289-373 | Updating a freshly inserted row from the same suggestion changes at most its headword id, and changes nothing unless the suggestion is an addition. |
| AopdsDatabase.Database.constructor | AOPDS/src/com/aopds/aopdsData/AopdsDatabase.java:289-291 | The store starts with the given rows. |
| AopdsDatabase.Database.AddSuggestion | AOPDS/src/com/aopds/aopdsData/AopdsDatabase.java:289-332 | A negative insert result fails with DataBaseRuntime and changes nothing. Otherwise the row is stored under the new id and the suggestion takes that id. The headword id is stored only for a suggestion that has a headword and is not an addition. |
| AopdsDatabase.Database.ModifySuggestion | AOPDS/src/com/aopds/aopdsData/AopdsDatabase.java:335-373 | The row with the suggestion's id is rewritten from the suggestion, keeping its stored date, dictionary and headword where the suggestion has none. No such row means no change. |
| AopdsDatabase.Database.UpdateSuggestionSynchroStatus | AOPDS/src/com/aopds/aopdsData/AopdsDatabase.java:1941-1954 | Only the status of the row with the suggestion's id changes; the result is the number of rows affected (1 or 0). |
| AopdsDatabase.SearchWordArguments | AOPDS/src/com/aopds/aopdsData/AopdsDatabase.java:398-597 | An empty word fails with InvalidParameter. Otherwise there are seven arguments: the kind codes, the dictionary id that parses back, and the prefix pattern `word%` twice. |
| AopdsDatabase.SearchWordIgnoresExactMatch | AOPDS/src/com/aopds/aopdsData/AopdsDatabase.java:589-597 | The exact-match flag does not change the query arguments. |
| AopdsDatabase.OrderedWordListLimit | AOPDS/src/com/aopds/aopdsData/AopdsDatabase.java:838-843 | A negative offset or count fails with InvalidParameter, and nothing else fails. |
| AopdsDatabase.OrderedWordListLimitReadsBack | AOPDS/src/com/aopds/aopdsData/AopdsDatabase.java:891 | The LIMIT clause splits back into the offset (as a long), `, `, and the count (as an int). |
| AopdsDatabase.HandleCursor | AOPDS/src/com/aopds/aopdsData/AopdsDatabase.java:2334-2345 | No cursor or an empty one gives None; otherwise the same rows, positioned on the first. |
| AopdsDatabase.CollectRows | AOPDS/src/com/aopds/aopdsData/AopdsDatabase.java:1300-1369 | A lookup returns None, never an empty list, when nothing matches; otherwise exactly the cursor's rows in order. |
| Synchronize.Reversed | AOPDS/src/com/aopds/SynchronizeActivity.java:83 | Element i of the result is element n-1-i of the input. |
| Synchronize.ReversedAppend | AOPDS/src/com/aopds/SynchronizeActivity.java:83 | Reversing a concatenation reverses the order of the parts. |
| Synchronize.ReversedTwice | AOPDS/src/com/aopds/SynchronizeActivity.java:83 | Reversing twice gives the list back. |
| Synchronize.ReversedMultiset | AOPDS/src/com/aopds/SynchronizeActivity.java:83 | Reversing keeps the same elements with the same multiplicities. |
| Synchronize.LocalList | AOPDS/src/com/aopds/SynchronizeActivity.java:71-83 | The local list holds exactly the modify/delete and the add suggestions; a missing list counts as empty. |
| Synchronize.LocalListOrder | AOPDS/src/com/aopds/SynchronizeActivity.java:76-83 | The local list is the additions reversed, then the modifications/deletions reversed. |
| Synchronize.PickedUpTo | AOPDS/src/com/aopds/SynchronizeActivity.java:132-150 | Picking among the first n elements keeps at most n of them. |
| Synchronize.PickedFrom | AOPDS/src/com/aopds/SynchronizeActivity.java:137-147 | Everything picked comes from a position holding the picked status. |
| Synchronize.PickedAll | AOPDS/src/com/aopds/SynchronizeActivity.java:137-147 | Every element at a position with the picked status is picked. |
| Synchronize.Transitioned | AOPDS/src/com/aopds/SynchronizeActivity.java:137-141 | Status `u` becomes `p`; every other status is kept. |
| Synchronize.DistinctIndices | AOPDS/src/com/aopds/SynchronizeActivity.java:132-150 | The list has no repeated element iff no two positions hold the same element. |
| Synchronize.PartitionStep | AOPDS/src/com/aopds/SynchronizeActivity.java:134-149 | One round of the partition loop extends the partition invariant by one suggestion. |
| Synchronize.PartitionForPush | AOPDS/src/com/aopds/SynchronizeActivity.java:132-150 | The `u` suggestions are collected in list order, and the ids of the `p` ones likewise; every `u` becomes `p` and every other status is kept. |
| Synchronize.PartitionDone | AOPDS/src/com/aopds/SynchronizeActivity.java:132-150 | The partition invariant over the whole list gives the two picked lists and the transitioned statuses. |
| Synchronize.SentNotPending | AOPDS/src/com/aopds/SynchronizeActivity.java:137-149 | With distinct ids, no suggestion is both sent and reported as pending. |
| Synchronize.PartitionComplete | AOPDS/src/com/aopds/SynchronizeActivity.java:137-147 | Every `u` suggestion is sent and the id of every `p` suggestion is reported. |
| Synchronize.SettledUntouched | AOPDS/src/com/aopds/SynchronizeActivity.java:137-149 | An accepted or refused suggestion is neither sent nor changed. |
| Synchronize.Updates | AOPDS/src/com/aopds/SynchronizeActivity.java:158-163 | One status update per suggestion, carrying its id and status, in order. |
| Synchronize.Written | AOPDS/src/com/aopds/SynchronizeActivity.java:158-163 | Writing status updates back never adds or removes a row. |
| Synchronize.WrittenSnoc | AOPDS/src/com/aopds/SynchronizeActivity.java:158-163 | Writing one more update is one more status write on the result. |
| Synchronize.WrittenPrefix | AOPDS/src/com/aopds/SynchronizeActivity.java:158-163 | Writing the first i+1 updates is writing the first i, then update i. |
| Synchronize.WrittenElsewhere | AOPDS/src/com/aopds/SynchronizeActivity.java:158-163 | A row no update names is unchanged. |
| Synchronize.WrittenStatus | AOPDS/src/com/aopds/SynchronizeActivity.java:158-163 | With distinct ids, the row of update i ends with that update's status and is otherwise unchanged. |
| Synchronize.WrittenUniform | AOPDS/src/com/aopds/SynchronizeActivity.java:158-163 | When every update carries the same status, each named row ends with that status. |
| Synchronize.WriteBackStep | AOPDS/src/com/aopds/SynchronizeActivity.java:161-162 | One round of the write-back loop writes one more update. |
| Synchronize.WriteBack | AOPDS/src/com/aopds/SynchronizeActivity.java:158-163 | After the loop, the store holds every sent suggestion's new status. |
| Synchronize.Answered | AOPDS/src/com/aopds/SynchronizeActivity.java:167-202 | The updates applied from the server's answer never carry id -1. |
| Synchronize.AnsweredKeeps | AOPDS/src/com/aopds/SynchronizeActivity.java:174-190 | Every answered entry whose id is not -1 is applied. |
| Synchronize.AnsweredSnoc | AOPDS/src/com/aopds/SynchronizeActivity.java:169-201 | One more answered entry adds its update exactly when its id is not -1. |
| Synchronize.WriteBackAnswerStep | AOPDS/src/com/aopds/SynchronizeActivity.java:173-200 | One round of the answer loop applies that entry, unless its id is -1. |
| Synchronize.WriteBackAnswer | AOPDS/src/com/aopds/SynchronizeActivity.java:167-202 | After the loop, the store holds the status of every answered entry whose id is not -1. |
| Synchronize.NotFoundNeverWritten | AOPDS/src/com/aopds/SynchronizeActivity.java:174-187 | A row with id -1 is never touched by the answer. |
| Synchronize.InsertedRows | AOPDS/src/com/aopds/SynchronizeActivity.java:214-220 | The pulled rows are the rows addSuggestion stores for each server suggestion, in order. |
| Synchronize.InsertAllKeys | AOPDS/src/com/aopds/SynchronizeActivity.java:214-220 | After the inserts, the keys are the old keys plus the new ids. |
| Synchronize.InsertAllSnoc | AOPDS/src/com/aopds/SynchronizeActivity.java:214-220 | Inserting one more row adds it under its id. |
| Synchronize.InsertAllFinds | AOPDS/src/com/aopds/SynchronizeActivity.java:214-220 | With distinct ids, each pulled row is found under its id. |
| Synchronize.InsertAllKeeps | AOPDS/src/com/aopds/SynchronizeActivity.java:214-220 | A row whose id no insert uses is kept. |
| Synchronize.Accepted | AOPDS/src/com/aopds/SynchronizeActivity.java:214-220 | The number of inserts before the first refused one: all of those succeed, and the next one, if any, fails. |
| Synchronize.FreshAt | AOPDS/src/com/aopds/SynchronizeActivity.java:214-220 | The id of the next accepted insert is not yet in the store. |
| Synchronize.PullStep | AOPDS/src/com/aopds/SynchronizeActivity.java:216-219 | One round of the pull loop adds the row and sets the suggestion's id, or fails with DataBaseRuntime and changes nothing. |
| Synchronize.PullAll | AOPDS/src/com/aopds/SynchronizeActivity.java:205-221 | The pull succeeds iff every insert is accepted. The store then gains exactly the accepted rows, stopping at the first refused one, and keeps all earlier rows. |
| Synchronize.PulledAll | AOPDS/src/com/aopds/SynchronizeActivity.java:207-220 | When every insert is accepted, every pulled row is stored under its id and every earlier row is kept. |
| Synchronize.Branch | AOPDS/src/com/aopds/SynchronizeActivity.java:110-122 | No connected user gives no exchange; otherwise push iff the local count is at least the server count, pull otherwise. |
| Synchronize.Push | AOPDS/src/com/aopds/SynchronizeActivity.java:122-203 | The partition first. If the call throws, nothing is written. If it returns null, only the sent statuses are written, before the null dereference at line 167. If it returns a list, the sent statuses are written, then the answered ones. |
| Synchronize.WriteBoth | AOPDS/src/com/aopds/SynchronizeActivity.java:158-202 | The sent statuses are written, then the answered ones. |
| Synchronize.OnRefresh | AOPDS/src/com/aopds/SynchronizeActivity.java:102-253 | The branch taken is the one Branch names. Without a user nothing changes. If the count request throws, or the pull request throws or returns null, the refresh fails and nothing changes. A push partitions and writes back as above, for each of the three kinds of answer. A pull that delivers a list leaves statuses alone and inserts the accepted server rows. |
| ModifyWord.ChangedFields | AOPDS/src/com/aopds/ModifyWordActivity.java:58-66 | `w` is present iff the word changed and `e` iff the entry changed, in that order; empty iff nothing changed. |
| ModifyWord.FieldsModified | AOPDS/src/com/aopds/ModifyWordActivity.java:58-66 | The successive appends build exactly ChangedFields. |
| ModifyWord.InPlaceActionType | AOPDS/src/com/aopds/ModifyWordActivity.java:90-104 | Corrected in-place edit: a modification keeps its letters and gains those of the fields that differ from the values before the edit; any other type is unchanged. |
| ModifyWord.InPlaceActionTypeAsWritten | AOPDS/src/com/aopds/ModifyWordActivity.java:87-102 | As written, the in-place edit never changes the action type. |
| ModifyWord.InPlaceAsWrittenLosesEdit | AOPDS/src/com/aopds/ModifyWordActivity.java:87-102 | For type `m` and word `a` changed to `b`, the code as written keeps `m` where `mw` is intended. |
| ModifyWord.InPlaceActionTypeIdempotent | AOPDS/src/com/aopds/ModifyWordActivity.java:90-104 | Applying the same in-place edit twice records nothing new. |
| ModifyWord.CopiedActionType | AOPDS/src/com/aopds/ModifyWordActivity.java:127-143 | The copy is the same kind of action. A modification is rebuilt as `m` plus the changed fields; any other type is copied verbatim. |
| ModifyWord.NewSuggestionRow | AOPDS/src/com/aopds/ModifyWordActivity.java:47-71 | A created row is unsynchronized, pronunciation false, with the dictionary's id and version, the given texts and type. It has a headword id iff there is a headword and it is not an addition. |
| ModifyWord.HeadwordEditRow | AOPDS/src/com/aopds/ModifyWordActivity.java:45-74 | A headword edit stores a modification of that headword, naming `w` iff the word differs and `e` iff the entry differs. |
| ModifyWord.CopyEditRow | AOPDS/src/com/aopds/ModifyWordActivity.java:113-150 | A copy keeps the dictionary and the kind of action, and is unsynchronized with pronunciation false. |
| ModifyWord.NewSuggestion | AOPDS/src/com/aopds/ModifyWordActivity.java:115-146 | The new suggestion carries the given texts, date, headword, dictionary and version, is unsynchronized, and inserts as NewSuggestionRow. |
| ModifyWord.CreateSuggestion | AOPDS/src/com/aopds/ModifyWordActivity.java:113-153 | The new suggestion is added to the store: under its new id when the insert is accepted, with nothing changed when it is refused. |
| ModifyWord.ModifyHeadword | AOPDS/src/com/aopds/ModifyWordActivity.java:45-78 | The new suggestion names the headword and its dictionary with type `m` + changed fields, and is stored as HeadwordEditRow. |
| ModifyWord.EditInPlace | AOPDS/src/com/aopds/ModifyWordActivity.java:84-111 | The suggestion takes the new texts and the corrected action type, and its row is rewritten; no row is added. |
| ModifyWord.EditInPlaceAsWritten | AOPDS/src/com/aopds/ModifyWordActivity.java:84-111 | As written: the same, with the action type unchanged. |
| ModifyWord.ModifySuggestion | AOPDS/src/com/aopds/ModifyWordActivity.java:80-157 | An unsynchronized suggestion is edited in place, and as written its action type stays as it was. Any other yields a new suggestion with the same headword and dictionary, stored when the insert is accepted. |
| ModifyWord.OnConfirmModification | AOPDS/src/com/aopds/ModifyWordActivity.java:170-192 | Nothing is stored and the screen stays unless the word or entry changed. Otherwise the headword or suggestion path runs as above, the in-place edit keeping the action type as written. |
| ServiceParams.UserPairsShape | AOPDS/src/com/aopds/aopdsServiceClient/AopdsServiceParams.java:55-78 | addUser sends five pairs with distinct names; the id's text parses back to the id. |
| ServiceParams.FieldInjective | AOPDS/src/com/aopds/aopdsServiceClient/AopdsServiceParams.java:58-70 | Distinct field names give distinct parameter names. |
| ServiceParams.IndexedInjective | AOPDS/src/com/aopds/aopdsServiceClient/AopdsServiceParams.java:90 | Distinct indices give distinct parameter names. |
| ServiceParams.LongListPairsAt | AOPDS/src/com/aopds/aopdsServiceClient/AopdsServiceParams.java:85-94 | Pair k is `name[k]` with the decimal text of element k. |
| ServiceParams.LongListPairsLength | AOPDS/src/com/aopds/aopdsServiceClient/AopdsServiceParams.java:85-94 | One pair per element. |
| ServiceParams.LongListRoundTrip | AOPDS/src/com/aopds/aopdsServiceClient/AopdsServiceParams.java:80-95 | The names are pairwise distinct, and each value parses back to its element. |
| ServiceParams.SuggestionPairs | AOPDS/src/com/aopds/aopdsServiceClient/AopdsServiceParams.java:106-135 | Each suggestion gives eight pairs. |
| ServiceParams.SuggestionPairsShape | AOPDS/src/com/aopds/aopdsServiceClient/AopdsServiceParams.java:106-144 | The eight names are `name[i][field]` in the fixed field order; the first value is the id; `idHeadword` is `"null"` iff the suggestion is an addition. |
| ServiceParams.SuggestionListPairsBlock | AOPDS/src/com/aopds/aopdsServiceClient/AopdsServiceParams.java:102-147 | Pair 8i+f of the list is field f of suggestion i. |
| ServiceParams.SuggestionListPairsAt | AOPDS/src/com/aopds/aopdsServiceClient/AopdsServiceParams.java:97-148 | Eight pairs per suggestion: pair 8i+f is named after field f of index i, 8i holds the id, and 8i+7 is `"null"` iff suggestion i is an addition. |
| ServiceParams.SuggestionListPairsLength | AOPDS/src/com/aopds/aopdsServiceClient/AopdsServiceParams.java:102-147 | Exactly eight pairs per suggestion. |
| ServiceParams.Params.constructor | AOPDS/src/com/aopds/aopdsServiceClient/AopdsServiceParams.java:21-23 | A new parameter list is empty. |
| ServiceParams.Params.AddAuthorizationToken | AOPDS/src/com/aopds/aopdsServiceClient/AopdsServiceParams.java:36-46 | Appends `aopdsAuthUserEmail` then `aopdsAuthUserPassword`, keeping the earlier pairs. |
| ServiceParams.Params.AddString | AOPDS/src/com/aopds/aopdsServiceClient/AopdsServiceParams.java:48-52 | Appends exactly the one pair, keeping the earlier pairs. |
| ServiceParams.Params.AddUser | AOPDS/src/com/aopds/aopdsServiceClient/AopdsServiceParams.java:55-78 | Appends the five user pairs in order. |
| ServiceParams.Params.AddLongList | AOPDS/src/com/aopds/aopdsServiceClient/AopdsServiceParams.java:80-95 | Appends one indexed pair per element, in list order. |
| ServiceParams.Params.AddSuggestionList | AOPDS/src/com/aopds/aopdsServiceClient/AopdsServiceParams.java:97-148 | Appends the eight pairs of each suggestion, in list order. |
| ReturnHandler.Next | AOPDS/src/com/aopds/aopdsServiceClient/AopdsServiceReturnHandler.java:207-214 | The cursor moves one event forward and stays put at the end of the document. |
| ReturnHandler.StringAt | AOPDS/src/com/aopds/aopdsServiceClient/AopdsServiceReturnHandler.java:522-554 | handleString: the text after the start tag, or `""` when the next event is not text. |
| ReturnHandler.IntAt | AOPDS/src/com/aopds/aopdsServiceClient/AopdsServiceReturnHandler.java:556-597 | handleInt succeeds iff the next event is text that Integer.parseInt accepts, and then yields that int; otherwise the answer is malformed. |
| ReturnHandler.BooleanAt | AOPDS/src/com/aopds/aopdsServiceClient/AopdsServiceReturnHandler.java:599-646 | handleBoolean succeeds iff the next event is text parsing to 0 or 1; the value is true iff it is 1. |
| ReturnHandler.LongAt | AOPDS/src/com/aopds/aopdsServiceClient/AopdsServiceReturnHandler.java:648-694 | handleLong succeeds iff the next text parses as an int, and then yields the value Integer.parseInt gives that text, so its values stay in the int range. |
| ReturnHandler.FirstAttribute | AOPDS/src/com/aopds/aopdsServiceClient/AopdsServiceReturnHandler.java:868-892 | None iff no attribute has the name; otherwise the value of the first one that has it. |
| ReturnHandler.GetXmlAttribute | AOPDS/src/com/aopds/aopdsServiceClient/AopdsServiceReturnHandler.java:868-892 | The search loop returns FirstAttribute of the current event. |
| ReturnHandler.ErrorFrom | AOPDS/src/com/aopds/aopdsServiceClient/AopdsServiceReturnHandler.java:228-311 | The error element's reading moves forward and fails only as a malformed element. |
| ReturnHandler.ErrorAt | AOPDS/src/com/aopds/aopdsServiceClient/AopdsServiceReturnHandler.java:228-311 | As ErrorFrom, from the start tag. |
| ReturnHandler.UserFrom | AOPDS/src/com/aopds/aopdsServiceClient/AopdsServiceReturnHandler.java:313-399 | The user element's reading moves forward and fails only as a malformed element. |
| ReturnHandler.UserAt | AOPDS/src/com/aopds/aopdsServiceClient/AopdsServiceReturnHandler.java:313-399 | As UserFrom, from the start tag. |
| ReturnHandler.LanguageFrom | AOPDS/src/com/aopds/aopdsServiceClient/AopdsServiceReturnHandler.java:786-866 | The language element's reading moves forward and fails only as a malformed element. |
| ReturnHandler.LanguageAt | AOPDS/src/com/aopds/aopdsServiceClient/AopdsServiceReturnHandler.java:786-866 | As LanguageFrom, from the start tag. |
| ReturnHandler.DictionaryFrom | AOPDS/src/com/aopds/aopdsServiceClient/AopdsServiceReturnHandler.java:696-784 | The dictionary element's reading moves forward and fails only as a malformed element. |
| ReturnHandler.DictionaryAt | AOPDS/src/com/aopds/aopdsServiceClient/AopdsServiceReturnHandler.java:696-784 | As DictionaryFrom, from the start tag. |
| ReturnHandler.SuggestionField | AOPDS/src/com/aopds/aopdsServiceClient/AopdsServiceReturnHandler.java:401-520 | One child of a suggestion element moves forward and fails only as a malformed element. |
| ReturnHandler.SuggestionFrom | AOPDS/src/com/aopds/aopdsServiceClient/AopdsServiceReturnHandler.java:401-520 | The suggestion element's reading moves forward and fails only as a malformed element. |
| ReturnHandler.SuggestionAt | AOPDS/src/com/aopds/aopdsServiceClient/AopdsServiceReturnHandler.java:401-520 | As SuggestionFrom, from the start tag. |
| ReturnHandler.ArrayFrom | AOPDS/src/com/aopds/aopdsServiceClient/AopdsServiceReturnHandler.java:924-971 | The array's element loop moves forward and fails only as a malformed element. |
| ReturnHandler.ArrayAt | AOPDS/src/com/aopds/aopdsServiceClient/AopdsServiceReturnHandler.java:894-976 | An array without `innerType` is malformed (NoInnerType). |
| ReturnHandler.HandleError | AOPDS/src/com/aopds/aopdsServiceClient/AopdsServiceReturnHandler.java:228-311 | The source's loop computes ErrorAt. |
| ReturnHandler.HandleUser | AOPDS/src/com/aopds/aopdsServiceClient/AopdsServiceReturnHandler.java:313-399 | The source's loop computes UserAt. |
| ReturnHandler.HandleLanguage | AOPDS/src/com/aopds/aopdsServiceClient/AopdsServiceReturnHandler.java:786-866 | The source's loop computes LanguageAt. |
| ReturnHandler.HandleDictionary | AOPDS/src/com/aopds/aopdsServiceClient/AopdsServiceReturnHandler.java:696-784 | The source's loop computes DictionaryAt. |
| ReturnHandler.HandleSuggestion | AOPDS/src/com/aopds/aopdsServiceClient/AopdsServiceReturnHandler.java:401-520 | The source's loop computes SuggestionAt. |
| ReturnHandler.HandleArray | AOPDS/src/com/aopds/aopdsServiceClient/AopdsServiceReturnHandler.java:894-976 | The source's loop computes ArrayAt. |
| ReturnHandler.ParseSource | AOPDS/src/com/aopds/aopdsServiceClient/AopdsServiceReturnHandler.java:112-226 | The main loop computes Response, whose meaning the lemmas below state. |
| ReturnHandlerProperties.NoEnvelopeFrom | AOPDS/src/com/aopds/aopdsServiceClient/AopdsServiceReturnHandler.java:154-220 | With no envelope ahead and none seen, the answer is malformed with NoEnvelope. |
| ReturnHandlerProperties.AfterEnvelope | AOPDS/src/com/aopds/aopdsServiceClient/AopdsServiceReturnHandler.java:165-224 | Once the envelope is seen, the answer is never NoEnvelope. |
| ReturnHandlerProperties.EnvelopeFrom | AOPDS/src/com/aopds/aopdsServiceClient/AopdsServiceReturnHandler.java:165-220 | An envelope ahead in a tokenized stream rules out NoEnvelope. |
| ReturnHandlerProperties.NoEnvelopeIff | AOPDS/src/com/aopds/aopdsServiceClient/AopdsServiceReturnHandler.java:165-220 | The answer is NoEnvelope iff the stream has no `functionReturn` start tag. |
| ReturnHandlerProperties.SkipInert | AOPDS/src/com/aopds/aopdsServiceClient/AopdsServiceReturnHandler.java:186-204 | End tags, texts, tags before the envelope and unknown tags inside it change nothing. |
| ReturnHandlerProperties.PrefixBeforeEnvelope | AOPDS/src/com/aopds/aopdsServiceClient/AopdsServiceReturnHandler.java:190-193 | Events before the envelope do not change the answer. |
| ReturnHandlerProperties.ValueReplacesResult | AOPDS/src/com/aopds/aopdsServiceClient/AopdsServiceReturnHandler.java:171-223 | At a value element, the earlier result does not matter: the new one replaces it. |
| ReturnHandlerProperties.SourceStepEnvelope | AOPDS/src/com/aopds/aopdsServiceClient/AopdsServiceReturnHandler.java:165-166 | The envelope sets the found flag and moves on. |
| ReturnHandlerProperties.SourceStepEnd | AOPDS/src/com/aopds/aopdsServiceClient/AopdsServiceReturnHandler.java:198-199 | An end tag at the top level is skipped. |
| ReturnHandlerProperties.SourceStepInt | AOPDS/src/com/aopds/aopdsServiceClient/AopdsServiceReturnHandler.java:173-174 | An int element inside the envelope becomes the result. |
| ReturnHandlerProperties.SourceStepArray | AOPDS/src/com/aopds/aopdsServiceClient/AopdsServiceReturnHandler.java:171-172 | An array element inside the envelope becomes the result. |
| ReturnHandlerProperties.IntElementAt | AOPDS/src/com/aopds/aopdsServiceClient/AopdsServiceReturnHandler.java:556-597 | The decimal text of an int reads back as that int. |
| ReturnHandlerProperties.ErrorEnvelopeResponse | AOPDS/src/com/aopds/aopdsServiceClient/AopdsServiceReturnHandler.java:183-268 | An error element with a code text and a message yields a server error carrying that code and message. |
| ReturnHandlerProperties.ServerErrorAnswer | AOPDS/src/com/aopds/aopdsServiceClient/AopdsServiceReturnHandler.java:183-268 | The same for any int code written in decimal. |
| ReturnHandlerProperties.TwoIntsResponse | AOPDS/src/com/aopds/aopdsServiceClient/AopdsServiceReturnHandler.java:171-223 | Of two int elements in the envelope, the answer is the second. |
| ReturnHandlerProperties.LastValueReturned | AOPDS/src/com/aopds/aopdsServiceClient/AopdsServiceReturnHandler.java:171-223 | Two ints written in decimal: the answer is the last one. |
| ReturnHandlerProperties.LongBeyondIntRefused | AOPDS/src/com/aopds/aopdsServiceClient/AopdsServiceReturnHandler.java:669-676 | A long beyond the int range is refused as BadLong. |
| ReturnHandlerProperties.IntElements | AOPDS/src/com/aopds/aopdsServiceClient/AopdsServiceReturnHandler.java:930-931 | Three events per int element. |
| ReturnHandlerProperties.IntValues | AOPDS/src/com/aopds/aopdsServiceClient/AopdsServiceReturnHandler.java:922-931 | One int value per element, in order. |
| ReturnHandlerProperties.IntElementsAt | AOPDS/src/com/aopds/aopdsServiceClient/AopdsServiceReturnHandler.java:930-931 | Element i is a start tag followed by the decimal text of the int. |
| ReturnHandlerProperties.IntElementsLaidRead | AOPDS/src/com/aopds/aopdsServiceClient/AopdsServiceReturnHandler.java:928-931 | Laid-out int elements read back as those ints. |
| ReturnHandlerProperties.IntElementWritten | AOPDS/src/com/aopds/aopdsServiceClient/AopdsServiceReturnHandler.java:930-931 | Embedded int element i keeps its start tag and text. |
| ReturnHandlerProperties.IntElementsWritten | AOPDS/src/com/aopds/aopdsServiceClient/AopdsServiceReturnHandler.java:930-931 | Embedded int elements are laid out one after the other. |
| ReturnHandlerProperties.IntValuesCons | AOPDS/src/com/aopds/aopdsServiceClient/AopdsServiceReturnHandler.java:931 | Adding one int value, then the rest, gives the values from that point on. |
| ReturnHandlerProperties.ArrayStepEnd | AOPDS/src/com/aopds/aopdsServiceClient/AopdsServiceReturnHandler.java:943-947 | The closing array tag stops the loop with the collected values. |
| ReturnHandlerProperties.ArrayAtInnerType | AOPDS/src/com/aopds/aopdsServiceClient/AopdsServiceReturnHandler.java:897-913 | An array declaring its inner type reads its children from the next event. |
| ReturnHandlerProperties.ArrayStepInt | AOPDS/src/com/aopds/aopdsServiceClient/AopdsServiceReturnHandler.java:928-931 | An int child is appended and the loop continues after it. |
| ReturnHandlerProperties.IntArrayFrom | AOPDS/src/com/aopds/aopdsServiceClient/AopdsServiceReturnHandler.java:924-971 | From int child i on, the loop collects the remaining ints and stops at the closing tag. |
| ReturnHandlerProperties.IntArrayFromStart | AOPDS/src/com/aopds/aopdsServiceClient/AopdsServiceReturnHandler.java:924-971 | An int array's children read back as its ints, in order. |
| ReturnHandlerProperties.IntArrayResponse | AOPDS/src/com/aopds/aopdsServiceClient/AopdsServiceReturnHandler.java:894-976 | An envelope holding an int array answers with that array. |
| ReturnHandlerProperties.ArrayResponse | AOPDS/src/com/aopds/aopdsServiceClient/AopdsServiceReturnHandler.java:171-223 | An envelope holding one array answers with the array's values. |
| ReturnHandlerProperties.IntArrayAnswer | AOPDS/src/com/aopds/aopdsServiceClient/AopdsServiceReturnHandler.java:894-976 | Any list of ints written as an int array in an envelope reads back as that list. |
| ReturnHandlerProperties.UnknownInnerTypeCollectsNothing | AOPDS/src/com/aopds/aopdsServiceClient/AopdsServiceReturnHandler.java:930-940 | An array of an unknown inner type collects nothing and does not fail. |
| Preferences.LanguageNotifications | AOPDS/src/com/aopds/preferences/AopdsPreferencesManager.java:295-299 | One notification per listener, in registration order, all with the same language. |
| Preferences.StartupLanguage | AOPDS/src/com/aopds/preferences/AopdsPreferencesManager.java:134-168 | The persisted language when it exists and is supported; otherwise the default. |
| Preferences.PreferencesManager.constructor | AOPDS/src/com/aopds/preferences/AopdsPreferencesManager.java:134-168 | The first instance holds StartupLanguage, with no listeners and no notifications. |
| Preferences.PreferencesManager.IsLanguageSupported | AOPDS/src/com/aopds/preferences/AopdsPreferencesManager.java:231-245 | True iff some supported language has that abbreviation. |
| Preferences.PreferencesManager.SetLanguage | AOPDS/src/com/aopds/preferences/AopdsPreferencesManager.java:195-213 | The current language changes nothing. An unsupported one fails and changes nothing. A supported one is stored, and every listener is told once, in order. |
| Preferences.PreferencesManager.RegisterPreferencesListener | AOPDS/src/com/aopds/preferences/AopdsPreferencesManager.java:288-290 | Appends the listener and keeps the earlier ones. |
| Preferences.PreferencesManager.NotifyLanguageChanged | AOPDS/src/com/aopds/preferences/AopdsPreferencesManager.java:295-299 | Each listener is told the current language once, in registration order. |
| Preferences.PreferencesManager.HandlePreference | AOPDS/src/com/aopds/preferences/AopdsPreferencesManager.java:463-475 | A missing value fails. The language preference goes through SetLanguage; any other name changes nothing. |
| UserManager.UserNotifications | AOPDS/src/com/aopds/user/AopdsUserManager.java:142-146 | One notification per listener, in registration order, all with the same user. |
| UserManager.AopdsUserManager.constructor | AOPDS/src/com/aopds/user/AopdsUserManager.java:114-136 | The user is the loaded one when the file exists (None when loading failed), and None without a file. |
| UserManager.AopdsUserManager.RegisterUserChangedListener | AOPDS/src/com/aopds/user/AopdsUserManager.java:138-140 | Appends the listener. |
| UserManager.AopdsUserManager.NotifyUserChanged | AOPDS/src/com/aopds/user/AopdsUserManager.java:142-146 | Each listener is told the current user once, in registration order. |
| UserManager.AopdsUserManager.DiscardUser | AOPDS/src/com/aopds/user/AopdsUserManager.java:148-155 | No user and no file afterwards. |
| UserManager.AopdsUserManager.HandleUserField | AOPDS/src/com/aopds/user/AopdsUserManager.java:225-243 | Each known name sets its field. An id that Long.parseLong refuses fails and changes nothing. An unknown name changes nothing. |
| UserManager.AopdsUserManager.PersistUser | AOPDS/src/com/aopds/user/AopdsUserManager.java:267-342 | With no user, it fails before touching the file. Otherwise the file exists once opened, and the call succeeds iff the write succeeds. |
| UserManager.AopdsUserManager.SetUser | AOPDS/src/com/aopds/user/AopdsUserManager.java:351-359 | Stores the user and tells every listener. Setting no user also leaves no file. |
| SignUp.IndexOf | AOPDS/src/com/aopds/SignUpActivity.java:121-122 | -1 iff the character is absent; otherwise the position of its first occurrence. |
| SignUp.IsEmailIff | AOPDS/src/com/aopds/SignUpActivity.java:119-125 | An address is accepted iff it contains `@` and `.` and starts with neither. |
| SignUp.Checks | AOPDS/src/com/aopds/SignUpActivity.java:137-174 | Six checks, in the order the form runs them. |
| SignUp.Messages | AOPDS/src/com/aopds/SignUpActivity.java:139-176 | Six explanation lines, each ending with `.` and a line break. |
| SignUp.FailureCount | AOPDS/src/com/aopds/SignUpActivity.java:137-180 | At most n of the first n checks fail. |
| SignUp.NewlineCountAppend | AOPDS/src/com/aopds/error/AopdsFormError.java:21-23 | Line breaks of an appended text add up. |
| SignUp.MessagesAreLines | AOPDS/src/com/aopds/SignUpActivity.java:139-176 | With one-line labels, each message is exactly one line. |
| SignUp.SelectedLines | AOPDS/src/com/aopds/SignUpActivity.java:137-180 | The accumulated text has one line per failed check. |
| SignUp.ReportLineCount | AOPDS/src/com/aopds/SignUpActivity.java:131-183 | The explanation has exactly one line per failed check. |
| SignUp.SelectedEmpty | AOPDS/src/com/aopds/SignUpActivity.java:137-180 | The accumulated text is empty iff no check failed. |
| SignUp.ReportEmptyIffValid | AOPDS/src/com/aopds/SignUpActivity.java:131-183 | The explanation is empty iff the form passes every check. |
| SignUp.Check | AOPDS/src/com/aopds/SignUpActivity.java:137-141 | A failed check appends its line and raises the flag; a passed one changes nothing. |
| SignUp.CheckForm | AOPDS/src/com/aopds/SignUpActivity.java:131-183 | The flag is raised iff some check fails, and the text is the lines of the failed checks in order. |
| SignUp.OnSignUpClick | AOPDS/src/com/aopds/SignUpActivity.java:70-91 | The user is saved iff the form is valid; otherwise the non-empty explanation is shown. |
| FormError.AopdsFormError.constructor | AOPDS/src/com/aopds/error/AopdsFormError.java:9-10 | The flag starts false and the text empty. |
| FormError.AopdsFormError.SetErrorcode | AOPDS/src/com/aopds/error/AopdsFormError.java:12-18 | The flag reads back as the last value set. |
| FormError.AopdsFormError.AddToErrordisplay | AOPDS/src/com/aopds/error/AopdsFormError.java:21-23 | Appends the text; the old text is a prefix of the new. |
| FormError.AopdsFormError.SetErrordisplay | AOPDS/src/com/aopds/error/AopdsFormError.java:25-27 | Replaces the whole text. |
| WordList.GetItem | AOPDS/src/com/aopds/guiAdapters/WordListAdapter.java:78-92 | A suggestion is returned unchanged, and a headword with a last modification as that suggestion. Any other headword is returned unchanged. |
| WordList.GetItemViewType | AOPDS/src/com/aopds/guiAdapters/WordListAdapter.java:54-73 | One of the 2 view types; SUGGESTION iff getItem yields a suggestion. |
| WordList.StatusColour | AOPDS/src/com/aopds/guiAdapters/WordListAdapter.java:128-138 | Black iff the status is none of the four codes. |
| WordList.StatusColourDistinct | AOPDS/src/com/aopds/guiAdapters/WordListAdapter.java:128-138 | The colour of a known status determines the status. |
| LanguageSpinner.GetLanguageByAbbreviation | AOPDS/src/com/aopds/guiAdapters/LanguageSpinnerAdapter.java:47-65 | None iff no language has the abbreviation; otherwise the first language in list order that has it. |
| Logger.InfoEntries | AOPDS/src/com/aopds/tools/AopdsLogger.java:15-36 | A value of at most 70 characters is one entry under the tag itself. |
| Logger.PiecesCount | AOPDS/src/com/aopds/tools/AopdsLogger.java:17-32 | A long value gives len/70 pieces, plus one iff len%70 is not 0. |
| Logger.PieceTag | AOPDS/src/com/aopds/tools/AopdsLogger.java:20-30 | Piece j is tagged `tag(k+j)`: consecutive numbers. |
| Logger.PiecesSizes | AOPDS/src/com/aopds/tools/AopdsLogger.java:20-31 | Every piece but the last has 70 characters; the last has 1 to 70. |
| Logger.InfoEntriesShape | AOPDS/src/com/aopds/tools/AopdsLogger.java:17-32 | A value over 70 characters gives pieces tagged `tag(1)`, `tag(2)`, ..., all of 70 characters except a last one of 1 to 70. |
| Logger.FullChunks | AOPDS/src/com/aopds/tools/AopdsLogger.java:20-25 | The first loop writes n full pieces. |
| Logger.FullChunksThenPieces | AOPDS/src/com/aopds/tools/AopdsLogger.java:20-32 | The full pieces followed by the remainder equal the piece sequence. |
| Logger.InfoEntriesByLoop | AOPDS/src/com/aopds/tools/AopdsLogger.java:17-32 | The loop's pieces, plus the remainder iff len%70 is not 0, are the entries of the value. |
| Logger.JoinedAppend | AOPDS/src/com/aopds/tools/AopdsLogger.java:20-31 | Joining the messages of two entry sequences concatenates the joins. |
| Logger.PiecesJoined | AOPDS/src/com/aopds/tools/AopdsLogger.java:20-31 | Concatenating the pieces gives the text back. |
| Logger.InfoEntriesJoined | AOPDS/src/com/aopds/tools/AopdsLogger.java:12-40 | Concatenating the logged messages gives the value back. |
| Logger.ElementEntries | AOPDS/src/com/aopds/tools/AopdsLogger.java:57-62 | No elements give no entries. |
| Logger.ElementEntriesJoined | AOPDS/src/com/aopds/tools/AopdsLogger.java:57-62 | The element entries join back into the elements' texts, in iteration order. |
| Logger.ElementEntriesSnoc | AOPDS/src/com/aopds/tools/AopdsLogger.java:59-61 | Element n adds its info entries under the tag numbered n. |
| Logger.AopdsLogger.constructor | AOPDS/src/com/aopds/tools/AopdsLogger.java:10 | The switch as given and an empty log. |
| Logger.AopdsLogger.InfoString | AOPDS/src/com/aopds/tools/AopdsLogger.java:12-40 | The log gains InfoEntries of the value when logging is on, nothing when off. |
| Logger.AopdsLogger.InfoObject | AOPDS/src/com/aopds/tools/AopdsLogger.java:42-48 | One entry: `"null"` for no object, its text otherwise; nothing when off. |
| Logger.AopdsLogger.InfoCollection | AOPDS/src/com/aopds/tools/AopdsLogger.java:50-67 | `"null"` for no collection. Otherwise one header, then each element's entries numbered from 1, in order. Nothing when off. |
| Logger.AopdsLogger.InfoElement | AOPDS/src/com/aopds/tools/AopdsLogger.java:59-61 | One round of the collection loop adds element i's entries. |
| Logger.AopdsLogger.Error | AOPDS/src/com/aopds/tools/AopdsLogger.java:69-73 | One error entry when logging is on, nothing when off. |
| JavaText.DigitChar | AOPDS/src/com/aopds/aopdsServiceClient/AopdsServiceParams.java:90 | The character of digit d is a digit whose value is d. |
| JavaText.IntToString | AOPDS/src/com/aopds/aopdsServiceClient/AopdsServiceParams.java:90 | Long.toString is never empty and starts with `-` iff the number is negative. |
| JavaText.IntToStringDigits | AOPDS/src/com/aopds/aopdsServiceClient/AopdsServiceParams.java:90 | A non-negative number is written with digits only. |
| JavaText.DigitsValueOfIntToString | AOPDS/src/com/aopds/aopdsServiceClient/AopdsServiceParams.java:90 | The digits of a non-negative number have that number as value. |
| JavaText.ParseDecimal | AOPDS/src/com/aopds/aopdsServiceClient/AopdsServiceReturnHandler.java:573-576 | A parsed number lies in the given range. |
| JavaText.ParseInt | AOPDS/src/com/aopds/aopdsServiceClient/AopdsServiceReturnHandler.java:573-576 | Integer.parseInt yields only int-range values. |
| JavaText.ParseLong | AOPDS/src/com/aopds/user/AopdsUserManager.java:234 | Long.parseLong yields only long-range values. |
| JavaText.ParseOfToString | AOPDS/src/com/aopds/aopdsServiceClient/AopdsServiceParams.java:90 | Any number in range parses back from its decimal text. |
| JavaText.IntRoundTrip | AOPDS/src/com/aopds/aopdsData/AopdsDatabase.java:592 | Integer.parseInt(Integer.toString(x)) == x. |
| JavaText.LongRoundTrip | AOPDS/src/com/aopds/aopdsServiceClient/AopdsServiceParams.java:90 | Long.parseLong(Long.toString(x)) == x. |
| JavaText.IntToStringInjective | AOPDS/src/com/aopds/aopdsServiceClient/AopdsServiceParams.java:90 | Distinct numbers have distinct decimal texts. |
| JavaText.ParseDecimalRange | AOPDS/src/com/aopds/aopdsServiceClient/AopdsServiceReturnHandler.java:669-676 | A text parsed in one range parses in another iff its value lies in that range. |

## Left out

- XML tokenizing: the pull-parser is an abstract event sequence. Parser exceptions from `xpp.next()` are not modelled; every position past the end reads as END_DOCUMENT.
- Reading and writing files: loading and persisting the preferences and the user file are library I/O. Their outcomes enter as parameters: file existence, the loaded value, whether the open and the write succeed.
- `loadAuthorizedLanguages` reads the languages from the store; the supported list is a constructor parameter.
- SQL: query texts, joins and LIKE semantics are not modelled. The insert result (row id or -1) is a parameter of the insert, and the lookups' rows are the cursor's content.
- HTTP transport and `getFormEntity` URL encoding are network I/O; the server's counts and answers are inputs of the refresh.
- The synchronization screen's alert dialog for id -1, the re-reading of answered suggestions into a display list, and `initGui`'s adapter filling are UI, not state of the store.
- `suggestDeletion` in the edit screen is never called and is not modelled.
- `getView` in the adapters only picks layouts, icons and texts; the status colour it sets is modelled.
- The throwable passed to the logger's `error` is dropped. The class name in the collection header is an input, being the text of `getClass()`.
- Listeners are identified by numbers, and a notification is recorded as (listener, value) instead of a callback.
- Creation dates are opaque integers, and "now" is a parameter.
- Domain.Suggestion.constructor: `new Suggestion()` leaves the word, entry, action type and status null in the source; the model starts them as empty strings.
- JavaText.ParseInt: accepts an optional `-` followed by ASCII digits; a leading `+` and non-ASCII digits, which Java also accepts, are refused.
- JavaText.ParseLong: same restriction as ParseInt.
- ServiceParams.Params.AddSuggestionList: requires every suggestion to have a dictionary and, unless it is an addition, a headword; the source dereferences both and would fail with a null pointer.
- LanguageSpinner.GetLanguageByAbbreviation: requires that no language without an abbreviation is reached before a match; the source would fail with a null pointer there.
- UserManager.AopdsUserManager.HandleUserField: requires a user being loaded, which the file reader creates before routing fields.
- Logger.InfoEntries: lengths and cut points are counted in Unicode characters, not in the UTF-16 code units Java's `length()` and `substring` count. A message with characters outside the Basic Multilingual Plane is cut at other offsets than in Java, and Java may split a surrogate pair between two pieces.
- Synchronize.OnRefresh: the case of a missing local list (`allSugg` null) is not modelled; the list is always present after `initGui`.
- Boolean values that Java would unbox from null (`getPronunciationRecorded`) are plain booleans.

## Findings

| source | as written | input that shows it | evidently intended | confidence | as-written member | corrected member |
|---|---|---|---|---|---|---|
| AOPDS/src/com/aopds/ModifyWordActivity.java:87-102 | The in-place edit overwrites the word and entry before comparing them, so the changed-field string is always empty and the action type never records the edit | action type `m`, word `a` edited to `b`, entry `x` unchanged | the type becomes `mw` | not executed | ModifyWord.InPlaceActionTypeAsWritten, ModifyWord.EditInPlaceAsWritten, ModifyWord.InPlaceAsWrittenLosesEdit | ModifyWord.InPlaceActionType, ModifyWord.EditInPlace |

The screen's `ModifyWord.ModifySuggestion` and `ModifyWord.OnConfirmModification`
model the code as written and call `ModifyWord.EditInPlaceAsWritten`;
`ModifyWord.EditInPlace` is the corrected edit.

/** The reader of the web service's XML answers. The XML tokenizer is
    abstracted as the sequence of pull-parser events it reports; a cursor is
    a position in that sequence, and every position past the end reads as
    END_DOCUMENT. The entity and array handlers of the source (handleError,
    handleUser, handleLanguage, handleDictionary, handleSuggestion,
    handleArray) and parseSource are methods here with the source's loops,
    each proved equal to a specification function that follows the events by
    recursion; handleString, handleInt, handleBoolean and handleLong have no
    loop and are functions. */
module ReturnHandler {
  import opened Wrappers
  import opened JavaText
  import opened Domain

  datatype Attribute = Attribute(name: string, value: string)

  datatype Event =
    | StartTag(name: string, attributes: seq<Attribute>)
    | EndTag(name: string)
    | Text(text: string)
    | EndDocument

  /** Why an answer was refused as malformed. */
  datatype Malformation =
    | NoEnvelope    // no functionReturn element
    | EmptyInt      // an int element without text
    | BadInt        // int text that Integer.parseInt refuses
    | EmptyBoolean
    | BadBoolean    // not a number, or a number other than 0 and 1
    | EmptyLong
    | BadLong
    | NoInnerType   // an array without its innerType attribute

  /** AopdsServiceMalformedResponseException and AopdsServiceServerException. */
  datatype ServiceError =
    | Malformed(reason: Malformation)
    | ServerError(code: int, message: Option<string>)

  /** What the error element carries; code 0 and no message when absent. */
  datatype ErrorReport = ErrorReport(code: int, message: Option<string>)

  /** A ServerComputedSuggestion as the parser builds it. */
  datatype ServerSuggestion = ServerSuggestion(
    serverId: int,
    id: int,
    actionType: Option<string>,
    word: Option<string>,
    entry: Option<string>,
    phonetic: Option<string>,
    pronunciationRecorded: Option<bool>,
    synchroStatus: Option<string>,
    user: User,
    admin: User,
    headwordId: int,
    dictionary: Dictionary)

  /** The suggestion before any child element: fresh user, admin, headword and
      dictionary records. */
  const EmptySuggestion: ServerSuggestion :=
    ServerSuggestion(0, 0, None, None, None, None, None, None, EmptyUser, EmptyUser, 0, EmptyDictionary)

  datatype Value =
    | IntValue(i: int)
    | StringValue(s: string)
    | UserValue(u: User)
    | DictionaryValue(d: Dictionary)
    | SuggestionValue(suggestion: ServerSuggestion)
    | ArrayValue(items: seq<Value>)

  /** A parsed value and the cursor position the handler leaves. */
  datatype Parsed<T> = Parsed(value: T, pos: nat)

  /** Handlers below the top level fail only with a malformed-element error,
      never with a missing envelope and never with a server error. */
  predicate ElementError(e: ServiceError) {
    e.Malformed? && e.reason != NoEnvelope
  }

  // ---------------------------------------------------------------- cursor

  /** The event at position p: END_DOCUMENT past the end. */
  function At(ev: seq<Event>, p: nat): Event {
    if p < |ev| then ev[p] else EndDocument
  }

  /** XmlPullParser.next(): one event further, staying on END_DOCUMENT. */
  function Next(ev: seq<Event>, p: nat): (q: nat)
    ensures p <= q && (p < |ev| ==> q == p + 1) && (p >= |ev| ==> q == p)
  {
    if p < |ev| then p + 1 else p
  }

  // --------------------------------------------------------------- scalars

  /** handleString: the text right after the start tag, or "" when the next
      event is not text (the cursor then stays on that event). */
  function StringAt(ev: seq<Event>, p: nat): (r: Parsed<string>)
    requires p < |ev|
    ensures p < r.pos <= |ev|
    ensures !At(ev, p + 1).Text? ==> r.value == "" && r.pos == p + 1
  {
    var q := Next(ev, p);
    match At(ev, q)
    case Text(t) => Parsed(t, Next(ev, q))
    case _ => Parsed("", q)
  }

  /** handleInt: the next event must be text holding an int. */
  function IntAt(ev: seq<Event>, p: nat): (r: Result<Parsed<int>, ServiceError>)
    requires p < |ev|
    ensures r.Success? ==> p < r.value.pos <= |ev| && INT_MIN <= r.value.value <= INT_MAX
    ensures r.Failure? ==> ElementError(r.error)
    ensures r.Success? <==> At(ev, p + 1).Text? && ParseInt(At(ev, p + 1).text).Some?
    ensures r.Success? ==> ParseInt(At(ev, p + 1).text) == Some(r.value.value)
  {
    var q := Next(ev, p);
    match At(ev, q)
    case Text(t) =>
      (match ParseInt(t)
       case None => Failure(Malformed(BadInt))
       case Some(n) => Success(Parsed(n, Next(ev, q))))
    case _ => Failure(Malformed(EmptyInt))
  }

  /** handleBoolean: text holding the number 0 or 1; true exactly for 1. */
  function BooleanAt(ev: seq<Event>, p: nat): (r: Result<Parsed<bool>, ServiceError>)
    requires p < |ev|
    ensures r.Success? ==> p < r.value.pos <= |ev|
    ensures r.Failure? ==> ElementError(r.error)
    ensures r.Success? <==> At(ev, p + 1).Text? && ParseInt(At(ev, p + 1).text) in {Some(0), Some(1)}
    ensures r.Success? ==> (r.value.value <==> ParseInt(At(ev, p + 1).text) == Some(1))
  {
    var q := Next(ev, p);
    match At(ev, q)
    case Text(t) =>
      (match ParseInt(t)
       case None => Failure(Malformed(BadBoolean))
       case Some(n) =>
         if n != 1 && n != 0 then Failure(Malformed(BadBoolean))
         else Success(Parsed(n == 1, Next(ev, q))))
    case _ => Failure(Malformed(EmptyBoolean))
  }

  /** handleLong: as handleInt, and like it limited to the int range, since
      the text goes through Integer.parseInt. */
  function LongAt(ev: seq<Event>, p: nat): (r: Result<Parsed<int>, ServiceError>)
    requires p < |ev|
    ensures r.Success? ==> p < r.value.pos <= |ev| && INT_MIN <= r.value.value <= INT_MAX
    ensures r.Failure? ==> ElementError(r.error)
    ensures r.Success? <==> At(ev, p + 1).Text? && ParseInt(At(ev, p + 1).text).Some?
    ensures r.Success? ==> ParseInt(At(ev, p + 1).text) == Some(r.value.value)
  {
    var q := Next(ev, p);
    match At(ev, q)
    case Text(t) =>
      (match ParseInt(t)
       case None => Failure(Malformed(BadLong))
       case Some(n) => Success(Parsed(n, Next(ev, q))))
    case _ => Failure(Malformed(EmptyLong))
  }

  // ------------------------------------------------------------ attributes

  function AttributesOf(e: Event): seq<Attribute> {
    if e.StartTag? then e.attributes else []
  }

  /** The value of the first attribute called `name`, if any. */
  function FirstAttribute(attrs: seq<Attribute>, name: string): (r: Option<string>)
    ensures r.None? <==> forall i :: 0 <= i < |attrs| ==> attrs[i].name != name
    ensures r.Some? ==> exists i :: 0 <= i < |attrs| && attrs[i].name == name && attrs[i].value == r.value
                           && forall j :: 0 <= j < i ==> attrs[j].name != name
  {
    if attrs == [] then None
    else if attrs[0].name == name then Some(attrs[0].value)
    else
      var r := FirstAttribute(attrs[1..], name);
      assert forall i :: 1 <= i < |attrs| ==> attrs[i] == attrs[1..][i - 1];
      r
  }

  /** getXmlAttribute on the current event. */
  method GetXmlAttribute(e: Event, name: string) returns (r: Option<string>)
    ensures r == FirstAttribute(AttributesOf(e), name)
  {
    var attrs := AttributesOf(e);
    if |attrs| <= 0 {
      return None;
    }
    var index := 0;
    var found := false;
    while index < |attrs| && !found
      invariant 0 <= index <= |attrs|
      invariant found ==> index < |attrs| && attrs[index].name == name
      invariant FirstAttribute(attrs, name) == FirstAttribute(attrs[index..], name)
      decreases |attrs| - index, !found
    {
      if attrs[index].name == name {
        found := true;
      } else {
        assert attrs[index..][1..] == attrs[index + 1..];
        index := index + 1;
      }
    }
    if found {
      return Some(attrs[index].value);
    }
    return None;
  }

  // -------------------------------------------------------------- entities

  /** handleError from position p on (the cursor is past the start tag). */
  function ErrorFrom(ev: seq<Event>, p: nat, tag: string, acc: ErrorReport): (r: Result<Parsed<ErrorReport>, ServiceError>)
    requires p <= |ev|
    ensures r.Success? ==> p <= r.value.pos <= |ev|
    ensures r.Failure? ==> ElementError(r.error)
    decreases |ev| - p
  {
    match At(ev, p)
    case EndDocument => Success(Parsed(acc, p))
    case EndTag(n) => if n == tag then Success(Parsed(acc, p)) else ErrorFrom(ev, Next(ev, p), tag, acc)
    case Text(_) => ErrorFrom(ev, Next(ev, p), tag, acc)
    case StartTag(n, _) =>
      if n == "code" then
        var v :- IntAt(ev, p);
        ErrorFrom(ev, Next(ev, v.pos), tag, acc.(code := v.value))
      else if n == "message" then
        var v := StringAt(ev, p);
        ErrorFrom(ev, Next(ev, v.pos), tag, acc.(message := Some(v.value)))
      else ErrorFrom(ev, Next(ev, p), tag, acc)
  }

  function ErrorAt(ev: seq<Event>, p: nat, tag: string): (r: Result<Parsed<ErrorReport>, ServiceError>)
    requires p < |ev|
    ensures r.Success? ==> p < r.value.pos <= |ev|
    ensures r.Failure? ==> ElementError(r.error)
  {
    ErrorFrom(ev, Next(ev, p), tag, ErrorReport(0, None))
  }

  function UserFrom(ev: seq<Event>, p: nat, tag: string, acc: User): (r: Result<Parsed<User>, ServiceError>)
    requires p <= |ev|
    ensures r.Success? ==> p <= r.value.pos <= |ev|
    ensures r.Failure? ==> ElementError(r.error)
    decreases |ev| - p
  {
    match At(ev, p)
    case EndDocument => Success(Parsed(acc, p))
    case EndTag(n) => if n == tag then Success(Parsed(acc, p)) else UserFrom(ev, Next(ev, p), tag, acc)
    case Text(_) => UserFrom(ev, Next(ev, p), tag, acc)
    case StartTag(n, _) =>
      if n == "id" then
        var v :- LongAt(ev, p);
        UserFrom(ev, Next(ev, v.pos), tag, acc.(id := v.value))
      else if n == "em" then
        var v := StringAt(ev, p);
        UserFrom(ev, Next(ev, v.pos), tag, acc.(email := Some(v.value)))
      else if n == "fn" then
        var v := StringAt(ev, p);
        UserFrom(ev, Next(ev, v.pos), tag, acc.(firstName := Some(v.value)))
      else if n == "ln" then
        var v := StringAt(ev, p);
        UserFrom(ev, Next(ev, v.pos), tag, acc.(lastName := Some(v.value)))
      else UserFrom(ev, Next(ev, p), tag, acc)
  }

  function UserAt(ev: seq<Event>, p: nat, tag: string): (r: Result<Parsed<User>, ServiceError>)
    requires p < |ev|
    ensures r.Success? ==> p < r.value.pos <= |ev|
    ensures r.Failure? ==> ElementError(r.error)
  {
    UserFrom(ev, Next(ev, p), tag, EmptyUser)
  }

  function LanguageFrom(ev: seq<Event>, p: nat, tag: string, acc: Language): (r: Result<Parsed<Language>, ServiceError>)
    requires p <= |ev|
    ensures r.Success? ==> p <= r.value.pos <= |ev|
    ensures r.Failure? ==> ElementError(r.error)
    decreases |ev| - p
  {
    match At(ev, p)
    case EndDocument => Success(Parsed(acc, p))
    case EndTag(n) => if n == tag then Success(Parsed(acc, p)) else LanguageFrom(ev, Next(ev, p), tag, acc)
    case Text(_) => LanguageFrom(ev, Next(ev, p), tag, acc)
    case StartTag(n, _) =>
      if n == "id" then
        var v :- IntAt(ev, p);
        LanguageFrom(ev, Next(ev, v.pos), tag, acc.(code := v.value))
      else if n == "n" then
        var v := StringAt(ev, p);
        LanguageFrom(ev, Next(ev, v.pos), tag, acc.(name := Some(v.value)))
      else if n == "ab" then
        var v := StringAt(ev, p);
        LanguageFrom(ev, Next(ev, v.pos), tag, acc.(abbreviation := Some(v.value)))
      else LanguageFrom(ev, Next(ev, p), tag, acc)
  }

  function LanguageAt(ev: seq<Event>, p: nat, tag: string): (r: Result<Parsed<Language>, ServiceError>)
    requires p < |ev|
    ensures r.Success? ==> p < r.value.pos <= |ev|
    ensures r.Failure? ==> ElementError(r.error)
  {
    LanguageFrom(ev, Next(ev, p), tag, EmptyLanguage)
  }

  function DictionaryFrom(ev: seq<Event>, p: nat, tag: string, acc: Dictionary): (r: Result<Parsed<Dictionary>, ServiceError>)
    requires p <= |ev|
    ensures r.Success? ==> p <= r.value.pos <= |ev|
    ensures r.Failure? ==> ElementError(r.error)
    decreases |ev| - p
  {
    match At(ev, p)
    case EndDocument => Success(Parsed(acc, p))
    case EndTag(n) => if n == tag then Success(Parsed(acc, p)) else DictionaryFrom(ev, Next(ev, p), tag, acc)
    case Text(_) => DictionaryFrom(ev, Next(ev, p), tag, acc)
    case StartTag(n, _) =>
      if n == "lf" then
        var v :- LanguageAt(ev, p, "lf");
        DictionaryFrom(ev, Next(ev, v.pos), tag, acc.(languageFrom := Some(v.value)))
      else if n == "lt" then
        var v :- LanguageAt(ev, p, "lt");
        DictionaryFrom(ev, Next(ev, v.pos), tag, acc.(languageTo := Some(v.value)))
      else if n == "id" then
        var v :- IntAt(ev, p);
        DictionaryFrom(ev, Next(ev, v.pos), tag, acc.(code := v.value))
      else if n == "n" then
        var v := StringAt(ev, p);
        DictionaryFrom(ev, Next(ev, v.pos), tag, acc.(name := Some(v.value)))
      else if n == "v" then
        var v :- IntAt(ev, p);
        DictionaryFrom(ev, Next(ev, v.pos), tag, acc.(version := v.value))
      else DictionaryFrom(ev, Next(ev, p), tag, acc)
  }

  function DictionaryAt(ev: seq<Event>, p: nat, tag: string): (r: Result<Parsed<Dictionary>, ServiceError>)
    requires p < |ev|
    ensures r.Success? ==> p < r.value.pos <= |ev|
    ensures r.Failure? ==> ElementError(r.error)
  {
    DictionaryFrom(ev, Next(ev, p), tag, EmptyDictionary)
  }

  /** One child element of a suggestion, read into `acc`: the position
      reached, or p itself for an element of another name, which is skipped. */
  function SuggestionField(ev: seq<Event>, p: nat, n: string, acc: ServerSuggestion)
    : (r: Result<Parsed<ServerSuggestion>, ServiceError>)
    requires p < |ev|
    ensures r.Success? ==> p <= r.value.pos <= |ev|
    ensures r.Failure? ==> ElementError(r.error)
  {
    if n == "id" then
      var v :- IntAt(ev, p);
      Success(Parsed(acc.(serverId := v.value), v.pos))
    else if n == "il" then
      var v :- IntAt(ev, p);
      Success(Parsed(acc.(id := v.value), v.pos))
    else if n == "at" then
      var v := StringAt(ev, p);
      Success(Parsed(acc.(actionType := Some(v.value)), v.pos))
    else if n == "w" then
      var v := StringAt(ev, p);
      Success(Parsed(acc.(word := Some(v.value)), v.pos))
    else if n == "e" then
      var v := StringAt(ev, p);
      Success(Parsed(acc.(entry := Some(v.value)), v.pos))
    else if n == "p" then
      var v := StringAt(ev, p);
      Success(Parsed(acc.(phonetic := Some(v.value)), v.pos))
    else if n == "ps" then
      var v :- BooleanAt(ev, p);
      Success(Parsed(acc.(pronunciationRecorded := Some(v.value)), v.pos))
    else if n == "ad" then
      var v := StringAt(ev, p);
      Success(Parsed(acc.(synchroStatus := Some(v.value)), v.pos))
    else if n == "iu" then
      var v :- IntAt(ev, p);
      Success(Parsed(acc.(user := acc.user.(id := v.value)), v.pos))
    else if n == "u" then
      var v :- UserAt(ev, p, "u");
      Success(Parsed(acc.(user := v.value), v.pos))
    else if n == "ia" then
      var v :- IntAt(ev, p);
      Success(Parsed(acc.(admin := acc.admin.(id := v.value)), v.pos))
    else if n == "a" then
      var v :- UserAt(ev, p, "a");
      Success(Parsed(acc.(admin := v.value), v.pos))
    else if n == "ih" then
      var v :- IntAt(ev, p);
      Success(Parsed(acc.(headwordId := v.value), v.pos))
    else if n == "idd" then
      var v :- IntAt(ev, p);
      Success(Parsed(acc.(dictionary := acc.dictionary.(code := v.value)), v.pos))
    else if n == "d" then
      var v :- DictionaryAt(ev, p, "d");
      Success(Parsed(acc.(dictionary := v.value), v.pos))
    else Success(Parsed(acc, p))
  }

  function SuggestionFrom(ev: seq<Event>, p: nat, tag: string, acc: ServerSuggestion)
    : (r: Result<Parsed<ServerSuggestion>, ServiceError>)
    requires p <= |ev|
    ensures r.Success? ==> p <= r.value.pos <= |ev|
    ensures r.Failure? ==> ElementError(r.error)
    decreases |ev| - p
  {
    match At(ev, p)
    case EndDocument => Success(Parsed(acc, p))
    case EndTag(n) => if n == tag then Success(Parsed(acc, p)) else SuggestionFrom(ev, Next(ev, p), tag, acc)
    case Text(_) => SuggestionFrom(ev, Next(ev, p), tag, acc)
    case StartTag(n, _) =>
      var v :- SuggestionField(ev, p, n, acc);
      SuggestionFrom(ev, Next(ev, v.pos), tag, v.value)
  }

  function SuggestionAt(ev: seq<Event>, p: nat, tag: string): (r: Result<Parsed<ServerSuggestion>, ServiceError>)
    requires p < |ev|
    ensures r.Success? ==> p < r.value.pos <= |ev|
    ensures r.Failure? ==> ElementError(r.error)
  {
    SuggestionFrom(ev, Next(ev, p), tag, EmptySuggestion)
  }

  // ----------------------------------------------------------------- array

  const INNER_TYPES: set<string> := {"int", "string", "Dictionary", "User", "Suggestion"}

  function ArrayFrom(ev: seq<Event>, p: nat, innerType: string, acc: seq<Value>): (r: Result<Parsed<seq<Value>>, ServiceError>)
    requires p <= |ev|
    ensures r.Success? ==> p <= r.value.pos <= |ev|
    ensures r.Failure? ==> ElementError(r.error)
    decreases |ev| - p
  {
    match At(ev, p)
    case EndDocument => Success(Parsed(acc, p))
    case EndTag(n) => if n == "array" then Success(Parsed(acc, p)) else ArrayFrom(ev, Next(ev, p), innerType, acc)
    case Text(_) => ArrayFrom(ev, Next(ev, p), innerType, acc)
    case StartTag(_, _) =>
      if innerType == "int" then
        var v :- IntAt(ev, p);
        ArrayFrom(ev, Next(ev, v.pos), innerType, acc + [IntValue(v.value)])
      else if innerType == "string" then
        var v := StringAt(ev, p);
        ArrayFrom(ev, Next(ev, v.pos), innerType, acc + [StringValue(v.value)])
      else if innerType == "Dictionary" then
        var v :- DictionaryAt(ev, p, "d");
        ArrayFrom(ev, Next(ev, v.pos), innerType, acc + [DictionaryValue(v.value)])
      else if innerType == "User" then
        var v :- UserAt(ev, p, "u");
        ArrayFrom(ev, Next(ev, v.pos), innerType, acc + [UserValue(v.value)])
      else if innerType == "Suggestion" then
        var v :- SuggestionAt(ev, p, "s");
        ArrayFrom(ev, Next(ev, v.pos), innerType, acc + [SuggestionValue(v.value)])
      else ArrayFrom(ev, Next(ev, p), innerType, acc)
  }

  /** handleArray: refused without an innerType attribute. */
  function ArrayAt(ev: seq<Event>, p: nat): (r: Result<Parsed<seq<Value>>, ServiceError>)
    requires p < |ev|
    ensures r.Success? ==> p < r.value.pos <= |ev|
    ensures r.Failure? ==> ElementError(r.error)
    ensures FirstAttribute(AttributesOf(ev[p]), "innerType").None? ==> r == Failure(Malformed(NoInnerType))
  {
    match FirstAttribute(AttributesOf(At(ev, p)), "innerType")
    case None => Failure(Malformed(NoInnerType))
    case Some(innerType) => ArrayFrom(ev, Next(ev, p), innerType, [])
  }

  // --------------------------------------------------------------- answers

  const ENVELOPE: string := "functionReturn"

  /** parseSource from position p on, with the envelope flag and the value
      parsed last. */
  function SourceFrom(ev: seq<Event>, p: nat, envelopeFound: bool, result: Option<Value>)
    : (r: Result<Option<Value>, ServiceError>)
    requires p <= |ev|
    decreases |ev| - p
  {
    match At(ev, p)
    case EndDocument => if envelopeFound then Success(result) else Failure(Malformed(NoEnvelope))
    case EndTag(_) => SourceFrom(ev, Next(ev, p), envelopeFound, result)
    case Text(_) => SourceFrom(ev, Next(ev, p), envelopeFound, result)
    case StartTag(n, _) =>
      if n == ENVELOPE then SourceFrom(ev, Next(ev, p), true, result)
      else if !envelopeFound then SourceFrom(ev, Next(ev, p), envelopeFound, result)
      else if n == "array" then
        var v :- ArrayAt(ev, p);
        SourceFrom(ev, Next(ev, v.pos), envelopeFound, Some(ArrayValue(v.value)))
      else if n == "int" then
        var v :- IntAt(ev, p);
        SourceFrom(ev, Next(ev, v.pos), envelopeFound, Some(IntValue(v.value)))
      else if n == "string" then
        var v := StringAt(ev, p);
        SourceFrom(ev, Next(ev, v.pos), envelopeFound, Some(StringValue(v.value)))
      else if n == "u" then
        var v :- UserAt(ev, p, "u");
        SourceFrom(ev, Next(ev, v.pos), envelopeFound, Some(UserValue(v.value)))
      else if n == "d" then
        var v :- DictionaryAt(ev, p, "d");
        SourceFrom(ev, Next(ev, v.pos), envelopeFound, Some(DictionaryValue(v.value)))
      else if n == "s" then
        var v :- SuggestionAt(ev, p, "s");
        SourceFrom(ev, Next(ev, v.pos), envelopeFound, Some(SuggestionValue(v.value)))
      else if n == "error" then
        var v :- ErrorAt(ev, p, "error");
        Failure(ServerError(v.value.code, v.value.message))
      else SourceFrom(ev, Next(ev, p), envelopeFound, result)
  }

  /** The return value of an answer (None for a null return value). */
  function Response(ev: seq<Event>): Result<Option<Value>, ServiceError> {
    SourceFrom(ev, 0, false, None)
  }

  // --------------------------------------------------- the source's loops

  method HandleError(ev: seq<Event>, start: nat, tag: string) returns (r: Result<Parsed<ErrorReport>, ServiceError>)
    requires start < |ev|
    ensures r == ErrorAt(ev, start, tag)
  {
    var p := Next(ev, start);
    var res := ErrorReport(0, None);
    var stop := false;
    while At(ev, p) != EndDocument && !stop
      invariant start < p <= |ev|
      invariant ErrorAt(ev, start, tag) == ErrorFrom(ev, p, tag, res)
      invariant stop ==> At(ev, p) == EndTag(tag)
      decreases |ev| - p, !stop
    {
      match At(ev, p) {
        case StartTag(n, _) =>
          if n == "code" {
            var v := IntAt(ev, p);
            if v.Failure? { return Failure(v.error); }
            res := res.(code := v.value.value);
            p := v.value.pos;
          } else if n == "message" {
            var v := StringAt(ev, p);
            res := res.(message := Some(v.value));
            p := v.pos;
          }
        case EndTag(n) =>
          if n == tag { stop := true; }
        case _ =>
      }
      if !stop {
        p := Next(ev, p);
      }
    }
    return Success(Parsed(res, p));
  }

  method HandleUser(ev: seq<Event>, start: nat, tag: string) returns (r: Result<Parsed<User>, ServiceError>)
    requires start < |ev|
    ensures r == UserAt(ev, start, tag)
  {
    var p := Next(ev, start);
    var res := EmptyUser;
    var stop := false;
    while At(ev, p) != EndDocument && !stop
      invariant start < p <= |ev|
      invariant UserAt(ev, start, tag) == UserFrom(ev, p, tag, res)
      invariant stop ==> At(ev, p) == EndTag(tag)
      decreases |ev| - p, !stop
    {
      match At(ev, p) {
        case StartTag(n, _) =>
          if n == "id" {
            var v := LongAt(ev, p);
            if v.Failure? { return Failure(v.error); }
            res := res.(id := v.value.value);
            p := v.value.pos;
          } else if n == "em" {
            var v := StringAt(ev, p);
            res := res.(email := Some(v.value));
            p := v.pos;
          } else if n == "fn" {
            var v := StringAt(ev, p);
            res := res.(firstName := Some(v.value));
            p := v.pos;
          } else if n == "ln" {
            var v := StringAt(ev, p);
            res := res.(lastName := Some(v.value));
            p := v.pos;
          }
        case EndTag(n) =>
          if n == tag { stop := true; }
        case _ =>
      }
      if !stop {
        p := Next(ev, p);
      }
    }
    return Success(Parsed(res, p));
  }

  method HandleLanguage(ev: seq<Event>, start: nat, tag: string) returns (r: Result<Parsed<Language>, ServiceError>)
    requires start < |ev|
    ensures r == LanguageAt(ev, start, tag)
  {
    var p := Next(ev, start);
    var res := EmptyLanguage;
    var stop := false;
    while At(ev, p) != EndDocument && !stop
      invariant start < p <= |ev|
      invariant LanguageAt(ev, start, tag) == LanguageFrom(ev, p, tag, res)
      invariant stop ==> At(ev, p) == EndTag(tag)
      decreases |ev| - p, !stop
    {
      match At(ev, p) {
        case StartTag(n, _) =>
          if n == "id" {
            var v := IntAt(ev, p);
            if v.Failure? { return Failure(v.error); }
            res := res.(code := v.value.value);
            p := v.value.pos;
          } else if n == "n" {
            var v := StringAt(ev, p);
            res := res.(name := Some(v.value));
            p := v.pos;
          } else if n == "ab" {
            var v := StringAt(ev, p);
            res := res.(abbreviation := Some(v.value));
            p := v.pos;
          }
        case EndTag(n) =>
          if n == tag { stop := true; }
        case _ =>
      }
      if !stop {
        p := Next(ev, p);
      }
    }
    return Success(Parsed(res, p));
  }

  method HandleDictionary(ev: seq<Event>, start: nat, tag: string) returns (r: Result<Parsed<Dictionary>, ServiceError>)
    requires start < |ev|
    ensures r == DictionaryAt(ev, start, tag)
  {
    var p := Next(ev, start);
    var res := EmptyDictionary;
    var stop := false;
    while At(ev, p) != EndDocument && !stop
      invariant start < p <= |ev|
      invariant DictionaryAt(ev, start, tag) == DictionaryFrom(ev, p, tag, res)
      invariant stop ==> At(ev, p) == EndTag(tag)
      decreases |ev| - p, !stop
    {
      match At(ev, p) {
        case StartTag(n, _) =>
          if n == "lf" {
            var v := HandleLanguage(ev, p, "lf");
            if v.Failure? { return Failure(v.error); }
            res := res.(languageFrom := Some(v.value.value));
            p := v.value.pos;
          } else if n == "lt" {
            var v := HandleLanguage(ev, p, "lt");
            if v.Failure? { return Failure(v.error); }
            res := res.(languageTo := Some(v.value.value));
            p := v.value.pos;
          } else if n == "id" {
            var v := IntAt(ev, p);
            if v.Failure? { return Failure(v.error); }
            res := res.(code := v.value.value);
            p := v.value.pos;
          } else if n == "n" {
            var v := StringAt(ev, p);
            res := res.(name := Some(v.value));
            p := v.pos;
          } else if n == "v" {
            var v := IntAt(ev, p);
            if v.Failure? { return Failure(v.error); }
            res := res.(version := v.value.value);
            p := v.value.pos;
          }
        case EndTag(n) =>
          if n == tag { stop := true; }
        case _ =>
      }
      if !stop {
        p := Next(ev, p);
      }
    }
    return Success(Parsed(res, p));
  }

  method HandleSuggestion(ev: seq<Event>, start: nat, tag: string) returns (r: Result<Parsed<ServerSuggestion>, ServiceError>)
    requires start < |ev|
    ensures r == SuggestionAt(ev, start, tag)
  {
    var p := Next(ev, start);
    var res := EmptySuggestion;
    var stop := false;
    while At(ev, p) != EndDocument && !stop
      invariant start < p <= |ev|
      invariant SuggestionAt(ev, start, tag) == SuggestionFrom(ev, p, tag, res)
      invariant stop ==> At(ev, p) == EndTag(tag)
      decreases |ev| - p, !stop
    {
      match At(ev, p) {
        case StartTag(n, _) =>
          if n == "id" {
            var v := IntAt(ev, p);
            if v.Failure? { return Failure(v.error); }
            res := res.(serverId := v.value.value);
            p := v.value.pos;
          } else if n == "il" {
            var v := IntAt(ev, p);
            if v.Failure? { return Failure(v.error); }
            res := res.(id := v.value.value);
            p := v.value.pos;
          } else if n == "at" {
            var v := StringAt(ev, p);
            res := res.(actionType := Some(v.value));
            p := v.pos;
          } else if n == "w" {
            var v := StringAt(ev, p);
            res := res.(word := Some(v.value));
            p := v.pos;
          } else if n == "e" {
            var v := StringAt(ev, p);
            res := res.(entry := Some(v.value));
            p := v.pos;
          } else if n == "p" {
            var v := StringAt(ev, p);
            res := res.(phonetic := Some(v.value));
            p := v.pos;
          } else if n == "ps" {
            var v := BooleanAt(ev, p);
            if v.Failure? { return Failure(v.error); }
            res := res.(pronunciationRecorded := Some(v.value.value));
            p := v.value.pos;
          } else if n == "ad" {
            var v := StringAt(ev, p);
            res := res.(synchroStatus := Some(v.value));
            p := v.pos;
          } else if n == "iu" {
            var v := IntAt(ev, p);
            if v.Failure? { return Failure(v.error); }
            res := res.(user := res.user.(id := v.value.value));
            p := v.value.pos;
          } else if n == "u" {
            var v := HandleUser(ev, p, "u");
            if v.Failure? { return Failure(v.error); }
            res := res.(user := v.value.value);
            p := v.value.pos;
          } else if n == "ia" {
            var v := IntAt(ev, p);
            if v.Failure? { return Failure(v.error); }
            res := res.(admin := res.admin.(id := v.value.value));
            p := v.value.pos;
          } else if n == "a" {
            var v := HandleUser(ev, p, "a");
            if v.Failure? { return Failure(v.error); }
            res := res.(admin := v.value.value);
            p := v.value.pos;
          } else if n == "ih" {
            var v := IntAt(ev, p);
            if v.Failure? { return Failure(v.error); }
            res := res.(headwordId := v.value.value);
            p := v.value.pos;
          } else if n == "idd" {
            var v := IntAt(ev, p);
            if v.Failure? { return Failure(v.error); }
            res := res.(dictionary := res.dictionary.(code := v.value.value));
            p := v.value.pos;
          } else if n == "d" {
            var v := HandleDictionary(ev, p, "d");
            if v.Failure? { return Failure(v.error); }
            res := res.(dictionary := v.value.value);
            p := v.value.pos;
          }
        case EndTag(n) =>
          if n == tag { stop := true; }
        case _ =>
      }
      if !stop {
        p := Next(ev, p);
      }
    }
    return Success(Parsed(res, p));
  }

  method HandleArray(ev: seq<Event>, start: nat) returns (r: Result<Parsed<seq<Value>>, ServiceError>)
    requires start < |ev|
    ensures r == ArrayAt(ev, start)
  {
    var innerType := GetXmlAttribute(At(ev, start), "innerType");
    if innerType == None {
      return Failure(Malformed(NoInnerType));
    }
    var p := Next(ev, start);
    var result: seq<Value> := [];
    var stop := false;
    while At(ev, p) != EndDocument && !stop
      invariant start < p <= |ev|
      invariant ArrayAt(ev, start) == ArrayFrom(ev, p, innerType.value, result)
      invariant stop ==> At(ev, p) == EndTag("array")
      decreases |ev| - p, !stop
    {
      match At(ev, p) {
        case StartTag(_, _) =>
          if innerType.value == "int" {
            var v := IntAt(ev, p);
            if v.Failure? { return Failure(v.error); }
            result := result + [IntValue(v.value.value)];
            p := v.value.pos;
          } else if innerType.value == "string" {
            var v := StringAt(ev, p);
            result := result + [StringValue(v.value)];
            p := v.pos;
          } else if innerType.value == "Dictionary" {
            var v := HandleDictionary(ev, p, "d");
            if v.Failure? { return Failure(v.error); }
            result := result + [DictionaryValue(v.value.value)];
            p := v.value.pos;
          } else if innerType.value == "User" {
            var v := HandleUser(ev, p, "u");
            if v.Failure? { return Failure(v.error); }
            result := result + [UserValue(v.value.value)];
            p := v.value.pos;
          } else if innerType.value == "Suggestion" {
            var v := HandleSuggestion(ev, p, "s");
            if v.Failure? { return Failure(v.error); }
            result := result + [SuggestionValue(v.value.value)];
            p := v.value.pos;
          }
        case EndTag(n) =>
          if n == "array" { stop := true; }
        case _ =>
      }
      if !stop {
        p := Next(ev, p);
      }
    }
    return Success(Parsed(result, p));
  }

  /** parseSource: the answer's return value, or the error that ends it. */
  method ParseSource(ev: seq<Event>) returns (r: Result<Option<Value>, ServiceError>)
    ensures r == Response(ev)
  {
    var p := 0;
    var envelopeFound := false;
    var result: Option<Value> := None;
    while At(ev, p) != EndDocument
      invariant p <= |ev|
      invariant Response(ev) == SourceFrom(ev, p, envelopeFound, result)
      decreases |ev| - p
    {
      match At(ev, p) {
        case StartTag(n, _) =>
          if n == ENVELOPE {
            envelopeFound := true;
          } else if envelopeFound {
            if n == "array" {
              var v := HandleArray(ev, p);
              if v.Failure? { return Failure(v.error); }
              result := Some(ArrayValue(v.value.value));
              p := v.value.pos;
            } else if n == "int" {
              var v := IntAt(ev, p);
              if v.Failure? { return Failure(v.error); }
              result := Some(IntValue(v.value.value));
              p := v.value.pos;
            } else if n == "string" {
              var v := StringAt(ev, p);
              result := Some(StringValue(v.value));
              p := v.pos;
            } else if n == "u" {
              var v := HandleUser(ev, p, "u");
              if v.Failure? { return Failure(v.error); }
              result := Some(UserValue(v.value.value));
              p := v.value.pos;
            } else if n == "d" {
              var v := HandleDictionary(ev, p, "d");
              if v.Failure? { return Failure(v.error); }
              result := Some(DictionaryValue(v.value.value));
              p := v.value.pos;
            } else if n == "s" {
              var v := HandleSuggestion(ev, p, "s");
              if v.Failure? { return Failure(v.error); }
              result := Some(SuggestionValue(v.value.value));
              p := v.value.pos;
            } else if n == "error" {
              var v := HandleError(ev, p, "error");
              if v.Failure? { return Failure(v.error); }
              return Failure(ServerError(v.value.value.code, v.value.value.message));
            }
          }
        case _ =>
      }
      p := Next(ev, p);
    }
    if !envelopeFound {
      return Failure(Malformed(NoEnvelope));
    }
    return Success(result);
  }
}

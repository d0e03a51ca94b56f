/** The request parameters sent to the dictionary web service: an
    append-only list of name/value pairs, where lists and records are spread
    over indexed names such as `name[3][word]`. */
module ServiceParams {
  import opened Wrappers
  import opened JavaText
  import opened Domain
  import opened SeqFacts

  /** A BasicNameValuePair; the value may be null. */
  datatype NameValuePair = NameValuePair(name: string, value: Option<string>)

  datatype AuthorizationToken = AuthorizationToken(userId: Option<string>, userPassword: Option<string>)

  /** `name[i]`. */
  function Indexed(name: string, i: nat): string {
    name + "[" + IntToString(i) + "]"
  }

  /** `name[field]`. */
  function Field(name: string, field: string): string {
    name + "[" + field + "]"
  }

  /** The five pairs addUser sends, in order. */
  function UserPairs(name: string, u: User): seq<NameValuePair> {
    [ NameValuePair(Field(name, "id"), Some(IntToString(u.id))),
      NameValuePair(Field(name, "email"), u.email),
      NameValuePair(Field(name, "password"), u.password),
      NameValuePair(Field(name, "firstName"), u.firstName),
      NameValuePair(Field(name, "lastName"), u.lastName) ]
  }

  /** The pairs addLongList sends for the first n elements of `li`. */
  function LongListPairs(name: string, li: seq<int>, n: nat): seq<NameValuePair>
    requires n <= |li|
  {
    if n == 0 then []
    else LongListPairs(name, li, n - 1) + [NameValuePair(Indexed(name, n - 1), Some(IntToString(li[n - 1])))]
  }

  /** The per-suggestion field names, in the order they are sent. */
  const SUGGESTION_FIELDS: seq<string> :=
    ["idLocalSuggestion", "actionType", "word", "entry", "phonetic", "prononciationSent", "idDictionary", "idHeadword"]

  /** What addSuggestionList dereferences: the dictionary always, and the
      headword of every suggestion that is not an addition. */
  predicate Sendable(s: Suggestion)
    reads s
  {
    s.dictionary.Some? && (!IsAddition(s.actionType) ==> s.headword.Some?)
  }

  /** The eight pairs sent for suggestion `s` at index `i`. */
  function SuggestionPairs(name: string, i: nat, s: Suggestion): (r: seq<NameValuePair>)
    reads s
    requires Sendable(s)
    ensures |r| == 8
  {
    var prefix := Indexed(name, i);
    [ NameValuePair(Field(prefix, SUGGESTION_FIELDS[0]), Some(IntToString(s.id))),
      NameValuePair(Field(prefix, SUGGESTION_FIELDS[1]), Some(s.actionType)),
      NameValuePair(Field(prefix, SUGGESTION_FIELDS[2]), Some(s.word)),
      NameValuePair(Field(prefix, SUGGESTION_FIELDS[3]), Some(s.entry)),
      NameValuePair(Field(prefix, SUGGESTION_FIELDS[4]), s.phonetic),
      NameValuePair(Field(prefix, SUGGESTION_FIELDS[5]), Some(BoolToString(s.pronunciationRecorded))),
      NameValuePair(Field(prefix, SUGGESTION_FIELDS[6]), Some(IntToString(s.dictionary.value.code))),
      NameValuePair(Field(prefix, SUGGESTION_FIELDS[7]),
        Some(if IsAddition(s.actionType) then "null" else IntToString(s.headword.value.id))) ]
  }

  /** The pairs addSuggestionList sends for the first n suggestions of `ls`. */
  function SuggestionListPairs(name: string, ls: seq<Suggestion>, n: nat): seq<NameValuePair>
    reads ls
    requires n <= |ls|
    requires forall k :: 0 <= k < n ==> Sendable(ls[k])
  {
    if n == 0 then []
    else SuggestionListPairs(name, ls, n - 1) + SuggestionPairs(name, n - 1, ls[n - 1])
  }

  /** addUser: the id is sent as decimal text that reads back as the id. */
  lemma UserPairsShape(name: string, u: User)
    requires LONG_MIN <= u.id <= LONG_MAX
    ensures |UserPairs(name, u)| == 5
    ensures UserPairs(name, u)[0].value.Some? && ParseLong(UserPairs(name, u)[0].value.value) == Some(u.id)
    ensures forall j, k :: 0 <= j < k < 5 ==> UserPairs(name, u)[j].name != UserPairs(name, u)[k].name
  {
    LongRoundTrip(u.id);
    var p := UserPairs(name, u);
    var fields := ["id", "email", "password", "firstName", "lastName"];
    forall j, k | 0 <= j < k < 5
      ensures p[j].name != p[k].name
    {
      assert p[j].name == Field(name, fields[j]) && p[k].name == Field(name, fields[k]);
      if p[j].name == p[k].name {
        FieldInjective(name, fields[j], fields[k]);
      }
    }
  }

  lemma FieldInjective(name: string, a: string, b: string)
    requires Field(name, a) == Field(name, b)
    ensures a == b
  {
    var fa, fb := Field(name, a), Field(name, b);
    assert a == fa[|name| + 1..|fa| - 1];
    assert b == fb[|name| + 1..|fb| - 1];
  }

  lemma IndexedInjective(name: string, i: nat, j: nat)
    requires Indexed(name, i) == Indexed(name, j)
    ensures i == j
  {
    FieldInjective(name, IntToString(i), IntToString(j));
    IntToStringInjective(i, j);
  }

  /** addLongList: one pair per element, keyed `name[k]` and valued with the
      element's decimal text, which reads back as the element. */
  lemma {:induction false} LongListPairsAt(name: string, li: seq<int>, n: nat, k: nat)
    requires n <= |li| && k < n
    ensures |LongListPairs(name, li, n)| == n
    ensures LongListPairs(name, li, n)[k] == NameValuePair(Indexed(name, k), Some(IntToString(li[k])))
  {
    if k < n - 1 {
      LongListPairsAt(name, li, n - 1, k);
    } else {
      LongListPairsLength(name, li, n - 1);
    }
  }

  lemma {:induction false} LongListPairsLength(name: string, li: seq<int>, n: nat)
    requires n <= |li|
    ensures |LongListPairs(name, li, n)| == n
  {
    if n > 0 {
      LongListPairsLength(name, li, n - 1);
    }
  }

  lemma LongListRoundTrip(name: string, li: seq<int>)
    requires forall k :: 0 <= k < |li| ==> LONG_MIN <= li[k] <= LONG_MAX
    ensures |LongListPairs(name, li, |li|)| == |li|
    ensures forall k :: 0 <= k < |li| ==>
      LongListPairs(name, li, |li|)[k].value.Some? && ParseLong(LongListPairs(name, li, |li|)[k].value.value) == Some(li[k])
    ensures forall j, k :: 0 <= j < k < |li| ==> LongListPairs(name, li, |li|)[j].name != LongListPairs(name, li, |li|)[k].name
  {
    LongListPairsLength(name, li, |li|);
    var p := LongListPairs(name, li, |li|);
    forall k | 0 <= k < |li|
      ensures p[k].value.Some? && ParseLong(p[k].value.value) == Some(li[k])
    {
      LongListPairsAt(name, li, |li|, k);
      LongRoundTrip(li[k]);
    }
    forall j, k | 0 <= j < k < |li|
      ensures p[j].name != p[k].name
    {
      LongListPairsAt(name, li, |li|, j);
      LongListPairsAt(name, li, |li|, k);
      if p[j].name == p[k].name {
        IndexedInjective(name, j, k);
      }
    }
  }

  /** The eight pairs of one suggestion: field f under `name[i][field]`,
      the id first, and the literal "null" as headword exactly for an
      addition. */
  lemma SuggestionPairsShape(name: string, i: nat, s: Suggestion)
    requires Sendable(s)
    ensures |SuggestionPairs(name, i, s)| == 8
    ensures forall f :: 0 <= f < 8 ==> SuggestionPairs(name, i, s)[f].name == Field(Indexed(name, i), SUGGESTION_FIELDS[f])
    ensures SuggestionPairs(name, i, s)[0].value == Some(IntToString(s.id))
    ensures SuggestionPairs(name, i, s)[7].value == Some("null") <==> IsAddition(s.actionType)
  {
    if !IsAddition(s.actionType) {
      var id := s.headword.value.id;
      var t := IntToString(id);
      if id >= 0 {
        IntToStringDigits(id);
      }
      assert t[0] == '-' || IsDigit(t[0]);
      assert t != "null";
    }
  }

  /** Pair 8i+f of the list is pair f of suggestion i. */
  lemma {:induction false} SuggestionListPairsBlock(name: string, ls: seq<Suggestion>, n: nat, i: nat, f: nat)
    requires n <= |ls| && i < n && f < 8
    requires forall k :: 0 <= k < n ==> Sendable(ls[k])
    ensures |SuggestionListPairs(name, ls, n)| == 8 * n
    ensures SuggestionListPairs(name, ls, n)[8 * i + f] == SuggestionPairs(name, i, ls[i])[f]
  {
    SuggestionListPairsLength(name, ls, n - 1);
    var front := SuggestionListPairs(name, ls, n - 1);
    var back := SuggestionPairs(name, n - 1, ls[n - 1]);
    assert SuggestionListPairs(name, ls, n) == front + back;
    if i < n - 1 {
      SuggestionListPairsBlock(name, ls, n - 1, i, f);
      assert (front + back)[8 * i + f] == front[8 * i + f];
    } else {
      assert (front + back)[8 * i + f] == back[f];
    }
  }

  /** addSuggestionList: eight pairs per suggestion; pair 8i+f is field f of
      suggestion i under `name[i][field]`; the headword value is the literal
      "null" exactly for additions. */
  lemma SuggestionListPairsAt(name: string, ls: seq<Suggestion>, n: nat, i: nat, f: nat)
    requires n <= |ls| && i < n && f < 8
    requires forall k :: 0 <= k < n ==> Sendable(ls[k])
    ensures |SuggestionListPairs(name, ls, n)| == 8 * n
    ensures SuggestionListPairs(name, ls, n)[8 * i + f].name == Field(Indexed(name, i), SUGGESTION_FIELDS[f])
    ensures SuggestionListPairs(name, ls, n)[8 * i].value == Some(IntToString(ls[i].id))
    ensures SuggestionListPairs(name, ls, n)[8 * i + 7].value == Some("null") <==> IsAddition(ls[i].actionType)
  {
    SuggestionListPairsBlock(name, ls, n, i, f);
    SuggestionListPairsBlock(name, ls, n, i, 0);
    SuggestionListPairsBlock(name, ls, n, i, 7);
    SuggestionPairsShape(name, i, ls[i]);
  }

  lemma {:induction false} SuggestionListPairsLength(name: string, ls: seq<Suggestion>, n: nat)
    requires n <= |ls|
    requires forall k :: 0 <= k < n ==> Sendable(ls[k])
    ensures |SuggestionListPairs(name, ls, n)| == 8 * n
  {
    if n > 0 {
      SuggestionListPairsLength(name, ls, n - 1);
    }
  }

  class Params {
    var effectiveParams: seq<NameValuePair>

    constructor ()
      ensures effectiveParams == []
    {
      effectiveParams := [];
    }

    method AddAuthorizationToken(token: AuthorizationToken)
      modifies this`effectiveParams
      ensures effectiveParams == old(effectiveParams)
        + [NameValuePair("aopdsAuthUserEmail", token.userId), NameValuePair("aopdsAuthUserPassword", token.userPassword)]
    {
      effectiveParams := effectiveParams + [NameValuePair("aopdsAuthUserEmail", token.userId)];
      effectiveParams := effectiveParams + [NameValuePair("aopdsAuthUserPassword", token.userPassword)];
    }

    method AddString(name: string, value: Option<string>)
      modifies this`effectiveParams
      ensures effectiveParams == old(effectiveParams) + [NameValuePair(name, value)]
    {
      effectiveParams := effectiveParams + [NameValuePair(name, value)];
    }

    method AddUser(name: string, u: User)
      modifies this`effectiveParams
      ensures effectiveParams == old(effectiveParams) + UserPairs(name, u)
    {
      effectiveParams := effectiveParams + UserPairs(name, u);
    }

    method AddLongList(name: string, li: seq<int>)
      modifies this`effectiveParams
      ensures effectiveParams == old(effectiveParams) + LongListPairs(name, li, |li|)
    {
      var i := 0;
      while i < |li|
        invariant 0 <= i <= |li|
        invariant effectiveParams == old(effectiveParams) + LongListPairs(name, li, i)
      {
        effectiveParams := effectiveParams + [NameValuePair(Indexed(name, i), Some(IntToString(li[i])))];
        i := i + 1;
      }
    }

    method AddSuggestionList(name: string, ls: seq<Suggestion>)
      requires forall k :: 0 <= k < |ls| ==> Sendable(ls[k])
      modifies this`effectiveParams
      ensures effectiveParams == old(effectiveParams) + SuggestionListPairs(name, ls, |ls|)
    {
      var i := 0;
      while i < |ls|
        invariant 0 <= i <= |ls|
        invariant effectiveParams == old(effectiveParams) + SuggestionListPairs(name, ls, i)
      {
        var pairs := SuggestionPairs(name, i, ls[i]);
        assert SuggestionListPairs(name, ls, i + 1) == SuggestionListPairs(name, ls, i) + pairs;
        AppendAssociative(old(effectiveParams), SuggestionListPairs(name, ls, i), pairs);
        effectiveParams := effectiveParams + pairs;
        i := i + 1;
      }
    }
  }
}

/** Properties of the answer reader: what makes an answer malformed, what the
    reader skips, how a server error surfaces, which value is returned, and
    round trips from answers the server writes to the values read back. */
module ReturnHandlerProperties {
  import opened Wrappers
  import opened JavaText
  import opened Domain
  import opened ReturnHandler
  import opened SeqFacts

  predicate IsEnvelope(e: Event) {
    e.StartTag? && e.name == ENVELOPE
  }

  /** The tokenizer reports END_DOCUMENT only once the events run out. */
  predicate Tokenized(ev: seq<Event>) {
    forall i :: 0 <= i < |ev| ==> ev[i] != EndDocument
  }

  /** Start tags that the top level reads as a value or an error. */
  const VALUE_TAGS: set<string> := {"array", "int", "string", "u", "d", "s", "error"}

  /** An event the top level steps over: any end tag or text, and any start
      tag other than the envelope (before it) or a value tag (after it). */
  predicate Inert(e: Event, envelopeFound: bool) {
    match e
    case StartTag(n, _) => n != ENVELOPE && (envelopeFound ==> n !in VALUE_TAGS)
    case EndTag(_) => true
    case Text(_) => true
    case EndDocument => false
  }

  lemma {:induction false} NoEnvelopeFrom(ev: seq<Event>, p: nat, result: Option<Value>)
    requires p <= |ev|
    requires forall i :: p <= i < |ev| ==> !IsEnvelope(ev[i])
    ensures SourceFrom(ev, p, false, result) == Failure(Malformed(NoEnvelope))
    decreases |ev| - p
  {
    if At(ev, p) != EndDocument {
      NoEnvelopeFrom(ev, p + 1, result);
    }
  }

  /** Once the envelope is found, no error can be a missing envelope. */
  lemma {:induction false} AfterEnvelope(ev: seq<Event>, p: nat, result: Option<Value>)
    requires p <= |ev|
    ensures SourceFrom(ev, p, true, result) != Failure(Malformed(NoEnvelope))
    decreases |ev| - p
  {
    match At(ev, p)
    case EndDocument =>
    case EndTag(_) => AfterEnvelope(ev, p + 1, result);
    case Text(_) => AfterEnvelope(ev, p + 1, result);
    case StartTag(n, _) =>
      if n == ENVELOPE {
        AfterEnvelope(ev, p + 1, result);
      } else if n == "array" {
        var v := ArrayAt(ev, p);
        if v.Success? { AfterEnvelope(ev, Next(ev, v.value.pos), Some(ArrayValue(v.value.value))); }
      } else if n == "int" {
        var v := IntAt(ev, p);
        if v.Success? { AfterEnvelope(ev, Next(ev, v.value.pos), Some(IntValue(v.value.value))); }
      } else if n == "string" {
        var v := StringAt(ev, p);
        AfterEnvelope(ev, Next(ev, v.pos), Some(StringValue(v.value)));
      } else if n == "u" {
        var v := UserAt(ev, p, "u");
        if v.Success? { AfterEnvelope(ev, Next(ev, v.value.pos), Some(UserValue(v.value.value))); }
      } else if n == "d" {
        var v := DictionaryAt(ev, p, "d");
        if v.Success? { AfterEnvelope(ev, Next(ev, v.value.pos), Some(DictionaryValue(v.value.value))); }
      } else if n == "s" {
        var v := SuggestionAt(ev, p, "s");
        if v.Success? { AfterEnvelope(ev, Next(ev, v.value.pos), Some(SuggestionValue(v.value.value))); }
      } else if n != "error" {
        AfterEnvelope(ev, p + 1, result);
      }
  }

  lemma {:induction false} EnvelopeFrom(ev: seq<Event>, p: nat, i: nat, result: Option<Value>)
    requires p <= i < |ev| && Tokenized(ev) && IsEnvelope(ev[i])
    ensures SourceFrom(ev, p, false, result) != Failure(Malformed(NoEnvelope))
    decreases i - p
  {
    if p == i {
      AfterEnvelope(ev, p + 1, result);
    } else if IsEnvelope(ev[p]) {
      AfterEnvelope(ev, p + 1, result);
    } else {
      EnvelopeFrom(ev, p + 1, i, result);
    }
  }

  /** An answer is refused for a missing envelope exactly when it has no
      functionReturn start tag. */
  lemma NoEnvelopeIff(ev: seq<Event>)
    requires Tokenized(ev)
    ensures Response(ev) == Failure(Malformed(NoEnvelope)) <==> forall i :: 0 <= i < |ev| ==> !IsEnvelope(ev[i])
  {
    if forall i :: 0 <= i < |ev| ==> !IsEnvelope(ev[i]) {
      NoEnvelopeFrom(ev, 0, None);
    } else {
      var i :| 0 <= i < |ev| && IsEnvelope(ev[i]);
      EnvelopeFrom(ev, 0, i, None);
    }
  }

  /** Inert events change nothing: reading on from p is reading on from q. */
  lemma {:induction false} SkipInert(ev: seq<Event>, p: nat, q: nat, envelopeFound: bool, result: Option<Value>)
    requires p <= q <= |ev|
    requires forall i :: p <= i < q ==> Inert(ev[i], envelopeFound)
    ensures SourceFrom(ev, p, envelopeFound, result) == SourceFrom(ev, q, envelopeFound, result)
    decreases q - p
  {
    if p < q {
      SkipInert(ev, p + 1, q, envelopeFound, result);
    }
  }

  /** Start tags before the envelope are ignored: an answer read with a prefix
      of such events reads as from the end of the prefix. */
  lemma PrefixBeforeEnvelope(pre: seq<Event>, ev: seq<Event>)
    requires forall i :: 0 <= i < |pre| ==> Inert(pre[i], false)
    ensures Response(pre + ev) == SourceFrom(pre + ev, |pre|, false, None)
  {
    SkipInert(pre + ev, 0, |pre|, false, None);
  }

  /** A value element replaces whatever value was read before it. */
  lemma ValueReplacesResult(ev: seq<Event>, p: nat, r1: Option<Value>, r2: Option<Value>)
    requires p < |ev| && ev[p].StartTag? && ev[p].name in VALUE_TAGS
    ensures SourceFrom(ev, p, true, r1) == SourceFrom(ev, p, true, r2)
  {
  }

  /** `<tag>text</tag>`. */
  function Element(tag: string, text: string): seq<Event> {
    [StartTag(tag, []), Text(text), EndTag(tag)]
  }

  // One step of the top level, for the shapes the examples below use.

  lemma SourceStepEnvelope(ev: seq<Event>, p: nat, f: bool, result: Option<Value>)
    requires p < |ev| && IsEnvelope(ev[p])
    ensures SourceFrom(ev, p, f, result) == SourceFrom(ev, p + 1, true, result)
  {
  }

  lemma SourceStepEnd(ev: seq<Event>, p: nat, f: bool, result: Option<Value>)
    requires p < |ev| && ev[p].EndTag?
    ensures SourceFrom(ev, p, f, result) == SourceFrom(ev, p + 1, f, result)
  {
  }

  lemma SourceStepInt(ev: seq<Event>, p: nat, result: Option<Value>, x: int)
    requires p < |ev| && ev[p].StartTag? && ev[p].name == "int"
    requires IntAt(ev, p) == Success(Parsed(x, p + 2)) && p + 2 < |ev|
    ensures SourceFrom(ev, p, true, result) == SourceFrom(ev, p + 3, true, Some(IntValue(x)))
  {
  }

  lemma SourceStepArray(ev: seq<Event>, p: nat, result: Option<Value>, vs: seq<Value>, q: nat)
    requires p < |ev| && ev[p].StartTag? && ev[p].name == "array"
    requires ArrayAt(ev, p) == Success(Parsed(vs, q)) && q < |ev|
    ensures SourceFrom(ev, p, true, result) == SourceFrom(ev, q + 1, true, Some(ArrayValue(vs)))
  {
  }

  /** `<int>x</int>` at p reads as x. */
  lemma IntElementAt(ev: seq<Event>, p: nat, x: int)
    requires INT_MIN <= x <= INT_MAX
    requires p + 2 < |ev| && ev[p + 1] == Text(IntToString(x))
    ensures IntAt(ev, p) == Success(Parsed(x, p + 2))
  {
    IntRoundTrip(x);
  }

  /** An envelope holding an error element whose code text reads as `code`
      answers a server error with that code and the message. */
  lemma ErrorEnvelopeResponse(codeText: string, code: int, message: string)
    requires ParseInt(codeText) == Some(code)
    ensures Response([StartTag(ENVELOPE, []), StartTag("error", []),
                      StartTag("code", []), Text(codeText), EndTag("code"),
                      StartTag("message", []), Text(message), EndTag("message"),
                      EndTag("error"), EndTag(ENVELOPE)])
         == Failure(ServerError(code, Some(message)))
  {
    var ev := [StartTag(ENVELOPE, []), StartTag("error", []),
               StartTag("code", []), Text(codeText), EndTag("code"),
               StartTag("message", []), Text(message), EndTag("message"),
               EndTag("error"), EndTag(ENVELOPE)];
    var report := ErrorReport(code, Some(message));
    assert ErrorFrom(ev, 8, "error", report) == Success(Parsed(report, 8));
    assert StringAt(ev, 5) == Parsed(message, 7);
    assert ErrorFrom(ev, 5, "error", ErrorReport(code, None)) == Success(Parsed(report, 8));
    assert IntAt(ev, 2) == Success(Parsed(code, 4));
    assert ErrorFrom(ev, 2, "error", ErrorReport(0, None)) == Success(Parsed(report, 8));
    assert SourceFrom(ev, 1, true, None) == Failure(ServerError(code, Some(message)));
  }

  /** An error element in the envelope ends the reading with a server error
      carrying its code and message. */
  lemma ServerErrorAnswer(code: int, message: string)
    requires INT_MIN <= code <= INT_MAX
    ensures Response([StartTag(ENVELOPE, []), StartTag("error", []),
                      StartTag("code", []), Text(IntToString(code)), EndTag("code"),
                      StartTag("message", []), Text(message), EndTag("message"),
                      EndTag("error"), EndTag(ENVELOPE)])
         == Failure(ServerError(code, Some(message)))
  {
    IntRoundTrip(code);
    ErrorEnvelopeResponse(IntToString(code), code, message);
  }

  /** An envelope holding two int elements that read as a and b answers b. */
  lemma TwoIntsResponse(ev: seq<Event>, a: int, b: int)
    requires |ev| == 8 && ev[0] == StartTag(ENVELOPE, []) && ev[7] == EndTag(ENVELOPE)
    requires ev[1] == StartTag("int", []) && IntAt(ev, 1) == Success(Parsed(a, 3))
    requires ev[4] == StartTag("int", []) && IntAt(ev, 4) == Success(Parsed(b, 6))
    ensures Response(ev) == Success(Some(IntValue(b)))
  {
    SourceStepEnvelope(ev, 0, false, None);
    SourceStepInt(ev, 1, None, a);
    SourceStepInt(ev, 4, Some(IntValue(a)), b);
    SourceStepEnd(ev, 7, true, Some(IntValue(b)));
  }

  /** Of two values in one envelope, the second is returned. */
  lemma LastValueReturned(a: int, b: int)
    requires INT_MIN <= a <= INT_MAX && INT_MIN <= b <= INT_MAX
    ensures Response([StartTag(ENVELOPE, []),
                      StartTag("int", []), Text(IntToString(a)), EndTag("int"),
                      StartTag("int", []), Text(IntToString(b)), EndTag("int"),
                      EndTag(ENVELOPE)])
         == Success(Some(IntValue(b)))
  {
    var ev := [StartTag(ENVELOPE, []),
               StartTag("int", []), Text(IntToString(a)), EndTag("int"),
               StartTag("int", []), Text(IntToString(b)), EndTag("int"),
               EndTag(ENVELOPE)];
    IntElementAt(ev, 1, a);
    IntElementAt(ev, 4, b);
    TwoIntsResponse(ev, a, b);
  }

  /** handleLong reads its text with Integer.parseInt: a long id beyond the
      int range is refused as malformed. */
  lemma LongBeyondIntRefused(ev: seq<Event>, p: nat, x: int)
    requires p + 1 < |ev| && ev[p + 1] == Text(IntToString(x))
    requires INT_MAX < x <= LONG_MAX
    ensures LongAt(ev, p) == Failure(Malformed(BadLong))
  {
    ParseOfToString(x, LONG_MIN, LONG_MAX);
    ParseDecimalRange(IntToString(x), INT_MIN, INT_MAX, LONG_MIN, LONG_MAX, x);
  }

  /** The elements `<int>x</int>` of a list, in order. */
  function IntElements(xs: seq<int>): (ev: seq<Event>)
    ensures |ev| == 3 * |xs|
  {
    if xs == [] then [] else Element("int", IntToString(xs[0])) + IntElements(xs[1..])
  }

  function IntValues(xs: seq<int>): (vs: seq<Value>)
    ensures |vs| == |xs| && forall i :: 0 <= i < |xs| ==> vs[i] == IntValue(xs[i])
  {
    seq(|xs|, i requires 0 <= i < |xs| => IntValue(xs[i]))
  }

  lemma {:induction false} IntElementsAt(xs: seq<int>, i: nat)
    requires i < |xs|
    ensures IntElements(xs)[3 * i] == StartTag("int", [])
    ensures IntElements(xs)[3 * i + 1] == Text(IntToString(xs[i]))
    decreases i
  {
    if i > 0 {
      IntElementsAt(xs[1..], i - 1);
    }
  }

  /** The int elements of xs sit at p, each one reading as its value, and the
      array's end tag follows them. */
  predicate IntElementsIn(ev: seq<Event>, p: nat, xs: seq<int>) {
    p + 3 * |xs| < |ev| && ev[p + 3 * |xs|] == EndTag("array") &&
    forall i :: 0 <= i < |xs| ==>
      ev[p + 3 * i].StartTag? && IntAt(ev, p + 3 * i) == Success(Parsed(xs[i], p + 3 * i + 2))
  }

  /** The int elements of xs are laid out from p: a start tag, then the
      value's decimal text, for each element in turn. */
  predicate IntElementsLaid(ev: seq<Event>, p: nat, xs: seq<int>) {
    p + 3 * |xs| < |ev| &&
    forall i :: 0 <= i < |xs| ==> ev[p + 3 * i].StartTag? && ev[p + 3 * i + 1] == Text(IntToString(xs[i]))
  }

  /** Laid-out int elements read back as their values. */
  lemma IntElementsLaidRead(ev: seq<Event>, p: nat, xs: seq<int>)
    requires forall i :: 0 <= i < |xs| ==> INT_MIN <= xs[i] <= INT_MAX
    requires IntElementsLaid(ev, p, xs) && ev[p + 3 * |xs|] == EndTag("array")
    ensures IntElementsIn(ev, p, xs)
  {
    forall i | 0 <= i < |xs|
      ensures ev[p + 3 * i].StartTag? && IntAt(ev, p + 3 * i) == Success(Parsed(xs[i], p + 3 * i + 2))
    {
      IntElementAt(ev, p + 3 * i, xs[i]);
    }
  }

  /** Element i of xs, written between other events, is a start tag
      followed by the decimal text of xs[i]. */
  lemma IntElementWritten(pre: seq<Event>, xs: seq<int>, post: seq<Event>, i: nat)
    requires i < |xs|
    ensures (pre + IntElements(xs) + post)[|pre| + 3 * i].StartTag?
    ensures (pre + IntElements(xs) + post)[|pre| + 3 * i + 1] == Text(IntToString(xs[i]))
  {
    IntElementsAt(xs, i);
    MiddleIndex(pre, IntElements(xs), post, 3 * i);
    MiddleIndex(pre, IntElements(xs), post, 3 * i + 1);
  }

  /** Writing the elements of xs between other events lays them out. */
  lemma IntElementsWritten(pre: seq<Event>, xs: seq<int>, post: seq<Event>)
    requires |post| > 0
    ensures IntElementsLaid(pre + IntElements(xs) + post, |pre|, xs)
  {
    forall i | 0 <= i < |xs|
      ensures (pre + IntElements(xs) + post)[|pre| + 3 * i].StartTag?
      ensures (pre + IntElements(xs) + post)[|pre| + 3 * i + 1] == Text(IntToString(xs[i]))
    {
      IntElementWritten(pre, xs, post, i);
    }
  }

  lemma IntValuesCons(acc: seq<Value>, xs: seq<int>, i: nat)
    requires i < |xs|
    ensures acc + [IntValue(xs[i])] + IntValues(xs[i + 1..]) == acc + IntValues(xs[i..])
  {
    assert IntValues(xs[i..]) == [IntValue(xs[i])] + IntValues(xs[i + 1..]);
  }

  lemma ArrayStepEnd(ev: seq<Event>, p: nat, innerType: string, acc: seq<Value>)
    requires p < |ev| && ev[p] == EndTag("array")
    ensures ArrayFrom(ev, p, innerType, acc) == Success(Parsed(acc, p))
  {
  }

  lemma ArrayAtInnerType(ev: seq<Event>, p: nat, innerType: string)
    requires p < |ev| && ev[p] == StartTag("array", [Attribute("innerType", innerType)])
    ensures ArrayAt(ev, p) == ArrayFrom(ev, p + 1, innerType, [])
  {
  }

  /** One element of an int array: read, then the list grows by it. */
  lemma ArrayStepInt(ev: seq<Event>, p: nat, acc: seq<Value>, x: int, q: nat, vs: seq<Value>)
    requires p + 2 < |ev| && ev[p].StartTag?
    requires IntAt(ev, p) == Success(Parsed(x, p + 2))
    requires ArrayFrom(ev, p + 3, "int", acc + [IntValue(x)]) == Success(Parsed(vs, q))
    ensures ArrayFrom(ev, p, "int", acc) == Success(Parsed(vs, q))
  {
  }

  /** Reading the int array from element i on adds the values of
      xs[i..] to what was read before, and stops at the end tag. */
  lemma {:induction false} IntArrayFrom(ev: seq<Event>, p: nat, xs: seq<int>, i: nat, acc: seq<Value>)
    requires i <= |xs| && IntElementsIn(ev, p, xs)
    ensures ArrayFrom(ev, p + 3 * i, "int", acc) == Success(Parsed(acc + IntValues(xs[i..]), p + 3 * |xs|))
    decreases |xs| - i
  {
    var here := p + 3 * i;
    if i == |xs| {
      ArrayStepEnd(ev, here, "int", acc);
      assert acc + IntValues(xs[i..]) == acc;
    } else {
      var x := xs[i];
      assert ev[here].StartTag? && IntAt(ev, here) == Success(Parsed(x, here + 2));
      var grown := acc + [IntValue(x)];
      IntArrayFrom(ev, p, xs, i + 1, grown);
      assert p + 3 * (i + 1) == here + 3;
      IntValuesCons(acc, xs, i);
      ArrayStepInt(ev, here, acc, x, p + 3 * |xs|, acc + IntValues(xs[i..]));
    }
  }

  /** Reading an int array from its first element collects every value. */
  lemma IntArrayFromStart(ev: seq<Event>, p: nat, xs: seq<int>)
    requires IntElementsIn(ev, p, xs)
    ensures ArrayFrom(ev, p, "int", []) == Success(Parsed(IntValues(xs), p + 3 * |xs|))
  {
    IntArrayFrom(ev, p, xs, 0, []);
    assert [] + IntValues(xs[0..]) == IntValues(xs);
  }

  lemma IntArrayResponse(ev: seq<Event>, xs: seq<int>)
    requires forall i :: 0 <= i < |xs| ==> INT_MIN <= xs[i] <= INT_MAX
    requires |ev| == 3 * |xs| + 4 && IntElementsLaid(ev, 2, xs) && ev[3 * |xs| + 2] == EndTag("array")
    requires ev[0] == StartTag(ENVELOPE, []) && ev[1] == StartTag("array", [Attribute("innerType", "int")])
    requires ev[3 * |xs| + 3] == EndTag(ENVELOPE)
    ensures Response(ev) == Success(Some(ArrayValue(IntValues(xs))))
  {
    IntElementsLaidRead(ev, 2, xs);
    IntArrayFromStart(ev, 2, xs);
    ArrayResponse(ev, "int", IntValues(xs), 2 + 3 * |xs|);
  }

  /** An envelope holding one array and nothing else answers that array. */
  lemma ArrayResponse(ev: seq<Event>, innerType: string, vs: seq<Value>, q: nat)
    requires |ev| == q + 2 && ev[0] == StartTag(ENVELOPE, [])
    requires ev[1] == StartTag("array", [Attribute("innerType", innerType)])
    requires ArrayFrom(ev, 2, innerType, []) == Success(Parsed(vs, q)) && ev[q + 1] == EndTag(ENVELOPE)
    ensures Response(ev) == Success(Some(ArrayValue(vs)))
  {
    ArrayAtInnerType(ev, 1, innerType);
    SourceStepEnvelope(ev, 0, false, None);
    SourceStepArray(ev, 1, None, vs, q);
    SourceStepEnd(ev, q + 1, true, Some(ArrayValue(vs)));
  }

  /** An int list the server writes as an array reads back as that list. */
  lemma IntArrayAnswer(xs: seq<int>)
    requires forall i :: 0 <= i < |xs| ==> INT_MIN <= xs[i] <= INT_MAX
    ensures Response([StartTag(ENVELOPE, []), StartTag("array", [Attribute("innerType", "int")])]
                     + IntElements(xs) + [EndTag("array"), EndTag(ENVELOPE)])
         == Success(Some(ArrayValue(IntValues(xs))))
  {
    var pre := [StartTag(ENVELOPE, []), StartTag("array", [Attribute("innerType", "int")])];
    var post := [EndTag("array"), EndTag(ENVELOPE)];
    var ev := pre + IntElements(xs) + post;
    IntElementsWritten(pre, xs, post);
    FollowingIndex(pre, IntElements(xs), post);
    assert ev[0] == pre[0] && ev[1] == pre[1] && ev[3 * |xs| + 3] == post[1];
    IntArrayResponse(ev, xs);
  }

  /** An array of an unknown inner type collects nothing. */
  lemma {:induction false} UnknownInnerTypeCollectsNothing(ev: seq<Event>, p: nat, innerType: string, acc: seq<Value>)
    requires p <= |ev| && innerType !in INNER_TYPES
    ensures ArrayFrom(ev, p, innerType, acc).Success?
    ensures ArrayFrom(ev, p, innerType, acc).value.value == acc
    decreases |ev| - p
  {
    if At(ev, p) != EndDocument && At(ev, p) != EndTag("array") {
      UnknownInnerTypeCollectsNothing(ev, p + 1, innerType, acc);
    }
  }
}

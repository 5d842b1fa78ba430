/** JSON values (section 3 of RFC 8259) as the marshallers build them, and the stream of
    writer calls that produces one: object(), key(k), value(v), endObject(), array(),
    endArray(). A value's calls are given by Tokens; ParseValue reads a call stream back and
    shows that each value's stream is one complete, balanced document. */
module Json {

  import opened Wrappers
  import opened JavaLang

  /** A JSON value: a string, an integer, a boolean, an object (its members in writing
      order, section 4 of RFC 8259) or an array (section 5 of RFC 8259). */
  datatype Json =
    | JString(s: string)
    | JInt(i: Int32)
    | JBool(b: bool)
    | JObject(members: seq<Member>)
    | JArray(elems: seq<Json>)

  /** One name/value pair of an object. */
  datatype Member = Member(key: string, value: Json)

  /** One call on the JSON writer. */
  datatype Token =
    | BeginObject
    | EndObject
    | BeginArray
    | EndArray
    | Key(k: string)
    | StringValue(s: string)
    | IntValue(i: Int32)
    | BoolValue(b: bool)

  /** The writer calls that write `j`. */
  function Tokens(j: Json): seq<Token>
    decreases j
  {
    match j
    case JString(s) => [StringValue(s)]
    case JInt(i) => [IntValue(i)]
    case JBool(b) => [BoolValue(b)]
    case JObject(ms) => [BeginObject] + MembersTokens(ms) + [EndObject]
    case JArray(es) => [BeginArray] + ElemsTokens(es) + [EndArray]
  }

  /** The calls that write the members of an object: key(k) then the value, per member. */
  function MembersTokens(ms: seq<Member>): seq<Token>
    decreases ms
  {
    if ms == [] then []
    else [Key(ms[0].key)] + Tokens(ms[0].value) + MembersTokens(ms[1..])
  }

  /** The calls that write the elements of an array, in order. */
  function ElemsTokens(es: seq<Json>): seq<Token>
    decreases es
  {
    if es == [] then []
    else Tokens(es[0]) + ElemsTokens(es[1..])
  }

  /** Writing members one after another writes each one's calls in turn. */
  lemma {:induction false} MembersTokensAppend(a: seq<Member>, b: seq<Member>)
    ensures MembersTokens(a + b) == MembersTokens(a) + MembersTokens(b)
  {
    if a == [] {
      assert a + b == b;
    } else {
      assert (a + b)[1..] == a[1..] + b;
      MembersTokensAppend(a[1..], b);
    }
  }

  /** Writing elements one after another writes each one's calls in turn. */
  lemma {:induction false} ElemsTokensAppend(a: seq<Json>, b: seq<Json>)
    ensures ElemsTokens(a + b) == ElemsTokens(a) + ElemsTokens(b)
  {
    if a == [] {
      assert a + b == b;
    } else {
      assert (a + b)[1..] == a[1..] + b;
      ElemsTokensAppend(a[1..], b);
    }
  }

  // ---------------------------------------------------------------------------
  // Reading a call stream back

  /** Reads one value from the front of a call stream, as the writer's state machine
      accepts it: a scalar value, or object() then key/value pairs then endObject(), or
      array() then values then endArray(). Gives the value and the calls after it. */
  function ParseValue(ts: seq<Token>): (r: Option<(Json, seq<Token>)>)
    ensures r.Some? ==> |r.value.1| < |ts|
    decreases |ts|, 1
  {
    if ts == [] then None
    else match ts[0]
      case StringValue(s) => Some((JString(s), ts[1..]))
      case IntValue(i) => Some((JInt(i), ts[1..]))
      case BoolValue(b) => Some((JBool(b), ts[1..]))
      case BeginObject =>
        (match ParseMembers(ts[1..])
         case None => None
         case Some((ms, rest)) => Some((JObject(ms), rest)))
      case BeginArray =>
        (match ParseElems(ts[1..])
         case None => None
         case Some((es, rest)) => Some((JArray(es), rest)))
      case _ => None
  }

  /** Reads key/value pairs up to and including the endObject() that closes them. */
  function ParseMembers(ts: seq<Token>): (r: Option<(seq<Member>, seq<Token>)>)
    ensures r.Some? ==> |r.value.1| < |ts|
    decreases |ts|, 0
  {
    if ts == [] then None
    else match ts[0]
      case EndObject => Some(([], ts[1..]))
      case Key(k) =>
        (match ParseValue(ts[1..])
         case None => None
         case Some((v, afterValue)) =>
           (match ParseMembers(afterValue)
            case None => None
            case Some((ms, rest)) => Some(([Member(k, v)] + ms, rest))))
      case _ => None
  }

  /** Reads values up to and including the endArray() that closes them. */
  function ParseElems(ts: seq<Token>): (r: Option<(seq<Json>, seq<Token>)>)
    ensures r.Some? ==> |r.value.1| < |ts|
    decreases |ts|, 2
  {
    if ts == [] then None
    else if ts[0] == EndArray then Some(([], ts[1..]))
    else
      match ParseValue(ts)
      case None => None
      case Some((v, afterValue)) =>
        (match ParseElems(afterValue)
         case None => None
         case Some((es, rest)) => Some(([v] + es, rest)))
  }

  /** A complete document: exactly one value and nothing after it. */
  predicate IsDocument(ts: seq<Token>)
  {
    ParseValue(ts).Some? && ParseValue(ts).value.1 == []
  }

  /** The calls that write a value are read back as that value, whatever follows them:
      every object and array begun is ended, at its own level, and in between only keys
      and values the writer accepts appear. */
  lemma {:induction false} ParseTokens(j: Json, rest: seq<Token>)
    ensures ParseValue(Tokens(j) + rest) == Some((j, rest))
    decreases j, 1
  {
    match j
    case JString(_) =>
      assert (Tokens(j) + rest)[1..] == rest;
    case JInt(_) =>
      assert (Tokens(j) + rest)[1..] == rest;
    case JBool(_) =>
      assert (Tokens(j) + rest)[1..] == rest;
    case JObject(ms) =>
      ParseObjectTokens(ms, rest);
    case JArray(es) =>
      ParseArrayTokens(es, rest);
  }

  /** object(), the members, endObject() read back as that object. */
  lemma {:induction false} ParseObjectTokens(ms: seq<Member>, rest: seq<Token>)
    ensures ParseValue(Tokens(JObject(ms)) + rest) == Some((JObject(ms), rest))
    decreases ms, 1
  {
    var ts := Tokens(JObject(ms)) + rest;
    var inner := MembersTokens(ms) + [EndObject] + rest;
    assert ts == [BeginObject] + inner;
    assert ts[0] == BeginObject && ts[1..] == inner;
    ParseMembersTokens(ms, rest);
  }

  /** array(), the elements, endArray() read back as that array. */
  lemma {:induction false} ParseArrayTokens(es: seq<Json>, rest: seq<Token>)
    ensures ParseValue(Tokens(JArray(es)) + rest) == Some((JArray(es), rest))
    decreases es, 1
  {
    var ts := Tokens(JArray(es)) + rest;
    var inner := ElemsTokens(es) + [EndArray] + rest;
    assert ts == [BeginArray] + inner;
    assert ts[0] == BeginArray && ts[1..] == inner;
    ParseElemsTokens(es, rest);
  }

  lemma {:induction false} ParseMembersTokens(ms: seq<Member>, rest: seq<Token>)
    ensures ParseMembers(MembersTokens(ms) + [EndObject] + rest) == Some((ms, rest))
    decreases ms, 0
  {
    var ts := MembersTokens(ms) + [EndObject] + rest;
    if ms == [] {
      assert ts[1..] == rest;
    } else {
      var m := ms[0];
      var tail := MembersTokens(ms[1..]) + [EndObject] + rest;
      assert ts == [Key(m.key)] + (Tokens(m.value) + tail);
      ParseTokens(m.value, tail);
      ParseMembersTokens(ms[1..], rest);
      assert [m] + ms[1..] == ms;
    }
  }

  lemma {:induction false} ParseElemsTokens(es: seq<Json>, rest: seq<Token>)
    ensures ParseElems(ElemsTokens(es) + [EndArray] + rest) == Some((es, rest))
    decreases es, 0
  {
    var ts := ElemsTokens(es) + [EndArray] + rest;
    if es == [] {
      assert ts[1..] == rest;
    } else {
      var tail := ElemsTokens(es[1..]) + [EndArray] + rest;
      assert ts == Tokens(es[0]) + tail;
      TokensNonEmpty(es[0]);
      ParseTokens(es[0], tail);
      ParseElemsTokens(es[1..], rest);
      assert [es[0]] + es[1..] == es;
    }
  }

  /** A value's calls start with a value or with object()/array(), never with a closing call. */
  lemma TokensNonEmpty(j: Json)
    ensures |Tokens(j)| >= 1 && Tokens(j)[0] != EndArray && Tokens(j)[0] != EndObject
  {
  }

  /** The calls that write a value form one complete document, and it reads back as that
      value. */
  lemma TokensAreDocument(j: Json)
    ensures IsDocument(Tokens(j))
    ensures ParseValue(Tokens(j)).value.0 == j
  {
    ParseTokens(j, []);
    assert Tokens(j) + [] == Tokens(j);
  }

  /** Writing one more member after some members. */
  lemma MembersTokensSnoc(ms: seq<Member>, m: Member)
    ensures MembersTokens(ms + [m]) == MembersTokens(ms) + [Key(m.key)] + Tokens(m.value)
  {
    MembersTokensAppend(ms, [m]);
    assert MembersTokens([m]) == [Key(m.key)] + Tokens(m.value) + MembersTokens([]);
  }

  /** Writing one more element after some elements. */
  lemma ElemsTokensSnoc(es: seq<Json>, e: Json)
    ensures ElemsTokens(es + [e]) == ElemsTokens(es) + Tokens(e)
  {
    ElemsTokensAppend(es, [e]);
    assert ElemsTokens([e]) == Tokens(e) + ElemsTokens([]);
  }

  /** The keys of an object's members, in order. */
  function Keys(ms: seq<Member>): seq<string>
  {
    seq(|ms|, i requires 0 <= i < |ms| => ms[i].key)
  }
}

/** Reading `model` and `stream` from the top level of a request body through a token cursor. */
module RequestEnvelope {
  import opened Basics

  /** What the JSON decoder hands out; commas and colons are its own affair, and a stream simply ends where the text is
      cut off or malformed. */
  datatype Token = OpenObject | CloseObject | OpenArray | CloseArray
                 | StringToken(text: string) | NumberToken(lexeme: string) | BoolToken(flag: bool) | NullToken

  datatype Json = Null | Bool(flag: bool) | Number(lexeme: string) | String(text: string) | Array(items: Items) | Object(fields: Fields)
  datatype Items = NoItems | Item(first: Json, others: Items)
  datatype Fields = NoFields | Field(key: string, value: Json, others: Fields)

  // ----- Values as tokens -----

  function Flatten(v: Json): (ts: seq<Token>)
    ensures |ts| > 0 && !Closes(ts[0])
  {
    match v
    case Null => [NullToken]
    case Bool(b) => [BoolToken(b)]
    case Number(n) => [NumberToken(n)]
    case String(s) => [StringToken(s)]
    case Array(items) => [OpenArray] + FlattenItems(items)
    case Object(fields) => [OpenObject] + FlattenFields(fields)
  }

  /** The rest of an array, up to and including its bracket. */
  function FlattenItems(items: Items): (ts: seq<Token>)
    ensures |ts| > 0
  {
    match items
    case NoItems => [CloseArray]
    case Item(first, others) => Flatten(first) + FlattenItems(others)
  }

  function FlattenFields(fields: Fields): (ts: seq<Token>)
    ensures |ts| > 0
  {
    match fields
    case NoFields => [CloseObject]
    case Field(key, value, others) => [StringToken(key)] + Flatten(value) + FlattenFields(others)
  }

  predicate Closes(t: Token) { t.CloseObject? || t.CloseArray? }

  // ----- Skipping -----

  predicate More(ts: seq<Token>) { ts != [] && !Closes(ts[0]) }

  /** What is left after one value, None when the stream ends first. */
  function Skip(ts: seq<Token>): (r: Option<seq<Token>>)
    ensures r.Some? ==> |r.value| < |ts|
    decreases |ts|, 0
  {
    if ts == [] then None
    else if ts[0].OpenObject? then SkipFields(ts[1..])
    else if ts[0].OpenArray? then SkipItems(ts[1..])
    else Some(ts[1..])
  }

  function SkipFields(ts: seq<Token>): (r: Option<seq<Token>>)
    ensures r.Some? ==> |r.value| < |ts|
    decreases |ts|, 1
  {
    if More(ts) then
      var rest := Skip(ts[1..]);
      if rest.None? then None else SkipFields(rest.value)
    else if ts == [] then None else Some(ts[1..])
  }

  function SkipItems(ts: seq<Token>): (r: Option<seq<Token>>)
    ensures r.Some? ==> |r.value| < |ts|
    decreases |ts|, 1
  {
    if More(ts) then
      var rest := Skip(ts);
      if rest.None? then None else SkipItems(rest.value)
    else if ts == [] then None else Some(ts[1..])
  }

  /** Skipping consumes exactly one value, whatever its depth and whatever follows. */
  lemma {:induction false} SkipsOne(v: Json, rest: seq<Token>)
    ensures Skip(Flatten(v) + rest) == Some(rest)
  {
    var ts := Flatten(v) + rest;
    match v
    case Array(items) =>
      SkipsItems(items, rest);
      assert ts[1..] == FlattenItems(items) + rest;
    case Object(fields) =>
      SkipsFields(fields, rest);
      assert ts[1..] == FlattenFields(fields) + rest;
    case _ =>
      assert ts[1..] == rest;
  }

  lemma {:induction false} SkipsItems(items: Items, rest: seq<Token>)
    ensures SkipItems(FlattenItems(items) + rest) == Some(rest)
  {
    var ts := FlattenItems(items) + rest;
    match items
    case NoItems =>
      assert ts[1..] == rest;
    case Item(first, others) =>
      assert ts == Flatten(first) + (FlattenItems(others) + rest);
      SkipsOne(first, FlattenItems(others) + rest);
      SkipsItems(others, rest);
  }

  lemma {:induction false} SkipsFields(fields: Fields, rest: seq<Token>)
    ensures SkipFields(FlattenFields(fields) + rest) == Some(rest)
  {
    var ts := FlattenFields(fields) + rest;
    match fields
    case NoFields =>
      assert ts[1..] == rest;
    case Field(key, value, others) =>
      assert ts[1..] == Flatten(value) + (FlattenFields(others) + rest);
      SkipsOne(value, FlattenFields(others) + rest);
      SkipsFields(others, rest);
  }

  /** A stream cut inside the value makes the skip fail. */
  lemma {:induction false} CutFails(v: Json, k: nat)
    requires k < |Flatten(v)|
    ensures Skip(Flatten(v)[..k]).None?
  {
    if k > 0 {
      match v
      case Array(items) =>
        assert Flatten(v)[..k][1..] == FlattenItems(items)[..k - 1];
        CutItemsFail(items, k - 1);
      case Object(fields) =>
        assert Flatten(v)[..k][1..] == FlattenFields(fields)[..k - 1];
        CutFieldsFail(fields, k - 1);
      case _ =>
    }
  }

  lemma {:induction false} CutItemsFail(items: Items, k: nat)
    requires k < |FlattenItems(items)|
    ensures SkipItems(FlattenItems(items)[..k]).None?
  {
    if k > 0 && items.Item? {
      var ts, head := FlattenItems(items), Flatten(items.first);
      if k < |head| {
        assert ts[..k] == head[..k];
        CutFails(items.first, k);
      } else {
        assert ts[..k] == head + FlattenItems(items.others)[..k - |head|];
        SkipsOne(items.first, FlattenItems(items.others)[..k - |head|]);
        CutItemsFail(items.others, k - |head|);
      }
    }
  }

  lemma {:induction false} CutFieldsFail(fields: Fields, k: nat)
    requires k < |FlattenFields(fields)|
    ensures SkipFields(FlattenFields(fields)[..k]).None?
  {
    if k > 0 && fields.Field? {
      var ts, body := FlattenFields(fields), Flatten(fields.value);
      if k - 1 < |body| {
        assert ts[..k][1..] == body[..k - 1];
        CutFails(fields.value, k - 1);
      } else {
        assert ts[..k][1..] == body + FlattenFields(fields.others)[..k - 1 - |body|];
        SkipsOne(fields.value, FlattenFields(fields.others)[..k - 1 - |body|]);
        CutFieldsFail(fields.others, k - 1 - |body|);
      }
    }
  }

  // ----- The envelope -----

  datatype Envelope = Envelope(model: string, stream: bool)
  datatype ParseError = Truncated | NotAnObject | BadKey | ModelNotString | StreamNotBool
  datatype Parsed = Ok(env: Envelope) | Err(error: ParseError)

  const BLANK: Envelope := Envelope("", false)

  /** Decoding one value into a field: null leaves the field as it was. */
  function DecodeField(key: string, t: Token, env: Envelope): Parsed {
    if key == "model" then
      if t.StringToken? then Ok(env.(model := t.text)) else if t.NullToken? then Ok(env) else Err(ModelNotString)
    else
      if t.BoolToken? then Ok(env.(stream := t.flag)) else if t.NullToken? then Ok(env) else Err(StreamNotBool)
  }

  function TypeError(key: string): ParseError { if key == "model" then ModelNotString else StreamNotBool }

  /** The loop over the top-level fields, on any token stream. */
  function ReadFields(ts: seq<Token>, env: Envelope): Parsed
    decreases |ts|
  {
    if !More(ts) then (if ts == [] then Err(Truncated) else Ok(env))
    else if !ts[0].StringToken? then Err(BadKey)
    else
      var key, rest := ts[0].text, Skip(ts[1..]);
      if key == "model" || key == "stream" then
        if rest.None? then Err(TypeError(key))
        else
          var next := DecodeField(key, ts[1], env);
          if next.Err? then next else ReadFields(rest.value, next.env)
      else if rest.None? then Err(Truncated)
      else ReadFields(rest.value, env)
  }

  function ReadTokens(ts: seq<Token>): Parsed {
    if ts == [] then Err(Truncated) else if !ts[0].OpenObject? then Err(NotAnObject) else ReadFields(ts[1..], BLANK)
  }

  /** The decoder: a cursor over the tokens. */
  class Decoder {
    const tokens: seq<Token>
    var pos: nat

    ghost predicate Valid() reads this { pos <= |tokens| }

    ghost function Rest(): seq<Token>
      requires Valid()
      reads this
    {
      tokens[pos..]
    }

    constructor (tokens: seq<Token>)
      ensures Valid() && this.tokens == tokens && Rest() == tokens
    {
      this.tokens, this.pos := tokens, 0;
    }

    method Token() returns (t: Option<Token>)
      requires Valid()
      modifies this
      ensures Valid()
      ensures old(Rest()) == [] ==> t.None? && Rest() == []
      ensures old(Rest()) != [] ==> t == Some(old(Rest())[0]) && Rest() == old(Rest())[1..]
    {
      if pos == |tokens| { return None; }
      t, pos := Some(tokens[pos]), pos + 1;
    }

    method HasMore() returns (more: bool)
      requires Valid()
      ensures more == More(Rest())
    {
      more := pos < |tokens| && !Closes(tokens[pos]);
    }

    /** Consumes one value. */
    method SkipValue() returns (ok: bool)
      requires Valid()
      modifies this
      ensures Valid()
      ensures ok ==> Skip(old(Rest())) == Some(Rest())
      ensures !ok ==> Skip(old(Rest())).None?
      decreases |Rest()|
    {
      ghost var start := Rest();
      var t := Token();
      if t.None? { return false; }
      if t.value.OpenObject? {
        var more := HasMore();
        while more
          invariant Valid() && more == More(Rest()) && |Rest()| < |start| && SkipFields(Rest()) == Skip(start)
          decreases |Rest()|
        {
          var key := Token();
          ok := SkipValue();
          if !ok { return; }
          more := HasMore();
        }
        var end := Token();
        return end.Some?;
      }
      if t.value.OpenArray? {
        var more := HasMore();
        while more
          invariant Valid() && more == More(Rest()) && |Rest()| < |start| && SkipItems(Rest()) == Skip(start)
          decreases |Rest()|
        {
          ok := SkipValue();
          if !ok { return; }
          more := HasMore();
        }
        var end := Token();
        return end.Some?;
      }
      return true;
    }

    /** Decodes one value into the field named by `key`. */
    method Decode(key: string, env: Envelope) returns (r: Parsed)
      requires Valid()
      modifies this
      ensures Valid()
      ensures Skip(old(Rest())).None? ==> r == Err(TypeError(key))
      ensures Skip(old(Rest())).Some? ==> old(Rest()) != [] && r == DecodeField(key, old(Rest())[0], env) && Rest() == Skip(old(Rest())).value
    {
      ghost var start := Rest();
      var first := if pos < |tokens| then Some(tokens[pos]) else None;
      var ok := SkipValue();
      if !ok { return Err(TypeError(key)); }
      assert first == Some(start[0]);
      return DecodeField(key, first.value, env);
    }
  }

  method ParseRequestEnvelope(dec: Decoder) returns (r: Parsed)
    requires dec.Valid()
    modifies dec
    ensures dec.Valid() && r == ReadTokens(old(dec.Rest()))
  {
    var open := dec.Token();
    if open.None? { return Err(Truncated); }
    if !open.value.OpenObject? { return Err(NotAnObject); }
    ghost var start := dec.Rest();
    var env := BLANK;
    var more := dec.HasMore();
    while more
      invariant dec.Valid() && more == More(dec.Rest()) && ReadFields(dec.Rest(), env) == ReadFields(start, BLANK)
      decreases |dec.Rest()|
    {
      var key := dec.Token();
      if !key.value.StringToken? { return Err(BadKey); }
      if key.value.text == "model" || key.value.text == "stream" {
        var next := dec.Decode(key.value.text, env);
        if next.Err? { return next; }
        env := next.env;
      } else {
        var ok := dec.SkipValue();
        if !ok { return Err(Truncated); }
      }
      more := dec.HasMore();
    }
    var end := dec.Token();
    if end.None? { return Err(Truncated); }
    return Ok(env);
  }

  // ----- What the envelope means -----

  datatype Entry = Entry(key: string, value: Json)

  function Entries(fields: Fields): seq<Entry> {
    match fields
    case NoFields => []
    case Field(key, value, others) => [Entry(key, value)] + Entries(others)
  }

  predicate WellTyped(e: Entry) {
    && (e.key == "model" ==> e.value.String? || e.value.Null?)
    && (e.key == "stream" ==> e.value.Bool? || e.value.Null?)
  }

  /** The last non-null model among the entries, or what it was before them. */
  ghost predicate ModelOf(es: seq<Entry>, initial: string, model: string) {
    || (exists i :: 0 <= i < |es| && es[i] == Entry("model", String(model)) && forall j :: i < j < |es| ==> es[j].key == "model" ==> es[j].value.Null?)
    || (model == initial && forall j :: 0 <= j < |es| ==> es[j].key == "model" ==> es[j].value.Null?)
  }

  ghost predicate StreamOf(es: seq<Entry>, initial: bool, stream: bool) {
    || (exists i :: 0 <= i < |es| && es[i] == Entry("stream", Bool(stream)) && forall j :: i < j < |es| ==> es[j].key == "stream" ==> es[j].value.Null?)
    || (stream == initial && forall j :: 0 <= j < |es| ==> es[j].key == "stream" ==> es[j].value.Null?)
  }

  /** The error of the first ill-typed entry. */
  ghost predicate FirstFault(es: seq<Entry>, error: ParseError) { exists i :: FaultAt(es, i, error) }

  ghost predicate FaultAt(es: seq<Entry>, i: int, error: ParseError) {
    && 0 <= i < |es| && !WellTyped(es[i]) && (forall j :: 0 <= j < i ==> WellTyped(es[j]))
    && error == if es[i].key == "model" then ModelNotString else StreamNotBool
  }

  /** One entry read before the others. */
  function ReadEntry(e: Entry, env: Envelope): Parsed {
    if e.key == "model" || e.key == "stream" then DecodeField(e.key, Flatten(e.value)[0], env) else Ok(env)
  }

  lemma ReadEntryFirst(key: string, value: Json, others: Fields, rest: seq<Token>, env: Envelope)
    ensures var next := ReadEntry(Entry(key, value), env);
      ReadFields(FlattenFields(Field(key, value, others)) + rest, env)
      == if next.Err? then next else ReadFields(FlattenFields(others) + rest, next.env)
  {
    var ts := FlattenFields(Field(key, value, others)) + rest;
    assert ts[1..] == Flatten(value) + (FlattenFields(others) + rest);
    SkipsOne(value, FlattenFields(others) + rest);
    assert ts[1] == Flatten(value)[0];
  }

  lemma ReadEntryTyped(e: Entry, env: Envelope)
    ensures WellTyped(e) <==> ReadEntry(e, env).Ok?
    ensures !WellTyped(e) ==> ReadEntry(e, env) == Err(TypeError(e.key))
    ensures WellTyped(e) ==> ModelOf([e], env.model, ReadEntry(e, env).env.model) && StreamOf([e], env.stream, ReadEntry(e, env).env.stream)
  {
    if e.key == "model" && e.value.String? { assert [e][0] == Entry("model", String(e.value.text)); }
    if e.key == "stream" && e.value.Bool? { assert [e][0] == Entry("stream", Bool(e.value.flag)); }
  }

  lemma ModelOfConcat(a: seq<Entry>, b: seq<Entry>, x: string, y: string, z: string)
    requires ModelOf(a, x, y) && ModelOf(b, y, z)
    ensures ModelOf(a + b, x, z)
  {
    if forall j :: 0 <= j < |b| ==> b[j].key == "model" ==> b[j].value.Null? {
      if i :| 0 <= i < |a| && a[i] == Entry("model", String(y)) && forall j :: i < j < |a| ==> a[j].key == "model" ==> a[j].value.Null? {
        assert (a + b)[i] == Entry("model", String(z));
      }
    } else {
      var i :| 0 <= i < |b| && b[i] == Entry("model", String(z)) && forall j :: i < j < |b| ==> b[j].key == "model" ==> b[j].value.Null?;
      assert (a + b)[|a| + i] == Entry("model", String(z));
    }
  }

  lemma StreamOfConcat(a: seq<Entry>, b: seq<Entry>, x: bool, y: bool, z: bool)
    requires StreamOf(a, x, y) && StreamOf(b, y, z)
    ensures StreamOf(a + b, x, z)
  {
    if forall j :: 0 <= j < |b| ==> b[j].key == "stream" ==> b[j].value.Null? {
      if i :| 0 <= i < |a| && a[i] == Entry("stream", Bool(y)) && forall j :: i < j < |a| ==> a[j].key == "stream" ==> a[j].value.Null? {
        assert (a + b)[i] == Entry("stream", Bool(z));
      }
    } else {
      var i :| 0 <= i < |b| && b[i] == Entry("stream", Bool(z)) && forall j :: i < j < |b| ==> b[j].key == "stream" ==> b[j].value.Null?;
      assert (a + b)[|a| + i] == Entry("stream", Bool(z));
    }
  }

  /** What reading the fields must give. */
  ghost predicate Means(es: seq<Entry>, env: Envelope, r: Parsed) {
    && (r.Ok? <==> forall e :: e in es ==> WellTyped(e))
    && (r.Ok? ==> ModelOf(es, env.model, r.env.model) && StreamOf(es, env.stream, r.env.stream))
    && (r.Err? ==> FirstFault(es, r.error))
  }

  lemma FaultLater(e: Entry, es: seq<Entry>, error: ParseError)
    requires WellTyped(e) && FirstFault(es, error)
    ensures FirstFault([e] + es, error)
  {
    var i :| FaultAt(es, i, error);
    assert forall j :: 0 < j <= i ==> ([e] + es)[j] == es[j - 1];
    assert FaultAt([e] + es, i + 1, error);
  }

  lemma TypedTogether(e: Entry, es: seq<Entry>)
    ensures (forall x :: x in [e] + es ==> WellTyped(x)) <==> WellTyped(e) && forall x :: x in es ==> WellTyped(x)
  {
    assert e in [e] + es && forall x :: x in es ==> x in [e] + es;
  }

  lemma MeansStep(e: Entry, es: seq<Entry>, env: Envelope, next: Envelope, r: Parsed)
    requires ReadEntry(e, env) == Ok(next) && Means(es, next, r)
    ensures Means([e] + es, env, r)
  {
    ReadEntryTyped(e, env);
    TypedTogether(e, es);
    if r.Ok? {
      ModelOfConcat([e], es, env.model, next.model, r.env.model);
      StreamOfConcat([e], es, env.stream, next.stream, r.env.stream);
    } else {
      FaultLater(e, es, r.error);
    }
  }

  lemma {:induction false} ReadsFields(fields: Fields, rest: seq<Token>, env: Envelope)
    ensures Means(Entries(fields), env, ReadFields(FlattenFields(fields) + rest, env))
  {
    match fields
    case NoFields =>
    case Field(key, value, others) =>
      var e := Entry(key, value);
      ReadEntryFirst(key, value, others, rest, env);
      ReadEntryTyped(e, env);
      if WellTyped(e) {
        var next := ReadEntry(e, env).env;
        ReadsFields(others, rest, next);
        MeansStep(e, Entries(others), env, next, ReadFields(FlattenFields(others) + rest, next));
      } else {
        assert ([e] + Entries(others))[0] == e;
        assert FaultAt([e] + Entries(others), 0, TypeError(key));
      }
  }

  /** For every JSON text, whatever follows it: an object gives the last non-null top-level model and stream, or the error
      of its first ill-typed one; anything else is refused. */
  lemma EnvelopeMeaning(v: Json, rest: seq<Token>)
    ensures v.Object? ==> Means(Entries(v.fields), Envelope("", false), ReadTokens(Flatten(v) + rest))
    ensures !v.Object? ==> ReadTokens(Flatten(v) + rest) == Err(NotAnObject)
  {
    if v.Object? {
      assert (Flatten(v) + rest)[1..] == FlattenFields(v.fields) + rest;
      ReadsFields(v.fields, rest, BLANK);
    }
  }

  /** Same top-level model and stream entries, same answer: nothing nested is ever read. */
  lemma {:induction false} NestedIsIgnored(a: Fields, b: Fields, rest: seq<Token>, rest': seq<Token>, env: Envelope)
    requires |Entries(a)| == |Entries(b)|
    requires forall i :: 0 <= i < |Entries(a)| ==> Alike(Entries(a)[i], Entries(b)[i])
    ensures ReadFields(FlattenFields(a) + rest, env) == ReadFields(FlattenFields(b) + rest', env)
  {
    match a
    case NoFields =>
    case Field(key, value, others) =>
      var e, f := Entries(a), Entries(b);
      assert Alike(e[0], f[0]);
      assert e[1..] == Entries(others) && f[1..] == Entries(b.others);
      forall i | 0 <= i < |Entries(others)| ensures Alike(Entries(others)[i], Entries(b.others)[i]) {
        assert e[i + 1] == Entries(others)[i] && f[i + 1] == Entries(b.others)[i];
      }
      ReadEntryFirst(key, value, others, rest, env);
      ReadEntryFirst(b.key, b.value, b.others, rest', env);
      var next := ReadEntry(Entry(key, value), env);
      if next.Ok? { NestedIsIgnored(others, b.others, rest, rest', next.env); }
  }

  predicate Alike(e: Entry, f: Entry) { e.key == f.key && (e.key == "model" || e.key == "stream" ==> e.value == f.value) }

  /** A body cut anywhere inside the object is refused. */
  lemma CutEnvelopeFails(v: Json, k: nat)
    requires v.Object? && k < |Flatten(v)|
    ensures ReadTokens(Flatten(v)[..k]).Err?
  {
    if k > 0 {
      assert Flatten(v)[..k][1..] == FlattenFields(v.fields)[..k - 1];
      CutReadFails(v.fields, k - 1, BLANK);
    }
  }

  lemma {:induction false} CutReadFails(fields: Fields, k: nat, env: Envelope)
    requires k < |FlattenFields(fields)|
    ensures ReadFields(FlattenFields(fields)[..k], env).Err?
  {
    if k > 0 && fields.Field? {
      var ts, body := FlattenFields(fields), Flatten(fields.value);
      if k - 1 < |body| {
        assert ts[..k][1..] == body[..k - 1];
        CutFails(fields.value, k - 1);
      } else {
        var tail := FlattenFields(fields.others)[..k - 1 - |body|];
        assert ts[..k][1..] == body + tail;
        SkipsOne(fields.value, tail);
        var next := ReadEntry(Entry(fields.key, fields.value), env);
        if next.Ok? { CutReadFails(fields.others, k - 1 - |body|, next.env); }
      }
    }
  }
}

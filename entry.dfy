/** The log entry record and its JSON field contract: which members a
    serialised entry carries, in what order, and when serialisation fails. */
module Entry {
  import opened Wrappers
  import opened ContextValues

  /** A Go float64 as far as encoding/json cares: a finite value, or one of
      the three non-finite values it refuses to encode. */
  datatype Float64 = Finite(value: real) | NaN | PosInf | NegInf

  /** LogEntry. The timestamp is the already formatted instant. */
  datatype LogEntry = LogEntry(
    pid: string,
    level: string,
    packageName: string,
    funcName: string,
    message: string,
    timestamp: string,
    code: int,
    duration: Float64,
    attributes: map<string, Value>)

  /** The fields of LogEntry, in declaration order. */
  datatype FieldName = Pid | Level | Package | Func | Message | Timestamp | Code | Duration | Attributes {

    /** The JSON key from the field's struct tag. */
    function Tag(): string {
      match this
      case Pid => "pid"
      case Level => "level"
      case Package => "package"
      case Func => "func"
      case Message => "message"
      case Timestamp => "timestamp"
      case Code => "code"
      case Duration => "duration"
      case Attributes => "attributes"
    }

    /** Position in declaration order. */
    function Rank(): nat {
      match this
      case Pid => 0
      case Level => 1
      case Package => 2
      case Func => 3
      case Message => 4
      case Timestamp => 5
      case Code => 6
      case Duration => 7
      case Attributes => 8
    }
  }

  /** The six fields without omitempty, emitted on every line. */
  const AlwaysPresent: seq<FieldName> := [Pid, Level, Package, Func, Message, Timestamp]

  /** A JSON value as a parser of the emitted line sees it. */
  datatype Json = JNull | JString(s: string) | JInt(i: int) | JNumber(r: real) | JBool(b: bool)
                | JObject(members: map<string, Json>)

  /** One member of the emitted JSON object, in emission order. */
  datatype Field = Field(name: FieldName, value: Json)

  /** Why json.Marshal refuses an entry: a non-finite duration, or an
      attribute value of a type it cannot encode. */
  datatype MarshalError = UnsupportedValue(f: Float64) | UnsupportedType

  predicate Supported(v: Value) {
    !v.Unsupported?
  }

  predicate Encodable(e: LogEntry) {
    e.duration.Finite? && forall k :: k in e.attributes ==> Supported(e.attributes[k])
  }

  function ToJson(v: Value): Json
    requires Supported(v)
  {
    match v
    case Nil => JNull
    case Str(s) => JString(s)
    case Int(i) => JInt(i)
    case Bool(b) => JBool(b)
  }

  /** The members json.Marshal writes for an encodable entry: the six plain
      fields, then code, duration and attributes, each dropped when it is
      zero or empty (omitempty). */
  function Encode(e: LogEntry): seq<Field>
    requires Encodable(e)
  {
    PlainMembers(e) + CodeMember(e) + DurationMember(e) + AttributesMember(e)
  }

  function PlainMembers(e: LogEntry): seq<Field> {
    [ Field(Pid, JString(e.pid)),
      Field(Level, JString(e.level)),
      Field(Package, JString(e.packageName)),
      Field(Func, JString(e.funcName)),
      Field(Message, JString(e.message)),
      Field(Timestamp, JString(e.timestamp)) ]
  }

  function CodeMember(e: LogEntry): seq<Field> {
    if e.code != 0 then [Field(Code, JInt(e.code))] else []
  }

  function DurationMember(e: LogEntry): seq<Field>
    requires e.duration.Finite?
  {
    if e.duration.value != 0.0 then [Field(Duration, JNumber(e.duration.value))] else []
  }

  function AttributesJson(attributes: map<string, Value>): Json
    requires forall k :: k in attributes ==> Supported(attributes[k])
  {
    JObject(map k | k in attributes :: ToJson(attributes[k]))
  }

  function AttributesMember(e: LogEntry): seq<Field>
    requires Encodable(e)
  {
    if |e.attributes| != 0 then [Field(Attributes, AttributesJson(e.attributes))] else []
  }

  /** json.Marshal of a LogEntry. Fields are encoded in order, so a
      non-finite duration is reported before a bad attribute. */
  function Marshal(e: LogEntry): (r: Result<seq<Field>, MarshalError>)
    ensures r.Failure? <==> !Encodable(e)
    ensures !e.duration.Finite? ==> r == Failure(UnsupportedValue(e.duration))
    ensures e.duration.Finite? && r.Failure? ==> r.error == UnsupportedType
    ensures r.Success? ==> 6 <= |r.value| <= 9
  {
    if !e.duration.Finite? then Failure(UnsupportedValue(e.duration))
    else if !Encodable(e) then Failure(UnsupportedType)
    else Success(Encode(e))
  }

  function Names(fs: seq<Field>): seq<FieldName> {
    seq(|fs|, i requires 0 <= i < |fs| => fs[i].name)
  }

  // ---------------------------------------------------------------------
  // The consumer's view: parsing a line back into an entry.

  /** The object a JSON parser builds from the members, keyed by field, a
      later duplicate overriding an earlier one. */
  function ObjectOf(fs: seq<Field>): map<FieldName, Json> {
    if fs == [] then map[]
    else ObjectOf(fs[..|fs| - 1])[fs[|fs| - 1].name := fs[|fs| - 1].value]
  }

  function FromJson(j: Json): Option<Value> {
    match j
    case JNull => Some(Nil)
    case JString(s) => Some(Str(s))
    case JInt(i) => Some(Int(i))
    case JBool(b) => Some(Bool(b))
    case _ => None
  }

  function ParseString(obj: map<FieldName, Json>, n: FieldName): Option<string> {
    if n in obj && obj[n].JString? then Some(obj[n].s) else None
  }

  function ParseCode(obj: map<FieldName, Json>): Option<int> {
    if Code !in obj then Some(0)
    else if obj[Code].JInt? then Some(obj[Code].i)
    else None
  }

  function ParseDuration(obj: map<FieldName, Json>): Option<Float64> {
    if Duration !in obj then Some(Finite(0.0))
    else if obj[Duration].JNumber? then Some(Finite(obj[Duration].r))
    else None
  }

  function ParseAttributes(obj: map<FieldName, Json>): Option<map<string, Value>> {
    if Attributes !in obj then Some(map[])
    else match obj[Attributes]
      case JObject(m) =>
        if forall k :: k in m ==> FromJson(m[k]).Some?
        then Some(map k | k in m :: FromJson(m[k]).value)
        else None
      case _ => None
  }

  /** Reads an entry out of a parsed line; an omitted optional member reads
      as its zero value. */
  function Unmarshal(obj: map<FieldName, Json>): Option<LogEntry> {
    var pid :- ParseString(obj, Pid);
    var level :- ParseString(obj, Level);
    var packageName :- ParseString(obj, Package);
    var funcName :- ParseString(obj, Func);
    var message :- ParseString(obj, Message);
    var timestamp :- ParseString(obj, Timestamp);
    var code :- ParseCode(obj);
    var duration :- ParseDuration(obj);
    var attributes :- ParseAttributes(obj);
    Some(LogEntry(pid, level, packageName, funcName, message, timestamp, code, duration, attributes))
  }

  // ---------------------------------------------------------------------
  // Properties.

  /** No two fields share a JSON key, so keying the parsed object by field
      is the same as keying it by tag. */
  lemma TagsDistinct(a: FieldName, b: FieldName)
    requires a != b
    ensures a.Tag() != b.Tag()
  {
  }

  predicate DistinctNames(fs: seq<Field>) {
    forall i, j :: 0 <= i < j < |fs| ==> fs[i].name != fs[j].name
  }

  lemma NamesAppend(a: seq<Field>, b: seq<Field>)
    ensures Names(a + b) == Names(a) + Names(b)
  {
    assert |Names(a + b)| == |Names(a) + Names(b)|;
    forall i | 0 <= i < |a + b|
      ensures Names(a + b)[i] == (Names(a) + Names(b))[i]
    {
      if i >= |a| { assert (a + b)[i] == b[i - |a|]; }
    }
  }

  /** The names an encoded entry carries, in order. */
  lemma EncodedNames(e: LogEntry)
    requires Encodable(e)
    ensures Names(Encode(e)) ==
      AlwaysPresent
      + (if e.code != 0 then [Code] else [])
      + (if e.duration.value != 0.0 then [Duration] else [])
      + (if |e.attributes| != 0 then [Attributes] else [])
  {
    var p, c, d, a := PlainMembers(e), CodeMember(e), DurationMember(e), AttributesMember(e);
    NamesAppend(p, c);
    NamesAppend(p + c, d);
    NamesAppend(p + c + d, a);
    assert Names(p) == AlwaysPresent;
  }

  /** Strictly increasing in declaration order: a subsequence of the
      declared fields, with no field twice. */
  predicate InDeclarationOrder(ns: seq<FieldName>) {
    forall i, j :: 0 <= i < j < |ns| ==> ns[i].Rank() < ns[j].Rank()
  }

  lemma InDeclarationOrderAppend(a: seq<FieldName>, b: seq<FieldName>)
    requires InDeclarationOrder(a) && InDeclarationOrder(b)
    requires forall x, y :: x in a && y in b ==> x.Rank() < y.Rank()
    ensures InDeclarationOrder(a + b)
  {
    forall i, j | 0 <= i < j < |a + b|
      ensures (a + b)[i].Rank() < (a + b)[j].Rank()
    {
      if j < |a| {
        assert (a + b)[i] == a[i] && (a + b)[j] == a[j];
      } else if i >= |a| {
        assert (a + b)[i] == b[i - |a|] && (a + b)[j] == b[j - |a|];
      } else {
        assert (a + b)[i] in a && (a + b)[j] in b;
      }
    }
  }

  lemma OptionalMembersInOrder(c: seq<FieldName>, d: seq<FieldName>, a: seq<FieldName>)
    requires c == [] || c == [Code]
    requires d == [] || d == [Duration]
    requires a == [] || a == [Attributes]
    ensures InDeclarationOrder(AlwaysPresent + c + d + a)
  {
    var pc := AlwaysPresent + c;
    assert forall x :: x in pc ==> x.Rank() <= 6;
    assert InDeclarationOrder(pc) by {
      assert InDeclarationOrder(AlwaysPresent);
      InDeclarationOrderAppend(AlwaysPresent, c);
    }
    var pcd := pc + d;
    assert forall x :: x in pcd ==> x.Rank() <= 7;
    assert InDeclarationOrder(pcd) by {
      InDeclarationOrderAppend(pc, d);
    }
    InDeclarationOrderAppend(pcd, a);
  }

  /** The members of a marshalled entry come in declaration order, so
      none repeats, and the six plain fields always come first. */
  lemma FieldOrder(e: LogEntry)
    requires Marshal(e).Success?
    ensures var ns := Names(Marshal(e).value);
      |ns| >= 6 && ns[..6] == AlwaysPresent && InDeclarationOrder(ns)
  {
    EncodedNames(e);
    OptionalMembersInOrder(
      if e.code != 0 then [Code] else [],
      if e.duration.value != 0.0 then [Duration] else [],
      if |e.attributes| != 0 then [Attributes] else []);
  }

  /** omitempty: code, duration and attributes are emitted exactly when
      non-zero, non-zero and non-empty. */
  lemma OmitEmpty(e: LogEntry)
    requires Marshal(e).Success?
    ensures var ns := Names(Marshal(e).value);
      && (Code in ns <==> e.code != 0)
      && (Duration in ns <==> e.duration.value != 0.0)
      && (Attributes in ns <==> |e.attributes| != 0)
  {
    EncodedNames(e);
  }

  /** A parser that sees distinct member names recovers each member. */
  lemma {:induction false} ObjectOfDistinct(fs: seq<Field>)
    requires DistinctNames(fs)
    ensures forall n :: n in ObjectOf(fs) <==> n in Names(fs)
    ensures forall i :: 0 <= i < |fs| ==> fs[i].name in ObjectOf(fs) && ObjectOf(fs)[fs[i].name] == fs[i].value
  {
    if fs != [] {
      var init := fs[..|fs| - 1];
      ObjectOfDistinct(init);
      assert Names(fs) == Names(init) + [fs[|fs| - 1].name];
      forall i | 0 <= i < |fs| - 1
        ensures fs[i].name in ObjectOf(fs) && ObjectOf(fs)[fs[i].name] == fs[i].value
      {
        assert init[i] == fs[i];
        assert Names(init)[i] == fs[i].name;
      }
    }
  }

  /** The parsed object of an encoded entry has exactly the encoded
      members, each with its encoded value. */
  lemma EncodedObjectMembers(e: LogEntry)
    requires Encodable(e)
    ensures var fs := Encode(e);
      && (forall n :: n in ObjectOf(fs) <==> n in Names(fs))
      && (forall i :: 0 <= i < |fs| ==> fs[i].name in ObjectOf(fs) && ObjectOf(fs)[fs[i].name] == fs[i].value)
  {
    FieldOrder(e);
    assert DistinctNames(Encode(e));
    ObjectOfDistinct(Encode(e));
  }

  /** The parsed object carries the six plain fields of the entry. */
  lemma EncodedPlainMembers(e: LogEntry)
    requires Encodable(e)
    ensures var obj := ObjectOf(Encode(e));
      && ParseString(obj, Pid) == Some(e.pid) && ParseString(obj, Level) == Some(e.level)
      && ParseString(obj, Package) == Some(e.packageName)
      && ParseString(obj, Func) == Some(e.funcName)
      && ParseString(obj, Message) == Some(e.message)
      && ParseString(obj, Timestamp) == Some(e.timestamp)
  {
    var fs := Encode(e);
    EncodedObjectMembers(e);
    var p := PlainMembers(e);
    assert fs == p + (CodeMember(e) + DurationMember(e) + AttributesMember(e));
    assert fs[0] == p[0] && fs[1] == p[1] && fs[2] == p[2];
    assert fs[3] == p[3] && fs[4] == p[4] && fs[5] == p[5];
  }

  /** The parsed object carries code, duration and attributes exactly when
      the entry's are non-zero or non-empty, with the entry's values. */
  lemma EncodedOptionalMembers(e: LogEntry)
    requires Encodable(e)
    ensures var obj := ObjectOf(Encode(e));
      && (Code in obj <==> e.code != 0)
      && (Code in obj ==> obj[Code] == JInt(e.code))
      && (Duration in obj <==> e.duration.value != 0.0)
      && (Duration in obj ==> obj[Duration] == JNumber(e.duration.value))
      && (Attributes in obj <==> |e.attributes| != 0)
      && (Attributes in obj ==> obj[Attributes] == AttributesJson(e.attributes))
  {
    var fs := Encode(e);
    EncodedObjectMembers(e);
    OmitEmpty(e);
    var p, c, d, a := PlainMembers(e), CodeMember(e), DurationMember(e), AttributesMember(e);
    assert fs == p + c + d + a;
    if e.code != 0 {
      assert fs[6] == c[0];
    }
    if e.duration.value != 0.0 {
      assert fs[6 + |c|] == d[0];
    }
    if |e.attributes| != 0 {
      assert fs[6 + |c| + |d|] == a[0];
    }
  }

  /** Every successfully marshalled entry is recovered exactly from its line:
      omitting zero code, zero duration and empty attributes loses nothing. */
  lemma RoundTrip(e: LogEntry)
    requires Marshal(e).Success?
    ensures Unmarshal(ObjectOf(Marshal(e).value)) == Some(e)
  {
    var obj := ObjectOf(Encode(e));
    EncodedPlainMembers(e);
    EncodedOptionalMembers(e);
    assert ParseCode(obj) == Some(e.code);
    assert ParseDuration(obj) == Some(e.duration);
    if |e.attributes| != 0 {
      var m := map k | k in e.attributes :: ToJson(e.attributes[k]);
      forall k | k in m
        ensures FromJson(m[k]) == Some(e.attributes[k])
      {
        var v := e.attributes[k];
        assert m[k] == ToJson(v);
        match v
        case Nil =>
        case Str(_) =>
        case Int(_) =>
        case Bool(_) =>
      }
      assert (map k | k in m :: FromJson(m[k]).value) == e.attributes;
      assert ParseAttributes(obj) == Some(e.attributes);
    } else {
      assert e.attributes == map[];
      assert ParseAttributes(obj) == Some(e.attributes);
    }
  }
}

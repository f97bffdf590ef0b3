/** The key-value encoding of Execute inputs and outputs, `get_data_from_kvp` of
    pyqgiswps/ogc/ows/request.py (section 10.2.2 of OGC 05-007r7). */
module KvpInputs {
  import opened Wrappers
  import opened Text

  /** An input or output: its attributes, "identifier" and "data" among them. */
  type Io = map<string, string>

  /** DataInputs collects a list per identifier; anything else, and the fallback
      of a bad segment, stores the dictionary itself. */
  datatype Entry = One(io: Io) | Many(ios: seq<Io>)

  type Entries = map<string, Entry>

  datatype Segment = Segment(id: string, io: Io)

  datatype SegmentError = ValueError

  // ---- Parsing ---------------------------------------------------------

  /** `x, y = s.split('=')`, which fails unless there are two parts. */
  function Pair(s: string): Result<(string, string), SegmentError> {
    var parts := Split(s, '=');
    if |parts| == 2 then Ok((parts[0], parts[1])) else Err(ValueError)
  }

  function Key(name: string): string {
    if name == "xlink:href" then "href" else name
  }

  function WithAttributes(io: Io, attrs: seq<string>): Result<Io, SegmentError> {
    if attrs == [] then Ok(io)
    else match WithAttributes(io, attrs[..|attrs| - 1])
         case Err(e) => Err(e)
         case Ok(m) =>
           match Pair(attrs[|attrs| - 1])
           case Err(e) => Err(e)
           case Ok(p) => Ok(m[Key(p.0) := p.1])
  }

  function ParseSegment(d: string): Result<Segment, SegmentError> {
    var fields := Split(d, '@');
    match Pair(fields[0])
    case Err(e) => Err(e)
    case Ok(p) =>
      match WithAttributes(map["identifier" := p.0, "data" := p.1], fields[1..])
      case Err(e) => Err(e)
      case Ok(io) => Ok(Segment(p.0, io))
  }

  predicate WellFormed(d: string) {
    ParseSegment(d).Ok?
  }

  function Fallback(d: string): Entry {
    One(map["identifier" := d, "data" := ""])
  }

  function Add(entries: Entries, d: string, inputs: bool): Entries {
    match ParseSegment(d)
    case Err(_) => entries[d := Fallback(d)]
    case Ok(seg) =>
      if !inputs then entries[seg.id := One(seg.io)]
      else if seg.id !in entries then entries[seg.id := Many([seg.io])]
      else match entries[seg.id]
           case Many(ios) => entries[seg.id := Many(ios + [seg.io])]
           case One(_) => entries[d := Fallback(d)]
  }

  function AddAll(segments: seq<string>, inputs: bool): Entries {
    if segments == [] then map[]
    else Add(AddAll(segments[..|segments| - 1], inputs), segments[|segments| - 1], inputs)
  }

  function Parse(data: Option<string>, inputs: bool): Entries {
    if data.None? then map[] else AddAll(Split(data.value, ';'), inputs)
  }

  method ParseFields(d: string) returns (r: Result<Segment, SegmentError>)
    ensures r == ParseSegment(d)
  {
    var fields := Split(d, '@');
    var first := Split(fields[0], '=');
    if |first| != 2 { return Err(ValueError); }
    var io: Io := map["identifier" := first[0], "data" := first[1]];
    ghost var bare := io;
    for i := 1 to |fields|
      invariant WithAttributes(bare, fields[1..i]) == Ok(io)
    {
      AttributesStep(bare, fields[1..], i - 1);
      assert fields[1..][..i - 1] == fields[1..i] && fields[1..][..i] == fields[1..i + 1];
      var parts := Split(fields[i], '=');
      if |parts| != 2 {
        AttributesFail(bare, fields[1..], i - 1);
        return Err(ValueError);
      }
      if parts[0] == "xlink:href" {
        io := io["href" := parts[1]];
      } else {
        io := io[parts[0] := parts[1]];
      }
    }
    assert fields[1..|fields|] == fields[1..];
    return Ok(Segment(first[0], io));
  }

  lemma AttributesStep(io: Io, attrs: seq<string>, i: nat)
    requires i < |attrs|
    ensures WithAttributes(io, attrs[..i + 1]) ==
      match WithAttributes(io, attrs[..i])
      case Err(e) => Err(e)
      case Ok(m) => match Pair(attrs[i]) case Err(e) => Err(e) case Ok(p) => Ok(m[Key(p.0) := p.1])
  {
    assert attrs[..i + 1][..i] == attrs[..i];
  }

  /** One bad attribute fails the segment. */
  lemma {:induction false} AttributesFail(io: Io, attrs: seq<string>, i: nat)
    requires i < |attrs| && Pair(attrs[i]).Err?
    ensures WithAttributes(io, attrs) == Err(ValueError)
    decreases |attrs|
  {
    if i < |attrs| - 1 {
      AttributesFail(io, attrs[..|attrs| - 1], i);
    } else {
      OnlyValueError(io, attrs[..i]);
    }
  }

  lemma {:induction false} OnlyValueError(io: Io, attrs: seq<string>)
    ensures WithAttributes(io, attrs).Err? ==> WithAttributes(io, attrs) == Err(ValueError)
    decreases |attrs|
  {
    if attrs != [] {
      OnlyValueError(io, attrs[..|attrs| - 1]);
    }
  }

  method GetDataFromKvp(data: Option<string>, inputs: bool) returns (entries: Entries)
    ensures entries == Parse(data, inputs)
  {
    hide ParseSegment;
    entries := map[];
    if data.None? { return; }
    var segments := Split(data.value, ';');
    for i := 0 to |segments|
      invariant entries == AddAll(segments[..i], inputs)
    {
      assert segments[..i + 1][..i] == segments[..i];
      var d := segments[i];
      var parsed := ParseFields(d);
      var good := parsed.Ok?;
      if good {
        var Segment(id, io) := parsed.value;
        if !inputs {
          entries := entries[id := One(io)];
        } else {
          if id !in entries {
            entries := entries[id := Many([])];
          }
          if entries[id].Many? {
            ghost var before := AddAll(segments[..i], true);
            entries := entries[id := Many(entries[id].ios + [io])];
            assert id !in before ==> entries[id].ios == [io] && entries == before[id := Many([io])];
          } else {
            good := false;
          }
        }
      }
      if !good {
        entries := entries[d := Fallback(d)];
      }
    }
    assert segments[..|segments|] == segments;
  }

  // ---- Encoding --------------------------------------------------------

  datatype Attribute = Attribute(name: string, value: string)

  datatype Input = Input(id: string, data: string, attrs: seq<Attribute>)

  function Assignment(name: string, value: string): string {
    name + ['='] + value
  }

  function Assignments(attrs: seq<Attribute>): seq<string> {
    seq(|attrs|, i requires 0 <= i < |attrs| => Assignment(attrs[i].name, attrs[i].value))
  }

  function Encode(input: Input): string {
    Join([Assignment(input.id, input.data)] + Assignments(input.attrs), '@')
  }

  function Segments(inputs: seq<Input>): seq<string> {
    seq(|inputs|, i requires 0 <= i < |inputs| => Encode(inputs[i]))
  }

  function EncodeAll(inputs: seq<Input>): string {
    Join(Segments(inputs), ';')
  }

  predicate Free(s: string) {
    '@' !in s && '=' !in s
  }

  predicate FreeInput(input: Input) {
    Free(input.id) && Free(input.data)
    && forall i :: 0 <= i < |input.attrs| ==> Free(input.attrs[i].name) && Free(input.attrs[i].value)
  }

  /** The dictionary an input should give: later attributes win. */
  function Fields(input: Input): Io
    decreases |input.attrs|
  {
    if input.attrs == [] then map["identifier" := input.id, "data" := input.data]
    else
      var last := input.attrs[|input.attrs| - 1];
      Fields(input.(attrs := input.attrs[..|input.attrs| - 1]))[Key(last.name) := last.value]
  }

  lemma PairOfAssignment(name: string, value: string)
    requires '=' !in name && '=' !in value
    ensures Pair(Assignment(name, value)) == Ok((name, value))
  {
    SplitFirst(name, value, '=');
    SplitFirst(value, "", '=');
  }

  lemma PairIff(s: string, name: string, value: string)
    ensures Pair(s) == Ok((name, value)) <==> '=' !in name && '=' !in value && s == Assignment(name, value)
  {
    if Pair(s) == Ok((name, value)) {
      JoinOfSplit(s, '=');
      assert Split(s, '=') == [name, value];
      assert Split(s, '=')[1..] == [value];
      assert Split(s, '=')[0] == name && Split(s, '=')[1] == value;
    } else if '=' !in name && '=' !in value && s == Assignment(name, value) {
      PairOfAssignment(name, value);
    }
  }

  lemma {:induction false} AttributesOf(input: Input)
    requires FreeInput(input)
    ensures WithAttributes(map["identifier" := input.id, "data" := input.data], Assignments(input.attrs))
         == Ok(Fields(input))
    decreases |input.attrs|
  {
    if input.attrs != [] {
      var n := |input.attrs| - 1;
      AttributesOf(input.(attrs := input.attrs[..n]));
      assert Assignments(input.attrs)[..n] == Assignments(input.attrs[..n]);
      PairOfAssignment(input.attrs[n].name, input.attrs[n].value);
    }
  }

  lemma SplitOfEncode(input: Input)
    requires FreeInput(input)
    ensures Split(Encode(input), '@') == [Assignment(input.id, input.data)] + Assignments(input.attrs)
  {
    SplitOfJoin([Assignment(input.id, input.data)] + Assignments(input.attrs), '@');
  }

  /** Parsing an encoded input gives its fields. */
  lemma SegmentRoundTrip(input: Input)
    requires FreeInput(input)
    ensures ParseSegment(Encode(input)) == Ok(Segment(input.id, Fields(input)))
  {
    SplitOfEncode(input);
    PairOfAssignment(input.id, input.data);
    AttributesOf(input);
    var fields := Split(Encode(input), '@');
    assert fields[1..] == Assignments(input.attrs);
  }

  /** Every accepted attribute list is an encoded one. */
  lemma {:induction false} AttributesDecode(io: Io, fields: seq<string>) returns (attrs: seq<Attribute>)
    requires WithAttributes(io, fields).Ok? && AllFree(fields, '@')
    ensures fields == Assignments(attrs)
    ensures forall i :: 0 <= i < |attrs| ==> Free(attrs[i].name) && Free(attrs[i].value)
    decreases |fields|
  {
    if fields == [] {
      attrs := [];
    } else {
      var n := |fields| - 1;
      assert WithAttributes(io, fields[..n]).Ok? && Pair(fields[n]).Ok?;
      hide WithAttributes, Pair, Free;
      var rest := AttributesDecode(io, fields[..n]);
      var last := AttributeDecode(fields[n]);
      attrs := rest + [last];
      assert fields == fields[..n] + [fields[n]];
      assert Assignments(attrs) == Assignments(rest) + [fields[n]];
    }
  }

  lemma AttributeDecode(field: string) returns (attr: Attribute)
    requires Pair(field).Ok? && '@' !in field
    ensures field == Assignment(attr.name, attr.value) && Free(attr.name) && Free(attr.value)
  {
    var p := Pair(field).value;
    PairIff(field, p.0, p.1);
    hide Pair;
    assert forall c :: c in p.0 || c in p.1 ==> c in field;
    attr := Attribute(p.0, p.1);
  }

  /** A segment is accepted exactly when it encodes an input. */
  lemma SegmentAcceptedIff(d: string)
    ensures WellFormed(d) <==> exists input :: FreeInput(input) && Encode(input) == d
  {
    if WellFormed(d) {
      var input := Decoded(d);
      assert FreeInput(input) && Encode(input) == d;
    } else if input :| FreeInput(input) && Encode(input) == d {
      SegmentRoundTrip(input);
    }
  }

  lemma Decoded(d: string) returns (input: Input)
    requires WellFormed(d)
    ensures FreeInput(input) && Encode(input) == d
  {
    var fields := Split(d, '@');
    JoinOfSplit(d, '@');
    var p := Pair(fields[0]).value;
    PairIff(fields[0], p.0, p.1);
    assert forall c :: c in p.0 || c in p.1 ==> c in fields[0];
    var attrs := AttributesDecode(map["identifier" := p.0, "data" := p.1], fields[1..]);
    input := Input(p.0, p.1, attrs);
    assert fields == [fields[0]] + fields[1..];
  }

  // ---- Attributes read back --------------------------------------------

  /** Everything written can be read back from the dictionary, and nothing else. */
  predicate ReadsBack(input: Input) {
    var io := Fields(input);
    && "identifier" in io && io["identifier"] == input.id
    && "data" in io && io["data"] == input.data
    && (forall i :: 0 <= i < |input.attrs| ==>
          Key(input.attrs[i].name) in io && io[Key(input.attrs[i].name)] == input.attrs[i].value)
    && (forall k :: k in io ==> k == "identifier" || k == "data"
                                || exists i :: 0 <= i < |input.attrs| && Key(input.attrs[i].name) == k)
  }

  /** No two attributes share a key, "href" being also the key of "xlink:href",
      unless with the same value; nor with the identifier or the data. */
  predicate Consistent(input: Input) {
    && (forall i :: 0 <= i < |input.attrs| ==>
          && (Key(input.attrs[i].name) == "identifier" ==> input.attrs[i].value == input.id)
          && (Key(input.attrs[i].name) == "data" ==> input.attrs[i].value == input.data))
    && (forall i, j :: 0 <= i < j < |input.attrs| && Key(input.attrs[i].name) == Key(input.attrs[j].name) ==>
          input.attrs[i].value == input.attrs[j].value)
  }

  /** Distinct names, none of them "identifier", "data" or "href". */
  predicate Distinct(input: Input) {
    && (forall i :: 0 <= i < |input.attrs| ==> input.attrs[i].name !in {"identifier", "data", "href"})
    && (forall i, j :: 0 <= i < j < |input.attrs| ==> input.attrs[i].name != input.attrs[j].name)
  }

  lemma DistinctConsistent(input: Input)
    requires Distinct(input)
    ensures Consistent(input)
  {}

  lemma {:induction false} FieldsHas(input: Input, k: string)
    ensures k in Fields(input) <==>
      k == "identifier" || k == "data" || exists i :: 0 <= i < |input.attrs| && Key(input.attrs[i].name) == k
    decreases |input.attrs|
  {
    if input.attrs != [] {
      var n := |input.attrs| - 1;
      var less := input.(attrs := input.attrs[..n]);
      FieldsHas(less, k);
      assert forall i :: 0 <= i < n ==> less.attrs[i] == input.attrs[i];
    }
  }

  /** A key all of whose writers agree holds their value. */
  lemma {:induction false} FieldsAt(input: Input, k: string, v: string)
    requires (k == "identifier" ==> v == input.id) && (k == "data" ==> v == input.data)
    requires forall i :: 0 <= i < |input.attrs| && Key(input.attrs[i].name) == k ==> input.attrs[i].value == v
    requires k in Fields(input)
    ensures Fields(input)[k] == v
    decreases |input.attrs|
  {
    hide Key;
    if input.attrs != [] {
      var n := |input.attrs| - 1;
      var less := input.(attrs := input.attrs[..n]);
      assert forall i :: 0 <= i < n ==> less.attrs[i] == input.attrs[i];
      if k in Fields(less) { FieldsAt(less, k, v); }
    }
  }

  lemma FieldsKeep(input: Input)
    requires Consistent(input)
    ensures ReadsBack(input)
  {
    hide Key, Fields;
    FieldsHas(input, "identifier");
    FieldsHas(input, "data");
    FieldsAt(input, "identifier", input.id);
    FieldsAt(input, "data", input.data);
    forall i | 0 <= i < |input.attrs|
      ensures Key(input.attrs[i].name) in Fields(input)
      ensures Fields(input)[Key(input.attrs[i].name)] == input.attrs[i].value
    {
      FieldsHas(input, Key(input.attrs[i].name));
      FieldsAt(input, Key(input.attrs[i].name), input.attrs[i].value);
    }
    forall k | k in Fields(input)
      ensures k == "identifier" || k == "data" || exists i :: 0 <= i < |input.attrs| && Key(input.attrs[i].name) == k
    {
      FieldsHas(input, k);
    }
  }

  /** An input survives the dictionary exactly when its attributes do not clash. */
  lemma ReadsBackIff(input: Input)
    ensures ReadsBack(input) <==> Consistent(input)
  {
    if Consistent(input) {
      FieldsKeep(input);
    }
  }

  /** An attribute called "data" takes the place of the value. */
  lemma ClashingInput(id: string, data: string, other: string)
    requires Clean(id) && Clean(data) && Clean(other) && data != other
    ensures
      var input := Input(id, data, [Attribute("data", other)]);
      && CleanInput(input) && !ReadsBack(input)
      && ParseSegment(Encode(input)) == Ok(Segment(id, map["identifier" := id, "data" := other]))
  {
    var input := Input(id, data, [Attribute("data", other)]);
    assert Fields(input) == map["identifier" := id, "data" := other] by {
      assert input.attrs[..0] == [];
    }
    assert input.attrs[0] == Attribute("data", other);
    SegmentRoundTrip(input);
    hide ParseSegment, Encode;
  }

  /** Of two attributes of one name the later stays. */
  lemma RepeatedAttribute(id: string, data: string, name: string, first: string, second: string)
    requires name !in {"identifier", "data", "xlink:href"}
    ensures Fields(Input(id, data, [Attribute(name, first), Attribute(name, second)]))
         == map["identifier" := id, "data" := data, name := second]
  {
    var attrs := [Attribute(name, first), Attribute(name, second)];
    var once := Input(id, data, [Attribute(name, first)]);
    assert attrs[..1] == once.attrs && once.attrs[..0] == [];
    assert Fields(once) == map["identifier" := id, "data" := data, name := first];
  }

  /** A reference is written as "xlink:href" and read back as "href". */
  lemma HrefReadsBack(input: Input, i: nat)
    requires Distinct(input) && i < |input.attrs| && input.attrs[i].name == "xlink:href"
    ensures "href" in Fields(input) && Fields(input)["href"] == input.attrs[i].value
    ensures "xlink:href" !in Fields(input)
  {
    DistinctConsistent(input);
    ReadsBackIff(input);
    assert Key(input.attrs[i].name) == "href";
    FieldsHas(input, "xlink:href");
  }

  /** Any other attribute is read back under its own name. */
  lemma AttributeReadsBack(input: Input, i: nat)
    requires Distinct(input) && i < |input.attrs| && input.attrs[i].name != "xlink:href"
    ensures input.attrs[i].name in Fields(input) && Fields(input)[input.attrs[i].name] == input.attrs[i].value
    ensures "identifier" in Fields(input) && Fields(input)["identifier"] == input.id
    ensures "data" in Fields(input) && Fields(input)["data"] == input.data
  {
    DistinctConsistent(input);
    ReadsBackIff(input);
    assert Key(input.attrs[i].name) == input.attrs[i].name;
  }

  // ---- Grouping --------------------------------------------------------

  /** What the accepted segments give for one identifier, in order. */
  function Group(segments: seq<string>, id: string): seq<Io> {
    if segments == [] then []
    else
      var rest, last := Group(segments[..|segments| - 1], id), ParseSegment(segments[|segments| - 1]);
      if last.Ok? && last.value.id == id then rest + [last.value.io] else rest
  }

  predicate Bad(segments: seq<string>, d: string) {
    d in segments && !WellFormed(d)
  }

  /** A bad segment always ends as its fallback; an identifier no bad segment is
      equal to leads to the list of its inputs. */
  lemma {:induction false} EntryAt(segments: seq<string>, k: string)
    ensures var e := AddAll(segments, true);
      && (Bad(segments, k) ==> k in e && e[k] == Fallback(k))
      && (!Bad(segments, k) && '=' !in k ==>
            && (k in e <==> Group(segments, k) != [])
            && (k in e ==> e[k] == Many(Group(segments, k))))
    decreases |segments|
  {
    if segments != [] {
      var rest, d := segments[..|segments| - 1], segments[|segments| - 1];
      hide ParseSegment, Fallback;
      EntryAt(rest, k);
      assert segments == rest + [d];
      if WellFormed(d) {
        HasEquals(d);
        EntryAt(rest, ParseSegment(d).value.id);
      }
    }
  }

  lemma HasEquals(d: string)
    requires WellFormed(d)
    ensures '=' in d && '=' !in ParseSegment(d).value.id
  {
    var input := Decoded(d);
    SegmentRoundTrip(input);
    SplitOfEncode(input);
    assert Assignment(input.id, input.data)[|input.id|] == '=';
    assert '=' in Split(d, '@')[0];
    JoinOfSplit(d, '@');
    assert d == Split(d, '@')[0] || d == Split(d, '@')[0] + ['@'] + Join(Split(d, '@')[1..], '@');
  }

  /** Every entry is of a segment: under its text or under its identifier. */
  lemma {:induction false} EntryOf(segments: seq<string>, k: string)
    requires k in AddAll(segments, true)
    ensures exists d :: d in segments && Leads(d, k)
    decreases |segments|
  {
    var rest, d := segments[..|segments| - 1], segments[|segments| - 1];
    assert segments == rest + [d];
    if k in AddAll(rest, true) {
      EntryOf(rest, k);
      var d' :| d' in rest && Leads(d', k);
      assert d' in segments;
    } else {
      hide ParseSegment;
      assert d in segments && Leads(d, k);
    }
  }

  predicate Leads(d: string, k: string) {
    d == k || (WellFormed(d) && ParseSegment(d).value.id == k)
  }

  ghost predicate Grouped(segments: seq<string>) {
    forall d :: d in segments && WellFormed(d) ==>
      var id := ParseSegment(d).value.id;
      id in AddAll(segments, true) && AddAll(segments, true)[id] == Many(Group(segments, id))
  }

  /** Bad segments leave the inputs grouped under their identifiers exactly when
      none of them is the text of an identifier in use. */
  lemma GroupedIff(data: string)
    ensures
      var segments := Split(data, ';');
      Grouped(segments) <==> forall d :: d in segments && WellFormed(d) ==> !Bad(segments, ParseSegment(d).value.id)
  {
    hide ParseSegment, AddAll, Split;
    var segments := Split(data, ';');
    forall d | d in segments && WellFormed(d)
      ensures var id := ParseSegment(d).value.id;
        (id in AddAll(segments, true) && AddAll(segments, true)[id] == Many(Group(segments, id)))
        <==> !Bad(segments, id)
    {
      HasEquals(d);
      EntryAt(segments, ParseSegment(d).value.id);
      GroupHas(segments, d);
    }
  }

  /** An input is lost when its bare identifier follows, as in "a=1;a". */
  lemma InputLost(id: string, data: string)
    requires Clean(id) && Clean(data)
    ensures Parse(Some(id + "=" + data + ";" + id), true) == map[id := One(map["identifier" := id, "data" := ""])]
  {
    var good := Assignment(id, data);
    TwoSegments(good, id);
    if WellFormed(id) { HasEquals(id); }
    EncodePlain(id, data);
    SegmentRoundTrip(Input(id, data, []));
    hide ParseSegment, Split;
    OneSegment(good, true);
    assert [good, id][..1] == [good];
  }

  lemma OneSegment(d: string, inputs: bool)
    ensures AddAll([d], inputs) == Add(map[], d, inputs)
  {
    assert [d][..0] == [];
  }

  lemma TwoSegments(a: string, b: string)
    requires ';' !in a && ';' !in b
    ensures Split(a + ";" + b, ';') == [a, b]
  {
    SplitFirst(a, b, ';');
    SplitFirst(b, "", ';');
  }

  lemma EncodePlain(id: string, data: string)
    ensures Encode(Input(id, data, [])) == Assignment(id, data)
  {
    assert [Assignment(id, data)] + Assignments([]) == [Assignment(id, data)];
  }

  lemma {:induction false} GroupHas(segments: seq<string>, d: string)
    requires d in segments && WellFormed(d)
    ensures ParseSegment(d).value.io in Group(segments, ParseSegment(d).value.id)
    decreases |segments|
  {
    var rest, last := segments[..|segments| - 1], segments[|segments| - 1];
    assert segments == rest + [last];
    if d != last {
      GroupHas(rest, d);
    }
  }

  // ---- The round trip --------------------------------------------------

  /** The inputs of one identifier, in order. */
  function OfId(inputs: seq<Input>, id: string): seq<Io> {
    if inputs == [] then []
    else
      var rest, last := OfId(inputs[..|inputs| - 1], id), inputs[|inputs| - 1];
      if last.id == id then rest + [Fields(last)] else rest
  }

  predicate Clean(s: string) {
    Free(s) && ';' !in s
  }

  predicate CleanInput(input: Input) {
    Clean(input.id) && Clean(input.data)
    && forall i :: 0 <= i < |input.attrs| ==> Clean(input.attrs[i].name) && Clean(input.attrs[i].value)
  }

  lemma {:induction false} JoinAvoids(parts: seq<string>, c: char, avoided: char)
    requires AllFree(parts, avoided) && c != avoided
    ensures avoided !in Join(parts, c)
    decreases |parts|
  {
    if |parts| > 1 {
      JoinAvoids(parts[1..], c, avoided);
    }
  }

  lemma SegmentsFree(inputs: seq<Input>)
    requires forall i :: 0 <= i < |inputs| ==> CleanInput(inputs[i])
    ensures AllFree(Segments(inputs), ';')
  {
    forall i | 0 <= i < |inputs| ensures ';' !in Segments(inputs)[i] {
      JoinAvoids([Assignment(inputs[i].id, inputs[i].data)] + Assignments(inputs[i].attrs), '@', ';');
    }
  }

  lemma {:induction false} GroupOfSegments(inputs: seq<Input>, id: string)
    requires forall i :: 0 <= i < |inputs| ==> FreeInput(inputs[i])
    ensures Group(Segments(inputs), id) == OfId(inputs, id)
    decreases |inputs|
  {
    if inputs != [] {
      var n := |inputs| - 1;
      SegmentRoundTrip(inputs[n]);
      assert Segments(inputs)[..n] == Segments(inputs[..n]);
      hide ParseSegment, FreeInput, Encode, Fields;
      GroupOfSegments(inputs[..n], id);
    }
  }

  lemma {:induction false} OfIdHas(inputs: seq<Input>, id: string)
    ensures OfId(inputs, id) != [] <==> exists i :: 0 <= i < |inputs| && inputs[i].id == id
    decreases |inputs|
  {
    if inputs != [] {
      var n := |inputs| - 1;
      hide Fields;
      OfIdHas(inputs[..n], id);
      assert forall i :: 0 <= i < n ==> inputs[..n][i] == inputs[i];
    }
  }

  lemma {:induction false} KeysOfGood(segments: seq<string>, k: string)
    requires forall d :: d in segments ==> WellFormed(d)
    requires k in AddAll(segments, true)
    ensures '=' !in k
    decreases |segments|
  {
    var rest, d := segments[..|segments| - 1], segments[|segments| - 1];
    assert segments == rest + [d];
    HasEquals(d);
    EntryAt(rest, ParseSegment(d).value.id);
    if k in AddAll(rest, true) {
      KeysOfGood(rest, k);
    }
  }

  /** Encoded inputs are parsed into their identifiers, each with its inputs in
      order and all their attributes. */
  lemma RoundTrip(inputs: seq<Input>, k: string)
    requires inputs != [] && forall i :: 0 <= i < |inputs| ==> CleanInput(inputs[i])
    ensures var entries := Parse(Some(EncodeAll(inputs)), true);
      && (k in entries <==> exists i :: 0 <= i < |inputs| && inputs[i].id == k)
      && (k in entries ==> entries[k] == Many(OfId(inputs, k)))
    ensures forall i :: 0 <= i < |inputs| && Distinct(inputs[i]) ==> ReadsBack(inputs[i])
  {
    hide ParseSegment, AddAll, Split;
    var segments := Segments(inputs);
    SegmentsFree(inputs);
    SplitOfJoin(segments, ';');
    forall d | d in segments ensures WellFormed(d) {
      var i :| 0 <= i < |inputs| && segments[i] == d;
      SegmentRoundTrip(inputs[i]);
    }
    GroupOfSegments(inputs, k);
    OfIdHas(inputs, k);
    EntryAt(segments, k);
    if k in AddAll(segments, true) {
      KeysOfGood(segments, k);
    }
    forall i | 0 <= i < |inputs| && Distinct(inputs[i]) ensures ReadsBack(inputs[i]) {
      DistinctConsistent(inputs[i]);
      ReadsBackIff(inputs[i]);
    }
  }

  /** The encoding in full: an input with an attribute, and another one of the
      same identifier. */
  lemma TwoInputs(id: string, data: string, name: string, value: string, other: string)
    requires Clean(id) && Clean(data) && Clean(name) && Clean(value) && Clean(other)
    requires name !in {"identifier", "data", "xlink:href"}
    ensures Parse(Some(id + "=" + data + "@" + name + "=" + value + ";" + id + "=" + other), true) ==
      map[id := Many([map["identifier" := id, "data" := data, name := value],
                      map["identifier" := id, "data" := other]])]
  {
    var a, b := Input(id, data, [Attribute(name, value)]), Input(id, other, []);
    var inputs := [a, b];
    EncodePlain(id, other);
    EncodeOne(id, data, name, value);
    JoinTwo(Encode(a), Encode(b), ';');
    assert Segments(inputs) == [Encode(a), Encode(b)];
    assert EncodeAll(inputs) == id + "=" + data + "@" + name + "=" + value + ";" + id + "=" + other;
    assert Fields(a) == map["identifier" := id, "data" := data, name := value] by {
      assert a.attrs[..0] == [];
    }
    assert OfId(inputs, id) == [Fields(a), Fields(b)] by {
      assert inputs[..1] == [a] && [a][..0] == [];
      assert OfId([], id) == [] && OfId([a], id) == [] + [Fields(a)];
      assert OfId(inputs, id) == OfId([a], id) + [Fields(b)];
    }
    forall k ensures k in Parse(Some(EncodeAll(inputs)), true) <==> k == id {
      RoundTrip(inputs, k);
    }
    RoundTrip(inputs, id);
  }

  lemma JoinTwo(a: string, b: string, c: char)
    ensures Join([a, b], c) == a + [c] + b
  {
    assert [a, b][1..] == [b];
  }

  lemma EncodeOne(id: string, data: string, name: string, value: string)
    ensures Encode(Input(id, data, [Attribute(name, value)])) == Assignment(id, data) + "@" + Assignment(name, value)
  {
    assert [Assignment(id, data)] + Assignments([Attribute(name, value)])
        == [Assignment(id, data), Assignment(name, value)];
    JoinTwo(Assignment(id, data), Assignment(name, value), '@');
  }

  /** No parameter gives nothing; an empty one gives one empty entry. */
  lemma NoInputs(inputs: bool)
    ensures Parse(None, inputs) == map[]
    ensures Parse(Some(""), inputs) == map["" := One(map["identifier" := "", "data" := ""])]
  {
    if WellFormed("") { HasEquals(""); }
    OneSegment("", inputs);
    hide ParseSegment, AddAll;
    assert Split("", ';') == [""];
  }

  // ---- Outputs ---------------------------------------------------------

  function OutputKey(d: string): string {
    if WellFormed(d) then ParseSegment(d).value.id else d
  }

  function OutputEntry(d: string): Entry {
    if WellFormed(d) then One(ParseSegment(d).value.io) else Fallback(d)
  }

  /** The entries of outputs are those of the segments and no others. */
  lemma {:induction false} OutputKeys(segments: seq<string>, k: string)
    ensures k in AddAll(segments, false) <==> exists i :: 0 <= i < |segments| && OutputKey(segments[i]) == k
    decreases |segments|
  {
    if segments != [] {
      var n := |segments| - 1;
      OutputKeys(segments[..n], k);
      assert forall i :: 0 <= i < n ==> segments[..n][i] == segments[i];
      hide ParseSegment;
    }
  }

  /** For outputs the last segment with a key wins. */
  lemma {:induction false} LastOutputWins(segments: seq<string>, i: nat)
    requires i < |segments|
    requires forall j :: i < j < |segments| ==> OutputKey(segments[j]) != OutputKey(segments[i])
    ensures OutputKey(segments[i]) in AddAll(segments, false)
    ensures AddAll(segments, false)[OutputKey(segments[i])] == OutputEntry(segments[i])
    decreases |segments|
  {
    if i < |segments| - 1 {
      LastOutputWins(segments[..|segments| - 1], i);
    }
  }
}

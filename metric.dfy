/** A data point to write into OpenTSDB: validated at construction, and
    rendered as the `put` line of the telnet-style write protocol. */
module Metrics {
  import opened Ruby

  /** One tag of a metric, rendered as key=value. */
  datatype Tag = Tag(key: string, value: Value)

  /** The configuration hash a metric is built from. None stands for a key
      the hash does not include; for tags it also stands for a nil value,
      which `|| {}` treats the same way. */
  datatype MetricConfig = MetricConfig(
    name: Option<Value>,
    value: Option<Value>,
    timestamp: Option<Value>,
    tags: Option<seq<Tag>>)

  datatype Metric = Metric(name: Value, value: Value, timestamp: int, tags: seq<Tag>)

  /** The fields whose presence validation checks. */
  datatype Field = NameField | ValueField

  const Required: seq<Field> := [NameField, ValueField]

  /** config.include?(field) */
  predicate Includes(config: MetricConfig, f: Field) {
    match f
    case NameField => config.name.Some?
    case ValueField => config.value.Some?
  }

  /** The integers Ruby represents as a Fixnum on a 64-bit platform; larger
      ones are Bignums and fail the `is_a? Fixnum` test. */
  predicate IsFixnum(v: Value) {
    v.Int? && -0x4000_0000_0000_0000 <= v.i < 0x4000_0000_0000_0000
  }

  /** A timestamp passes validation when it is absent, falsy, or a Fixnum. */
  predicate TimestampAccepted(ts: Option<Value>) {
    ts.None? || !Truthy(ts.value) || IsFixnum(ts.value)
  }

  /** "#{field} is required to write into OpenTSDB." */
  function MissingField(f: Field): Error {
    match f
    case NameField => ArgumentError("name is required to write into OpenTSDB.")
    case ValueField => ArgumentError("value is required to write into OpenTSDB.")
  }

  const NotNumeric: Error := ArgumentError("Timestamp must be numeric")

  /** The exception validation raises, if any: the first required field the
      configuration lacks, else a timestamp that is not an integer. */
  function ValidationError(config: MetricConfig, required: seq<Field>): (e: Option<Error>)
    ensures e.None? <==> (forall i :: 0 <= i < |required| ==> Includes(config, required[i])) &&
                         TimestampAccepted(config.timestamp)
  {
    if required == [] then
      if TimestampAccepted(config.timestamp) then None else Some(NotNumeric)
    else if !Includes(config, required[0]) then Some(MissingField(required[0]))
    else ValidationError(config, required[1..])
  }

  /** validate: checks the required fields in order, failing on the first
      missing one, then checks the timestamp. */
  method Validate(config: MetricConfig, required: seq<Field>) returns (e: Option<Error>)
    ensures e == ValidationError(config, required)
  {
    for i := 0 to |required|
      invariant forall j :: 0 <= j < i ==> Includes(config, required[j])
      invariant ValidationError(config, required) == ValidationError(config, required[i..])
    {
      if !Includes(config, required[i]) {
        return Some(MissingField(required[i]));
      }
      assert required[i..][1..] == required[i + 1..];
    }
    assert required[|required|..] == [];
    if !TimestampAccepted(config.timestamp) {
      return Some(NotNumeric);
    }
    return None;
  }

  /** The name is checked before the value, and both before the timestamp. */
  lemma ValidationOrder(config: MetricConfig)
    ensures ValidationError(config, Required) ==
      if config.name.None? then Some(MissingField(NameField))
      else if config.value.None? then Some(MissingField(ValueField))
      else if !TimestampAccepted(config.timestamp) then Some(NotNumeric)
      else None
  {
    assert Required[1..] == [ValueField] && Required[1..][1..] == [];
    assert ValidationError(config, [ValueField]) ==
      if config.value.None? then Some(MissingField(ValueField)) else ValidationError(config, []);
  }

  /** `config[:timestamp] || Time.now.to_i`, after validation has passed. */
  function TimestampOrNow(ts: Option<Value>, now: int): int
    requires TimestampAccepted(ts)
  {
    if ts.Some? && Truthy(ts.value) then ts.value.i else now
  }

  /** Metric.new: validates, and only then sets the fields, so a failed
      construction yields no metric. The current time is a parameter. */
  function NewMetric(config: MetricConfig, now: int): (r: Try<Metric>)
    ensures config.name.None? ==> r == Raised(MissingField(NameField))
    ensures config.name.Some? && config.value.None? ==> r == Raised(MissingField(ValueField))
    ensures config.name.Some? && config.value.Some? && !TimestampAccepted(config.timestamp) ==>
      r == Raised(NotNumeric)
    ensures r.Ok? <==> config.name.Some? && config.value.Some? && TimestampAccepted(config.timestamp)
    ensures r.Ok? ==> r.value.name == config.name.value && r.value.value == config.value.value
    ensures r.Ok? ==> r.value.tags == (if config.tags.Some? then config.tags.value else [])
    ensures r.Ok? && config.timestamp.Some? && config.timestamp.value.Int? ==>
      r.value.timestamp == config.timestamp.value.i
    ensures r.Ok? && (config.timestamp.None? || !Truthy(config.timestamp.value)) ==> r.value.timestamp == now
  {
    ValidationOrder(config);
    match ValidationError(config, Required)
    case Some(e) => Raised(e)
    case None =>
      assert Includes(config, Required[0]) && Includes(config, Required[1]);
      Ok(Metric(config.name.value, config.value.value, TimestampOrNow(config.timestamp, now),
                if config.tags.Some? then config.tags.value else []))
  }

  function TagText(t: Tag): string {
    t.key + "=" + Text(t.value)
  }

  function TagTexts(tags: seq<Tag>): (r: seq<string>)
    ensures |r| == |tags| && forall i :: 0 <= i < |tags| ==> r[i] == TagText(tags[i])
  {
    if tags == [] then [] else TagTexts(tags[..|tags| - 1]) + [TagText(tags[|tags| - 1])]
  }

  /** What the tag loop accumulates: each tag followed by one space. */
  function TagSection(tags: seq<Tag>): string {
    if tags == [] then "" else TagSection(tags[..|tags| - 1]) + TagText(tags[|tags| - 1]) + " "
  }

  /** The put line: name, timestamp, value and the right-stripped tag section,
      joined by single spaces. */
  function PutLine(m: Metric): string {
    Join([Text(m.name), DecimalText(m.timestamp), Text(m.value), RStrip(TagSection(m.tags))], " ")
  }

  /** to_s: accumulates "k=v " for each tag in order, then joins. */
  method ToS(m: Metric) returns (s: string)
    ensures s == PutLine(m)
  {
    var result := "";
    for i := 0 to |m.tags|
      invariant result == TagSection(m.tags[..i])
    {
      assert m.tags[..i + 1][..i] == m.tags[..i];
      result := result + TagText(m.tags[i]) + " ";
    }
    assert m.tags[..|m.tags|] == m.tags;
    s := Join([Text(m.name), DecimalText(m.timestamp), Text(m.value), RStrip(result)], " ");
  }

  /** The accumulated tag section is the tags joined by spaces, plus one
      trailing space. */
  lemma {:induction false} TagSectionJoined(tags: seq<Tag>)
    requires tags != []
    ensures TagSection(tags) == Join(TagTexts(tags), " ") + " "
    decreases |tags|
  {
    var init := tags[..|tags| - 1];
    if init == [] {
      assert TagTexts(tags) == [TagText(tags[0])];
    } else {
      TagSectionJoined(init);
      JoinSnoc(TagTexts(init), TagText(tags[|tags| - 1]), " ");
    }
  }

  /** With tags whose last value does not end in whitespace, the put line is
      name, timestamp, value and every tag as key=value, single-space
      separated, in tag order. */
  lemma PutLineWithTags(m: Metric)
    requires m.tags != []
    requires var t := TagText(m.tags[|m.tags| - 1]); !IsSpace(t[|t| - 1])
    ensures PutLine(m) == Text(m.name) + " " + DecimalText(m.timestamp) + " " + Text(m.value) + " " +
                          Join(TagTexts(m.tags), " ")
  {
    TagSectionJoined(m.tags);
    var joined := Join(TagTexts(m.tags), " ");
    JoinLastTag(TagTexts(m.tags));
    assert RStrip(joined + " ") == joined by {
      assert (joined + " ")[..|joined + " "| - 1] == joined;
    }
    JoinFour(Text(m.name), DecimalText(m.timestamp), Text(m.value), joined, " ");
  }

  /** A non-empty join ends with its last part. */
  lemma {:induction false} JoinLastTag(parts: seq<string>)
    requires parts != [] && parts[|parts| - 1] != []
    ensures var j := Join(parts, " "); j != [] && j[|j| - 1] == parts[|parts| - 1][|parts[|parts| - 1]| - 1]
    decreases |parts|
  {
    if |parts| > 1 {
      JoinLastTag(parts[1..]);
    }
  }

  /** Without tags the put line still ends in the separator before the empty
      tag section. */
  lemma PutLineWithoutTags(m: Metric)
    requires m.tags == []
    ensures PutLine(m) == Text(m.name) + " " + DecimalText(m.timestamp) + " " + Text(m.value) + " "
  {
    JoinFour(Text(m.name), DecimalText(m.timestamp), Text(m.value), "", " ");
  }

  lemma TimestampTextPrefix()
    ensures NatText(1213) == "1213"
  {
    assert NatText(12) == "12";
    assert NatText(121) == "121";
  }

  lemma TimestampText()
    ensures DecimalText(12132342) == "12132342"
  {
    TimestampTextPrefix();
    assert NatText(12132) == "12132";
    assert NatText(121323) == "121323";
    assert NatText(1213234) == "1213234";
  }

  lemma ExampleTagText()
    ensures TagTexts([Tag("host", Str("localhost"))]) == ["host=localhost"]
  {
    var tags := [Tag("host", Str("localhost"))];
    assert tags[..0] == [];
    assert TagText(tags[0]) == "host=localhost";
  }

  /** The write example: test1.test2 at 12132342 with value 1 and tag
      host=localhost. */
  lemma PutLineExample()
    ensures PutLine(Metric(Str("test1.test2"), Int(1), 12132342, [Tag("host", Str("localhost"))])) ==
            "test1.test2 12132342 1 host=localhost"
  {
    var m := Metric(Str("test1.test2"), Int(1), 12132342, [Tag("host", Str("localhost"))]);
    ExampleTagText();
    assert TagText(m.tags[0]) == "host=localhost";
    PutLineWithTags(m);
    TimestampText();
    OneText();
    var name, ts, value, tags := Text(m.name), DecimalText(m.timestamp), Text(m.value), Join(TagTexts(m.tags), " ");
    assert PutLine(m) == name + " " + ts + " " + value + " " + tags;
    assert name == "test1.test2" && ts == "12132342" && value == "1";
    assert tags == "host=localhost";
    ExampleLineText();
  }

  lemma ExampleLineText()
    ensures "test1.test2" + " " + "12132342" + " " + "1" + " " + "host=localhost" ==
            "test1.test2 12132342 1 host=localhost"
  {
  }

  lemma OneText()
    ensures DecimalText(1) == "1"
  {
    assert NatText(1) == [DigitChar(1)];
  }

  /** The configuration of the write example yields that metric. */
  lemma MetricExample()
    ensures NewMetric(MetricConfig(Some(Str("test1.test2")), Some(Int(1)), Some(Int(12132342)),
                                   Some([Tag("host", Str("localhost"))])), 0) ==
            Ok(Metric(Str("test1.test2"), Int(1), 12132342, [Tag("host", Str("localhost"))]))
  {
  }
}

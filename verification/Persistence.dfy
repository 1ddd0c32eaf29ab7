/** How events and snapshot items are written to disk and read back. */
module Persistence {
  import opened Prelude

  datatype Json = JNull | JBool(b: bool) | JNumber(x: real) | JText(s: string) | JList(items: seq<Json>) | JObject(members: map<string, Json>)

  /** The annotations that occur on event and snapshot fields. */
  datatype FieldType = UuidField | DatetimeField | EventTypeField | TupleField | OptionalField(of: FieldType) | PlainField

  datatype Value = NoneValue | UuidValue(u: nat) | TimeValue(t: int) | TypeValue(member: nat) | TupleValue(strings: seq<string>) | PlainValue(json: Json)

  /** `str(uuid)` / `UUID(text)` and their like for datetimes, counted in microseconds, and event types. */
  datatype Texts = Texts(
    uuidText: nat -> string, parseUuid: string -> Option<nat>,
    timeText: int -> string, parseTime: string -> Option<int>,
    typeText: nat -> string, parseType: string -> Option<nat>
  )

  ghost predicate Inverse(x: Texts) {
    && (forall u: nat :: x.parseUuid(x.uuidText(u)) == Some(u))
    && (forall t :: x.parseTime(x.timeText(t)) == Some(t))
    && (forall m: nat :: x.parseType(x.typeText(m)) == Some(m))
  }

  function EncodeValue(x: Texts, v: Value): Json {
    match v
    case TypeValue(m) => JText(x.typeText(m))
    case UuidValue(u) => JText(x.uuidText(u))
    case TimeValue(t) => JText(x.timeText(t))
    case TupleValue(strings) => JList(seq(|strings|, i requires 0 <= i < |strings| => JText(strings[i])))
    case NoneValue => JNull
    case PlainValue(json) => json
  }

  /** None where the source raises. */
  function DecodeValue(x: Texts, j: Json, t: FieldType): Option<Value> {
    match t
    case OptionalField(of) => if j == JNull then Some(NoneValue) else DecodeValue(x, j, of)
    case UuidField =>
      if j.JText? then (match x.parseUuid(j.s) case Some(u) => Some(UuidValue(u)) case None => None) else None
    case DatetimeField =>
      if j.JText? then (match x.parseTime(j.s) case Some(t) => Some(TimeValue(t)) case None => None) else None
    case EventTypeField =>
      if j.JText? then (match x.parseType(j.s) case Some(m) => Some(TypeValue(m)) case None => None) else None
    case TupleField =>
      if j.JList? && (forall i :: 0 <= i < |j.items| ==> j.items[i].JText?)
      then Some(TupleValue(seq(|j.items|, i requires 0 <= i < |j.items| => if j.items[i].JText? then j.items[i].s else "")))
      else None
    case PlainField => Some(PlainValue(j))
  }

  /** `None` is written `NoneValue` in an optional field, so a plain null there would be a second spelling of it. */
  predicate WellTyped(v: Value, t: FieldType) {
    match t
    case OptionalField(of) => v.NoneValue? || (WellTyped(v, of) && v != PlainValue(JNull))
    case UuidField => v.UuidValue?
    case DatetimeField => v.TimeValue?
    case EventTypeField => v.TypeValue?
    case TupleField => v.TupleValue?
    case PlainField => v.PlainValue?
  }

  /** A field survives the round trip exactly when its value has the field's declared type. */
  lemma {:induction false} FieldRoundTrip(x: Texts, v: Value, t: FieldType)
    requires Inverse(x)
    ensures DecodeValue(x, EncodeValue(x, v), t) == Some(v) <==> WellTyped(v, t)
  {
    match t
    case OptionalField(of) => FieldRoundTrip(x, v, of);
    case TupleField =>
      if v.TupleValue? {
        var j := EncodeValue(x, v);
        assert DecodeValue(x, j, t).value.strings == v.strings;
      }
    case _ =>
  }

  /** `_encode_dataclass_fields` */
  function EncodeFields(x: Texts, fields: map<string, Value>): map<string, Json> {
    map name | name in fields :: EncodeValue(x, fields[name])
  }

  /** `_decode_dataclass` */
  function DecodeFields(x: Texts, encoded: map<string, Json>, hints: map<string, FieldType>): Option<map<string,
        Value>> {
    if forall name <- encoded :: name in hints && DecodeValue(x, encoded[name], hints[name]).Some?
    then Some(map name | name in encoded :: DecodeValue(x, encoded[name], hints[name]).GetOr(NoneValue))
    else None
  }

  lemma DataclassRoundTrip(x: Texts, fields: map<string, Value>, hints: map<string, FieldType>)
    requires Inverse(x) && fields.Keys <= hints.Keys
    ensures DecodeFields(x, EncodeFields(x, fields), hints) == Some(fields)
            <==> forall name <- fields :: WellTyped(fields[name], hints[name])
  {
    var encoded := EncodeFields(x, fields);
    forall name | name in fields
      ensures DecodeValue(x, encoded[name], hints[name]) == Some(fields[name]) <==> WellTyped(fields[name], hints[name])
    {
      FieldRoundTrip(x, fields[name], hints[name]);
    }
    var decoded := DecodeFields(x, encoded, hints);
    if decoded.Some? {
      assert decoded.value.Keys == fields.Keys;
      if forall name <- fields :: WellTyped(fields[name], hints[name]) {
        assert decoded.value == fields;
      }
      if decoded.value == fields {
        forall name | name in fields ensures WellTyped(fields[name], hints[name]) {
          assert decoded.value[name] == fields[name];
        }
      }
    }
  }

  // ---------------------------------------------------------------- events

  /** An event as the log sees it: the name of its class, and its fields. */
  datatype Record = Record(kind: string, fields: map<string, Value>)

  /** `_EVENT_CLASSES`, each class with the type hints of its fields. */
  type ClassTable = map<string, map<string, FieldType>>

  /** An instance of a class has that class's fields, whatever it holds in them. */
  predicate Instance(table: ClassTable, r: Record) {
    r.kind in table ==> r.fields.Keys == table[r.kind].Keys
  }

  /** `_encode_event` */
  function EncodeEvent(x: Texts, sequence: nat, r: Record): Json {
    JObject(map["sequence" := JNumber(sequence as real), "class" := JText(r.kind), "fields" := JObject(EncodeFields(x, r.fields))])
  }

  function SequenceOf(j: Json): Option<nat> {
    if j.JNumber? && j.x >= 0.0 && j.x.Floor as real == j.x then Some(j.x.Floor) else None
  }

  /** `_decode_event`; None where the source raises. */
  function DecodeEvent(x: Texts, table: ClassTable, j: Json): Option<(nat, Record)> {
    if !j.JObject? || !({"sequence", "class", "fields"} <= j.members.Keys) then None
    else
      var (sequence, kind, fields) := (j.members["sequence"], j.members["class"], j.members["fields"]);
      if SequenceOf(sequence).None? || !kind.JText? || kind.s !in table || !fields.JObject? then None
      else
        match DecodeFields(x, fields.members, table[kind.s])
        case None => None
        case Some(decoded) => Some((SequenceOf(sequence).value, Record(kind.s, decoded)))
  }

  /** The class is one of the module's own, and every field holds what its hint says. */
  ghost predicate Storable(table: ClassTable, r: Record) {
    r.kind in table && forall name <- r.fields :: name in table[r.kind] && WellTyped(r.fields[name], table[r.kind][name])
  }

  /** An event survives its line exactly when its class is in the table and every field is well typed. */
  lemma EventRoundTrip(x: Texts, table: ClassTable, sequence: nat, r: Record)
    requires Inverse(x) && Instance(table, r)
    ensures DecodeEvent(x, table, EncodeEvent(x, sequence, r)) == Some((sequence, r)) <==> Storable(table, r)
  {
    hide EncodeFields, DecodeFields, Inverse;
    var j := EncodeEvent(x, sequence, r);
    assert j.members["class"] == JText(r.kind) && j.members["sequence"] == JNumber(sequence as real);
    assert SequenceOf(j.members["sequence"]) == Some(sequence);
    if r.kind in table { DataclassRoundTrip(x, r.fields, table[r.kind]); }
  }

  // ---------------------------------------------------------------- the event log

  /** How an event and its sequence number become a line of the file, and how a line is read. */
  datatype Codec<!E> = Codec(encode: (nat, E) -> Json, decode: Json -> Option<(nat, E)>)

  function RecordCodec(x: Texts, table: ClassTable): Codec<Record> {
    Codec((sequence, r) => EncodeEvent(x, sequence, r), j => DecodeEvent(x, table, j))
  }

  ghost predicate Survives<E>(c: Codec<E>, sequence: nat, e: E) {
    c.decode(c.encode(sequence, e)) == Some((sequence, e))
  }

  /** The file, one line per event; the entries in memory; the number the next event will get. */
  datatype LogState<E> = LogState(file: seq<Json>, entries: seq<(nat, E)>, next: nat)

  function Appended<E>(c: Codec<E>, s: LogState<E>, e: E): LogState<E> {
    LogState(s.file + [c.encode(s.next, e)], s.entries + [(s.next, e)], s.next + 1)
  }

  function Read<E>(c: Codec<E>, file: seq<Json>): (r: Option<seq<(nat, E)>>)
    ensures r.Some? ==> |r.value| == |file|
  {
    if file == [] then Some([])
    else
      match (Read(c, file[..|file| - 1]), c.decode(file[|file| - 1]))
      case (Some(before), Some(last)) => Some(before + [last])
      case _ => None
  }

  function NextAfter<E>(entries: seq<(nat, E)>): nat {
    if |entries| == 0 then 1 else entries[|entries| - 1].0 + 1
  }

  /** A new process on the same file; None where opening it raises. */
  function Reopened<E>(c: Codec<E>, file: seq<Json>): Option<LogState<E>> {
    match Read(c, file)
    case None => None
    case Some(entries) => Some(LogState(file, entries, NextAfter(entries)))
  }

  /** The events numbered from 1, in order. */
  function Numbered<E>(es: seq<E>): (r: seq<(nat, E)>)
    ensures |r| == |es|
  {
    seq(|es|, i requires 0 <= i < |es| => (i + 1, es[i]))
  }

  /** A log of just these events: numbered from 1, a line for each, and the next number to come. */
  ghost predicate Written<E>(c: Codec<E>, s: LogState<E>, es: seq<E>) {
    && s.entries == Numbered(es) && |s.file| == |es| && s.next == |es| + 1
    && forall i :: 0 <= i < |es| ==> s.file[i] == c.encode(i + 1, es[i])
  }

  ghost predicate AllSurvive<E>(c: Codec<E>, es: seq<E>) {
    forall i: nat :: i < |es| ==> Survives(c, i + 1, es[i])
  }

  lemma {:induction false} ReadsBackIff<E>(c: Codec<E>, file: seq<Json>, es: seq<E>)
    requires |file| == |es| && forall i :: 0 <= i < |es| ==> file[i] == c.encode(i + 1, es[i])
    ensures Read(c, file) == Some(Numbered(es)) <==> AllSurvive(c, es)
    decreases |es|
  {
    if |es| == 0 {
      assert Numbered(es) == [];
    } else {
      var n := |es| - 1;
      ReadsBackIff(c, file[..n], es[..n]);
      assert Numbered(es) == Numbered(es[..n]) + [(n + 1, es[n])];
      assert AllSurvive(c, es) <==> AllSurvive(c, es[..n]) && Survives(c, n + 1, es[n]);
      if Read(c, file) == Some(Numbered(es)) {
        var before, last := Read(c, file[..n]).value, c.decode(file[n]).value;
        assert Numbered(es) == before + [last];
        assert before == Numbered(es)[..n] == Numbered(es[..n]) && last == Numbered(es)[n];
      }
    }
  }

  /** A log reopens as it was exactly when every event on it survives its line. */
  lemma ReopensIff<E>(c: Codec<E>, s: LogState<E>, es: seq<E>)
    requires Written(c, s, es)
    ensures Reopened(c, s.file) == Some(s) <==> AllSurvive(c, es)
  {
    hide Read, AllSurvive;
    ReadsBackIff(c, s.file, es);
  }

  lemma NumbersAre<E>(c: Codec<E>, s: LogState<E>, es: seq<E>)
    requires Written(c, s, es)
    ensures forall i :: 0 <= i < |s.entries| ==> s.entries[i].0 == i + 1
  {
  }

  lemma AppendingWrites<E>(c: Codec<E>, s: LogState<E>, es: seq<E>, e: E)
    requires Written(c, s, es)
    ensures Written(c, Appended(c, s, e), es + [e])
  {
    assert Numbered(es + [e]) == Numbered(es) + [(|es| + 1, e)];
  }

  /** What happens to a log: an event is appended, or the process restarts and opens the file again. */
  datatype Episode = Append(r: Record) | Restart

  function Lived(c: Codec<Record>, episodes: seq<Episode>): Option<LogState<Record>> {
    if episodes == [] then Some(LogState([], [], 1))
    else
      match Lived(c, episodes[..|episodes| - 1])
      case None => None
      case Some(s) => if episodes[|episodes| - 1].Append? then Some(Appended(c, s, episodes[|episodes| - 1].r)) else Reopened(c, s.file)
  }

  function RecordOf(e: Episode): Option<Record> {
    if e.Append? then Some(e.r) else None
  }

  /** The log of event records reopens as it was exactly when every event on it can be stored. */
  lemma LogReopensIffStorable(x: Texts, table: ClassTable, s: LogState<Record>, rs: seq<Record>)
    requires Inverse(x) && Written(RecordCodec(x, table), s, rs) && forall r <- rs :: Instance(table, r)
    ensures Reopened(RecordCodec(x, table), s.file) == Some(s) <==> forall r <- rs :: Storable(table, r)
  {
    hide Inverse, Storable, Instance, Written, Reopened, EncodeEvent, DecodeEvent, Read;
    var c := RecordCodec(x, table);
    ReopensIff(c, s, rs);
    forall i: nat | i < |rs| ensures Survives(c, i + 1, rs[i]) <==> Storable(table, rs[i]) {
      assert rs[i] in rs;
      EventRoundTrip(x, table, i + 1, rs[i]);
    }
  }

  /**
   After any appends of storable events and any restarts, the log holds exactly the events appended, in order, numbered
   1 to n, and the next one gets n + 1.
   */
  lemma {:induction false} LogSurvivesRestarts(x: Texts, table: ClassTable, episodes: seq<Episode>)
    requires Inverse(x) && forall e <- episodes :: e.Append? ==> Storable(table, e.r) && Instance(table, e.r)
    ensures Lived(RecordCodec(x, table), episodes).Some?
    ensures var s, appended := Lived(RecordCodec(x, table), episodes).value, Project(episodes, RecordOf);
            Written(RecordCodec(x, table), s, appended) && s.entries == Numbered(appended) && s.next == |appended| + 1
  {
    hide Inverse, Storable, Instance, Project, Reopened, Appended, RecordCodec;
    var c := RecordCodec(x, table);
    if episodes == [] {
      ProjectNothing(episodes, RecordOf);
    } else {
      var n := |episodes| - 1;
      var before, last := episodes[..n], episodes[n];
      assert episodes == before + [last] && last in episodes;
      LogSurvivesRestarts(x, table, before);
      ProjectSnoc(before, last, RecordOf);
      var s, appended := Lived(c, before).value, Project(before, RecordOf);
      if last.Append? {
        AppendingWrites(c, s, appended, last.r);
      } else {
        AppendedStorable(table, before);
        LogReopensIffStorable(x, table, s, appended);
        assert appended + [] == appended;
      }
    }
  }

  lemma AppendedStorable(table: ClassTable, episodes: seq<Episode>)
    requires forall e <- episodes :: e.Append? ==> Storable(table, e.r) && Instance(table, e.r)
    ensures forall r <- Project(episodes, RecordOf) :: Storable(table, r) && Instance(table, r)
  {
    hide Storable, Instance;
    forall r | r in Project(episodes, RecordOf) ensures Storable(table, r) && Instance(table, r) {
      var i := ProjectOrigin(episodes, RecordOf, r);
      assert episodes[i] in episodes;
    }
  }

  /** One line that does not decode keeps the whole file from being read. */
  lemma {:induction false} ReadStops<E>(c: Codec<E>, file: seq<Json>, i: nat)
    requires i < |file| && c.decode(file[i]) == None
    ensures Read(c, file) == None
    decreases |file|
  {
    if i < |file| - 1 { ReadStops(c, file[..|file| - 1], i); }
  }

  class EventLog<E> {
    const codec: Codec<E>
    var file: seq<Json>
    var entries: seq<(nat, E)>
    var nextSequence: nat

    function State(): LogState<E>
      reads this
    {
      LogState(file, entries, nextSequence)
    }

    function Events(): (r: seq<E>)
      reads this
      ensures |r| == |entries|
    {
      seq(|entries|, i requires 0 <= i < |entries| reads this => entries[i].1)
    }

    ghost predicate Valid()
      reads this
    {
      Written(codec, State(), Events())
    }

    constructor (codec: Codec<E>, file: seq<Json>)
      ensures this.codec == codec && State() == LogState(file, [], 1)
    {
      this.codec, this.file := codec, file;
      entries, nextSequence := [], 1;
    }

    /** `_load_existing`; false where it raises. */
    method LoadExisting() returns (ok: bool)
      requires |entries| == 0 && nextSequence == 1
      modifies this`entries, this`nextSequence
      ensures ok <==> Reopened(codec, file).Some?
      ensures ok ==> State() == Reopened(codec, file).value
    {
      var i := 0;
      while i < |file|
        invariant 0 <= i <= |file| && Read(codec, file[..i]) == Some(entries) && nextSequence == 1
      {
        assert file[..i + 1] == file[..i] + [file[i]];
        var decoded := codec.decode(file[i]);
        if decoded.None? {
          ReadStops(codec, file, i);
          return false;
        }
        entries := entries + [decoded.value];
        i := i + 1;
      }
      assert file[..|file|] == file;
      if |entries| > 0 {
        nextSequence := entries[|entries| - 1].0 + 1;
      }
      return true;
    }

    method Append(event: E) returns (sequence: nat)
      modifies this`file, this`entries, this`nextSequence
      ensures State() == Appended(codec, old(State()), event) && sequence == old(nextSequence)
      ensures old(Valid()) ==> Valid() && sequence == |entries|
    {
      if Valid() { AppendingWrites(codec, State(), Events(), event); }
      ghost var before := Events();
      sequence := nextSequence;
      nextSequence := nextSequence + 1;
      entries := entries + [(sequence, event)];
      file := file + [codec.encode(sequence, event)];
      assert Events() == before + [event];
    }

    /** The entries numbered from `sequence` on, picked out one by one. */
    static method From(entries: seq<(nat, E)>, sequence: int) returns (suffix: seq<(nat, E)>)
      requires sequence >= 1 && forall i :: 0 <= i < |entries| ==> entries[i].0 == i + 1
      ensures suffix == if sequence - 1 <= |entries| then entries[sequence - 1..] else []
    {
      suffix := [];
      var i := 0;
      while i < |entries|
        invariant 0 <= i <= |entries|
        invariant suffix == if sequence - 1 <= i then entries[sequence - 1..i] else []
      {
        if entries[i].0 >= sequence {
          suffix := suffix + [entries[i]];
        }
        i := i + 1;
      }
    }

    /** The suffix starting at a sequence number; nothing for numbers below 1. */
    method ReadFrom(sequence: int) returns (suffix: seq<(nat, E)>)
      requires Valid()
      ensures sequence < 1 ==> suffix == []
      ensures sequence >= 1 ==> suffix == if sequence - 1 <= |entries| then entries[sequence - 1..] else []
    {
      suffix := [];
      if sequence < 1 {
        return;
      }
      NumbersAre(codec, State(), Events());
      suffix := From(entries, sequence);
    }

    method LatestSequence() returns (sequence: nat)
      requires Valid()
      ensures sequence == |entries|
    {
      if |entries| == 0 {
        return 0;
      }
      sequence := entries[|entries| - 1].0;
    }
  }
}

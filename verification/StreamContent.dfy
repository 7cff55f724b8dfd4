/**
 Streamed content: messages and parts with the field values the deltas built.
 Each streamed value is kept once, in its field, and stripped from the part data
 until it is rendered.
 */
module StreamContent {
  import opened Arithmetic
  import opened Events
  import opened Utf16

  /** A streamed value and its length in UTF-16 code units. */
  datatype StreamField = StreamField(b: string, units: nat)

  datatype LivePart = LivePart(part: Part, fields: map<Field, StreamField>, final: bool)

  datatype Content = Content(msgs: map<string, Message>, parts: map<string, LivePart>)

  const EMPTY: Content := Content(map[], map[])

  // ---- part data ----

  /** The streamed values part data holds; an output only when it is a string. */
  function StreamedFields(d: PartData): map<Field, string> {
    map[Text := d.text, ToolInput := d.raw]
    + if d.output.StringOutput? then map[ToolOutput := d.output.text] else map[]
  }

  function StripFields(d: PartData): PartData {
    d.(text := "", raw := "", output := if d.output.StringOutput? then StringOutput("") else d.output)
  }

  function Have(d: PartData, f: Field): string {
    if f in StreamedFields(d) then StreamedFields(d)[f] else ""
  }

  function Longer(value: string, have: string): bool { Units(value) > Units(have) }

  function WithField(d: PartData, f: Field, value: string): PartData {
    if !Longer(value, Have(d, f)) then d
    else match f
      case Text => d.(text := value)
      case ToolInput => d.(raw := value)
      case ToolOutput => d.(output := StringOutput(value))
  }

  function Pick(d: PartData, fields: map<Field, string>, f: Field): PartData {
    if f in fields then WithField(d, f, fields[f]) else d
  }

  /** Writes streamed values longer than the data's own back into it. */
  function WithFields(d: PartData, fields: map<Field, string>): PartData {
    Pick(Pick(Pick(d, fields, Text), fields, ToolInput), fields, ToolOutput)
  }

  function Values(fields: map<Field, StreamField>): map<Field, string> {
    map f | f in fields :: fields[f].b
  }

  function Render(lp: LivePart): Part {
    lp.part.(data := WithFields(lp.part.data, Values(lp.fields)))
  }

  /** Stripping the streamed values and writing them back gives the data again. */
  lemma StripRender(d: PartData)
    ensures WithFields(StripFields(d), StreamedFields(d)) == d
  {
    UnitsZero(d.text);
    UnitsZero(d.raw);
    if d.output.StringOutput? {
      UnitsZero(d.output.text);
    }
  }

  lemma UnitsZero(s: string)
    ensures Units(s) == 0 <==> s == ""
  {
  }

  /** Rendered data holds every streamed value at least as long as it was built. */
  lemma RenderKeeps(d: PartData, fields: map<Field, string>, f: Field)
    ensures f in fields ==> Units(Have(WithFields(d, fields), f)) >= Units(fields[f])
    ensures Units(Have(WithFields(d, fields), f)) >= Units(Have(d, f))
  {
    var d1 := Pick(d, fields, Text);
    var d2 := Pick(d1, fields, ToolInput);
    WithFieldKeeps(d, Text, if Text in fields then fields[Text] else "");
    WithFieldKeeps(d1, ToolInput, if ToolInput in fields then fields[ToolInput] else "");
    WithFieldKeeps(d2, ToolOutput, if ToolOutput in fields then fields[ToolOutput] else "");
  }

  lemma WithFieldKeeps(d: PartData, g: Field, value: string)
    ensures Units(Have(WithField(d, g, value), g)) >= Units(value)
    ensures forall f :: Units(Have(WithField(d, g, value), f)) >= Units(Have(d, f))
    ensures forall f :: f != g ==> Have(WithField(d, g, value), f) == Have(d, f)
  {
  }

  // ---- the reducer ----

  function NewField(v: string): StreamField { StreamField(v, Units(v)) }

  function UpsertField(cur: Option<StreamField>, v: string): StreamField {
    if cur.Some? && Units(v) < cur.value.units then cur.value else NewField(v)
  }

  function FieldOf(fields: map<Field, StreamField>, f: Field): Option<StreamField> {
    if f in fields then Some(fields[f]) else None
  }

  function PartOf(parts: map<string, LivePart>, id: string): Option<LivePart> {
    if id in parts then Some(parts[id]) else None
  }

  function UpsertPart(prev: Option<LivePart>, p: Part, final: bool): LivePart {
    var values := StreamedFields(p.data);
    var base := if prev.Some? && !final then prev.value.fields else map[];
    LivePart(p.(data := StripFields(p.data)),
             base + (map f | f in values :: UpsertField(FieldOf(base, f), values[f])),
             final)
  }

  /** An offset-anchored append: an overlap adds only the unseen tail, a gap nothing. */
  function DeltaField(cur: StreamField, offset: int, text: string): StreamField {
    if offset == cur.units then StreamField(cur.b + text, cur.units + Units(text))
    else if offset < cur.units then
      var units := Encode(text);
      var overlap := cur.units - offset;
      if overlap < |units| then
        StreamField(cur.b + Decode(units[overlap..]), cur.units + |units| - overlap)
      else cur
    else cur
  }

  /** A delta reaches the end of its text, unless it leaves a gap. */
  lemma DeltaFieldLength(cur: StreamField, offset: int, text: string)
    ensures DeltaField(cur, offset, text).units
         == if offset <= cur.units then Max(cur.units, offset + Units(text)) else cur.units
  {
    EncodeLength(text);
  }

  function DeltaPart(lp: LivePart, f: Field, offset: int, text: string): LivePart {
    var cur := if f in lp.fields then lp.fields[f] else NewField("");
    lp.(fields := lp.fields[f := DeltaField(cur, offset, text)])
  }

  function AfterUpsert(c: Content, p: Part, final: bool): Content {
    c.(parts := c.parts[p.id := UpsertPart(PartOf(c.parts, p.id), p, final)])
  }

  function AfterDelta(c: Content, partId: string, f: Field, offset: int, text: string): Content {
    if partId in c.parts then c.(parts := c.parts[partId := DeltaPart(c.parts[partId], f, offset, text)]) else c
  }

  function AfterMessage(c: Content, m: Message): Content { c.(msgs := c.msgs[m.id := m]) }

  function AfterRemovePart(c: Content, id: string): Content { c.(parts := c.parts - {id}) }

  function AfterRemoveMessage(c: Content, id: string): Content {
    Content(c.msgs - {id}, map p | p in c.parts && c.parts[p].part.messageId != id :: c.parts[p])
  }

  function Apply(c: Content, e: Event): Content {
    match e
    case PartDelta(p, f, offset, text) => AfterDelta(c, p, f, offset, text)
    case PartUpserted(p, final) => AfterUpsert(c, p, final)
    case MessageUpserted(m) => AfterMessage(c, m)
    case MessageRemoved(id) => AfterRemoveMessage(c, id)
    case PartRemoved(_, id) => AfterRemovePart(c, id)
    case _ => c
  }

  // ---- what an event does to a row ----

  /** The values a part's data states: an output only when it is a string. */
  predicate States(d: PartData, f: Field) { f.ToolOutput? ==> d.output.StringOutput? }

  function Value(d: PartData, f: Field): string
    requires States(d, f)
  {
    match f case Text => d.text case ToolInput => d.raw case ToolOutput => d.output.text
  }

  lemma StatesIs(d: PartData, f: Field)
    ensures f in StreamedFields(d) <==> States(d, f)
    ensures States(d, f) ==> StreamedFields(d)[f] == Value(d, f)
  {
  }

  /**
   A part upsert replaces its part's row, and each streamed value it states unless it is not
   final and the one in place is longer; values it does not state stay unless it is final.
   */
  lemma UpsertApplied(c: Content, p: Part, final: bool, f: Field)
    ensures var d := Apply(c, PartUpserted(p, final));
            && d.msgs == c.msgs && d.parts.Keys == c.parts.Keys + {p.id}
            && (forall q :: q in c.parts && q != p.id ==> d.parts[q] == c.parts[q])
            && var lp := d.parts[p.id];
               var held := !final && p.id in c.parts && f in c.parts[p.id].fields;
               && lp.final == final && lp.part == p.(data := lp.part.data)
               && lp.part.data == p.data.(text := "", raw := "", output := if p.data.output.StringOutput? then StringOutput("") else p.data.output)
               && (f in lp.fields <==> States(p.data, f) || held)
               && (f in lp.fields ==>
                     lp.fields[f] == if States(p.data, f) && !(held && Units(Value(p.data, f)) < c.parts[p.id].fields[f].units)
                                     then StreamField(Value(p.data, f), Units(Value(p.data, f))) else c.parts[p.id].fields[f])
  {
    StatesIs(p.data, f);
    hide StreamedFields, States, Value, Units;
  }

  /** A delta changes one field of a part that is held; what it does not reach past, or starts past, stays. */
  lemma DeltaApplied(c: Content, p: string, f: Field, offset: int, text: string)
    ensures var d := Apply(c, PartDelta(p, f, offset, text));
            && d.msgs == c.msgs && d.parts.Keys == c.parts.Keys
            && (forall q :: q in c.parts && q != p ==> d.parts[q] == c.parts[q])
            && (p in c.parts ==>
                  && d.parts[p].part == c.parts[p].part && d.parts[p].final == c.parts[p].final
                  && d.parts[p].fields.Keys == c.parts[p].fields.Keys + {f}
                  && (forall g :: g in c.parts[p].fields && g != f ==> d.parts[p].fields[g] == c.parts[p].fields[g])
                  && var was := if f in c.parts[p].fields then c.parts[p].fields[f] else StreamField("", 0);
                     && (offset == was.units ==> d.parts[p].fields[f] == StreamField(was.b + text, was.units + Units(text)))
                     && (offset > was.units || offset + Units(text) <= was.units ==> d.parts[p].fields[f] == was || offset == was.units))
  {
    EncodeLength(text);
  }

  /** Removing a message takes its parts with it; removing a part takes it alone; a message row replaces its own. */
  lemma RemovalApplied(c: Content, m: Message, p: string)
    ensures var d := Apply(c, MessageRemoved(m.id));
            && d.msgs.Keys == c.msgs.Keys - {m.id} && (forall id :: id in d.msgs ==> d.msgs[id] == c.msgs[id])
            && (forall q :: q in d.parts <==> q in c.parts && c.parts[q].part.messageId != m.id)
            && (forall q :: q in d.parts ==> d.parts[q] == c.parts[q])
    ensures var d := Apply(c, PartRemoved(m.id, p));
            && d.msgs == c.msgs && d.parts.Keys == c.parts.Keys - {p} && (forall q :: q in d.parts ==> d.parts[q] == c.parts[q])
    ensures var d := Apply(c, MessageUpserted(m));
            && d.parts == c.parts && d.msgs.Keys == c.msgs.Keys + {m.id} && d.msgs[m.id] == m
            && forall id :: id in c.msgs && id != m.id ==> d.msgs[id] == c.msgs[id]
  {
  }

  function Folded(c: Content, evs: seq<Event>): Content
    decreases |evs|
  {
    if evs == [] then c else Folded(Apply(c, evs[0]), evs[1..])
  }

  // ---- the in-place reducer ----

  /** Content with its insertion orders, updated in place. */
  class Inflight {
    var msgOrder: seq<string>
    var msgs: map<string, Message>
    var partOrder: seq<string>
    var parts: map<string, LivePart>

    /** The orders list the held ids, each once; ids and lengths are the entries' own. */
    ghost predicate Valid()
      reads this
    {
      && Lists(msgOrder, msgs.Keys)
      && Lists(partOrder, parts.Keys)
      && Keyed(View())
      && UnitsExact(View())
    }

    ghost function View(): Content
      reads this
    {
      Content(msgs, parts)
    }

    constructor ()
      ensures Valid() && View() == EMPTY
    {
      msgOrder, msgs, partOrder, parts := [], map[], [], map[];
    }

    /** The orders list exactly what is held. */
    lemma Listed()
      requires Valid()
      ensures forall id :: id in msgs <==> id in msgOrder
      ensures forall id :: id in parts <==> id in partOrder
    {
    }

    method Message(m: Message)
      requires Valid()
      modifies this
      ensures Valid() && View() == AfterMessage(old(View()), m)
      ensures partOrder == old(partOrder)
      ensures msgOrder == if m.id in old(msgs) then old(msgOrder) else old(msgOrder) + [m.id]
    {
      if m.id !in msgs {
        ListsAdd(msgOrder, msgs.Keys, m.id);
        msgOrder := msgOrder + [m.id];
      }
      msgs := msgs[m.id := m];
      assert msgs.Keys == old(msgs).Keys + {m.id};
    }

    method Upsert(p: Part, final: bool)
      requires Valid()
      modifies this
      ensures Valid() && View() == AfterUpsert(old(View()), p, final)
      ensures msgOrder == old(msgOrder)
      ensures partOrder == if p.id in old(parts) then old(partOrder) else old(partOrder) + [p.id]
    {
      var base: map<Field, StreamField> := map[];
      if p.id in parts {
        if !final {
          base := parts[p.id].fields;
        }
      } else {
        ListsAdd(partOrder, parts.Keys, p.id);
        partOrder := partOrder + [p.id];
      }
      var fields := MergeFields(base, StreamedFields(p.data));
      ApplyUnits(old(View()), PartUpserted(p, final));
      ApplyKeyed(old(View()), PartUpserted(p, final));
      parts := parts[p.id := LivePart(p.(data := StripFields(p.data)), fields, final)];
      assert View() == AfterUpsert(old(View()), p, final);
      assert parts.Keys == old(parts).Keys + {p.id};
    }

    method Delta(partId: string, f: Field, offset: int, text: string)
      requires Valid()
      modifies this`parts
      ensures Valid() && View() == AfterDelta(old(View()), partId, f, offset, text)
    {
      if partId !in parts {
        return;
      }
      ApplyUnits(View(), PartDelta(partId, f, offset, text));
      ApplyKeyed(View(), PartDelta(partId, f, offset, text));
      var lp := parts[partId];
      var cur := if f in lp.fields then lp.fields[f] else StreamField("", 0);
      cur := Extend(cur, offset, text);
      parts := parts[partId := lp.(fields := lp.fields[f := cur])];
      assert View() == AfterDelta(old(View()), partId, f, offset, text);
      assert parts.Keys == old(parts).Keys;
    }

    method RemovePart(id: string)
      requires Valid()
      modifies this`parts, this`partOrder
      ensures Valid() && View() == AfterRemovePart(old(View()), id)
      ensures partOrder == Only(old(partOrder), parts.Keys)
    {
      parts := parts - {id};
      partOrder := Without(partOrder, id);
      assert parts.Keys == old(parts).Keys - {id};
    }

    /** Drops a message and leaves its parts. */
    method ForgetMessage(id: string)
      requires Valid()
      modifies this`msgs, this`msgOrder
      ensures Valid() && View() == old(View()).(msgs := old(msgs) - {id})
      ensures msgOrder == Only(old(msgOrder), msgs.Keys)
    {
      msgs := msgs - {id};
      msgOrder := Without(msgOrder, id);
      assert msgs.Keys == old(msgs).Keys - {id};
    }

    method RemoveMessage(id: string)
      requires Valid()
      modifies this
      ensures Valid() && View() == AfterRemoveMessage(old(View()), id)
      ensures msgOrder == Only(old(msgOrder), msgs.Keys) && partOrder == Only(old(partOrder), parts.Keys)
    {
      hide Only, Valid;
      ForgetMessage(id);
      RemovePartsOf(id);
    }

    method RemovePartsOf(id: string)
      requires Valid()
      modifies this`parts, this`partOrder
      ensures Valid() && parts == map p | p in old(parts) && old(parts)[p].part.messageId != id :: old(parts)[p]
      ensures partOrder == Only(old(partOrder), parts.Keys)
    {
      hide Only, Valid;
      Listed();
      ghost var was := parts;
      OnlyAll(partOrder, parts.Keys);
      var rest := parts.Keys;
      while rest != {}
        invariant Valid() && rest <= parts.Keys && parts.Keys <= was.Keys
        invariant forall p :: p in parts <==> p in was && (p in rest || was[p].part.messageId != id)
        invariant forall p :: p in parts ==> parts[p] == was[p]
        invariant partOrder == Only(old(partOrder), parts.Keys)
      {
        var p :| p in rest;
        if parts[p].part.messageId == id {
          OnlyTwice(old(partOrder), parts.Keys, parts.Keys - {p});
          RemovePart(p);
        }
        rest := rest - {p};
      }
    }

    /** The held messages and rendered parts, in insertion order. */
    method Snapshot() returns (messages: seq<Message>, rendered: seq<Part>)
      requires Valid()
      ensures |messages| == |msgOrder| && forall i :: 0 <= i < |messages| ==> messages[i] == msgs[msgOrder[i]]
      ensures |rendered| == |partOrder| && forall i :: 0 <= i < |rendered| ==> rendered[i] == Render(parts[partOrder[i]])
    {
      messages, rendered := [], [];
      for i := 0 to |msgOrder|
        invariant |messages| == i && forall j :: 0 <= j < i ==> messages[j] == msgs[msgOrder[j]]
      {
        messages := messages + [msgs[msgOrder[i]]];
      }
      for i := 0 to |partOrder|
        invariant |rendered| == i && forall j :: 0 <= j < i ==> rendered[j] == Render(parts[partOrder[j]])
      {
        rendered := rendered + [Render(parts[partOrder[i]])];
      }
    }
  }

  /** The values an upsert restates, each kept only if no shorter than the one built. */
  method MergeFields(base: map<Field, StreamField>, values: map<Field, string>) returns (fields: map<Field, StreamField>)
    ensures fields == base + (map f | f in values :: UpsertField(FieldOf(base, f), values[f]))
  {
    fields := base;
    var rest := values.Keys;
    while rest != {}
      invariant rest <= values.Keys
      invariant fields.Keys == base.Keys + (values.Keys - rest)
      invariant forall f :: f in fields ==>
                  fields[f] == if f in values && f !in rest then UpsertField(FieldOf(base, f), values[f]) else base[f]
    {
      var f :| f in rest;
      var units := UTF16Len(values[f]);
      EncodeLength(values[f]);
      if f !in fields || units >= fields[f].units {
        fields := fields[f := StreamField(values[f], units)];
      }
      rest := rest - {f};
    }
  }

  method Extend(cur: StreamField, offset: int, text: string) returns (r: StreamField)
    ensures r == DeltaField(cur, offset, text)
  {
    r := cur;
    if offset == cur.units {
      var n := UTF16Len(text);
      EncodeLength(text);
      r := StreamField(cur.b + text, cur.units + n);
    } else if offset < cur.units {
      var units := Encode(text);
      var overlap := cur.units - offset;
      if overlap < |units| {
        r := StreamField(cur.b + Decode(units[overlap..]), cur.units + |units| - overlap);
      }
    }
  }

  /** `order` lists exactly `ids`, each once. */
  ghost predicate Lists(order: seq<string>, ids: set<string>) {
    && (forall i :: 0 <= i < |order| ==> order[i] in ids)
    && (forall id :: id in ids ==> id in order)
    && (forall i, j :: 0 <= i < j < |order| ==> order[i] != order[j])
  }

  lemma ListsAdd(order: seq<string>, ids: set<string>, id: string)
    requires Lists(order, ids) && id !in ids
    ensures Lists(order + [id], ids + {id})
  {
  }

  /** The listed ids among some, in order. */
  function Only(order: seq<string>, ids: set<string>): seq<string> {
    if order == [] then []
    else Only(order[..|order| - 1], ids) + (if order[|order| - 1] in ids then [order[|order| - 1]] else [])
  }

  lemma {:induction false} OnlyAll(order: seq<string>, ids: set<string>)
    requires forall id :: id in order ==> id in ids
    ensures Only(order, ids) == order
  {
    if order != [] {
      OnlyAll(order[..|order| - 1], ids);
      assert order == order[..|order| - 1] + [order[|order| - 1]];
    }
  }

  lemma {:induction false} OnlyTwice(order: seq<string>, a: set<string>, b: set<string>)
    requires b <= a
    ensures Only(Only(order, a), b) == Only(order, b)
  {
    if order != [] {
      var most, last := order[..|order| - 1], order[|order| - 1];
      OnlyTwice(most, a, b);
      if last in a {
        assert (Only(most, a) + [last])[..|Only(most, a)|] == Only(most, a);
      } else {
        assert Only(most, a) + [] == Only(most, a);
      }
    }
  }

  lemma {:induction false} OnlyConcat(a: seq<string>, b: seq<string>, ids: set<string>)
    ensures Only(a + b, ids) == Only(a, ids) + Only(b, ids)
  {
    if b == [] {
      assert a + b == a;
    } else {
      var most, last := b[..|b| - 1], b[|b| - 1];
      OnlyConcat(a, most, ids);
      assert (a + b)[..|a + b| - 1] == a + most;
    }
  }

  lemma OnlyOthers(ids: seq<string>, s: set<string>, i: nat)
    requires Lists(ids, s) && i < |ids|
    ensures Only(ids, s - {ids[i]}) == ids[..i] + ids[i + 1..]
  {
    var t := s - {ids[i]};
    OnlyNone(ids[i], t);
    hide Only;
    assert ids == ids[..i] + [ids[i]] + ids[i + 1..];
    OnlyConcat(ids[..i] + [ids[i]], ids[i + 1..], t);
    OnlyConcat(ids[..i], [ids[i]], t);
    assert (forall j :: 0 <= j < i ==> ids[j] in t) && (forall j :: i < j < |ids| ==> ids[j] in t);
    hide Lists;
    OnlyAll(ids[..i], t);
    OnlyAll(ids[i + 1..], t);
    assert ids[..i] + [] == ids[..i];
  }

  lemma OnlyNone(id: string, ids: set<string>)
    requires id !in ids
    ensures Only([id], ids) == []
  {
  }

  /** An id leaves its list, and the others stay in order. */
  method Without(ids: seq<string>, id: string) returns (r: seq<string>)
    ensures forall s :: Lists(ids, s) ==> Lists(r, s - {id}) && r == Only(ids, s - {id})
  {
    for i := 0 to |ids|
      invariant id !in ids[..i]
    {
      if ids[i] == id {
        r := ids[..i] + ids[i + 1..];
        forall s | Lists(ids, s)
          ensures Lists(r, s - {id}) && r == Only(ids, s - {id})
        {
          ListsRemove(ids, s, i);
          OnlyOthers(ids, s, i);
        }
        return;
      }
    }
    r := ids;
    assert ids[..|ids|] == ids;
    forall s | Lists(ids, s)
      ensures s - {id} == s && Only(ids, s) == ids
    {
      OnlyAll(ids, s);
    }
  }

  lemma ListsRemove(ids: seq<string>, s: set<string>, i: nat)
    requires Lists(ids, s) && i < |ids|
    ensures Lists(ids[..i] + ids[i + 1..], s - {ids[i]})
  {
    var r := ids[..i] + ids[i + 1..];
    forall x | x in s - {ids[i]}
      ensures x in r
    {
      var j :| 0 <= j < |ids| && ids[j] == x;
      if j < i { assert r[j] == x; } else { assert r[j - 1] == x; }
    }
    assert forall j :: 0 <= j < |r| ==> r[j] == ids[if j < i then j else j + 1];
  }

  // ---- what every event keeps ----

  ghost predicate Keyed(c: Content) {
    && (forall id :: id in c.msgs ==> c.msgs[id].id == id)
    && (forall id :: id in c.parts ==> c.parts[id].part.id == id)
  }

  ghost predicate FieldExact(f: StreamField) { f.units == Units(f.b) }

  /** Every field's counter is its UTF-16 length. */
  ghost predicate UnitsExact(c: Content) {
    forall id, f :: id in c.parts && f in c.parts[id].fields ==> FieldExact(c.parts[id].fields[f])
  }

  lemma DeltaFieldExact(cur: StreamField, offset: int, text: string)
    requires FieldExact(cur)
    ensures FieldExact(DeltaField(cur, offset, text))
  {
    if offset == cur.units {
      UnitsConcat(cur.b, text);
    } else if offset < cur.units {
      var units := Encode(text);
      var overlap := cur.units - offset;
      if overlap < |units| {
        UnitsConcat(cur.b, Decode(units[overlap..]));
        UnitsDecode(units[overlap..]);
      }
    }
  }

  /** No event, well formed or not, makes a counter differ from its field's length. */
  lemma ApplyUnits(c: Content, e: Event)
    requires UnitsExact(c)
    ensures UnitsExact(Apply(c, e))
  {
    match e
    case PartDelta(p, f, offset, text) =>
      DeltaUnits(c, p, f, offset, text);
    case _ =>
      hide Encode;
  }

  lemma DeltaUnits(c: Content, p: string, f: Field, offset: int, text: string)
    requires UnitsExact(c)
    ensures UnitsExact(Apply(c, PartDelta(p, f, offset, text)))
  {
    if p in c.parts {
      var lp := c.parts[p];
      DeltaFieldExact(if f in lp.fields then lp.fields[f] else NewField(""), offset, text);
      hide FieldExact, DeltaField;
    }
  }

  lemma ApplyKeyed(c: Content, e: Event)
    requires Keyed(c)
    ensures Keyed(Apply(c, e))
  {
  }
}

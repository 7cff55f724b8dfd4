/**
 What a composed read shows row by row, and what it decides, in terms of the captured and the
 stored rows alone.
 */
module ComposedRows {
  import opened Events
  import opened Utf16
  import opened StreamContent
  import opened LedgerModel

  // ---- fields ----

  /** Writing values back leaves each field the longer of the two and the rest of the data alone. */
  lemma FieldsWritten(d: PartData, fields: map<Field, string>, f: Field)
    ensures var e := WithFields(d, fields);
            && e.status == d.status && e.rest == d.rest
            && Have(e, f) == (if f in fields && Units(fields[f]) > Units(Have(d, f)) then fields[f] else Have(d, f))
            && (!d.output.StringOutput? && !(ToolOutput in fields && Units(fields[ToolOutput]) > 0) ==> e.output == d.output)
  {
    var d1 := Pick(d, fields, Text);
    var d2 := Pick(d1, fields, ToolInput);
    FieldWritten(d, fields, Text, f);
    FieldWritten(d1, fields, ToolInput, f);
    FieldWritten(d2, fields, ToolOutput, f);
    hide Units;
  }

  lemma FieldWritten(d: PartData, fields: map<Field, string>, g: Field, f: Field)
    ensures var e := Pick(d, fields, g);
            && e.status == d.status && e.rest == d.rest
            && Have(e, f) == (if f == g && g in fields && Units(fields[g]) > Units(Have(d, g)) then fields[g] else Have(d, f))
            && (g != ToolOutput || g !in fields || Units(fields[g]) <= Units(Have(d, g)) ==> e.output == d.output)
  {
    hide Units;
    UnitsZero("");
  }

  // ---- messages ----

  /** The rows of a page no tombstone hides. */
  predicate SeenMsg(v: LedgerView, d: Rows, id: string) {
    id in d.msgs && !(M(id) in v.removed && v.removed[M(id)])
  }

  predicate SeenPart(v: LedgerView, d: Rows, p: string) {
    && p in d.parts && !(P(p) in v.removed && v.removed[P(p)])
    && !(M(d.parts[p].messageId) in v.removed && v.removed[M(d.parts[p].messageId)])
  }

  /** An ended message missing from a page that stores a later one the ledger does not hold. */
  predicate Outdated(v: LedgerView, d: Rows, id: string) {
    && id in v.content.msgs && id !in d.msgs && id in v.settled
    && var time := v.content.msgs[id].timeCreated;
       time < -0x4000_0000_0000_0000
       || exists other :: other in d.msgs && other !in v.content.msgs && time < d.msgs[other].timeCreated
  }

  /** A time from the page's first row on; a page that is not full reaches back to the beginning. */
  predicate InPage(v: LedgerView, d: Rows, limit: nat, time: int) {
    if limit > 0 && |WithoutRemoved(v, d).msgs| >= limit
    then exists id :: SeenMsg(v, d, id) && id in d.msgs && d.msgs[id].timeCreated <= time
    else time >= -0x4000_0000_0000_0000
  }

  /** The streamed message carries an ending, or a time of one, that the stored one lacks. */
  predicate FullerEnding(live: MessageData, stored: MessageData) {
    live.MessageData?
    && (|| ((live.finish != "" || live.failed) && !(stored.MessageData? && (stored.finish != "" || stored.failed)))
        || (live.completed != 0 && !(stored.MessageData? && stored.completed != 0)))
  }

  /**
   A composed read holds the stored messages no tombstone hides, and the captured ones in the
   page's range that history lacks and did not move past; the captured row stands where it
   carries an ending the stored one lacks.
   */
  lemma MessagesComposed(v: LedgerView, d: Rows, limit: nat, id: string)
    ensures var r := Compose(v, d, limit);
            var adds := id in v.content.msgs && !Outdated(v, d, id);
            && (id in r.msgs <==> SeenMsg(v, d, id) || (adds && InPage(v, d, limit, v.content.msgs[id].timeCreated)))
            && (id in r.msgs ==>
                  r.msgs[id] == if SeenMsg(v, d, id) && !(adds && FullerEnding(v.content.msgs[id].data, d.msgs[id].data))
                                then d.msgs[id] else v.content.msgs[id])
  {
    var e := WithoutRemoved(v, d);
    assert id in e.msgs <==> SeenMsg(v, d, id);
    assert id in DroppedMsgs(v, d) <==> Outdated(v, d, id);
    if id in v.content.msgs {
      PageRange(v, d, limit, v.content.msgs[id].timeCreated);
      if id in e.msgs {
        EndingFuller(v.content.msgs[id].data, e.msgs[id].data);
      }
    }
    hide WithoutRemoved, DroppedMsgs, Outdated, BeforePage, InPage, EndingCovered, FullerEnding, OverlayParts;
    assert id in e.msgs ==> e.msgs[id] == d.msgs[id] by { SeenRow(v, d, id); }
  }

  lemma SeenRow(v: LedgerView, d: Rows, id: string)
    ensures id in WithoutRemoved(v, d).msgs ==> id in d.msgs && WithoutRemoved(v, d).msgs[id] == d.msgs[id]
  {
  }

  lemma EndingFuller(live: MessageData, stored: MessageData)
    ensures EndingCovered(live, stored) <==> !FullerEnding(live, stored)
  {
  }

  lemma PageRange(v: LedgerView, d: Rows, limit: nat, time: int)
    ensures BeforePage(WithoutRemoved(v, d), limit, time) <==> !InPage(v, d, limit, time)
  {
    var e := WithoutRemoved(v, d);
    assert forall id :: id in e.msgs <==> SeenMsg(v, d, id);
    assert forall id :: id in e.msgs ==> e.msgs[id] == d.msgs[id];
  }

  // ---- parts ----

  /** A captured final part whose stored row has another status or a shorter field. */
  predicate Replaces(lp: LivePart, stored: Part) {
    lp.final
    && (stored.data.status != lp.part.data.status
        || exists f :: f in lp.fields && Units(Have(stored.data, f)) < Units(lp.fields[f].b))
  }

  /** The row a captured part lengthens: the stored one, or its own where there is none or it replaces it. */
  function BaseRow(v: LedgerView, d: Rows, p: string): Part
    requires p in v.content.parts
  {
    if SeenPart(v, d, p) && !Replaces(v.content.parts[p], d.parts[p]) then d.parts[p] else v.content.parts[p].part
  }

  /** A captured part laid over its base row. */
  ghost predicate Overlaid(lp: LivePart, base: Part, row: Part) {
    && row.id == base.id && row.messageId == base.messageId
    && row.data.status == base.data.status && row.data.rest == base.data.rest
    && (lp.final ==> row.data.status == lp.part.data.status)
    && forall f :: Have(row.data, f) ==
         if f in lp.fields && Units(lp.fields[f].b) > Units(Have(base.data, f)) then lp.fields[f].b else Have(base.data, f)
  }

  /**
   A composed read holds the stored parts no tombstone hides and the captured ones whose message
   it shows. A row the ledger does not hold is the stored one. Of any other, each field is the
   longer of the streamed value and its base row's, and everything else is the base row's; a
   final part has the status it was streamed with.
   */
  lemma PartsComposed(v: LedgerView, d: Rows, limit: nat, p: string)
    ensures var r := Compose(v, d, limit);
            && (p in r.parts <==> SeenPart(v, d, p) || (p in v.content.parts && v.content.parts[p].part.messageId in r.msgs))
            && (p in r.parts && p !in v.content.parts ==> r.parts[p] == d.parts[p])
            && (p in r.parts && p in v.content.parts ==>
                  Overlaid(v.content.parts[p], BaseRow(v, d, p), r.parts[p]))
  {
    hide Overlaid, OverlayPart, BaseRow, Replaces, Have, OverlayMsgs, WithFields;
    PartsLaid(v, d, limit, p);
    if p in v.content.parts {
      RowLaid(v, d, p);
    }
  }

  function SeenRowOf(v: LedgerView, d: Rows, p: string): Option<Part> { if SeenPart(v, d, p) then Some(d.parts[p]) else None }

  lemma PartsLaid(v: LedgerView, d: Rows, limit: nat, p: string)
    ensures var r := Compose(v, d, limit);
            && (p in r.parts <==> SeenPart(v, d, p) || (p in v.content.parts && v.content.parts[p].part.messageId in r.msgs))
            && (p in r.parts && p !in v.content.parts ==> r.parts[p] == d.parts[p])
            && (p in r.parts && p in v.content.parts ==>
                  r.parts[p] == OverlayPart(v.content.parts[p], SeenRowOf(v, d, p)))
  {
    var e := WithoutRemoved(v, d);
    assert p in e.parts <==> SeenPart(v, d, p);
    assert p in e.parts ==> e.parts[p] == d.parts[p];
    hide WithoutRemoved, DroppedMsgs, OverlayMsgs, OverlayPart, SeenPart;
  }

  lemma RowLaid(v: LedgerView, d: Rows, p: string)
    requires p in v.content.parts
    ensures Overlaid(v.content.parts[p], BaseRow(v, d, p),
                     OverlayPart(v.content.parts[p], SeenRowOf(v, d, p)))
  {
    hide Covers, Replaces, WithFields, Have;
    var lp, base := v.content.parts[p], BaseRow(v, d, p);
    if SeenPart(v, d, p) {
      CoversIs(lp, d.parts[p]);
      if lp.final {
        BaseStatus(v, d, p);
      }
    }
    forall f
      ensures Have(WithFields(base.data, Values(lp.fields)), f) ==
                if f in lp.fields && Units(lp.fields[f].b) > Units(Have(base.data, f)) then lp.fields[f].b else Have(base.data, f)
    {
      FieldsWritten(base.data, Values(lp.fields), f);
    }
    FieldsWritten(base.data, Values(lp.fields), Text);
  }

  lemma BaseStatus(v: LedgerView, d: Rows, p: string)
    requires p in v.content.parts && SeenPart(v, d, p) && v.content.parts[p].final
    ensures BaseRow(v, d, p).data.status == v.content.parts[p].part.data.status
  {
  }

  lemma CoversIs(lp: LivePart, stored: Part)
    ensures lp.final && !Covers(lp, stored.data) <==> Replaces(lp, stored)
  {
  }
}

/** The structures the client serialises for interactive templates: the
    `button` field (an array of `{display, id}`) and the `list` field
    (`{title, sections: [{title, rows: [{title, description, id}]}]}`).
    They are modelled as the value tree handed to the JSON serialiser, and
    each encoder is paired with a decoder that recovers what it kept. */
module Templates {
  import opened Results
  import opened JsValue
  import opened Types

  // ---------------------------------------------------------------------------
  // Buttons
  // ---------------------------------------------------------------------------

  /** A button keeps only its `display` and `id`. */
  function EncodeButton(b: Button): Value {
    Obj(map["display" := Str(b.display), "id" := Str(b.id)])
  }

  /** `buttons.map(btn => ({display: btn.display, id: btn.id}))` */
  function EncodeButtonSeq(bs: seq<Button>): (vs: seq<Value>)
    ensures |vs| == |bs|
    ensures forall i :: 0 <= i < |bs| ==> vs[i] == EncodeButton(bs[i])
    decreases |bs|
  {
    if |bs| == 0 then [] else [EncodeButton(bs[0])] + EncodeButtonSeq(bs[1..])
  }

  function EncodeButtons(bs: seq<Button>): Value {
    Arr(EncodeButtonSeq(bs))
  }

  function DecodeButton(v: Value): Option<Button> {
    if v.Obj? && v.props.Keys == {"display", "id"} && v.props["display"].Str? && v.props["id"].Str?
    then Some(Button(v.props["display"].s, v.props["id"].s))
    else None
  }

  function DecodeButtonSeq(vs: seq<Value>): Option<seq<Button>>
    decreases |vs|
  {
    if |vs| == 0 then Some([])
    else
      match (DecodeButton(vs[0]), DecodeButtonSeq(vs[1..]))
      case (Some(b), Some(rest)) => Some([b] + rest)
      case _ => None
  }

  function DecodeButtons(v: Value): Option<seq<Button>> {
    if v.Arr? then DecodeButtonSeq(v.elems) else None
  }

  /** One encoded button reads back as itself. */
  lemma {:induction false} ButtonRoundTrip(b: Button)
    ensures DecodeButton(EncodeButton(b)) == Some(b)
  {
    var props := map["display" := Str(b.display), "id" := Str(b.id)];
    assert props.Keys == {"display", "id"};
  }

  /** Decoding a non-empty array decodes its head and then its tail. */
  lemma {:induction false} DecodeButtonSeqCons(v: Value, vs: seq<Value>, b: Button, bs: seq<Button>)
    requires DecodeButton(v) == Some(b) && DecodeButtonSeq(vs) == Some(bs)
    ensures DecodeButtonSeq([v] + vs) == Some([b] + bs)
  {
    assert ([v] + vs)[0] == v && ([v] + vs)[1..] == vs;
  }

  /** The encoded buttons give back every button, in order, and nothing else. */
  lemma {:induction false} ButtonsRoundTrip(bs: seq<Button>)
    ensures DecodeButtons(EncodeButtons(bs)) == Some(bs)
    decreases |bs|
  {
    if |bs| > 0 {
      ButtonsRoundTrip(bs[1..]);
      ButtonRoundTrip(bs[0]);
      DecodeButtonSeqCons(EncodeButton(bs[0]), EncodeButtonSeq(bs[1..]), bs[0], bs[1..]);
      assert [bs[0]] + bs[1..] == bs;
    }
  }

  // ---------------------------------------------------------------------------
  // Lists
  // ---------------------------------------------------------------------------

  /** An optional string as the property value JavaScript sees. */
  function OptionalText(o: Option<string>): Value {
    match o
    case Some(t) => Str(t)
    case None => Undefined
  }

  /** A row keeps its title and id, and its description or `""` (`row.description || ''`). */
  function EncodeRow(r: ListItem): Value {
    Obj(map["title" := Str(r.title), "description" := Or(OptionalText(r.description), Str("")), "id" := Str(r.id)])
  }

  function EncodeRowSeq(rows: seq<ListItem>): (vs: seq<Value>)
    ensures |vs| == |rows|
    ensures forall i :: 0 <= i < |rows| ==> vs[i] == EncodeRow(rows[i])
    decreases |rows|
  {
    if |rows| == 0 then [] else [EncodeRow(rows[0])] + EncodeRowSeq(rows[1..])
  }

  function EncodeSection(s: Section): Value {
    Obj(map["title" := Str(s.title), "rows" := Arr(EncodeRowSeq(s.rows))])
  }

  function EncodeSectionSeq(ss: seq<Section>): (vs: seq<Value>)
    ensures |vs| == |ss|
    ensures forall i :: 0 <= i < |ss| ==> vs[i] == EncodeSection(ss[i])
    decreases |ss|
  {
    if |ss| == 0 then [] else [EncodeSection(ss[0])] + EncodeSectionSeq(ss[1..])
  }

  function EncodeList(t: ListTemplate): Value {
    Obj(map["title" := Str(t.title), "sections" := Arr(EncodeSectionSeq(t.sections))])
  }

  /** An empty description and a missing one encode alike; this is the
      template as the encoding sees it. */
  function NormalizeRow(r: ListItem): ListItem {
    if r.description == Some("") then r.(description := None) else r
  }

  function NormalizeRows(rows: seq<ListItem>): (n: seq<ListItem>)
    ensures |n| == |rows|
    ensures forall i :: 0 <= i < |rows| ==> n[i] == NormalizeRow(rows[i])
    decreases |rows|
  {
    if |rows| == 0 then [] else [NormalizeRow(rows[0])] + NormalizeRows(rows[1..])
  }

  function NormalizeSections(ss: seq<Section>): (n: seq<Section>)
    ensures |n| == |ss|
    ensures forall i :: 0 <= i < |ss| ==> n[i] == ss[i].(rows := NormalizeRows(ss[i].rows))
    decreases |ss|
  {
    if |ss| == 0 then [] else [ss[0].(rows := NormalizeRows(ss[0].rows))] + NormalizeSections(ss[1..])
  }

  function NormalizeList(t: ListTemplate): ListTemplate {
    t.(sections := NormalizeSections(t.sections))
  }

  function DecodeRow(v: Value): Option<ListItem> {
    if v.Obj? && v.props.Keys == {"title", "description", "id"}
       && v.props["title"].Str? && v.props["description"].Str? && v.props["id"].Str?
    then
      var d := v.props["description"].s;
      Some(ListItem(v.props["title"].s, if d == "" then None else Some(d), v.props["id"].s))
    else None
  }

  function DecodeRowSeq(vs: seq<Value>): Option<seq<ListItem>>
    decreases |vs|
  {
    if |vs| == 0 then Some([])
    else
      match (DecodeRow(vs[0]), DecodeRowSeq(vs[1..]))
      case (Some(r), Some(rest)) => Some([r] + rest)
      case _ => None
  }

  function DecodeSection(v: Value): Option<Section> {
    if v.Obj? && v.props.Keys == {"title", "rows"} && v.props["title"].Str? && v.props["rows"].Arr?
    then
      match DecodeRowSeq(v.props["rows"].elems)
      case Some(rows) => Some(Section(v.props["title"].s, rows))
      case None => None
    else None
  }

  function DecodeSectionSeq(vs: seq<Value>): Option<seq<Section>>
    decreases |vs|
  {
    if |vs| == 0 then Some([])
    else
      match (DecodeSection(vs[0]), DecodeSectionSeq(vs[1..]))
      case (Some(s), Some(rest)) => Some([s] + rest)
      case _ => None
  }

  function DecodeList(v: Value): Option<ListTemplate> {
    if v.Obj? && v.props.Keys == {"title", "sections"} && v.props["title"].Str? && v.props["sections"].Arr?
    then
      match DecodeSectionSeq(v.props["sections"].elems)
      case Some(ss) => Some(ListTemplate(v.props["title"].s, ss))
      case None => None
    else None
  }

  lemma RowRoundTrip(r: ListItem)
    ensures DecodeRow(EncodeRow(r)) == Some(NormalizeRow(r))
  {
  }

  lemma {:induction false} RowsRoundTrip(rows: seq<ListItem>)
    ensures DecodeRowSeq(EncodeRowSeq(rows)) == Some(NormalizeRows(rows))
    decreases |rows|
  {
    if |rows| > 0 {
      RowsRoundTrip(rows[1..]);
      RowRoundTrip(rows[0]);
      var vs := EncodeRowSeq(rows);
      assert vs[0] == EncodeRow(rows[0]);
      assert vs[1..] == EncodeRowSeq(rows[1..]);
    }
  }

  lemma {:induction false} SectionsRoundTrip(ss: seq<Section>)
    ensures DecodeSectionSeq(EncodeSectionSeq(ss)) == Some(NormalizeSections(ss))
    decreases |ss|
  {
    if |ss| > 0 {
      SectionsRoundTrip(ss[1..]);
      RowsRoundTrip(ss[0].rows);
      var vs := EncodeSectionSeq(ss);
      assert vs[0] == EncodeSection(ss[0]);
      assert vs[1..] == EncodeSectionSeq(ss[1..]);
      assert DecodeSection(vs[0]) == Some(ss[0].(rows := NormalizeRows(ss[0].rows)));
    }
  }

  /** The encoded list gives back its title, every section in order with its
      title, and every row in order with its title, id and description, an
      empty description reading back as a missing one. */
  lemma {:induction false} ListRoundTrip(t: ListTemplate)
    ensures DecodeList(EncodeList(t)) == Some(NormalizeList(t))
  {
    SectionsRoundTrip(t.sections);
  }

  /** Normalising keeps every title and id and changes only descriptions that are empty. */
  lemma {:induction false} NormalizeRowsKeepsRows(rows: seq<ListItem>)
    ensures forall i :: 0 <= i < |rows| ==>
      && NormalizeRows(rows)[i].title == rows[i].title
      && NormalizeRows(rows)[i].id == rows[i].id
      && (rows[i].description != Some("") ==> NormalizeRows(rows)[i].description == rows[i].description)
    decreases |rows|
  {
    if |rows| > 0 {
      NormalizeRowsKeepsRows(rows[1..]);
    }
  }
}
